# QuickBin composite adapters and chain combinators

QuickBin is a small fluent binary engine for Unity. A `Serializer` appends
primitives (int, byte, float, ...) to a buffer and a `Deserializer` reads them
back from a fixed source with a cursor; every call returns the object it was
called on, so calls chain. This project models two parts of it in Dafny:

- the composite adapters of `Assets/QuickBin/UnityTypes.cs`, which write each
  Unity value (`Vector2` to `Matrix4x4`) as a fixed, depth-first list of
  primitive writes and read it back by the same list of primitive reads;
- the chain combinators of `Runtime/ChainExtensions.cs` (`Then`, `Assign`,
  `Output`, `When` and the three `ForEach`), which run caller-supplied actions
  inside a fluent chain and hand the receiver back.

Files:

- `wire.dfy` (module `Wire`): the primitive kinds, the `Token` stream that
  stands for the byte buffer, the outcome type `Parsed` of a read at a cursor,
  the primitive reads as functions, and `Matched`, the number of tokens at a
  cursor that follow a layout of kinds.
- `unity_types.dfy` (module `UnityTypes`): the Unity structs as records of
  their fields, and for each one the tokens its `Write` appends
  (`EncodeVector3`, ...) and what its `Read` does from a cursor
  (`DecodeVector3`, ..., the same primitive reads in the same order, stopping at
  the first that fails).
- `adapters.dfy` (module `Adapters`): all composites as one datatype, their
  layouts, and the lemmas: flattening order, each read consumes exactly its
  layout, which is what its write appends (for `BoundsInt`, what the corrected
  write appends), round trips, and the round trip of composites written one
  after another.
- `streams.dfy` (module `Streams`): the `Serializer` class (a `tokens` field that
  its writes only append to) and the `Deserializer` class (a `const source` and
  a `cursor` that its reads only advance), with one method per overload, each
  proved against the functions above.
- `chain.dfy` (module `ChainExtensions`): the combinators over a receiver `C` and
  a world `W` that carries the side effects of the caller's actions; the two
  value-driven `ForEach` as loops, the producing `ForEach` as a function that
  captures the iterator plus an `Enumerate` method that runs it. `Traced` worlds
  record each call, which turns "exactly once", "never" and "in order" into
  equations.

Modelling choices:

- A primitive write appends one token; a primitive read takes one token of the
  requested kind at the cursor or fails, leaving the cursor where it was. The
  byte encodings of the primitives are not part of the model.
- A composite `Read` that hits a failing primitive read gives no value, and its
  cursor stays past the fields it already read. This is an assumption about
  the primitive reads, which are not part of this model (see "Left out").
- Floats are opaque values that are only copied. `Bounds` is its `center` and
  `size`, `BoundsInt` its `position` and `size`, `Matrix4x4` its four columns.
- Out-parameters become results: `Read` methods return the deserializer and an
  `Option` of the value; `Assign` returns the value next to the receiver.
- The receiver the combinators return is the receiver they were given (value
  equality stands for C#'s reference identity).

## Model

| member | source | states |
|---|---|---|
| Wire.MatchedIsLongestPrefix | Assets/QuickBin/UnityTypes.cs:77-182 | the number of tokens from the cursor whose kinds follow a layout, up to the first mismatch or the end, is the longest matching prefix: never more than the layout, all of them match, and the next one (if any is asked for) is missing or of another kind |
| Wire.MatchedAppend | Assets/QuickBin/UnityTypes.cs:143-150 | matching a layout `a + b` is matching `a`, and only when all of `a` matched, `b` right after it: what makes nested reads (Bounds, Matrix4x4) consume depth-first |
| Wire.FollowsBoth | Assets/QuickBin/UnityTypes.cs:143-150 | a read whose outcome follows layout `a`, then a read from where it stopped whose outcome follows `b`, together succeed exactly when `a + b` is matched and leave the cursor past what `a + b` matched |
| Wire.ReadFloatAt | Assets/QuickBin/UnityTypes.cs:78 | no ensures of its own: the primitive float read at a cursor as the composite reads use it; its success and cursor are proved in `Wire.PrimitiveReadsFollowLayout` |
| Wire.ReadIntAt | Assets/QuickBin/UnityTypes.cs:102 | no ensures of its own: the primitive int read at a cursor; proved in `Wire.PrimitiveReadsFollowLayout` |
| Wire.ReadByteAt | Assets/QuickBin/UnityTypes.cs:135 | no ensures of its own: the primitive byte read at a cursor; proved in `Wire.PrimitiveReadsFollowLayout` |
| Wire.PrimitiveReadsFollowLayout | Assets/QuickBin/UnityTypes.cs:78 | a primitive read succeeds exactly when the token at the cursor has its kind, and moves the cursor by one on success and not at all on failure |
| Streams.Serializer.WriteFloat | Assets/QuickBin/UnityTypes.cs:6 | the primitive float write as the adapters use it: appends one float token, keeps everything written before, returns the same serializer |
| Streams.Serializer.WriteInt | Assets/QuickBin/UnityTypes.cs:21 | the primitive int write: appends one int token and returns the same serializer |
| Streams.Serializer.WriteByte | Assets/QuickBin/UnityTypes.cs:42 | the primitive byte write: appends one byte token and returns the same serializer |
| Streams.Deserializer.ReadFloat | Assets/QuickBin/UnityTypes.cs:78 | the primitive float read: takes the float at the cursor and advances by one, or fails and leaves the cursor unmoved; the source never changes; returns the same deserializer |
| Streams.Deserializer.ReadInt | Assets/QuickBin/UnityTypes.cs:102 | the primitive int read, with the same contract as the float read |
| Streams.Deserializer.ReadByte | Assets/QuickBin/UnityTypes.cs:135 | the primitive byte read, with the same contract as the float read |
| Streams.Serializer.WriteVector2 | Assets/QuickBin/UnityTypes.cs:5-7 | appends exactly the encoding of the value, x, y (floats), after what was already written, and returns the same serializer |
| Streams.Serializer.WriteVector3 | Assets/QuickBin/UnityTypes.cs:9-12 | appends exactly the encoding of the value, x, y, z (floats), after what was already written, and returns the same serializer |
| Streams.Serializer.WriteVector4 | Assets/QuickBin/UnityTypes.cs:14-18 | appends exactly the encoding of the value, x, y, z, w (floats), after what was already written, and returns the same serializer |
| Streams.Serializer.WriteVector2Int | Assets/QuickBin/UnityTypes.cs:20-22 | appends exactly the encoding of the value, x, y (ints), after what was already written, and returns the same serializer |
| Streams.Serializer.WriteVector3Int | Assets/QuickBin/UnityTypes.cs:24-27 | appends exactly the encoding of the value, x, y, z (ints), after what was already written, and returns the same serializer |
| Streams.Serializer.WriteQuaternion | Assets/QuickBin/UnityTypes.cs:29-33 | appends exactly the encoding of the value, x, y, z, w (floats), after what was already written, and returns the same serializer |
| Streams.Serializer.WriteColor | Assets/QuickBin/UnityTypes.cs:35-39 | appends exactly the encoding of the value, r, g, b, a (floats), after what was already written, and returns the same serializer |
| Streams.Serializer.WriteColor32 | Assets/QuickBin/UnityTypes.cs:41-45 | appends exactly the encoding of the value, r, g, b, a (bytes), after what was already written, and returns the same serializer |
| Streams.Serializer.WriteRect | Assets/QuickBin/UnityTypes.cs:47-51 | appends exactly the encoding of the value, x, y, width, height (floats), after what was already written, and returns the same serializer |
| Streams.Serializer.WriteRectInt | Assets/QuickBin/UnityTypes.cs:53-57 | appends exactly the encoding of the value, x, y, width, height (ints), after what was already written, and returns the same serializer |
| Streams.Serializer.WriteBounds | Assets/QuickBin/UnityTypes.cs:59-61 | appends exactly the encoding of the value, the three floats of `center`, then the three of `size`, after what was already written, and returns the same serializer |
| Streams.Serializer.WriteMatrix4x4 | Assets/QuickBin/UnityTypes.cs:67-71 | appends exactly the encoding of the value, the four floats of each column, columns 0 to 3, after what was already written, and returns the same serializer |
| Streams.Serializer.WriteBoundsIntAsWritten | Assets/QuickBin/UnityTypes.cs:63-65 | appends what the code as written emits: the float `Vector3` `center` (derived by Unity, passed in), then `size` as three ints; returns the same serializer |
| Streams.Serializer.WriteBoundsInt | Assets/QuickBin/UnityTypes.cs:63-65 | the corrected write (see Findings): appends `position` then `size`, six ints, which is what `Read(out BoundsInt)` reads |
| Streams.Deserializer.ReadVector2 | Assets/QuickBin/UnityTypes.cs:77-82 | returns the same deserializer; the value and the new cursor are those of reading the same primitives as the matching write, in the same order, from the old cursor; on a failed field the result is none and the cursor stays past the fields already read |
| Streams.Deserializer.ReadVector3 | Assets/QuickBin/UnityTypes.cs:84-90 | returns the same deserializer; the value and the new cursor are those of reading the same primitives as the matching write, in the same order, from the old cursor; on a failed field the result is none and the cursor stays past the fields already read |
| Streams.Deserializer.ReadVector4 | Assets/QuickBin/UnityTypes.cs:92-99 | returns the same deserializer; the value and the new cursor are those of reading the same primitives as the matching write, in the same order, from the old cursor; on a failed field the result is none and the cursor stays past the fields already read |
| Streams.Deserializer.ReadVector2Int | Assets/QuickBin/UnityTypes.cs:101-106 | returns the same deserializer; the value and the new cursor are those of reading the same primitives as the matching write, in the same order, from the old cursor; on a failed field the result is none and the cursor stays past the fields already read |
| Streams.Deserializer.ReadVector3Int | Assets/QuickBin/UnityTypes.cs:108-114 | returns the same deserializer; the value and the new cursor are those of reading the same primitives as the matching write, in the same order, from the old cursor; on a failed field the result is none and the cursor stays past the fields already read |
| Streams.Deserializer.ReadQuaternion | Assets/QuickBin/UnityTypes.cs:116-123 | returns the same deserializer; the value and the new cursor are those of reading the same primitives as the matching write, in the same order, from the old cursor; on a failed field the result is none and the cursor stays past the fields already read |
| Streams.Deserializer.ReadColor | Assets/QuickBin/UnityTypes.cs:125-132 | returns the same deserializer; the value and the new cursor are those of reading the same primitives as the matching write, in the same order, from the old cursor; on a failed field the result is none and the cursor stays past the fields already read |
| Streams.Deserializer.ReadColor32 | Assets/QuickBin/UnityTypes.cs:134-141 | returns the same deserializer; the value and the new cursor are those of reading the same primitives as the matching write, in the same order, from the old cursor; on a failed field the result is none and the cursor stays past the fields already read |
| Streams.Deserializer.ReadMatrix4x4 | Assets/QuickBin/UnityTypes.cs:143-150 | returns the same deserializer; the value and the new cursor are those of reading the same primitives as the matching write, in the same order, from the old cursor; on a failed field the result is none and the cursor stays past the fields already read |
| Streams.Deserializer.ReadRect | Assets/QuickBin/UnityTypes.cs:152-159 | returns the same deserializer; the value and the new cursor are those of reading the same primitives as the matching write, in the same order, from the old cursor; on a failed field the result is none and the cursor stays past the fields already read |
| Streams.Deserializer.ReadRectInt | Assets/QuickBin/UnityTypes.cs:161-168 | returns the same deserializer; the value and the new cursor are those of reading the same primitives as the matching write, in the same order, from the old cursor; on a failed field the result is none and the cursor stays past the fields already read |
| Streams.Deserializer.ReadBounds | Assets/QuickBin/UnityTypes.cs:170-175 | returns the same deserializer; the value and the new cursor are those of reading the same primitives as the matching write, in the same order, from the old cursor; on a failed field the result is none and the cursor stays past the fields already read |
| Streams.Deserializer.ReadBoundsInt | Assets/QuickBin/UnityTypes.cs:177-182 | returns the same deserializer; the value and the new cursor are those of reading two `Vector3Int`s (six ints) from the old cursor, the first as `position`, which is what the corrected write emits and not what `Write(BoundsInt)` emits as written (see Findings); on a failed field the result is none and the cursor stays past the fields already read |
| UnityTypes.EncodeVector2 | Assets/QuickBin/UnityTypes.cs:5-7 | no ensures of its own: the tokens `Write(Vector2)` appends, field by field; their kinds are proved in `Adapters.EncodingHasLayout` and their read-back in `Adapters.Vector2RoundTrip` |
| UnityTypes.EncodeVector3 | Assets/QuickBin/UnityTypes.cs:9-12 | no ensures of its own: the tokens `Write(Vector3)` appends, field by field; their kinds are proved in `Adapters.EncodingHasLayout` and their read-back in `Adapters.Vector3RoundTrip` |
| UnityTypes.EncodeVector4 | Assets/QuickBin/UnityTypes.cs:14-18 | no ensures of its own: the tokens `Write(Vector4)` appends, field by field; their kinds are proved in `Adapters.EncodingHasLayout` and their read-back in `Adapters.Vector4RoundTrip` |
| UnityTypes.EncodeVector2Int | Assets/QuickBin/UnityTypes.cs:20-22 | no ensures of its own: the tokens `Write(Vector2Int)` appends, field by field; their kinds are proved in `Adapters.EncodingHasLayout` and their read-back in `Adapters.Vector2IntRoundTrip` |
| UnityTypes.EncodeVector3Int | Assets/QuickBin/UnityTypes.cs:24-27 | no ensures of its own: the tokens `Write(Vector3Int)` appends, field by field; their kinds are proved in `Adapters.EncodingHasLayout` and their read-back in `Adapters.Vector3IntRoundTrip` |
| UnityTypes.EncodeQuaternion | Assets/QuickBin/UnityTypes.cs:29-33 | no ensures of its own: the tokens `Write(Quaternion)` appends, field by field; their kinds are proved in `Adapters.EncodingHasLayout` and their read-back in `Adapters.QuaternionRoundTrip` |
| UnityTypes.EncodeColor | Assets/QuickBin/UnityTypes.cs:35-39 | no ensures of its own: the tokens `Write(Color)` appends, field by field; their kinds are proved in `Adapters.EncodingHasLayout` and their read-back in `Adapters.ColorRoundTrip` |
| UnityTypes.EncodeColor32 | Assets/QuickBin/UnityTypes.cs:41-45 | no ensures of its own: the tokens `Write(Color32)` appends, field by field; their kinds are proved in `Adapters.EncodingHasLayout` and their read-back in `Adapters.Color32RoundTrip` |
| UnityTypes.EncodeRect | Assets/QuickBin/UnityTypes.cs:47-51 | no ensures of its own: the tokens `Write(Rect)` appends, field by field; their kinds are proved in `Adapters.EncodingHasLayout` and their read-back in `Adapters.RectRoundTrip` |
| UnityTypes.EncodeRectInt | Assets/QuickBin/UnityTypes.cs:53-57 | no ensures of its own: the tokens `Write(RectInt)` appends, field by field; their kinds are proved in `Adapters.EncodingHasLayout` and their read-back in `Adapters.RectIntRoundTrip` |
| UnityTypes.EncodeBounds | Assets/QuickBin/UnityTypes.cs:59-61 | no ensures of its own: the tokens `Write(Bounds)` appends, field by field; their kinds are proved in `Adapters.EncodingHasLayout` and their read-back in `Adapters.BoundsRoundTrip` |
| UnityTypes.EncodeMatrix4x4 | Assets/QuickBin/UnityTypes.cs:67-71 | no ensures of its own: the tokens `Write(Matrix4x4)` appends, field by field; their kinds are proved in `Adapters.EncodingHasLayout` and their read-back in `Adapters.Matrix4x4RoundTrip` |
| UnityTypes.EncodeBoundsIntAsWritten | Assets/QuickBin/UnityTypes.cs:63-65 | no ensures of its own: the tokens `Write(BoundsInt)` appends as written (the float `center`, then the int `size`); that they do not read back is proved in `Adapters.BoundsIntAsWrittenDoesNotReadBack` |
| UnityTypes.EncodeBoundsInt | Assets/QuickBin/UnityTypes.cs:177-182 | no ensures of its own: the corrected `Write(BoundsInt)`, `position` then `size`, the six ints the read expects; its read-back is proved in `Adapters.BoundsIntRoundTrip` |
| UnityTypes.DecodeVector2 | Assets/QuickBin/UnityTypes.cs:77-82 | no ensures of its own: the primitive reads of `Read(out Vector2)` in source order, stopping at the first that fails; proved to consume exactly its layout in `Adapters.Vector2Consumed` and to invert its write in `Adapters.Vector2RoundTrip` |
| UnityTypes.DecodeVector3 | Assets/QuickBin/UnityTypes.cs:84-90 | no ensures of its own: the primitive reads of `Read(out Vector3)` in source order, stopping at the first that fails; proved to consume exactly its layout in `Adapters.Vector3Consumed` and to invert its write in `Adapters.Vector3RoundTrip` |
| UnityTypes.DecodeVector4 | Assets/QuickBin/UnityTypes.cs:92-99 | no ensures of its own: the primitive reads of `Read(out Vector4)` in source order, stopping at the first that fails; proved to consume exactly its layout in `Adapters.Vector4Consumed` and to invert its write in `Adapters.Vector4RoundTrip` |
| UnityTypes.DecodeVector2Int | Assets/QuickBin/UnityTypes.cs:101-106 | no ensures of its own: the primitive reads of `Read(out Vector2Int)` in source order, stopping at the first that fails; proved to consume exactly its layout in `Adapters.Vector2IntConsumed` and to invert its write in `Adapters.Vector2IntRoundTrip` |
| UnityTypes.DecodeVector3Int | Assets/QuickBin/UnityTypes.cs:108-114 | no ensures of its own: the primitive reads of `Read(out Vector3Int)` in source order, stopping at the first that fails; proved to consume exactly its layout in `Adapters.Vector3IntConsumed` and to invert its write in `Adapters.Vector3IntRoundTrip` |
| UnityTypes.DecodeQuaternion | Assets/QuickBin/UnityTypes.cs:116-123 | no ensures of its own: the primitive reads of `Read(out Quaternion)` in source order, stopping at the first that fails; proved to consume exactly its layout in `Adapters.QuaternionConsumed` and to invert its write in `Adapters.QuaternionRoundTrip` |
| UnityTypes.DecodeColor | Assets/QuickBin/UnityTypes.cs:125-132 | no ensures of its own: the primitive reads of `Read(out Color)` in source order, stopping at the first that fails; proved to consume exactly its layout in `Adapters.ColorConsumed` and to invert its write in `Adapters.ColorRoundTrip` |
| UnityTypes.DecodeColor32 | Assets/QuickBin/UnityTypes.cs:134-141 | no ensures of its own: the primitive reads of `Read(out Color32)` in source order, stopping at the first that fails; proved to consume exactly its layout in `Adapters.Color32Consumed` and to invert its write in `Adapters.Color32RoundTrip` |
| UnityTypes.DecodeRect | Assets/QuickBin/UnityTypes.cs:152-159 | no ensures of its own: the primitive reads of `Read(out Rect)` in source order, stopping at the first that fails; proved to consume exactly its layout in `Adapters.RectConsumed` and to invert its write in `Adapters.RectRoundTrip` |
| UnityTypes.DecodeRectInt | Assets/QuickBin/UnityTypes.cs:161-168 | no ensures of its own: the primitive reads of `Read(out RectInt)` in source order, stopping at the first that fails; proved to consume exactly its layout in `Adapters.RectIntConsumed` and to invert its write in `Adapters.RectIntRoundTrip` |
| UnityTypes.DecodeBounds | Assets/QuickBin/UnityTypes.cs:170-175 | no ensures of its own: the primitive reads of `Read(out Bounds)` in source order, stopping at the first that fails; proved to consume exactly its layout in `Adapters.BoundsConsumed` and to invert its write in `Adapters.BoundsRoundTrip` |
| UnityTypes.DecodeMatrix4x4 | Assets/QuickBin/UnityTypes.cs:143-150 | no ensures of its own: the primitive reads of `Read(out Matrix4x4)` in source order, stopping at the first that fails; proved to consume exactly its layout in `Adapters.Matrix4x4Consumed` and to invert its write in `Adapters.Matrix4x4RoundTrip` |
| UnityTypes.DecodeBoundsInt | Assets/QuickBin/UnityTypes.cs:177-182 | no ensures of its own: the primitive reads of `Read(out BoundsInt)` in source order, stopping at the first that fails; proved to consume exactly its layout (six ints) in `Adapters.BoundsIntConsumed` and to invert the corrected write (position, then size) in `Adapters.BoundsIntRoundTrip`; it does not read back what `Write(BoundsInt)` emits as written (`Adapters.BoundsIntAsWrittenDoesNotReadBack`) |
| Adapters.Encode | Assets/QuickBin/UnityTypes.cs:5-71 | no ensures of its own: the `Write` overload for a composite's type, with the corrected `BoundsInt` write; its kinds are proved in `Adapters.EncodingHasLayout` and its inverse in `Adapters.RoundTripAt` |
| Adapters.Decode | Assets/QuickBin/UnityTypes.cs:77-182 | no ensures of its own: the `Read(out …)` overload the caller names by type; proved to follow `Layout` in `Adapters.DecodeFollowsLayout` and to invert `Encode` in `Adapters.RoundTripAt` |
| Adapters.Layout | Assets/QuickBin/UnityTypes.cs:77-182 | no ensures of its own: the primitive kinds each `Read(out …)` asks for, in order, written independently of the encoders; `Adapters.EncodingHasLayout` and `Adapters.DecodeFollowsLayout` relate it to both sides |
| Adapters.EncodeAll | Assets/QuickBin/UnityTypes.cs:5-71 | no ensures of its own: a chain of `Write` calls, one composite after another, with the corrected `BoundsInt` write; inverted by `DecodeAll` in `Adapters.SequenceRoundTripAt` |
| Adapters.DecodeAll | Assets/QuickBin/UnityTypes.cs:77-182 | no ensures of its own: a chain of `Read(out …)` calls of the given types, stopping at the first failure; proved to invert `EncodeAll` in `Adapters.SequenceRoundTripAt` |
| Adapters.BoundsFlattensDepthFirst | Assets/QuickBin/UnityTypes.cs:59-61 | `Write(Bounds)` appends center.x, center.y, center.z, then size.x, size.y, size.z |
| Adapters.Matrix4x4FlattensByColumn | Assets/QuickBin/UnityTypes.cs:67-71 | `Write(Matrix4x4)` appends 16 float tokens; token i is component i mod 4 of column i div 4 |
| Adapters.EncodingHasLayout | Assets/QuickBin/UnityTypes.cs:5-71 | the kinds of the tokens every `Write` appends are exactly the layout the matching `Read` asks for, with the corrected `BoundsInt` write (the code as written does not, see `Adapters.BoundsIntAsWrittenDoesNotReadBack`) |
| Adapters.BoundsHasLayout | Assets/QuickBin/UnityTypes.cs:59-61 | `Write(Bounds)` appends three floats for `center`, then three for `size` |
| Adapters.Matrix4x4HasLayout | Assets/QuickBin/UnityTypes.cs:67-71 | `Write(Matrix4x4)` appends four floats per column, for four columns |
| Adapters.Vector2Consumed | Assets/QuickBin/UnityTypes.cs:77-82 | the read succeeds exactly when the tokens at the cursor have the kinds its write emits, in order; success or not, the cursor moves past exactly the tokens that matched and no further |
| Adapters.Vector3Consumed | Assets/QuickBin/UnityTypes.cs:84-90 | the read succeeds exactly when the tokens at the cursor have the kinds its write emits, in order; success or not, the cursor moves past exactly the tokens that matched and no further |
| Adapters.Vector4Consumed | Assets/QuickBin/UnityTypes.cs:92-99 | the read succeeds exactly when the tokens at the cursor have the kinds its write emits, in order; success or not, the cursor moves past exactly the tokens that matched and no further |
| Adapters.Vector2IntConsumed | Assets/QuickBin/UnityTypes.cs:101-106 | the read succeeds exactly when the tokens at the cursor have the kinds its write emits, in order; success or not, the cursor moves past exactly the tokens that matched and no further |
| Adapters.Vector3IntConsumed | Assets/QuickBin/UnityTypes.cs:108-114 | the read succeeds exactly when the tokens at the cursor have the kinds its write emits, in order; success or not, the cursor moves past exactly the tokens that matched and no further |
| Adapters.QuaternionConsumed | Assets/QuickBin/UnityTypes.cs:116-123 | the read succeeds exactly when the tokens at the cursor have the kinds its write emits, in order; success or not, the cursor moves past exactly the tokens that matched and no further |
| Adapters.ColorConsumed | Assets/QuickBin/UnityTypes.cs:125-132 | the read succeeds exactly when the tokens at the cursor have the kinds its write emits, in order; success or not, the cursor moves past exactly the tokens that matched and no further |
| Adapters.Color32Consumed | Assets/QuickBin/UnityTypes.cs:134-141 | the read succeeds exactly when the tokens at the cursor have the kinds its write emits, in order; success or not, the cursor moves past exactly the tokens that matched and no further |
| Adapters.Matrix4x4Consumed | Assets/QuickBin/UnityTypes.cs:143-150 | the read succeeds exactly when the tokens at the cursor have the kinds its write emits, in order; success or not, the cursor moves past exactly the tokens that matched and no further |
| Adapters.RectConsumed | Assets/QuickBin/UnityTypes.cs:152-159 | the read succeeds exactly when the tokens at the cursor have the kinds its write emits, in order; success or not, the cursor moves past exactly the tokens that matched and no further |
| Adapters.RectIntConsumed | Assets/QuickBin/UnityTypes.cs:161-168 | the read succeeds exactly when the tokens at the cursor have the kinds its write emits, in order; success or not, the cursor moves past exactly the tokens that matched and no further |
| Adapters.BoundsConsumed | Assets/QuickBin/UnityTypes.cs:170-175 | the read succeeds exactly when the tokens at the cursor have the kinds its write emits, in order; success or not, the cursor moves past exactly the tokens that matched and no further |
| Adapters.BoundsIntConsumed | Assets/QuickBin/UnityTypes.cs:177-182 | the read succeeds exactly when the six tokens at the cursor are ints (the layout `Ints3 + Ints3`, which the corrected write emits and the write as written does not); success or not, the cursor moves past exactly the tokens that matched and no further |
| Adapters.DecodeFollowsLayout | Assets/QuickBin/UnityTypes.cs:77-182 | every `Read` overload succeeds exactly when the tokens at the cursor follow its layout, and moves the cursor past exactly the matched tokens, stated over all composite types at once; for `BoundsInt` the layout is six ints, that of the corrected write |
| Adapters.Vector2RoundTrip | Assets/QuickBin/UnityTypes.cs:5-7 | wherever the value's encoding stands in the source, the matching read at its first token yields the original value and leaves the cursor just after it |
| Adapters.Vector3RoundTrip | Assets/QuickBin/UnityTypes.cs:9-12 | wherever the value's encoding stands in the source, the matching read at its first token yields the original value and leaves the cursor just after it |
| Adapters.Vector4RoundTrip | Assets/QuickBin/UnityTypes.cs:14-18 | wherever the value's encoding stands in the source, the matching read at its first token yields the original value and leaves the cursor just after it |
| Adapters.Vector2IntRoundTrip | Assets/QuickBin/UnityTypes.cs:20-22 | wherever the value's encoding stands in the source, the matching read at its first token yields the original value and leaves the cursor just after it |
| Adapters.Vector3IntRoundTrip | Assets/QuickBin/UnityTypes.cs:24-27 | wherever the value's encoding stands in the source, the matching read at its first token yields the original value and leaves the cursor just after it |
| Adapters.QuaternionRoundTrip | Assets/QuickBin/UnityTypes.cs:29-33 | wherever the value's encoding stands in the source, the matching read at its first token yields the original value and leaves the cursor just after it |
| Adapters.ColorRoundTrip | Assets/QuickBin/UnityTypes.cs:35-39 | wherever the value's encoding stands in the source, the matching read at its first token yields the original value and leaves the cursor just after it |
| Adapters.Color32RoundTrip | Assets/QuickBin/UnityTypes.cs:41-45 | wherever the value's encoding stands in the source, the matching read at its first token yields the original value and leaves the cursor just after it |
| Adapters.Matrix4x4RoundTrip | Assets/QuickBin/UnityTypes.cs:67-71 | wherever the value's encoding stands in the source, the matching read at its first token yields the original value (the matrix rebuilt from its four columns) and leaves the cursor just after it |
| Adapters.RectRoundTrip | Assets/QuickBin/UnityTypes.cs:47-51 | wherever the value's encoding stands in the source, the matching read at its first token yields the original value and leaves the cursor just after it |
| Adapters.RectIntRoundTrip | Assets/QuickBin/UnityTypes.cs:53-57 | wherever the value's encoding stands in the source, the matching read at its first token yields the original value and leaves the cursor just after it |
| Adapters.BoundsRoundTrip | Assets/QuickBin/UnityTypes.cs:59-61 | wherever the value's encoding stands in the source, the matching read at its first token yields the original value and leaves the cursor just after it |
| Adapters.BoundsIntRoundTrip | Assets/QuickBin/UnityTypes.cs:177-182 | the corrected encoding (position, size) read back at its first token yields the box and the cursor after its six tokens |
| Adapters.RoundTripAt | Assets/QuickBin/UnityTypes.cs:5-182 | the round trip for every composite, wherever its encoding stands, with the corrected `BoundsInt` write |
| Adapters.RoundTrip | Assets/QuickBin/UnityTypes.cs:5-182 | reading a freshly written composite, whatever precedes and follows it, yields the original value and consumes exactly its encoding |
| Adapters.SequenceRoundTripAt | Assets/QuickBin/UnityTypes.cs:5-182 | composites written one after another read back, in the same order, as the same composites, consuming exactly what was written, with the corrected `BoundsInt` write |
| Adapters.SequenceRoundTrip | Assets/QuickBin/UnityTypes.cs:5-71 | the same with arbitrary tokens before and after: nothing frames a composite, so consecutive composites compose |
| Adapters.BoundsIntAsWrittenDoesNotReadBack | Assets/QuickBin/UnityTypes.cs:63-65 | what `Write(BoundsInt)` emits as written does not have the layout `Read(out BoundsInt)` asks for, and reading it stops at its first token |
| Streams.WriteThenRead | Assets/QuickBin/UnityTypes.cs:9-141 | through `Write(Vector3)` (lines 9-12), `Write(Color32)` (41-45), `Read(out Vector3)` (84-90) and `Read(out Color32)` (134-141): a `Vector3` and a `Color32` written one after the other into a fresh serializer read back, in order, from a deserializer over the result: both recovered, all 7 tokens consumed |
| ChainExtensions.Then | Runtime/ChainExtensions.cs:11-14 | no ensures of its own: runs the action on the world and hands back the receiver; the promise is proved in `ChainExtensions.ThenCallsOnce` |
| ChainExtensions.Assign | Runtime/ChainExtensions.cs:21-24 | no ensures of its own: hands back the receiver and `value` (the out-parameter) with the world unchanged; the promise is proved in `ChainExtensions.AssignHasNoEffect` |
| ChainExtensions.Output | Runtime/ChainExtensions.cs:29 | no ensures of its own: returns `value`; the promise is proved in `ChainExtensions.OutputIgnoresReceiver` |
| ChainExtensions.When | Runtime/ChainExtensions.cs:36-39 | no ensures of its own: runs the action on the receiver only when the condition holds and hands back the receiver; the promise is proved in `ChainExtensions.WhenCallsIff` |
| ChainExtensions.ApplyEach | Runtime/ChainExtensions.cs:46-50 | no ensures of its own: the reference fold, the action applied to each value first to last; `ChainExtensions.ForEach` and `ChainExtensions.ForEachWithReceiver` are proved equal to it, and `ChainExtensions.ApplyEachAppend` and `ChainExtensions.ForEachCallsEachOnceInOrder` state its order |
| ChainExtensions.ForEachProduced | Runtime/ChainExtensions.cs:68-75 | no ensures of its own: the producing `ForEach`, which returns the receiver and captures `func`, the receiver and `count` without running anything; proved in `ChainExtensions.ForEachProducedCallsNothing`, and run by `ChainExtensions.Enumerate` |
| ChainExtensions.ThenCallsOnce | Runtime/ChainExtensions.cs:11-14 | `Then` calls its action exactly once and returns the receiver |
| ChainExtensions.AssignHasNoEffect | Runtime/ChainExtensions.cs:21-24 | `Assign` returns the receiver, leaves the world as it was and hands `value` to the out variable |
| ChainExtensions.OutputIgnoresReceiver | Runtime/ChainExtensions.cs:29 | `Output` yields `value`, the same for any receiver |
| ChainExtensions.WhenCallsIff | Runtime/ChainExtensions.cs:36-39 | `When` calls its action exactly once, with the receiver, if the condition holds and never otherwise; it returns the receiver either way |
| ChainExtensions.ApplyEachAppend | Runtime/ChainExtensions.cs:46-50 | running actions over `xs + ys` is running over `xs` and then over `ys` from the world that left |
| ChainExtensions.ForEach | Runtime/ChainExtensions.cs:46-50 | returns the receiver; the world is that of running the action on each value, first to last |
| ChainExtensions.ForEachCallsEachOnceInOrder | Runtime/ChainExtensions.cs:46-50 | the action is called exactly once per value, in sequence order |
| ChainExtensions.ForEachWithReceiver | Runtime/ChainExtensions.cs:57-61 | returns the receiver; the world is that of running the action on the receiver and each value, first to last |
| ChainExtensions.ForEachWithReceiverPassesReceiver | Runtime/ChainExtensions.cs:57-61 | every call is handed the same receiver together with its value, once per value, in order |
| ChainExtensions.ForEachProducedCallsNothing | Runtime/ChainExtensions.cs:68-75 | the producing `ForEach` returns the receiver and makes no call of `func` |
| ChainExtensions.Produce | Runtime/ChainExtensions.cs:69-72 | n calls of `func` on the receiver yield exactly n results |
| ChainExtensions.Enumerate | Runtime/ChainExtensions.cs:69-72 | one enumeration yields max(count, 0) results, those of calling `func` on the receiver that many times from the current world, in call order |
| ChainExtensions.ProduceCallsFuncNTimes | Runtime/ChainExtensions.cs:69-72 | an enumeration of n elements calls `func` exactly n times, each time with the receiver, and yields the results in call order |
| ChainExtensions.ProduceAgainContinues | Runtime/ChainExtensions.cs:69-73 | nothing is memoised: a second run calls `func` again from the world the first left, exactly as one longer run would |
| ChainExtensions.IncrementProduces | Runtime/ChainExtensions.cs:69-72 | with a `func` that bumps a counter, n calls from counter c yield c+1 .. c+n and leave the counter at c+n |
| ChainExtensions.EnumerateTwice | Runtime/ChainExtensions.cs:68-75 | with `count` 3 and a counting `func`: no call before enumeration, the first enumeration yields 1, 2, 3, the second 4, 5, 6 |

## Findings

| source | as written | input that shows it | evidently intended | confidence | as-written member | corrected member |
|---|---|---|---|---|---|---|
| Assets/QuickBin/UnityTypes.cs:63-65 | `Write(BoundsInt)` writes `value.center`, which in Unity is the float `Vector3` midpoint of the box, while `Read(out BoundsInt)` (lines 177-182) reads a `Vector3Int` and passes it to the constructor as the box's position | any box, e.g. position (0, 0, 0) and size (1, 1, 1): the floats 0.5, 0.5, 0.5 are written where the reader expects the three ints of the position | write `value.position` (three ints), then `size` | not executed; relies on Unity's `BoundsInt.center` being a float `Vector3`, which is outside this repository | Adapters.BoundsIntAsWrittenDoesNotReadBack | Adapters.BoundsIntRoundTrip |

In the token model the mismatch shows as a failed read at the box's first
token, because a float token stands where an int is read. The real engine has
no kinds on the wire, so there the float bits would be read back as integers
and the box would come back wrong without any error. `Adapters.Encode` and
`Adapters.EncodeAll`, and with them `Adapters.EncodingHasLayout`,
`Adapters.RoundTripAt`, `Adapters.RoundTrip`, `Adapters.SequenceRoundTripAt`
and `Adapters.SequenceRoundTrip`, use the corrected encoding.
`UnityTypes.DecodeBoundsInt`, `Streams.Deserializer.ReadBoundsInt`,
`Adapters.BoundsIntConsumed` and `Adapters.DecodeFollowsLayout` model the read
as written, whose layout (six ints) is that of the corrected encoding and not
that of the write as written;
`Streams.Serializer.WriteBoundsIntAsWritten` models the code as written.

## Left out

- The byte encodings of the primitives (width, endianness, text, booleans) and the `Write`/`Read` overloads for them: they are not in the modelled files, so a primitive is one token.
- Buffer capacity and growth, and any snapshot of the written bytes: the written stream is a sequence that only grows by appending.
- Float semantics and Unity internals: no IEEE arithmetic, no `Bounds` extents, no vector constructors beyond field-wise records, and `GetColumn` as a plain column selector.
- Streams.Deserializer.ReadFloat: a token of the wrong kind fails the read; the real engine, which has no kinds on the wire, would reinterpret the bytes instead (the same holds for `ReadInt` and `ReadByte`).
- What a failed primitive read does: the bodies of the primitive `Read(out int|byte|float)` are not part of this model, and the composite reads in `Assets/QuickBin/UnityTypes.cs` (lines 77-182) do not look at what they report. The model assumes that a failed primitive read ends the composite read that made it, which then yields no value. If a primitive read instead records the failure and returns a default, the composite read would go on and return default fields: a `Vector2` read from a single float would come back as that float and a default, with the cursor one past it, where the model yields no value.
- Exceptions thrown by the caller's action or by `func` are not modelled.
- Streams.Serializer.WriteBoundsIntAsWritten: takes the box's `center` as a parameter, because Unity computes it and that code is not part of this model.
- General `IEnumerable` laziness: `values` is a finite sequence, and the produced sequence is enumerated in full by `Enumerate` (a partial enumeration is `Produce` with fewer calls; `ProduceAgainContinues` relates the two).
- Thread safety and `MethodImplOptions.AggressiveInlining`, which have no behaviour to model here.
- `count` is an unbounded integer; the source's `int` loop counter cannot overflow because it stops below `count`.
