/**
 * The two chainable objects of QuickBin, as the adapters of
 * Assets/QuickBin/UnityTypes.cs use them. A `Serializer` owns a growing token
 * stream that `Write` only appends to; a `Deserializer` owns an immutable token
 * source and a cursor that `Read` only advances. Every overload returns the
 * object it was called on, so calls chain.
 */
module Streams {
  import opened Wire
  import opened UnityTypes
  import opened Adapters

  class Serializer {
    /** Everything written so far, oldest first. */
    var tokens: seq<Token>

    constructor ()
      ensures tokens == []
    {
      tokens := [];
    }

    // The primitive writes. Their byte encodings are not modelled: each appends one token.

    method WriteInt(value: int32) returns (r: Serializer)
      modifies this
      ensures r == this && tokens == old(tokens) + [IntToken(value)]
    {
      tokens := tokens + [IntToken(value)];
      r := this;
    }

    method WriteByte(value: byte) returns (r: Serializer)
      modifies this
      ensures r == this && tokens == old(tokens) + [ByteToken(value)]
    {
      tokens := tokens + [ByteToken(value)];
      r := this;
    }

    method WriteFloat(value: Float) returns (r: Serializer)
      modifies this
      ensures r == this && tokens == old(tokens) + [FloatToken(value)]
    {
      tokens := tokens + [FloatToken(value)];
      r := this;
    }

    // The composite writes: chains of primitive writes, field by field.

    method WriteVector2(value: Vector2) returns (r: Serializer)
      modifies this
      ensures r == this && tokens == old(tokens) + EncodeVector2(value)
    {
      r := WriteFloat(value.x);
      r := r.WriteFloat(value.y);
    }

    method WriteVector3(value: Vector3) returns (r: Serializer)
      modifies this
      ensures r == this && tokens == old(tokens) + EncodeVector3(value)
    {
      r := WriteFloat(value.x);
      r := r.WriteFloat(value.y);
      r := r.WriteFloat(value.z);
    }

    method WriteVector4(value: Vector4) returns (r: Serializer)
      modifies this
      ensures r == this && tokens == old(tokens) + EncodeVector4(value)
    {
      r := WriteFloat(value.x);
      r := r.WriteFloat(value.y);
      r := r.WriteFloat(value.z);
      r := r.WriteFloat(value.w);
    }

    method WriteVector2Int(value: Vector2Int) returns (r: Serializer)
      modifies this
      ensures r == this && tokens == old(tokens) + EncodeVector2Int(value)
    {
      r := WriteInt(value.x);
      r := r.WriteInt(value.y);
    }

    method WriteVector3Int(value: Vector3Int) returns (r: Serializer)
      modifies this
      ensures r == this && tokens == old(tokens) + EncodeVector3Int(value)
    {
      r := WriteInt(value.x);
      r := r.WriteInt(value.y);
      r := r.WriteInt(value.z);
    }

    method WriteQuaternion(value: Quaternion) returns (r: Serializer)
      modifies this
      ensures r == this && tokens == old(tokens) + EncodeQuaternion(value)
    {
      r := WriteFloat(value.x);
      r := r.WriteFloat(value.y);
      r := r.WriteFloat(value.z);
      r := r.WriteFloat(value.w);
    }

    method WriteColor(value: Color) returns (r: Serializer)
      modifies this
      ensures r == this && tokens == old(tokens) + EncodeColor(value)
    {
      r := WriteFloat(value.r);
      r := r.WriteFloat(value.g);
      r := r.WriteFloat(value.b);
      r := r.WriteFloat(value.a);
    }

    method WriteColor32(value: Color32) returns (r: Serializer)
      modifies this
      ensures r == this && tokens == old(tokens) + EncodeColor32(value)
    {
      r := WriteByte(value.r);
      r := r.WriteByte(value.g);
      r := r.WriteByte(value.b);
      r := r.WriteByte(value.a);
    }

    method WriteRect(value: Rect) returns (r: Serializer)
      modifies this
      ensures r == this && tokens == old(tokens) + EncodeRect(value)
    {
      r := WriteFloat(value.x);
      r := r.WriteFloat(value.y);
      r := r.WriteFloat(value.width);
      r := r.WriteFloat(value.height);
    }

    method WriteRectInt(value: RectInt) returns (r: Serializer)
      modifies this
      ensures r == this && tokens == old(tokens) + EncodeRectInt(value)
    {
      r := WriteInt(value.x);
      r := r.WriteInt(value.y);
      r := r.WriteInt(value.width);
      r := r.WriteInt(value.height);
    }

    method WriteBounds(value: Bounds) returns (r: Serializer)
      modifies this
      ensures r == this && tokens == old(tokens) + EncodeBounds(value)
    {
      r := WriteVector3(value.center);
      r := r.WriteVector3(value.size);
    }

    /**
     * `Write(BoundsInt)` as written: it writes `value.center`, a float
     * `Vector3` that Unity derives from the box and that is passed in here.
     */
    method WriteBoundsIntAsWritten(value: BoundsInt, center: Vector3) returns (r: Serializer)
      modifies this
      ensures r == this && tokens == old(tokens) + EncodeBoundsIntAsWritten(value, center)
    {
      r := WriteVector3(center);
      r := r.WriteVector3Int(value.size);
    }

    /** `Write(BoundsInt)` as `Read(out BoundsInt)` expects it: `position`, then `size`. */
    method WriteBoundsInt(value: BoundsInt) returns (r: Serializer)
      modifies this
      ensures r == this && tokens == old(tokens) + EncodeBoundsInt(value)
    {
      r := WriteVector3Int(value.position);
      r := r.WriteVector3Int(value.size);
    }

    method WriteMatrix4x4(value: Matrix4x4) returns (r: Serializer)
      modifies this
      ensures r == this && tokens == old(tokens) + EncodeMatrix4x4(value)
    {
      r := WriteVector4(GetColumn(value, 0));
      r := r.WriteVector4(GetColumn(value, 1));
      r := r.WriteVector4(GetColumn(value, 2));
      r := r.WriteVector4(GetColumn(value, 3));
    }
  }

  class Deserializer {
    /** The tokens to read, fixed at construction. */
    const source: seq<Token>
    /** How many tokens of `source` have been read. */
    var cursor: nat

    ghost predicate Valid()
      reads this
    {
      cursor <= |source|
    }

    constructor (source: seq<Token>)
      ensures Valid() && this.source == source && cursor == 0
    {
      this.source := source;
      cursor := 0;
    }

    // The primitive reads. Each takes one token of its kind at the cursor, or
    // fails and leaves the cursor where it was.

    method ReadInt() returns (d: Deserializer, produced: Option<int32>)
      requires Valid()
      modifies this
      ensures d == this && Valid() && Yields(ReadIntAt(source, old(cursor)), produced, cursor)
    {
      d := this;
      if cursor < |source| && source[cursor].IntToken? {
        produced := Some(source[cursor].i);
        cursor := cursor + 1;
      } else {
        produced := None;
      }
    }

    method ReadByte() returns (d: Deserializer, produced: Option<byte>)
      requires Valid()
      modifies this
      ensures d == this && Valid() && Yields(ReadByteAt(source, old(cursor)), produced, cursor)
    {
      d := this;
      if cursor < |source| && source[cursor].ByteToken? {
        produced := Some(source[cursor].b);
        cursor := cursor + 1;
      } else {
        produced := None;
      }
    }

    method ReadFloat() returns (d: Deserializer, produced: Option<Float>)
      requires Valid()
      modifies this
      ensures d == this && Valid() && Yields(ReadFloatAt(source, old(cursor)), produced, cursor)
    {
      d := this;
      if cursor < |source| && source[cursor].FloatToken? {
        produced := Some(source[cursor].f);
        cursor := cursor + 1;
      } else {
        produced := None;
      }
    }

    // The composite reads: the same primitive reads as the matching write, in
    // the same order, except for `ReadBoundsInt`, which reads six ints where
    // `Write(BoundsInt)` as written emits three floats and three ints. A
    // failing read ends the composite; the cursor then stays past the fields
    // already read.

    method ReadVector2() returns (d: Deserializer, produced: Option<Vector2>)
      requires Valid()
      modifies this
      ensures d == this && Valid() && Yields(DecodeVector2(source, old(cursor)), produced, cursor)
    {
      var x, y;
      d, x := ReadFloat();
      if x.None? { return d, None; }
      d, y := d.ReadFloat();
      if y.None? { return d, None; }
      produced := Some(Vector2(x.value, y.value));
    }

    method ReadVector3() returns (d: Deserializer, produced: Option<Vector3>)
      requires Valid()
      modifies this
      ensures d == this && Valid() && Yields(DecodeVector3(source, old(cursor)), produced, cursor)
    {
      var x, y, z;
      d, x := ReadFloat();
      if x.None? { return d, None; }
      d, y := d.ReadFloat();
      if y.None? { return d, None; }
      d, z := d.ReadFloat();
      if z.None? { return d, None; }
      produced := Some(Vector3(x.value, y.value, z.value));
    }

    method ReadVector4() returns (d: Deserializer, produced: Option<Vector4>)
      requires Valid()
      modifies this
      ensures d == this && Valid() && Yields(DecodeVector4(source, old(cursor)), produced, cursor)
    {
      var x, y, z, w;
      d, x := ReadFloat();
      if x.None? { return d, None; }
      d, y := d.ReadFloat();
      if y.None? { return d, None; }
      d, z := d.ReadFloat();
      if z.None? { return d, None; }
      d, w := d.ReadFloat();
      if w.None? { return d, None; }
      produced := Some(Vector4(x.value, y.value, z.value, w.value));
    }

    method ReadVector2Int() returns (d: Deserializer, produced: Option<Vector2Int>)
      requires Valid()
      modifies this
      ensures d == this && Valid() && Yields(DecodeVector2Int(source, old(cursor)), produced, cursor)
    {
      var x, y;
      d, x := ReadInt();
      if x.None? { return d, None; }
      d, y := d.ReadInt();
      if y.None? { return d, None; }
      produced := Some(Vector2Int(x.value, y.value));
    }

    method ReadVector3Int() returns (d: Deserializer, produced: Option<Vector3Int>)
      requires Valid()
      modifies this
      ensures d == this && Valid() && Yields(DecodeVector3Int(source, old(cursor)), produced, cursor)
    {
      var x, y, z;
      d, x := ReadInt();
      if x.None? { return d, None; }
      d, y := d.ReadInt();
      if y.None? { return d, None; }
      d, z := d.ReadInt();
      if z.None? { return d, None; }
      produced := Some(Vector3Int(x.value, y.value, z.value));
    }

    method ReadQuaternion() returns (d: Deserializer, produced: Option<Quaternion>)
      requires Valid()
      modifies this
      ensures d == this && Valid() && Yields(DecodeQuaternion(source, old(cursor)), produced, cursor)
    {
      var x, y, z, w;
      d, x := ReadFloat();
      if x.None? { return d, None; }
      d, y := d.ReadFloat();
      if y.None? { return d, None; }
      d, z := d.ReadFloat();
      if z.None? { return d, None; }
      d, w := d.ReadFloat();
      if w.None? { return d, None; }
      produced := Some(Quaternion(x.value, y.value, z.value, w.value));
    }

    method ReadColor() returns (d: Deserializer, produced: Option<Color>)
      requires Valid()
      modifies this
      ensures d == this && Valid() && Yields(DecodeColor(source, old(cursor)), produced, cursor)
    {
      var r, g, b, a;
      d, r := ReadFloat();
      if r.None? { return d, None; }
      d, g := d.ReadFloat();
      if g.None? { return d, None; }
      d, b := d.ReadFloat();
      if b.None? { return d, None; }
      d, a := d.ReadFloat();
      if a.None? { return d, None; }
      produced := Some(Color(r.value, g.value, b.value, a.value));
    }

    method ReadColor32() returns (d: Deserializer, produced: Option<Color32>)
      requires Valid()
      modifies this
      ensures d == this && Valid() && Yields(DecodeColor32(source, old(cursor)), produced, cursor)
    {
      var r, g, b, a;
      d, r := ReadByte();
      if r.None? { return d, None; }
      d, g := d.ReadByte();
      if g.None? { return d, None; }
      d, b := d.ReadByte();
      if b.None? { return d, None; }
      d, a := d.ReadByte();
      if a.None? { return d, None; }
      produced := Some(Color32(r.value, g.value, b.value, a.value));
    }

    method ReadMatrix4x4() returns (d: Deserializer, produced: Option<Matrix4x4>)
      requires Valid()
      modifies this
      ensures d == this && Valid() && Yields(DecodeMatrix4x4(source, old(cursor)), produced, cursor)
    {
      var c1, c2, c3, c4;
      d, c1 := ReadVector4();
      if c1.None? { return d, None; }
      d, c2 := d.ReadVector4();
      if c2.None? { return d, None; }
      d, c3 := d.ReadVector4();
      if c3.None? { return d, None; }
      d, c4 := d.ReadVector4();
      if c4.None? { return d, None; }
      produced := Some(Matrix4x4(c1.value, c2.value, c3.value, c4.value));
    }

    method ReadRect() returns (d: Deserializer, produced: Option<Rect>)
      requires Valid()
      modifies this
      ensures d == this && Valid() && Yields(DecodeRect(source, old(cursor)), produced, cursor)
    {
      var x, y, width, height;
      d, x := ReadFloat();
      if x.None? { return d, None; }
      d, y := d.ReadFloat();
      if y.None? { return d, None; }
      d, width := d.ReadFloat();
      if width.None? { return d, None; }
      d, height := d.ReadFloat();
      if height.None? { return d, None; }
      produced := Some(Rect(x.value, y.value, width.value, height.value));
    }

    method ReadRectInt() returns (d: Deserializer, produced: Option<RectInt>)
      requires Valid()
      modifies this
      ensures d == this && Valid() && Yields(DecodeRectInt(source, old(cursor)), produced, cursor)
    {
      var x, y, width, height;
      d, x := ReadInt();
      if x.None? { return d, None; }
      d, y := d.ReadInt();
      if y.None? { return d, None; }
      d, width := d.ReadInt();
      if width.None? { return d, None; }
      d, height := d.ReadInt();
      if height.None? { return d, None; }
      produced := Some(RectInt(x.value, y.value, width.value, height.value));
    }

    method ReadBounds() returns (d: Deserializer, produced: Option<Bounds>)
      requires Valid()
      modifies this
      ensures d == this && Valid() && Yields(DecodeBounds(source, old(cursor)), produced, cursor)
    {
      var center, size;
      d, center := ReadVector3();
      if center.None? { return d, None; }
      d, size := d.ReadVector3();
      if size.None? { return d, None; }
      produced := Some(Bounds(center.value, size.value));
    }

    /** Reads two `Vector3Int`s; the first is passed as the box's `position`. */
    method ReadBoundsInt() returns (d: Deserializer, produced: Option<BoundsInt>)
      requires Valid()
      modifies this
      ensures d == this && Valid() && Yields(DecodeBoundsInt(source, old(cursor)), produced, cursor)
    {
      var center, size;
      d, center := ReadVector3Int();
      if center.None? { return d, None; }
      d, size := d.ReadVector3Int();
      if size.None? { return d, None; }
      produced := Some(BoundsInt(center.value, size.value));
    }
  }

  /**
   * Two composites written one after the other into a fresh serializer read
   * back, in the same order, from a deserializer over what was written: both
   * are recovered and the whole stream is consumed.
   */
  method WriteThenRead(first: Vector3, second: Color32)
    returns (firstRead: Option<Vector3>, secondRead: Option<Color32>, consumed: nat, written: nat)
    ensures firstRead == Some(first) && secondRead == Some(second)
    ensures consumed == written == 7
  {
    var s := new Serializer();
    var chain := s.WriteVector3(first);
    chain := chain.WriteColor32(second);
    written := |s.tokens|;
    var d := new Deserializer(s.tokens);
    var rest;
    rest, firstRead := d.ReadVector3();
    rest, secondRead := rest.ReadColor32();
    consumed := d.cursor;
    var src := s.tokens;
    assert src == EncodeVector3(first) + EncodeColor32(second);
    AtEmbedded([], EncodeVector3(first) + EncodeColor32(second), []);
    assert [] + (EncodeVector3(first) + EncodeColor32(second)) + [] == src;
    AtAppend(src, 0, EncodeVector3(first), EncodeColor32(second));
    Vector3RoundTrip(first, src, 0);
    Color32RoundTrip(second, src, 3);
  }
}
