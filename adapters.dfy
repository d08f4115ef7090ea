/**
 * The composite adapter protocol: every Unity value is written as a fixed
 * left-to-right, depth-first list of primitives and read back by the same
 * list of primitive reads. Nothing frames a composite, so composites written
 * one after another read back one after another.
 */
module Adapters {
  import opened Wire
  import opened UnityTypes

  /** Any one of the values the adapters handle. */
  datatype Composite =
    | Vector2Value(v2: Vector2)
    | Vector3Value(v3: Vector3)
    | Vector4Value(v4: Vector4)
    | Vector2IntValue(v2i: Vector2Int)
    | Vector3IntValue(v3i: Vector3Int)
    | QuaternionValue(q: Quaternion)
    | ColorValue(c: Color)
    | Color32Value(c32: Color32)
    | RectValue(r: Rect)
    | RectIntValue(ri: RectInt)
    | BoundsValue(b: Bounds)
    | BoundsIntValue(bi: BoundsInt)
    | Matrix4x4Value(m: Matrix4x4)

  /** The static type the caller names by choosing a `Read(out …)` overload. */
  datatype CompositeType =
    | Vector2Type | Vector3Type | Vector4Type | Vector2IntType | Vector3IntType
    | QuaternionType | ColorType | Color32Type | RectType | RectIntType
    | BoundsType | BoundsIntType | Matrix4x4Type

  function TypeOf(c: Composite): CompositeType {
    match c
    case Vector2Value(_) => Vector2Type
    case Vector3Value(_) => Vector3Type
    case Vector4Value(_) => Vector4Type
    case Vector2IntValue(_) => Vector2IntType
    case Vector3IntValue(_) => Vector3IntType
    case QuaternionValue(_) => QuaternionType
    case ColorValue(_) => ColorType
    case Color32Value(_) => Color32Type
    case RectValue(_) => RectType
    case RectIntValue(_) => RectIntType
    case BoundsValue(_) => BoundsType
    case BoundsIntValue(_) => BoundsIntType
    case Matrix4x4Value(_) => Matrix4x4Type
  }

  /**
   * The `Write` overload for the value's type, with the corrected `BoundsInt`
   * write (position, then size); the code as written is
   * `EncodeBoundsIntAsWritten`.
   */
  function Encode(c: Composite): seq<Token> {
    match c
    case Vector2Value(v) => EncodeVector2(v)
    case Vector3Value(v) => EncodeVector3(v)
    case Vector4Value(v) => EncodeVector4(v)
    case Vector2IntValue(v) => EncodeVector2Int(v)
    case Vector3IntValue(v) => EncodeVector3Int(v)
    case QuaternionValue(q) => EncodeQuaternion(q)
    case ColorValue(v) => EncodeColor(v)
    case Color32Value(v) => EncodeColor32(v)
    case RectValue(r) => EncodeRect(r)
    case RectIntValue(r) => EncodeRectInt(r)
    case BoundsValue(b) => EncodeBounds(b)
    case BoundsIntValue(b) => EncodeBoundsInt(b)
    case Matrix4x4Value(m) => EncodeMatrix4x4(m)
  }

  /** The `Read(out …)` overload for a type, with the result wrapped as a `Composite`. */
  function Decode(t: CompositeType, src: seq<Token>, at: nat): Parsed<Composite> {
    match t
    case Vector2Type => var v :- DecodeVector2(src, at); Parsed(Vector2Value(v.0), v.1)
    case Vector3Type => var v :- DecodeVector3(src, at); Parsed(Vector3Value(v.0), v.1)
    case Vector4Type => var v :- DecodeVector4(src, at); Parsed(Vector4Value(v.0), v.1)
    case Vector2IntType => var v :- DecodeVector2Int(src, at); Parsed(Vector2IntValue(v.0), v.1)
    case Vector3IntType => var v :- DecodeVector3Int(src, at); Parsed(Vector3IntValue(v.0), v.1)
    case QuaternionType => var v :- DecodeQuaternion(src, at); Parsed(QuaternionValue(v.0), v.1)
    case ColorType => var v :- DecodeColor(src, at); Parsed(ColorValue(v.0), v.1)
    case Color32Type => var v :- DecodeColor32(src, at); Parsed(Color32Value(v.0), v.1)
    case RectType => var v :- DecodeRect(src, at); Parsed(RectValue(v.0), v.1)
    case RectIntType => var v :- DecodeRectInt(src, at); Parsed(RectIntValue(v.0), v.1)
    case BoundsType => var v :- DecodeBounds(src, at); Parsed(BoundsValue(v.0), v.1)
    case BoundsIntType => var v :- DecodeBoundsInt(src, at); Parsed(BoundsIntValue(v.0), v.1)
    case Matrix4x4Type => var v :- DecodeMatrix4x4(src, at); Parsed(Matrix4x4Value(v.0), v.1)
  }

  const Floats2: seq<Kind> := [FloatKind, FloatKind]
  const Floats3: seq<Kind> := [FloatKind, FloatKind, FloatKind]
  const Floats4: seq<Kind> := [FloatKind, FloatKind, FloatKind, FloatKind]
  const Ints2: seq<Kind> := [IntKind, IntKind]
  const Ints3: seq<Kind> := [IntKind, IntKind, IntKind]
  const Ints4: seq<Kind> := [IntKind, IntKind, IntKind, IntKind]
  const Bytes4: seq<Kind> := [ByteKind, ByteKind, ByteKind, ByteKind]

  /** The primitive kinds a type's `Read` overload asks for, in order. */
  function Layout(t: CompositeType): seq<Kind> {
    match t
    case Vector2Type => Floats2
    case Vector3Type => Floats3
    case Vector4Type => Floats4
    case Vector2IntType => Ints2
    case Vector3IntType => Ints3
    case QuaternionType => Floats4
    case ColorType => Floats4
    case Color32Type => Bytes4
    case RectType => Floats4
    case RectIntType => Ints4
    case BoundsType => Floats3 + Floats3
    case BoundsIntType => Ints3 + Ints3
    case Matrix4x4Type => Floats4 + Floats4 + Floats4 + Floats4
  }

  /** `src` holds exactly the tokens `e` from index `at` on. */
  ghost predicate At(src: seq<Token>, at: nat, e: seq<Token>) {
    at + |e| <= |src| && forall i :: 0 <= i < |e| ==> src[at + i] == e[i]
  }

  lemma AtAppend(src: seq<Token>, at: nat, a: seq<Token>, b: seq<Token>)
    requires At(src, at, a + b)
    ensures At(src, at, a) && At(src, at + |a|, b)
  {
    forall i | 0 <= i < |a| ensures src[at + i] == a[i] {
      assert (a + b)[i] == a[i];
    }
    forall i | 0 <= i < |b| ensures src[at + |a| + i] == b[i] {
      assert (a + b)[|a| + i] == b[i];
    }
  }

  lemma AtEmbedded(pre: seq<Token>, e: seq<Token>, post: seq<Token>)
    ensures At(pre + e + post, |pre|, e)
  {
  }

  // ---------------------------------------------------------------------------
  // Flattening order.
  // ---------------------------------------------------------------------------

  /** `Write(Bounds)` is depth-first: the three fields of `center`, then the three of `size`. */
  lemma BoundsFlattensDepthFirst(b: Bounds)
    ensures EncodeBounds(b) == [FloatToken(b.center.x), FloatToken(b.center.y), FloatToken(b.center.z),
                                FloatToken(b.size.x), FloatToken(b.size.y), FloatToken(b.size.z)]
  {
  }

  /** `Write(Matrix4x4)` emits 16 float tokens, column by column: token `i` is component `i % 4` of column `i / 4`. */
  lemma Matrix4x4FlattensByColumn(m: Matrix4x4)
    ensures |EncodeMatrix4x4(m)| == 16
    ensures forall i :: 0 <= i < 16 ==> EncodeMatrix4x4(m)[i] == FloatToken(Component(GetColumn(m, i / 4), i % 4))
  {
    var e := EncodeMatrix4x4(m);
    forall i | 0 <= i < 16 ensures e[i] == FloatToken(Component(GetColumn(m, i / 4), i % 4)) {
      var j, k := i / 4, i % 4;
      assert e[4 * j .. 4 * j + 4] == EncodeVector4(GetColumn(m, j));
      assert e[i] == e[4 * j .. 4 * j + 4][k];
    }
  }

  /**
   * Every `Write` appends tokens with exactly the kinds the matching `Read`
   * asks for; for `BoundsInt` this is the corrected write (the write as
   * written does not, see `BoundsIntAsWrittenDoesNotReadBack`).
   */
  lemma EncodingHasLayout(c: Composite)
    ensures KindsOf(Encode(c)) == Layout(TypeOf(c))
  {
    match c
    case BoundsValue(b) =>
      BoundsHasLayout(b);
    case BoundsIntValue(b) =>
      BoundsIntHasLayout(b);
    case Matrix4x4Value(m) =>
      Matrix4x4HasLayout(m);
    case _ =>
      FlatEncodingHasLayout(c);
  }

  lemma FlatEncodingHasLayout(c: Composite)
    requires !c.BoundsValue? && !c.BoundsIntValue? && !c.Matrix4x4Value?
    ensures KindsOf(Encode(c)) == Layout(TypeOf(c))
  {
  }

  lemma BoundsHasLayout(b: Bounds)
    ensures KindsOf(EncodeBounds(b)) == Floats3 + Floats3
  {
    KindsOfAppend(EncodeVector3(b.center), EncodeVector3(b.size));
  }

  lemma BoundsIntHasLayout(b: BoundsInt)
    ensures KindsOf(EncodeBoundsInt(b)) == Ints3 + Ints3
  {
    KindsOfAppend(EncodeVector3Int(b.position), EncodeVector3Int(b.size));
  }

  lemma Matrix4x4HasLayout(m: Matrix4x4)
    ensures KindsOf(EncodeMatrix4x4(m)) == Floats4 + Floats4 + Floats4 + Floats4
  {
    var e0, e1, e2, e3 := EncodeVector4(m.c0), EncodeVector4(m.c1), EncodeVector4(m.c2), EncodeVector4(m.c3);
    KindsOfAppend(e0 + e1 + e2, e3);
    KindsOfAppend(e0 + e1, e2);
    KindsOfAppend(e0, e1);
  }

  // ---------------------------------------------------------------------------
  // Each `Read` consumes exactly its layout, and no more: it succeeds exactly
  // when the tokens at the cursor have the kinds of its layout, and, success
  // or not, advances the cursor past exactly the tokens it matched. The layout
  // is what the matching `Write` appends, except that for `BoundsInt` it is
  // what the corrected write appends.
  // ---------------------------------------------------------------------------

  lemma Vector2Consumed(src: seq<Token>, at: nat)
    ensures DecodeVector2(src, at).Parsed? <==> Matched(Floats2, src, at) == |Floats2|
    ensures DecodeVector2(src, at).Cursor() == at + Matched(Floats2, src, at)
  {
  }

  lemma Vector3Consumed(src: seq<Token>, at: nat)
    ensures DecodeVector3(src, at).Parsed? <==> Matched(Floats3, src, at) == |Floats3|
    ensures DecodeVector3(src, at).Cursor() == at + Matched(Floats3, src, at)
  {
  }

  lemma Vector4Consumed(src: seq<Token>, at: nat)
    ensures DecodeVector4(src, at).Parsed? <==> Matched(Floats4, src, at) == |Floats4|
    ensures DecodeVector4(src, at).Cursor() == at + Matched(Floats4, src, at)
  {
  }

  lemma Vector2IntConsumed(src: seq<Token>, at: nat)
    ensures DecodeVector2Int(src, at).Parsed? <==> Matched(Ints2, src, at) == |Ints2|
    ensures DecodeVector2Int(src, at).Cursor() == at + Matched(Ints2, src, at)
  {
  }

  lemma Vector3IntConsumed(src: seq<Token>, at: nat)
    ensures DecodeVector3Int(src, at).Parsed? <==> Matched(Ints3, src, at) == |Ints3|
    ensures DecodeVector3Int(src, at).Cursor() == at + Matched(Ints3, src, at)
  {
  }

  lemma QuaternionConsumed(src: seq<Token>, at: nat)
    ensures DecodeQuaternion(src, at).Parsed? <==> Matched(Floats4, src, at) == |Floats4|
    ensures DecodeQuaternion(src, at).Cursor() == at + Matched(Floats4, src, at)
  {
  }

  lemma ColorConsumed(src: seq<Token>, at: nat)
    ensures DecodeColor(src, at).Parsed? <==> Matched(Floats4, src, at) == |Floats4|
    ensures DecodeColor(src, at).Cursor() == at + Matched(Floats4, src, at)
  {
  }

  lemma Color32Consumed(src: seq<Token>, at: nat)
    ensures DecodeColor32(src, at).Parsed? <==> Matched(Bytes4, src, at) == |Bytes4|
    ensures DecodeColor32(src, at).Cursor() == at + Matched(Bytes4, src, at)
  {
  }

  lemma RectConsumed(src: seq<Token>, at: nat)
    ensures DecodeRect(src, at).Parsed? <==> Matched(Floats4, src, at) == |Floats4|
    ensures DecodeRect(src, at).Cursor() == at + Matched(Floats4, src, at)
  {
  }

  lemma RectIntConsumed(src: seq<Token>, at: nat)
    ensures DecodeRectInt(src, at).Parsed? <==> Matched(Ints4, src, at) == |Ints4|
    ensures DecodeRectInt(src, at).Cursor() == at + Matched(Ints4, src, at)
  {
  }

  lemma BoundsConsumed(src: seq<Token>, at: nat)
    ensures DecodeBounds(src, at).Parsed? <==> Matched(Floats3 + Floats3, src, at) == 6
    ensures DecodeBounds(src, at).Cursor() == at + Matched(Floats3 + Floats3, src, at)
  {
    Vector3Consumed(src, at);
    Vector3Consumed(src, at + 3);
    MatchedAppend(Floats3, Floats3, src, at);
  }

  lemma BoundsIntConsumed(src: seq<Token>, at: nat)
    ensures DecodeBoundsInt(src, at).Parsed? <==> Matched(Ints3 + Ints3, src, at) == 6
    ensures DecodeBoundsInt(src, at).Cursor() == at + Matched(Ints3 + Ints3, src, at)
  {
    Vector3IntConsumed(src, at);
    Vector3IntConsumed(src, at + 3);
    MatchedAppend(Ints3, Ints3, src, at);
  }

  lemma Matrix4x4Consumed(src: seq<Token>, at: nat)
    ensures DecodeMatrix4x4(src, at).Parsed? <==> Matched(Floats4 + Floats4 + Floats4 + Floats4, src, at) == 16
    ensures DecodeMatrix4x4(src, at).Cursor() == at + Matched(Floats4 + Floats4 + Floats4 + Floats4, src, at)
  {
    var c0 := DecodeVector4(src, at);
    Vector4Consumed(src, at);
    var c1 := DecodeVector4(src, c0.Cursor());
    Vector4Consumed(src, c0.Cursor());
    FollowsBoth(c0, c1, Floats4, Floats4, src, at);
    var c01 := Both(c0, c1);
    var c2 := DecodeVector4(src, c01.Cursor());
    Vector4Consumed(src, c01.Cursor());
    FollowsBoth(c01, c2, Floats4 + Floats4, Floats4, src, at);
    var c012 := Both(c01, c2);
    var c3 := DecodeVector4(src, c012.Cursor());
    Vector4Consumed(src, c012.Cursor());
    FollowsBoth(c012, c3, Floats4 + Floats4 + Floats4, Floats4, src, at);
    assert Follows(Both(c012, c3), Floats4 + Floats4 + Floats4 + Floats4, src, at);
  }

  lemma VectorsFollowLayout(t: CompositeType, src: seq<Token>, at: nat)
    requires t == Vector2Type || t == Vector3Type || t == Vector4Type || t == Vector2IntType || t == Vector3IntType
    ensures Decode(t, src, at).Parsed? <==> Matched(Layout(t), src, at) == |Layout(t)|
    ensures Decode(t, src, at).Cursor() == at + Matched(Layout(t), src, at)
  {
    match t
    case Vector2Type => Vector2Consumed(src, at);
    case Vector3Type => Vector3Consumed(src, at);
    case Vector4Type => Vector4Consumed(src, at);
    case Vector2IntType => Vector2IntConsumed(src, at);
    case Vector3IntType => Vector3IntConsumed(src, at);
  }

  lemma QuadsFollowLayout(t: CompositeType, src: seq<Token>, at: nat)
    requires t == QuaternionType || t == ColorType || t == Color32Type || t == RectType || t == RectIntType
    ensures Decode(t, src, at).Parsed? <==> Matched(Layout(t), src, at) == |Layout(t)|
    ensures Decode(t, src, at).Cursor() == at + Matched(Layout(t), src, at)
  {
    match t
    case QuaternionType => QuaternionConsumed(src, at);
    case ColorType => ColorConsumed(src, at);
    case Color32Type => Color32Consumed(src, at);
    case RectType => RectConsumed(src, at);
    case RectIntType => RectIntConsumed(src, at);
  }

  lemma NestedFollowLayout(t: CompositeType, src: seq<Token>, at: nat)
    requires t == BoundsType || t == BoundsIntType || t == Matrix4x4Type
    ensures Decode(t, src, at).Parsed? <==> Matched(Layout(t), src, at) == |Layout(t)|
    ensures Decode(t, src, at).Cursor() == at + Matched(Layout(t), src, at)
  {
    match t
    case BoundsType => BoundsConsumed(src, at);
    case BoundsIntType => BoundsIntConsumed(src, at);
    case Matrix4x4Type => Matrix4x4Consumed(src, at);
  }

  /**
   * Any `Read` overload succeeds exactly when the tokens at the cursor have the
   * kinds of its layout, in order; whether it succeeds or not, it advances the
   * cursor past exactly the tokens it matched (on failure: the fields already
   * read).
   */
  lemma DecodeFollowsLayout(t: CompositeType, src: seq<Token>, at: nat)
    ensures Decode(t, src, at).Parsed? <==> Matched(Layout(t), src, at) == |Layout(t)|
    ensures Decode(t, src, at).Cursor() == at + Matched(Layout(t), src, at)
  {
    if t == Vector2Type || t == Vector3Type || t == Vector4Type || t == Vector2IntType || t == Vector3IntType {
      VectorsFollowLayout(t, src, at);
    } else if t == QuaternionType || t == ColorType || t == Color32Type || t == RectType || t == RectIntType {
      QuadsFollowLayout(t, src, at);
    } else {
      NestedFollowLayout(t, src, at);
    }
  }

  // ---------------------------------------------------------------------------
  // Round trips: wherever a value's encoding stands in a stream, the matching
  // `Read` at its first token yields that value and leaves the cursor just
  // after it.
  // ---------------------------------------------------------------------------

  lemma Vector2RoundTrip(v: Vector2, src: seq<Token>, at: nat)
    requires At(src, at, EncodeVector2(v))
    ensures DecodeVector2(src, at) == Parsed(v, at + 2)
  {
    assert src[at] == EncodeVector2(v)[0];
    assert src[at + 1] == EncodeVector2(v)[1];
  }

  lemma Vector3RoundTrip(v: Vector3, src: seq<Token>, at: nat)
    requires At(src, at, EncodeVector3(v))
    ensures DecodeVector3(src, at) == Parsed(v, at + 3)
  {
    assert src[at] == EncodeVector3(v)[0];
    assert src[at + 1] == EncodeVector3(v)[1];
    assert src[at + 2] == EncodeVector3(v)[2];
  }

  lemma Vector4RoundTrip(v: Vector4, src: seq<Token>, at: nat)
    requires At(src, at, EncodeVector4(v))
    ensures DecodeVector4(src, at) == Parsed(v, at + 4)
  {
    assert src[at] == EncodeVector4(v)[0];
    assert src[at + 1] == EncodeVector4(v)[1];
    assert src[at + 2] == EncodeVector4(v)[2];
    assert src[at + 3] == EncodeVector4(v)[3];
  }

  lemma Vector2IntRoundTrip(v: Vector2Int, src: seq<Token>, at: nat)
    requires At(src, at, EncodeVector2Int(v))
    ensures DecodeVector2Int(src, at) == Parsed(v, at + 2)
  {
    assert src[at] == EncodeVector2Int(v)[0];
    assert src[at + 1] == EncodeVector2Int(v)[1];
  }

  lemma Vector3IntRoundTrip(v: Vector3Int, src: seq<Token>, at: nat)
    requires At(src, at, EncodeVector3Int(v))
    ensures DecodeVector3Int(src, at) == Parsed(v, at + 3)
  {
    assert src[at] == EncodeVector3Int(v)[0];
    assert src[at + 1] == EncodeVector3Int(v)[1];
    assert src[at + 2] == EncodeVector3Int(v)[2];
  }

  lemma QuaternionRoundTrip(v: Quaternion, src: seq<Token>, at: nat)
    requires At(src, at, EncodeQuaternion(v))
    ensures DecodeQuaternion(src, at) == Parsed(v, at + 4)
  {
    assert src[at] == EncodeQuaternion(v)[0];
    assert src[at + 1] == EncodeQuaternion(v)[1];
    assert src[at + 2] == EncodeQuaternion(v)[2];
    assert src[at + 3] == EncodeQuaternion(v)[3];
  }

  lemma ColorRoundTrip(v: Color, src: seq<Token>, at: nat)
    requires At(src, at, EncodeColor(v))
    ensures DecodeColor(src, at) == Parsed(v, at + 4)
  {
    assert src[at] == EncodeColor(v)[0];
    assert src[at + 1] == EncodeColor(v)[1];
    assert src[at + 2] == EncodeColor(v)[2];
    assert src[at + 3] == EncodeColor(v)[3];
  }

  lemma Color32RoundTrip(v: Color32, src: seq<Token>, at: nat)
    requires At(src, at, EncodeColor32(v))
    ensures DecodeColor32(src, at) == Parsed(v, at + 4)
  {
    assert src[at] == EncodeColor32(v)[0];
    assert src[at + 1] == EncodeColor32(v)[1];
    assert src[at + 2] == EncodeColor32(v)[2];
    assert src[at + 3] == EncodeColor32(v)[3];
  }

  lemma RectRoundTrip(v: Rect, src: seq<Token>, at: nat)
    requires At(src, at, EncodeRect(v))
    ensures DecodeRect(src, at) == Parsed(v, at + 4)
  {
    assert src[at] == EncodeRect(v)[0];
    assert src[at + 1] == EncodeRect(v)[1];
    assert src[at + 2] == EncodeRect(v)[2];
    assert src[at + 3] == EncodeRect(v)[3];
  }

  lemma RectIntRoundTrip(v: RectInt, src: seq<Token>, at: nat)
    requires At(src, at, EncodeRectInt(v))
    ensures DecodeRectInt(src, at) == Parsed(v, at + 4)
  {
    assert src[at] == EncodeRectInt(v)[0];
    assert src[at + 1] == EncodeRectInt(v)[1];
    assert src[at + 2] == EncodeRectInt(v)[2];
    assert src[at + 3] == EncodeRectInt(v)[3];
  }

  lemma BoundsRoundTrip(b: Bounds, src: seq<Token>, at: nat)
    requires At(src, at, EncodeBounds(b))
    ensures DecodeBounds(src, at) == Parsed(b, at + 6)
  {
    AtAppend(src, at, EncodeVector3(b.center), EncodeVector3(b.size));
    Vector3RoundTrip(b.center, src, at);
    Vector3RoundTrip(b.size, src, at + 3);
  }

  lemma BoundsIntRoundTrip(b: BoundsInt, src: seq<Token>, at: nat)
    requires At(src, at, EncodeBoundsInt(b))
    ensures DecodeBoundsInt(src, at) == Parsed(b, at + 6)
  {
    AtAppend(src, at, EncodeVector3Int(b.position), EncodeVector3Int(b.size));
    Vector3IntRoundTrip(b.position, src, at);
    Vector3IntRoundTrip(b.size, src, at + 3);
  }

  /** The matrix is rebuilt from the four columns it was written as. */
  lemma Matrix4x4RoundTrip(m: Matrix4x4, src: seq<Token>, at: nat)
    requires At(src, at, EncodeMatrix4x4(m))
    ensures DecodeMatrix4x4(src, at) == Parsed(m, at + 16)
  {
    var e0, e1, e2, e3 := EncodeVector4(m.c0), EncodeVector4(m.c1), EncodeVector4(m.c2), EncodeVector4(m.c3);
    AtAppend(src, at, e0 + e1 + e2, e3);
    AtAppend(src, at, e0 + e1, e2);
    AtAppend(src, at, e0, e1);
    Vector4RoundTrip(m.c0, src, at);
    Vector4RoundTrip(m.c1, src, at + 4);
    Vector4RoundTrip(m.c2, src, at + 8);
    Vector4RoundTrip(m.c3, src, at + 12);
  }

  lemma VectorsRoundTripAt(c: Composite, src: seq<Token>, at: nat)
    requires c.Vector2Value? || c.Vector3Value? || c.Vector4Value? || c.Vector2IntValue? || c.Vector3IntValue?
    requires At(src, at, Encode(c))
    ensures Decode(TypeOf(c), src, at) == Parsed(c, at + |Encode(c)|)
  {
    match c
    case Vector2Value(v) => Vector2RoundTrip(v, src, at);
    case Vector3Value(v) => Vector3RoundTrip(v, src, at);
    case Vector4Value(v) => Vector4RoundTrip(v, src, at);
    case Vector2IntValue(v) => Vector2IntRoundTrip(v, src, at);
    case Vector3IntValue(v) => Vector3IntRoundTrip(v, src, at);
  }

  lemma QuadsRoundTripAt(c: Composite, src: seq<Token>, at: nat)
    requires c.QuaternionValue? || c.ColorValue? || c.Color32Value? || c.RectValue? || c.RectIntValue?
    requires At(src, at, Encode(c))
    ensures Decode(TypeOf(c), src, at) == Parsed(c, at + |Encode(c)|)
  {
    match c
    case QuaternionValue(v) => QuaternionRoundTrip(v, src, at);
    case ColorValue(v) => ColorRoundTrip(v, src, at);
    case Color32Value(v) => Color32RoundTrip(v, src, at);
    case RectValue(v) => RectRoundTrip(v, src, at);
    case RectIntValue(v) => RectIntRoundTrip(v, src, at);
  }

  lemma Matrix4x4Wrapped(m: Matrix4x4, src: seq<Token>, at: nat)
    requires DecodeMatrix4x4(src, at) == Parsed(m, at + 16)
    ensures Decode(Matrix4x4Type, src, at) == Parsed(Matrix4x4Value(m), at + 16)
  {
  }

  lemma Matrix4x4ValueRoundTrip(m: Matrix4x4, src: seq<Token>, at: nat)
    requires At(src, at, Encode(Matrix4x4Value(m)))
    ensures Decode(Matrix4x4Type, src, at) == Parsed(Matrix4x4Value(m), at + |Encode(Matrix4x4Value(m))|)
  {
    Matrix4x4RoundTrip(m, src, at);
    Matrix4x4Wrapped(m, src, at);
  }

  lemma BoundsValueRoundTrip(b: Bounds, src: seq<Token>, at: nat)
    requires At(src, at, Encode(BoundsValue(b)))
    ensures Decode(BoundsType, src, at) == Parsed(BoundsValue(b), at + |Encode(BoundsValue(b))|)
  {
    BoundsRoundTrip(b, src, at);
  }

  lemma BoundsIntValueRoundTrip(b: BoundsInt, src: seq<Token>, at: nat)
    requires At(src, at, Encode(BoundsIntValue(b)))
    ensures Decode(BoundsIntType, src, at) == Parsed(BoundsIntValue(b), at + |Encode(BoundsIntValue(b))|)
  {
    BoundsIntRoundTrip(b, src, at);
  }

  lemma RoundTripAt(c: Composite, src: seq<Token>, at: nat)
    requires At(src, at, Encode(c))
    ensures Decode(TypeOf(c), src, at) == Parsed(c, at + |Encode(c)|)
  {
    if c.Vector2Value? || c.Vector3Value? || c.Vector4Value? || c.Vector2IntValue? || c.Vector3IntValue? {
      VectorsRoundTripAt(c, src, at);
    } else if c.QuaternionValue? || c.ColorValue? || c.Color32Value? || c.RectValue? || c.RectIntValue? {
      QuadsRoundTripAt(c, src, at);
    } else if c.BoundsValue? {
      BoundsValueRoundTrip(c.b, src, at);
    } else if c.BoundsIntValue? {
      BoundsIntValueRoundTrip(c.bi, src, at);
    } else {
      Matrix4x4ValueRoundTrip(c.m, src, at);
    }
  }

  /** Reading a freshly written value, whatever surrounds it, yields the original value. */
  lemma RoundTrip(c: Composite, pre: seq<Token>, post: seq<Token>)
    ensures Decode(TypeOf(c), pre + Encode(c) + post, |pre|) == Parsed(c, |pre| + |Encode(c)|)
  {
    AtEmbedded(pre, Encode(c), post);
    RoundTripAt(c, pre + Encode(c) + post, |pre|);
  }

  // ---------------------------------------------------------------------------
  // Composites one after another.
  // ---------------------------------------------------------------------------

  /** A chain of `Write` calls, one composite after another. */
  function EncodeAll(cs: seq<Composite>): seq<Token> {
    if cs == [] then [] else Encode(cs[0]) + EncodeAll(cs[1..])
  }

  function TypesOf(cs: seq<Composite>): seq<CompositeType> {
    seq(|cs|, i requires 0 <= i < |cs| => TypeOf(cs[i]))
  }

  /** A chain of `Read` calls, one per type, stopping at the first that fails. */
  function DecodeAll(ts: seq<CompositeType>, src: seq<Token>, at: nat): Parsed<seq<Composite>>
    decreases |ts|
  {
    if ts == [] then Parsed([], at)
    else
      var first :- Decode(ts[0], src, at);
      var rest :- DecodeAll(ts[1..], src, first.1);
      Parsed([first.0] + rest.0, rest.1)
  }

  /** `DecodeAll` after a first `Read` that succeeded. */
  lemma DecodeAllAfterFirst(ts: seq<CompositeType>, src: seq<Token>, at: nat, first: Composite, next: nat)
    requires ts != [] && Decode(ts[0], src, at) == Parsed(first, next)
    ensures DecodeAll(ts, src, at) ==
            match DecodeAll(ts[1..], src, next)
            case Parsed(rest, n) => Parsed([first] + rest, n)
            case Failed(n) => Failed(n)
  {
  }

  /**
   * Writing composites one after another and reading them back in the same
   * order recovers every one of them: no tag, length or padding separates them.
   */
  lemma {:induction false} SequenceRoundTripAt(cs: seq<Composite>, src: seq<Token>, at: nat)
    requires At(src, at, EncodeAll(cs))
    ensures DecodeAll(TypesOf(cs), src, at) == Parsed(cs, at + |EncodeAll(cs)|)
    decreases |cs|
  {
    if cs != [] {
      var ts, next := TypesOf(cs), at + |Encode(cs[0])|;
      AtAppend(src, at, Encode(cs[0]), EncodeAll(cs[1..]));
      RoundTripAt(cs[0], src, at);
      assert ts[1..] == TypesOf(cs[1..]);
      SequenceRoundTripAt(cs[1..], src, next);
      DecodeAllAfterFirst(ts, src, at, cs[0], next);
      assert [cs[0]] + cs[1..] == cs;
    }
  }

  lemma SequenceRoundTrip(cs: seq<Composite>, pre: seq<Token>, post: seq<Token>)
    ensures DecodeAll(TypesOf(cs), pre + EncodeAll(cs) + post, |pre|) == Parsed(cs, |pre| + |EncodeAll(cs)|)
  {
    AtEmbedded(pre, EncodeAll(cs), post);
    SequenceRoundTripAt(cs, pre + EncodeAll(cs) + post, |pre|);
  }

  // ---------------------------------------------------------------------------
  // `Write(BoundsInt)` as written.
  // ---------------------------------------------------------------------------

  /**
   * What `Write(BoundsInt)` emits does not have the layout `Read(out BoundsInt)`
   * expects: three floats stand where three ints are read, so the read stops at
   * the first token, whatever the box and whatever follows.
   */
  lemma BoundsIntAsWrittenDoesNotReadBack(b: BoundsInt, center: Vector3, pre: seq<Token>, post: seq<Token>)
    ensures KindsOf(EncodeBoundsIntAsWritten(b, center)) != Layout(BoundsIntType)
    ensures Decode(BoundsIntType, pre + EncodeBoundsIntAsWritten(b, center) + post, |pre|) == Failed(|pre|)
  {
    var src := pre + EncodeBoundsIntAsWritten(b, center) + post;
    assert KindsOf(EncodeBoundsIntAsWritten(b, center))[0] == FloatKind;
    assert src[|pre|] == FloatToken(center.x);
  }
}
