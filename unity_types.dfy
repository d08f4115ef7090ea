/**
 * The Unity value types that Assets/QuickBin/UnityTypes.cs adapts, and the
 * token sequences their `Write` overloads emit and their `Read` overloads
 * consume. Every field is copied, never computed with, so the structs are
 * plain records of their fields.
 */
module UnityTypes {
  import opened Wire

  datatype Vector2 = Vector2(x: Float, y: Float)
  datatype Vector3 = Vector3(x: Float, y: Float, z: Float)
  datatype Vector4 = Vector4(x: Float, y: Float, z: Float, w: Float)
  datatype Vector2Int = Vector2Int(x: int32, y: int32)
  datatype Vector3Int = Vector3Int(x: int32, y: int32, z: int32)
  datatype Quaternion = Quaternion(x: Float, y: Float, z: Float, w: Float)
  datatype Color = Color(r: Float, g: Float, b: Float, a: Float)
  datatype Color32 = Color32(r: byte, g: byte, b: byte, a: byte)
  datatype Rect = Rect(x: Float, y: Float, width: Float, height: Float)
  datatype RectInt = RectInt(x: int32, y: int32, width: int32, height: int32)
  datatype Bounds = Bounds(center: Vector3, size: Vector3)
  /** Unity builds a `BoundsInt` from its integer `position` (minimum corner) and `size`. */
  datatype BoundsInt = BoundsInt(position: Vector3Int, size: Vector3Int)
  /** A matrix as the four columns it is rebuilt from. */
  datatype Matrix4x4 = Matrix4x4(c0: Vector4, c1: Vector4, c2: Vector4, c3: Vector4)

  /** `Matrix4x4.GetColumn(i)`. */
  function GetColumn(m: Matrix4x4, i: nat): Vector4
    requires i < 4
  {
    match i
    case 0 => m.c0
    case 1 => m.c1
    case 2 => m.c2
    case _ => m.c3
  }

  /** Component `k` of a `Vector4`, in the order x, y, z, w. */
  function Component(v: Vector4, k: nat): Float
    requires k < 4
  {
    match k
    case 0 => v.x
    case 1 => v.y
    case 2 => v.z
    case _ => v.w
  }

  // ---------------------------------------------------------------------------
  // What each `Serializer.Write` overload appends.
  // ---------------------------------------------------------------------------

  function EncodeVector2(v: Vector2): seq<Token> {
    [FloatToken(v.x), FloatToken(v.y)]
  }

  function EncodeVector3(v: Vector3): seq<Token> {
    [FloatToken(v.x), FloatToken(v.y), FloatToken(v.z)]
  }

  function EncodeVector4(v: Vector4): seq<Token> {
    [FloatToken(v.x), FloatToken(v.y), FloatToken(v.z), FloatToken(v.w)]
  }

  function EncodeVector2Int(v: Vector2Int): seq<Token> {
    [IntToken(v.x), IntToken(v.y)]
  }

  function EncodeVector3Int(v: Vector3Int): seq<Token> {
    [IntToken(v.x), IntToken(v.y), IntToken(v.z)]
  }

  function EncodeQuaternion(q: Quaternion): seq<Token> {
    [FloatToken(q.x), FloatToken(q.y), FloatToken(q.z), FloatToken(q.w)]
  }

  function EncodeColor(c: Color): seq<Token> {
    [FloatToken(c.r), FloatToken(c.g), FloatToken(c.b), FloatToken(c.a)]
  }

  function EncodeColor32(c: Color32): seq<Token> {
    [ByteToken(c.r), ByteToken(c.g), ByteToken(c.b), ByteToken(c.a)]
  }

  function EncodeRect(r: Rect): seq<Token> {
    [FloatToken(r.x), FloatToken(r.y), FloatToken(r.width), FloatToken(r.height)]
  }

  function EncodeRectInt(r: RectInt): seq<Token> {
    [IntToken(r.x), IntToken(r.y), IntToken(r.width), IntToken(r.height)]
  }

  function EncodeBounds(b: Bounds): seq<Token> {
    EncodeVector3(b.center) + EncodeVector3(b.size)
  }

  /**
   * What `Write(BoundsInt)` emits as written: `value.center`, which in Unity is
   * the float `Vector3` midpoint of the box (computed by Unity, so passed in
   * here), then `size`.
   */
  function EncodeBoundsIntAsWritten(b: BoundsInt, center: Vector3): seq<Token> {
    EncodeVector3(center) + EncodeVector3Int(b.size)
  }

  /** The encoding `Read(out BoundsInt)` expects: `position`, then `size`. */
  function EncodeBoundsInt(b: BoundsInt): seq<Token> {
    EncodeVector3Int(b.position) + EncodeVector3Int(b.size)
  }

  function EncodeMatrix4x4(m: Matrix4x4): seq<Token> {
    EncodeVector4(GetColumn(m, 0)) + EncodeVector4(GetColumn(m, 1))
      + EncodeVector4(GetColumn(m, 2)) + EncodeVector4(GetColumn(m, 3))
  }

  // ---------------------------------------------------------------------------
  // What each `Deserializer.Read(out …)` overload consumes: the same primitive
  // reads, in the same order, stopping at the first one that fails.
  // ---------------------------------------------------------------------------

  function DecodeVector2(src: seq<Token>, at: nat): Parsed<Vector2> {
    var x :- ReadFloatAt(src, at);
    var y :- ReadFloatAt(src, x.1);
    Parsed(Vector2(x.0, y.0), y.1)
  }

  function DecodeVector3(src: seq<Token>, at: nat): Parsed<Vector3> {
    var x :- ReadFloatAt(src, at);
    var y :- ReadFloatAt(src, x.1);
    var z :- ReadFloatAt(src, y.1);
    Parsed(Vector3(x.0, y.0, z.0), z.1)
  }

  function DecodeVector4(src: seq<Token>, at: nat): Parsed<Vector4> {
    var x :- ReadFloatAt(src, at);
    var y :- ReadFloatAt(src, x.1);
    var z :- ReadFloatAt(src, y.1);
    var w :- ReadFloatAt(src, z.1);
    Parsed(Vector4(x.0, y.0, z.0, w.0), w.1)
  }

  function DecodeVector2Int(src: seq<Token>, at: nat): Parsed<Vector2Int> {
    var x :- ReadIntAt(src, at);
    var y :- ReadIntAt(src, x.1);
    Parsed(Vector2Int(x.0, y.0), y.1)
  }

  function DecodeVector3Int(src: seq<Token>, at: nat): Parsed<Vector3Int> {
    var x :- ReadIntAt(src, at);
    var y :- ReadIntAt(src, x.1);
    var z :- ReadIntAt(src, y.1);
    Parsed(Vector3Int(x.0, y.0, z.0), z.1)
  }

  function DecodeQuaternion(src: seq<Token>, at: nat): Parsed<Quaternion> {
    var x :- ReadFloatAt(src, at);
    var y :- ReadFloatAt(src, x.1);
    var z :- ReadFloatAt(src, y.1);
    var w :- ReadFloatAt(src, z.1);
    Parsed(Quaternion(x.0, y.0, z.0, w.0), w.1)
  }

  function DecodeColor(src: seq<Token>, at: nat): Parsed<Color> {
    var r :- ReadFloatAt(src, at);
    var g :- ReadFloatAt(src, r.1);
    var b :- ReadFloatAt(src, g.1);
    var a :- ReadFloatAt(src, b.1);
    Parsed(Color(r.0, g.0, b.0, a.0), a.1)
  }

  function DecodeColor32(src: seq<Token>, at: nat): Parsed<Color32> {
    var r :- ReadByteAt(src, at);
    var g :- ReadByteAt(src, r.1);
    var b :- ReadByteAt(src, g.1);
    var a :- ReadByteAt(src, b.1);
    Parsed(Color32(r.0, g.0, b.0, a.0), a.1)
  }

  function DecodeMatrix4x4(src: seq<Token>, at: nat): Parsed<Matrix4x4> {
    var c1 :- DecodeVector4(src, at);
    var c2 :- DecodeVector4(src, c1.1);
    var c3 :- DecodeVector4(src, c2.1);
    var c4 :- DecodeVector4(src, c3.1);
    Parsed(Matrix4x4(c1.0, c2.0, c3.0, c4.0), c4.1)
  }

  function DecodeRect(src: seq<Token>, at: nat): Parsed<Rect> {
    var x :- ReadFloatAt(src, at);
    var y :- ReadFloatAt(src, x.1);
    var width :- ReadFloatAt(src, y.1);
    var height :- ReadFloatAt(src, width.1);
    Parsed(Rect(x.0, y.0, width.0, height.0), height.1)
  }

  function DecodeRectInt(src: seq<Token>, at: nat): Parsed<RectInt> {
    var x :- ReadIntAt(src, at);
    var y :- ReadIntAt(src, x.1);
    var width :- ReadIntAt(src, y.1);
    var height :- ReadIntAt(src, width.1);
    Parsed(RectInt(x.0, y.0, width.0, height.0), height.1)
  }

  function DecodeBounds(src: seq<Token>, at: nat): Parsed<Bounds> {
    var center :- DecodeVector3(src, at);
    var size :- DecodeVector3(src, center.1);
    Parsed(Bounds(center.0, size.0), size.1)
  }

  /** Reads two `Vector3Int`s; the first becomes the constructor's `position`. */
  function DecodeBoundsInt(src: seq<Token>, at: nat): Parsed<BoundsInt> {
    var center :- DecodeVector3Int(src, at);
    var size :- DecodeVector3Int(src, center.1);
    Parsed(BoundsInt(center.0, size.0), size.1)
  }
}
