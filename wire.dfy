/**
 * The primitive layer of the QuickBin engine, as the composite adapters see it.
 *
 * The adapters in Assets/QuickBin/UnityTypes.cs only ever call the primitive
 * `Serializer.Write(int | byte | float)` and `Deserializer.Read(out int | byte | float)`.
 * Their byte encodings are not part of this model: a written primitive is one
 * `Token` appended to the stream, and a read primitive pops one token of the
 * requested kind at the cursor, or fails without moving the cursor.
 */
module Wire {

  /** A C# `int`: 32-bit signed. The adapters copy ints and never compute with them. */
  newtype int32 = x: int | -0x8000_0000 <= x < 0x8000_0000

  /** A C# `byte`. */
  newtype byte = x: int | 0 <= x < 0x100

  /**
   * A C# `float`, kept opaque: `bits` identifies the value and is never
   * interpreted (no IEEE arithmetic happens in the adapters).
   */
  datatype Float = Float(bits: int)

  /** One primitive as it stands in the written stream. */
  datatype Token = IntToken(i: int32) | ByteToken(b: byte) | FloatToken(f: Float)

  /** The primitive kind a `Read(out …)` call asks for. */
  datatype Kind = IntKind | ByteKind | FloatKind

  datatype Option<+T> = None | Some(value: T)

  function KindOf(t: Token): Kind {
    match t
    case IntToken(_) => IntKind
    case ByteToken(_) => ByteKind
    case FloatToken(_) => FloatKind
  }

  /** The kinds of a token sequence, position by position. */
  function KindsOf(s: seq<Token>): seq<Kind> {
    seq(|s|, i requires 0 <= i < |s| => KindOf(s[i]))
  }

  /**
   * The outcome of reading from a token source starting at a cursor: either the
   * value read and the cursor after it, or the cursor at which the read stopped.
   * Failure propagates with `:-`, carrying that cursor along.
   */
  datatype Parsed<+T> = Parsed(value: T, next: nat) | Failed(at: nat) {

    predicate IsFailure() {
      Failed?
    }

    function PropagateFailure<U>(): Parsed<U>
      requires Failed?
    {
      Failed(at)
    }

    function Extract(): (T, nat)
      requires Parsed?
    {
      (value, next)
    }

    /** Where the cursor stands after this outcome, success or not. */
    function Cursor(): nat {
      if Parsed? then next else at
    }
  }

  /**
   * A read method's result and cursor agree with the outcome `p`: the value it
   * produced (none on failure) and the cursor it left behind.
   */
  predicate Yields<T(==)>(p: Parsed<T>, produced: Option<T>, cursor: nat) {
    match p
    case Parsed(v, n) => produced == Some(v) && cursor == n
    case Failed(n) => produced == None && cursor == n
  }

  /** `Read(out int)`: one int token at the cursor, or failure with the cursor unmoved. */
  function ReadIntAt(src: seq<Token>, at: nat): Parsed<int32> {
    if at < |src| && src[at].IntToken? then Parsed(src[at].i, at + 1) else Failed(at)
  }

  /** `Read(out byte)`: one byte token at the cursor, or failure with the cursor unmoved. */
  function ReadByteAt(src: seq<Token>, at: nat): Parsed<byte> {
    if at < |src| && src[at].ByteToken? then Parsed(src[at].b, at + 1) else Failed(at)
  }

  /** `Read(out float)`: one float token at the cursor, or failure with the cursor unmoved. */
  function ReadFloatAt(src: seq<Token>, at: nat): Parsed<Float> {
    if at < |src| && src[at].FloatToken? then Parsed(src[at].f, at + 1) else Failed(at)
  }

  /**
   * How many tokens of `src`, from `at` on, have the kinds `layout` asks for,
   * position by position, before the first one that does not (or the end).
   */
  function Matched(layout: seq<Kind>, src: seq<Token>, at: nat): nat
    decreases |layout|
  {
    if |layout| == 0 || at >= |src| || KindOf(src[at]) != layout[0] then 0
    else 1 + Matched(layout[1..], src, at + 1)
  }

  /**
   * `Matched` is the length of the longest prefix of `layout` that the tokens
   * from `at` on follow: it stays within the layout and the source, every
   * token it counts has the kind asked for, and the next one (if the layout
   * asks for more) is missing or of another kind.
   */
  lemma {:induction false} MatchedIsLongestPrefix(layout: seq<Kind>, src: seq<Token>, at: nat)
    ensures Matched(layout, src, at) <= |layout|
    ensures Matched(layout, src, at) > 0 ==> at + Matched(layout, src, at) <= |src|
    ensures forall i :: 0 <= i < Matched(layout, src, at) ==> KindOf(src[at + i]) == layout[i]
    ensures Matched(layout, src, at) < |layout| ==>
              at + Matched(layout, src, at) >= |src| || KindOf(src[at + Matched(layout, src, at)]) != layout[Matched(layout, src, at)]
    decreases |layout|
  {
    if |layout| > 0 && at < |src| && KindOf(src[at]) == layout[0] {
      MatchedIsLongestPrefix(layout[1..], src, at + 1);
      var n := Matched(layout[1..], src, at + 1);
      forall i | 0 <= i < 1 + n ensures KindOf(src[at + i]) == layout[i] {
        if i > 0 {
          assert KindOf(src[at + 1 + (i - 1)]) == layout[1..][i - 1];
        }
      }
    }
  }

  /** A primitive read succeeds exactly when the one-kind layout is matched, and moves the cursor by that much. */
  lemma PrimitiveReadsFollowLayout(src: seq<Token>, at: nat)
    ensures ReadIntAt(src, at).Parsed? <==> Matched([IntKind], src, at) == 1
    ensures ReadByteAt(src, at).Parsed? <==> Matched([ByteKind], src, at) == 1
    ensures ReadFloatAt(src, at).Parsed? <==> Matched([FloatKind], src, at) == 1
    ensures ReadIntAt(src, at).Cursor() == at + Matched([IntKind], src, at)
    ensures ReadByteAt(src, at).Cursor() == at + Matched([ByteKind], src, at)
    ensures ReadFloatAt(src, at).Cursor() == at + Matched([FloatKind], src, at)
  {
  }

  /**
   * Reading layout `a` and then layout `b` matches exactly what the layout
   * `a + b` matches: the second part is only reached when the first is whole.
   */
  lemma {:induction false} MatchedAppend(a: seq<Kind>, b: seq<Kind>, src: seq<Token>, at: nat)
    ensures Matched(a + b, src, at) ==
            if Matched(a, src, at) < |a| then Matched(a, src, at)
            else |a| + Matched(b, src, at + |a|)
    decreases |a|
  {
    if |a| > 0 && at < |src| && KindOf(src[at]) == a[0] {
      assert (a + b)[1..] == a[1..] + b;
      MatchedAppend(a[1..], b, src, at + 1);
    } else if |a| == 0 {
      assert a + b == b;
    }
  }

  /** The kinds of a concatenation are the kinds of its parts, concatenated. */
  lemma KindsOfAppend(a: seq<Token>, b: seq<Token>)
    ensures KindsOf(a + b) == KindsOf(a) + KindsOf(b)
  {
  }

  /**
   * The outcome `p` of a read from `at` is exactly what the layout predicts:
   * it succeeds when the whole layout is matched, and leaves the cursor past
   * the matched tokens either way.
   */
  ghost predicate Follows<T>(p: Parsed<T>, layout: seq<Kind>, src: seq<Token>, at: nat) {
    (p.Parsed? <==> Matched(layout, src, at) == |layout|) && p.Cursor() == at + Matched(layout, src, at)
  }

  /** One read followed by another from where the first stopped, failing at the first failure. */
  function Both<X, Y>(p: Parsed<X>, q: Parsed<Y>): Parsed<(X, Y)> {
    if p.Failed? then Failed(p.at)
    else if q.Failed? then Failed(q.at)
    else Parsed((p.value, q.value), q.next)
  }

  /** A read that follows `a` and then one that follows `b` together follow `a + b`. */
  lemma FollowsBoth<X, Y>(p: Parsed<X>, q: Parsed<Y>, a: seq<Kind>, b: seq<Kind>, src: seq<Token>, at: nat)
    requires Follows(p, a, src, at)
    requires p.Parsed? ==> Follows(q, b, src, p.next)
    ensures Follows(Both(p, q), a + b, src, at)
  {
    MatchedAppend(a, b, src, at);
    MatchedIsLongestPrefix(a, src, at);
  }
}
