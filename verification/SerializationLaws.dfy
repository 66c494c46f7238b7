/** Laws of the serialization framework: the one-memcpy readers against the
    element-by-element ones, the round trip, and the length of a value. */
module SerializationLaws {
  import opened Options
  import opened Bytes
  import opened Numbers
  import opened Serialization

  // ---------------------------------------------------------------- fast path, reading

  lemma SliceShift(b: Bytes, lo: nat, w: nat)
    requires lo + 2 * w <= |b|
    ensures b[w..][lo..lo + w] == b[lo + w..lo + w + w]
  {
  }

  lemma SliceOfSlice(b: Bytes, w: nat, p: nat)
    requires w + p <= |b|
    ensures b[..p + w][w..] == b[w..][..p] && b[..p + w][..w] == b[..w] && b[w..][p..] == b[p + w..]
  {
  }

  /** Past the first number, the storage holds the numbers of its tail. */
  lemma Fewer(i: nat, n: nat, w: nat)
    requires i <= n
    ensures i * w <= n * w
  {
  }

  lemma NumberAtTail(b: Bytes, w: Width, n: nat, i: nat)
    requires n > 0 && |b| == n * w && 0 < i < n
    ensures |b[w..]| == (n - 1) * w
    ensures NumberAt(b, w, n, i) == NumberAt(b[w..], w, n - 1, i - 1)
  {
    var lo, rest := (i - 1) * w, (n - 1) * w;
    OneMore(i, w);
    OneMore(n, w);
    Fewer(i, n - 1, w);
    hide FromBytes;
    SliceShift(b, lo, w);
  }

  lemma StoredOfTail(b: Bytes, w: Width, n: nat)
    requires n > 0 && |b| == n * w
    ensures w <= |b| && |b[w..]| == (n - 1) * w
    ensures Stored(b, w, n) == [Num(FromBytes(b[..w]))] + Stored(b[w..], w, n - 1)
  {
    assert n * w == (n - 1) * w + w;
    forall i | 0 < i < n
      ensures Stored(b, w, n)[i] == Stored(b[w..], w, n - 1)[i - 1]
    {
      NumberAtTail(b, w, n, i);
    }
  }

  /** n numbers taken off the front of b. */
  function StoredFirst(b: Bytes, w: Width, n: nat): Parsed {
    if |b| < n * w then None else Some((Items(Stored(b[..n * w], w, n)), b[n * w..]))
  }

  lemma OneMore(n: nat, w: nat)
    requires n > 0
    ensures n * w == (n - 1) * w + w && (n - 1) * w >= 0
  {
  }

  lemma StoredFirstStep(b: Bytes, w: Width, n: nat)
    requires n > 0
    ensures StoredFirst(b, w, n) ==
            if |b| < w then None else Joined([Num(FromBytes(b[..w]))], StoredFirst(b[w..], w, n - 1))
  {
    hide Stored, FromBytes;
    OneMore(n, w);
    var p := (n - 1) * w;
    if |b| >= p + w {
      StoredOfTail(b[..p + w], w, n);
      SliceOfSlice(b, w, p);
    }
  }

  /** The element-by-element reader on scalars. */
  lemma {:induction false} ElementwiseIsStored(b: Bytes, w: Width, n: nat, path: Path)
    ensures DecodeAll(Scalar(w), n, b, path) == StoredFirst(b, w, n)
  {
    if n == 0 {
      assert Stored(b[..0], w, 0) == [];
    } else {
      StoredFirstStep(b, w, n);
      hide StoredFirst;
      if |b| >= w {
        ElementwiseIsStored(b[w..], w, n - 1, path);
      }
    }
  }

  /** The one-memcpy reader accepts and returns what the loop over the elements does,
      except when the byte count wraps and the wrapped count is available: then the
      loop overruns and the memcpy form returns a vector padded with zeros. */
  lemma FastReadExactly(w: Width, n: nat, b: Bytes)
    requires |b| < UINT32
    ensures DecodeBlock(w, n, b) == DecodeAll(Scalar(w), n, b, Loop)
            <==> n * w < UINT32 || |b| < CopyLength(n, w)
  {
    ElementwiseIsStored(b, w, n, Loop);
    if n * w < UINT32 && |b| >= n * w {
      assert b[..n * w] + Zeros(0) == b[..n * w];
    }
  }

  /** Whatever the element-by-element readers accept, the one-memcpy readers accept,
      with the same value and the same rest. */
  lemma {:induction false} FastReadRefines(t: Ty, b: Bytes)
    requires |b| < UINT32 && Decode(t, b, Loop).Some?
    ensures Decode(t, b, Block) == Decode(t, b, Loop)
    ensures |Decode(t, b, Loop).value.1| <= |b|
    decreases t, 0
  {
    match t
    case Vec(e) => FastReadItems(e, FromBytes(b[..4]), b[4..]);
    case Arr(e, n) => FastReadItems(e, n, b);
    case Msg(_, fs) => FastReadFields(fs, b);
    case _ =>
  }

  lemma {:induction false} FastReadItems(t: Ty, n: nat, b: Bytes)
    requires |b| < UINT32 && DecodeAll(t, n, b, Loop).Some?
    ensures DecodeItems(t, n, b, Block) == DecodeAll(t, n, b, Loop)
    ensures |DecodeAll(t, n, b, Loop).value.1| <= |b|
    decreases t, n + 1
  {
    if t.Scalar? {
      FastReadExactly(t.width, n, b);
      ElementwiseIsStored(b, t.width, n, Loop);
    } else {
      FastReadAll(t, n, b);
    }
  }

  lemma {:induction false} FastReadAll(t: Ty, n: nat, b: Bytes)
    requires |b| < UINT32 && DecodeAll(t, n, b, Loop).Some?
    ensures DecodeAll(t, n, b, Block) == DecodeAll(t, n, b, Loop)
    ensures |DecodeAll(t, n, b, Loop).value.1| <= |b|
    decreases t, n
  {
    if n > 0 {
      FastReadRefines(t, b);
      FastReadAll(t, n - 1, Decode(t, b, Loop).value.1);
    }
  }

  lemma {:induction false} FastReadFields(ts: seq<Ty>, b: Bytes)
    requires |b| < UINT32 && DecodeFields(ts, b, Loop).Some?
    ensures DecodeFields(ts, b, Block) == DecodeFields(ts, b, Loop)
    ensures |DecodeFields(ts, b, Loop).value.1| <= |b|
    decreases ts, 0
  {
    if ts != [] {
      FastReadRefines(ts[0], b);
      FastReadFields(ts[1..], Decode(ts[0], b, Loop).value.1);
    }
  }

  // ---------------------------------------------------------------- round trip

  lemma PrefixOfConcat(a: Bytes, b: Bytes)
    ensures (a + b)[..|a|] == a && (a + b)[|a|..] == b
  {
  }

  lemma Concat(a: Bytes, b: Bytes, c: Bytes)
    ensures (a + b) + c == a + (b + c)
  {
  }

  lemma LengthPrefix(n: nat, body: Bytes)
    requires n < UINT32
    ensures FromBytes((ToBytes(n, 4) + body)[..4]) == n
    ensures (ToBytes(n, 4) + body)[4..] == body
  {
    Power256Of4();
    FromToBytes(n, 4);
    PrefixOfConcat(ToBytes(n, 4), body);
  }

  /** Reading the written bytes returns the value and consumes exactly what was written,
      whatever follows, on either path. */
  lemma {:induction false} RoundTrip(v: Val, t: Ty, rest: Bytes, path: Path)
    requires WellFormed(t) && Typed(v, t)
    requires path.Block? ==> BlocksFit(v, t)
    ensures Decode(t, Encode(v, t, path) + rest, path) == Some((v, rest))
    decreases t, 0
  {
    var b := Encode(v, t, path) + rest;
    match t
    case Scalar(w) =>
      FromToBytes(v.n, w);
      PrefixOfConcat(ToBytes(v.n, w), rest);
    case Bool =>
      assert b[1..] == rest;
    case Str =>
      assert b == ToBytes(|v.s|, 4) + (v.s + rest);
      LengthPrefix(|v.s|, v.s + rest);
      PrefixOfConcat(v.s, rest);
    case Vec(e) =>
      var items := EncodeItems(v.vs, e, path);
      assert b == ToBytes(|v.vs|, 4) + (items + rest);
      LengthPrefix(|v.vs|, items + rest);
      RoundTripItems(v.vs, e, rest, path);
    case Arr(e, n) => RoundTripItems(v.vs, e, rest, path);
    case Msg(_, fs) => RoundTripFields(v.vs, fs, rest, path);
  }

  lemma {:induction false} RoundTripItems(vs: seq<Val>, t: Ty, rest: Bytes, path: Path)
    requires WellFormed(t) && AllTyped(vs, t)
    requires path.Block? ==> ItemsFit(vs, t)
    ensures DecodeItems(t, |vs|, EncodeItems(vs, t, path) + rest, path) == Some((Items(vs), rest))
    decreases t, |vs| + 1
  {
    RoundTripAll(vs, t, rest, path);
    if path.Block? && t.Scalar? {
      var w, n, image := t.width, |vs|, Image(vs, t.width);
      ImageIsElementwise(vs, w, path);
      ElementwiseIsStored(image + rest, w, n, path);
      PrefixOfConcat(image, rest);
      assert image + Zeros(0) == image;
    }
  }

  lemma {:induction false} RoundTripAll(vs: seq<Val>, t: Ty, rest: Bytes, path: Path)
    requires WellFormed(t) && AllTyped(vs, t)
    requires path.Block? ==> EachFits(vs, t)
    ensures DecodeAll(t, |vs|, EncodeAll(vs, t, path) + rest, path) == Some((Items(vs), rest))
    decreases t, |vs|
  {
    hide Encode, Decode, BlocksFit, Typed;
    if vs != [] {
      var tail := vs[1..];
      var after := EncodeAll(tail, t, path) + rest;
      if path.Block? {
        EachFitsTail(vs, t);
      }
      RoundTrip(vs[0], t, after, path);
      RoundTripAll(tail, t, rest, path);
      Concat(Encode(vs[0], t, path), EncodeAll(tail, t, path), rest);
      assert [vs[0]] + tail == vs;
    } else {
      assert EncodeAll(vs, t, path) + rest == rest;
    }
  }

  /** A sequence of writes followed by as many reads in the same order is the identity. */
  lemma {:induction false} RoundTripFields(vs: seq<Val>, ts: seq<Ty>, rest: Bytes, path: Path)
    requires forall i | 0 <= i < |ts| :: WellFormed(ts[i])
    requires FieldsTyped(vs, ts)
    requires path.Block? ==> FieldsFit(vs, ts)
    ensures DecodeFields(ts, EncodeFields(vs, ts, path) + rest, path) == Some((Items(vs), rest))
    decreases ts, 0
  {
    hide Encode, Decode, BlocksFit, Typed, WellFormed;
    if ts != [] {
      var after := EncodeFields(vs[1..], ts[1..], path) + rest;
      RoundTrip(vs[0], ts[0], after, path);
      RoundTripFields(vs[1..], ts[1..], rest, path);
      Concat(Encode(vs[0], ts[0], path), EncodeFields(vs[1..], ts[1..], path), rest);
      assert [vs[0]] + vs[1..] == vs;
    } else {
      assert EncodeFields(vs, ts, path) + rest == rest;
    }
  }

  /** A value whose total length is a 32-bit number has no vector too large for the memcpy. */
  lemma ShortValuesFit(v: Val, t: Ty)
    requires WellFormed(t) && Typed(v, t) && |Encode(v, t, Loop)| < UINT32
    ensures BlocksFit(v, t) && Encode(v, t, Block) == Encode(v, t, Loop)
  {
    hide Encode, BlocksFit;
    FastWriteExactly(v, t);
  }

  // ---------------------------------------------------------------- lengths

  /** All values of a type with one length are as long as any other. */
  lemma {:induction false} OneLength(v: Val, u: Val, t: Ty, path: Path)
    requires WellFormed(t) && HasOneLength(t) && Typed(v, t) && Typed(u, t)
    ensures |Encode(v, t, path)| == |Encode(u, t, path)|
    decreases t, 0
  {
    match t
    case Arr(e, n) =>
      if !(path.Block? && e.Scalar?) {
        OneLengthAll(v.vs, u.vs, e, path);
      }
    case Msg(_, fs) => OneLengthFields(v.vs, u.vs, fs, path);
    case _ =>
  }

  lemma {:induction false} OneLengthAll(vs: seq<Val>, us: seq<Val>, t: Ty, path: Path)
    requires WellFormed(t) && HasOneLength(t) && AllTyped(vs, t) && AllTyped(us, t) && |vs| == |us|
    ensures |EncodeAll(vs, t, path)| == |EncodeAll(us, t, path)|
    decreases t, |vs|
  {
    if vs != [] {
      OneLength(vs[0], us[0], t, path);
      OneLengthAll(vs[1..], us[1..], t, path);
    }
  }

  lemma {:induction false} OneLengthFields(vs: seq<Val>, us: seq<Val>, ts: seq<Ty>, path: Path)
    requires forall i | 0 <= i < |ts| :: WellFormed(ts[i]) && HasOneLength(ts[i])
    requires FieldsTyped(vs, ts) && FieldsTyped(us, ts)
    ensures |EncodeFields(vs, ts, path)| == |EncodeFields(us, ts, path)|
    decreases ts, 0
  {
    if ts != [] {
      OneLength(vs[0], us[0], ts[0], path);
      OneLengthFields(vs[1..], us[1..], ts[1..], path);
    }
  }

  /** Elements of a fixed-size type: the length of the first times their number. */
  lemma {:induction false} FrontTimesCount(vs: seq<Val>, t: Ty)
    requires WellFormed(t) && IsFixedSize(t) && AllTyped(vs, t) && vs != []
    ensures |EncodeAll(vs, t, Loop)| == |Encode(vs[0], t, Loop)| * |vs|
  {
    if |vs| > 1 {
      var tail := vs[1..];
      FrontTimesCount(tail, t);
      OneLength(vs[0], tail[0], t, Loop);
      EncodeAllOneMore(vs, t);
      hide Encode, EncodeAll, Typed, WellFormed, IsFixedSize, HasOneLength;
      OneTimesMore(|Encode(vs[0], t, Loop)|, |tail|);
    } else {
      EncodeAllOneMore(vs, t);
    }
  }

  lemma EncodeAllOneMore(vs: seq<Val>, t: Ty)
    requires AllTyped(vs, t) && vs != []
    ensures |EncodeAll(vs, t, Loop)| == |Encode(vs[0], t, Loop)| + |EncodeAll(vs[1..], t, Loop)|
    ensures |vs| == 1 ==> EncodeAll(vs[1..], t, Loop) == []
  {
    hide Encode;
  }

  lemma OneTimesMore(x: nat, n: nat)
    ensures x + x * n == x * (n + 1)
  {
  }

  lemma MulModulo(a: nat, n: nat)
    ensures ((a % UINT32) * n) % UINT32 == (a * n) % UINT32
  {
    var q, r := a / UINT32, a % UINT32;
    assert a * n == (q * n) * UINT32 + r * n;
    Multiples(q * n, r * n);
  }

  lemma {:induction false} Multiples(k: nat, m: nat)
    ensures (k * UINT32 + m) % UINT32 == m % UINT32
  {
    if k > 0 {
      Multiples(k - 1, m);
      assert k * UINT32 + m == ((k - 1) * UINT32 + m) + UINT32;
    }
  }

  /** What a 32-bit addition of lengths computes. */
  lemma AddModulo(a: nat, b: nat)
    ensures (a % UINT32 + b % UINT32) % UINT32 == (a + b) % UINT32
  {
  }

  lemma EncodeAllStep(vs: seq<Val>, t: Ty, path: Path, i: nat)
    requires AllTyped(vs, t) && i < |vs|
    ensures EncodeAll(vs[i..], t, path) == Encode(vs[i], t, path) + EncodeAll(vs[i + 1..], t, path)
  {
    hide Encode;
    assert vs[i..][1..] == vs[i + 1..];
  }

  lemma EncodeFieldsStep(vs: seq<Val>, ts: seq<Ty>, path: Path, i: nat)
    requires FieldsTyped(vs, ts) && i < |ts|
    ensures EncodeFields(vs[i..], ts[i..], path)
            == Encode(vs[i], ts[i], path) + EncodeFields(vs[i + 1..], ts[i + 1..], path)
  {
    hide Encode;
    assert vs[i..][1..] == vs[i + 1..] && ts[i..][1..] == ts[i + 1..];
  }

  /** serializationLength: the length in 32-bit arithmetic, so exact exactly when it is
      below 2^32. */
  method SerializationLength(v: Val, t: Ty) returns (n: nat)
    requires WellFormed(t) && Typed(v, t)
    ensures n == |Encode(v, t, Loop)| % UINT32
    decreases t, 0
  {
    match t {
      case Scalar(w) => n := w;
      case Bool => n := 1;
      case Str => n := (4 + |v.s|) % UINT32;
      case Vec(e) =>
        n := ItemsLength(v.vs, e);
        AddModulo(4, |EncodeAll(v.vs, e, Loop)|);
        n := (4 + n) % UINT32;
      case Arr(e, _) => n := ItemsLength(v.vs, e);
      case Msg(_, fs) => n := LengthStream(v.vs, fs);
    }
  }

  /** The three specialisations for the elements of a vector or array: the element width
      times the count, the front's length times the count, or the sum over the elements. */
  method ItemsLength(vs: seq<Val>, t: Ty) returns (n: nat)
    requires WellFormed(t) && AllTyped(vs, t)
    ensures n == |EncodeAll(vs, t, Loop)| % UINT32
    decreases t, 2
  {
    if t.Scalar? {
      ImageIsElementwise(vs, t.width, Loop);
      n := (|vs| * t.width) % UINT32;
    } else if !IsFixedSize(t) {
      n := SumOfLengths(vs, t);
    } else if vs != [] {
      n := SerializationLength(vs[0], t);
      FrontTimesCount(vs, t);
      MulModulo(|Encode(vs[0], t, Loop)|, |vs|);
      n := (n * |vs|) % UINT32;
    } else {
      n := 0;
    }
  }

  /** The loop that adds up the elements' lengths in a 32-bit sum. */
  method SumOfLengths(vs: seq<Val>, t: Ty) returns (n: nat)
    requires WellFormed(t) && AllTyped(vs, t)
    ensures n == |EncodeAll(vs, t, Loop)| % UINT32
    decreases t, 1
  {
    hide Encode, Typed, WellFormed;
    n := 0;
    ghost var done: nat := 0;
    for i := 0 to |vs|
      invariant done + |EncodeAll(vs[i..], t, Loop)| == |EncodeAll(vs, t, Loop)|
      invariant n == done % UINT32
    {
      var each := SerializationLength(vs[i], t);
      EncodeAllStep(vs, t, Loop, i);
      AddModulo(done, |Encode(vs[i], t, Loop)|);
      n := (n + each) % UINT32;
      done := done + |Encode(vs[i], t, Loop)|;
    }
  }

  /** LStream: every `next` adds the length of one item to a 32-bit count. */
  method LengthStream(vs: seq<Val>, ts: seq<Ty>) returns (n: nat)
    requires forall i | 0 <= i < |ts| :: WellFormed(ts[i])
    requires FieldsTyped(vs, ts)
    ensures n == |EncodeFields(vs, ts, Loop)| % UINT32
    decreases ts, 0
  {
    hide Encode, Typed, WellFormed;
    n := 0;
    ghost var done: nat := 0;
    for i := 0 to |ts|
      invariant done + |EncodeFields(vs[i..], ts[i..], Loop)| == |EncodeFields(vs, ts, Loop)|
      invariant n == done % UINT32
    {
      var each := SerializationLength(vs[i], ts[i]);
      EncodeFieldsStep(vs, ts, Loop, i);
      AddModulo(done, |Encode(vs[i], ts[i], Loop)|);
      n := (n + each) % UINT32;
      done := done + |Encode(vs[i], ts[i], Loop)|;
    }
  }
}
