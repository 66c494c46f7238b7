/** Where the bytes of a value lie: each form of the stream in terms of simpler ones, down
    to the place value of a single byte. */
module Layout {
  import opened Options
  import opened Bytes
  import opened Numbers
  import opened Serialization
  import opened SerializationLaws
  import opened ReadingLaws
  import RawMessages

  // ---------------------------------------------------------------- numbers

  /** A byte is worth 256 times as much as the one before it. */
  lemma {:induction false} PlaceValue(a: Bytes, b: Bytes)
    ensures FromBytes(a + b) == FromBytes(a) + Power256(|a|) * FromBytes(b)
    ensures forall x: byte :: FromBytes([x]) == x
  {
    if a == [] {
      assert a + b == b;
    } else {
      PlaceValue(a[1..], b);
      assert (a + b)[1..] == a[1..] + b;
      Carried(Power256(|a| - 1), FromBytes(b));
    }
  }

  lemma Carried(p: nat, n: nat)
    ensures 256 * (p * n) == (256 * p) * n
  {
  }

  /** A number of 1, 2, 4 or 8 bytes is written least significant byte first. */
  lemma NumberLayout(n: nat, w: Width, path: Path)
    requires n < Power256(w)
    ensures var b := Encode(Num(n), Scalar(w), path);
      && |b| == w && FromBytes(b) == n
      && (w == 1 ==> n == b[0])
      && (w == 2 ==> n == b[0] as int + 0x100 * b[1] as int)
      && (w == 4 ==> n == b[0] as int + 0x100 * b[1] as int + 0x1_0000 * b[2] as int + 0x100_0000 * b[3] as int)
  {
    FromToBytes(n, w);
    var b := ToBytes(n, w);
    if w == 2 {
      TwoBytes(b);
    } else if w == 4 {
      FourBytes(b);
    }
  }

  lemma TwoBytes(b: Bytes)
    requires |b| == 2
    ensures FromBytes(b) == b[0] as int + 0x100 * b[1] as int
  {
    assert FromBytes(b[1..]) == b[1] as int + 256 * FromBytes(b[1..][1..]);
  }

  lemma FourBytes(b: Bytes)
    requires |b| == 4
    ensures FromBytes(b) == b[0] as int + 0x100 * b[1] as int + 0x1_0000 * b[2] as int + 0x100_0000 * b[3] as int
  {
    TwoBytes(b[2..]);
    assert b[1..][1..] == b[2..];
    assert FromBytes(b[1..]) == b[1] as int + 256 * FromBytes(b[2..]);
  }

  // ---------------------------------------------------------------- bool

  /** A bool is written as the one-byte number 1 or 0. */
  lemma BoolIsOneOrZero(b: bool, path: Path)
    ensures Typed(Num(if b then 1 else 0), Scalar(1))
    ensures Encode(Flag(b), Bool, path) == Encode(Num(if b then 1 else 0), Scalar(1), path)
  {
    assert Power256(1) == 256;
    assert ToBytes(if b then 1 else 0, 1) == [if b then 1 else 0];
  }

  /** A bool read is whether the one-byte number read from the same bytes is not 0. */
  lemma BoolIsNonzero(b: Bytes, path: Path)
    ensures match Decode(Scalar(1), b, path)
            case None => Decode(Bool, b, path).None?
            case Some((v, rest)) => v.Num? && Decode(Bool, b, path) == Some((Flag(v.n != 0), rest))
  {
    if |b| >= 1 {
      assert b[..1] == [b[0]];
      assert FromBytes([b[0]]) == b[0];
    }
  }

  // ---------------------------------------------------------------- strings, vectors, arrays, messages

  /** A string is its 32-bit length and then its bytes. */
  lemma StringIsCounted(s: Bytes, path: Path)
    requires |s| < UINT32
    ensures Typed(Num(|s|), Scalar(4))
    ensures Encode(Text(s), Str, path) == Encode(Num(|s|), Scalar(4), path) + s
  {
    Power256Of4();
  }

  /** A vector is its 32-bit length and then the array of its elements. */
  lemma VectorIsCountedArray(vs: seq<Val>, t: Ty, path: Path)
    requires AllTyped(vs, t) && |vs| < UINT32
    ensures Typed(Num(|vs|), Scalar(4)) && Typed(Items(vs), Arr(t, |vs|))
    ensures Encode(Items(vs), Vec(t), path)
         == Encode(Num(|vs|), Scalar(4), path) + Encode(Items(vs), Arr(t, |vs|), path)
  {
    Power256Of4();
  }

  /** Arrays are written element after element. */
  lemma {:induction false} ElementsConcatenate(vs: seq<Val>, ws: seq<Val>, t: Ty)
    requires AllTyped(vs, t) && AllTyped(ws, t)
    ensures AllTyped(vs + ws, t)
    ensures EncodeAll(vs + ws, t, Loop) == EncodeAll(vs, t, Loop) + EncodeAll(ws, t, Loop)
  {
    if vs == [] {
      assert vs + ws == ws;
    } else {
      ElementsConcatenate(vs[1..], ws, t);
      assert (vs + ws)[1..] == vs[1..] + ws;
      Concat(Encode(vs[0], t, Loop), EncodeAll(vs[1..], t, Loop), EncodeAll(ws, t, Loop));
    }
  }

  lemma ArraysConcatenate(vs: seq<Val>, ws: seq<Val>, t: Ty)
    requires AllTyped(vs, t) && AllTyped(ws, t)
    ensures Typed(Items(vs + ws), Arr(t, |vs| + |ws|))
    ensures Encode(Items(vs + ws), Arr(t, |vs| + |ws|), Loop)
         == Encode(Items(vs), Arr(t, |vs|), Loop) + Encode(Items(ws), Arr(t, |ws|), Loop)
  {
    ElementsConcatenate(vs, ws, t);
  }

  lemma ArrayOfOne(v: Val, t: Ty)
    requires Typed(v, t)
    ensures Encode(Items([v]), Arr(t, 1), Loop) == Encode(v, t, Loop)
  {
    assert [v][1..] == [] && EncodeAll([], t, Loop) == [];
    assert EncodeAll([v], t, Loop) == Encode(v, t, Loop) + EncodeAll([v][1..], t, Loop);
    assert Encode(v, t, Loop) + [] == Encode(v, t, Loop);
  }

  /** A message is its fields in order. */
  lemma {:induction false} FieldsConcatenate(vs: seq<Val>, ts: seq<Ty>, ws: seq<Val>, us: seq<Ty>, path: Path)
    requires FieldsTyped(vs, ts) && FieldsTyped(ws, us)
    ensures FieldsTyped(vs + ws, ts + us)
    ensures EncodeFields(vs + ws, ts + us, path) == EncodeFields(vs, ts, path) + EncodeFields(ws, us, path)
  {
    hide Encode, Typed;
    if ts == [] {
      assert vs + ws == ws && ts + us == us;
    } else {
      FieldsConcatenate(vs[1..], ts[1..], ws, us, path);
      assert (vs + ws)[1..] == vs[1..] + ws && (ts + us)[1..] == ts[1..] + us;
      Concat(Encode(vs[0], ts[0], path), EncodeFields(vs[1..], ts[1..], path), EncodeFields(ws, us, path));
    }
  }

  lemma MessagesConcatenate(vs: seq<Val>, ts: seq<Ty>, ws: seq<Val>, us: seq<Ty>, fixed: bool, path: Path)
    requires FieldsTyped(vs, ts) && FieldsTyped(ws, us)
    ensures Typed(Items(vs + ws), Msg(fixed, ts + us))
    ensures Encode(Items(vs + ws), Msg(fixed, ts + us), path)
         == Encode(Items(vs), Msg(fixed, ts), path) + Encode(Items(ws), Msg(fixed, us), path)
  {
    FieldsConcatenate(vs, ts, ws, us, path);
  }

  lemma MessageOfOne(v: Val, t: Ty, fixed: bool, path: Path)
    requires Typed(v, t)
    ensures Encode(Items([v]), Msg(fixed, [t]), path) == Encode(v, t, path)
  {
    assert [v][1..] == [] && [t][1..] == [] && EncodeFields([], [], path) == [];
    assert Encode(v, t, path) + [] == Encode(v, t, path);
  }

  /** A RawMessage is its timestamp as a 64-bit number and then its payload. */
  lemma RawLayout(r: RawMessages.Raw, path: Path)
    requires RawMessages.RawOk(r)
    ensures Typed(Num(r.timestamp), Scalar(8))
    ensures RawMessages.Image(r) == Encode(Num(r.timestamp), Scalar(8), path) + r.payload
  {
    RawMessages.Power256Of8();
  }

  // ---------------------------------------------------------------- reading is the inverse

  /** No bool inside: every byte of a value is determined. */
  predicate Exact(t: Ty) {
    match t
    case Bool => false
    case Vec(e) => Exact(e)
    case Arr(e, _) => Exact(e)
    case Msg(_, fs) => forall i | 0 <= i < |fs| :: Exact(fs[i])
    case _ => true
  }

  lemma {:induction false} ReadWasWritten(t: Ty, b: Bytes)
    requires Exact(t) && Decode(t, b, Loop).Some?
    ensures var (v, rest) := Decode(t, b, Loop).value; Typed(v, t) && b == Encode(v, t, Loop) + rest
    decreases t, 0
  {
    match t
    case Scalar(w) => ToFromBytes(b[..w]);
    case Str =>
      Power256Of4();
      var len, rest := FromBytes(b[..4]), b[4..];
      ToFromBytes(b[..4]);
      Concat(b[..4], rest[..len], rest[len..]);
    case Vec(e) =>
      Power256Of4();
      ToFromBytes(b[..4]);
      var n := FromBytes(b[..4]);
      AllWasWritten(e, n, b[4..]);
      var (v, rest) := DecodeAll(e, n, b[4..], Loop).value;
      Concat(b[..4], EncodeAll(v.vs, e, Loop), rest);
    case Arr(e, n) => AllWasWritten(e, n, b);
    case Msg(_, fs) => FieldsWereWritten(fs, b);
  }

  lemma {:induction false} AllWasWritten(t: Ty, n: nat, b: Bytes)
    requires Exact(t) && DecodeAll(t, n, b, Loop).Some?
    ensures var (v, rest) := DecodeAll(t, n, b, Loop).value;
      |v.vs| == n && AllTyped(v.vs, t) && b == EncodeAll(v.vs, t, Loop) + rest
    decreases t, n + 1
  {
    if n > 0 {
      ReadWasWritten(t, b);
      var (v, tail) := Decode(t, b, Loop).value;
      AllWasWritten(t, n - 1, tail);
      var (vs, rest) := DecodeAll(t, n - 1, tail, Loop).value;
      assert ([v] + vs.vs)[1..] == vs.vs;
      Concat(Encode(v, t, Loop), EncodeAll(vs.vs, t, Loop), rest);
    }
  }

  lemma {:induction false} FieldsWereWritten(ts: seq<Ty>, b: Bytes)
    requires (forall i | 0 <= i < |ts| :: Exact(ts[i])) && DecodeFields(ts, b, Loop).Some?
    ensures var (v, rest) := DecodeFields(ts, b, Loop).value;
      FieldsTyped(v.vs, ts) && b == EncodeFields(v.vs, ts, Loop) + rest
    decreases ts, 0
  {
    if ts != [] {
      ReadWasWritten(ts[0], b);
      var (v, tail) := Decode(ts[0], b, Loop).value;
      FieldsWereWritten(ts[1..], tail);
      var (vs, rest) := DecodeFields(ts[1..], tail, Loop).value;
      assert ([v] + vs.vs)[1..] == vs.vs;
      Concat(Encode(v, ts[0], Loop), EncodeFields(vs.vs, ts[1..], Loop), rest);
    }
  }

  /** Reading is exactly the inverse of writing: a reader accepts a stream with a value and a
      rest if and only if the stream is what that value is written as, and the rest. */
  lemma ReadingInvertsWriting(t: Ty, b: Bytes, v: Val, rest: Bytes)
    requires WellFormed(t) && Exact(t)
    ensures Decode(t, b, Loop) == Some((v, rest)) <==> Typed(v, t) && b == Encode(v, t, Loop) + rest
  {
    if Decode(t, b, Loop) == Some((v, rest)) {
      ReadWasWritten(t, b);
    }
    if Typed(v, t) && b == Encode(v, t, Loop) + rest {
      RoundTrip(v, t, rest, Loop);
    }
  }
}
