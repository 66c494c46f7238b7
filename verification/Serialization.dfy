/** The serialization framework: a universe of types, their values, the bytes a value
    is written as, how bytes are read back, and the separately computed length. */
module Serialization {
  import opened Options
  import opened Bytes
  import opened Numbers

  type Width = w: nat | w == 1 || w == 2 || w == 4 || w == 8 witness 1

  /** Scalars are numbers of 1, 2, 4 or 8 bytes, given by their bit pattern; a message
      is its list of fields, declared fixed-size or not. */
  datatype Ty =
    | Scalar(width: Width)
    | Bool
    | Str
    | Vec(elem: Ty)
    | Arr(elem: Ty, count: nat)
    | Msg(fixed: bool, fields: seq<Ty>)

  datatype Val =
    | Num(n: nat)
    | Flag(b: bool)
    | Text(s: Bytes)
    | Items(vs: seq<Val>)

  /** The trait IsFixedSize; the trait IsSimple holds of the scalars. */
  predicate IsFixedSize(t: Ty) {
    t.Scalar? || t.Bool? || (t.Msg? && t.fixed)
  }

  /** Types whose values all have one length, which is what a message declared
      fixed-size promises of its fields. */
  predicate HasOneLength(t: Ty) {
    match t
    case Scalar(_) => true
    case Bool => true
    case Str => false
    case Vec(_) => false
    case Arr(e, _) => HasOneLength(e)
    case Msg(_, fs) => forall i | 0 <= i < |fs| :: HasOneLength(fs[i])
  }

  predicate IsElement(t: Ty) {
    !t.Vec? && !t.Arr?
  }

  /** The types the templates can be instantiated at. */
  predicate WellFormed(t: Ty) {
    match t
    case Scalar(_) => true
    case Bool => true
    case Str => true
    case Vec(e) => WellFormed(e) && IsElement(e) && !e.Bool?
    case Arr(e, n) =>
      && WellFormed(e) && IsElement(e)
      && (IsFixedSize(e) ==> n > 0)
      && (e.Scalar? ==> n * e.width < UINT32)
    case Msg(fixed, fs) =>
      && (forall i | 0 <= i < |fs| :: WellFormed(fs[i]))
      && (fixed ==> forall i | 0 <= i < |fs| :: HasOneLength(fs[i]))
  }

  predicate Typed(v: Val, t: Ty)
    decreases t
  {
    match t
    case Scalar(w) => v.Num? && v.n < Power256(w)
    case Bool => v.Flag?
    case Str => v.Text? && |v.s| < UINT32
    case Vec(e) => v.Items? && |v.vs| < UINT32 && forall i | 0 <= i < |v.vs| :: Typed(v.vs[i], e)
    case Arr(e, n) => v.Items? && |v.vs| == n && forall i | 0 <= i < |v.vs| :: Typed(v.vs[i], e)
    case Msg(_, fs) => v.Items? && |v.vs| == |fs| && forall i | 0 <= i < |fs| :: Typed(v.vs[i], fs[i])
  }

  predicate AllTyped(vs: seq<Val>, t: Ty) {
    forall i | 0 <= i < |vs| :: Typed(vs[i], t)
  }

  predicate FieldsTyped(vs: seq<Val>, ts: seq<Ty>) {
    |vs| == |ts| && forall i | 0 <= i < |ts| :: Typed(vs[i], ts[i])
  }

  /** Which serializer runs on a vector or array of scalars: the loop over the elements,
      or the specialisation that copies the whole storage with one memcpy. */
  datatype Path = Loop | Block

  // ---------------------------------------------------------------- bytes of a value

  function Encode(v: Val, t: Ty, path: Path): Bytes
    requires Typed(v, t)
    decreases t, 0
  {
    match t
    case Scalar(w) => ToBytes(v.n, w)
    case Bool => [if v.b then 1 else 0]
    case Str => ToBytes(|v.s|, 4) + v.s
    case Vec(e) => ToBytes(|v.vs|, 4) + EncodeItems(v.vs, e, path)
    case Arr(e, _) => EncodeItems(v.vs, e, path)
    case Msg(_, fs) => EncodeFields(v.vs, fs, path)
  }

  function EncodeItems(vs: seq<Val>, t: Ty, path: Path): Bytes
    requires AllTyped(vs, t)
    decreases t, |vs| + 1
  {
    if path.Block? && t.Scalar? then CopiedImage(vs, t.width) else EncodeAll(vs, t, path)
  }

  function EncodeAll(vs: seq<Val>, t: Ty, path: Path): Bytes
    requires AllTyped(vs, t)
    decreases t, |vs|
  {
    if vs == [] then [] else Encode(vs[0], t, path) + EncodeAll(vs[1..], t, path)
  }

  function EncodeFields(vs: seq<Val>, ts: seq<Ty>, path: Path): Bytes
    requires FieldsTyped(vs, ts)
    decreases ts, 0
  {
    if ts == [] then [] else Encode(vs[0], ts[0], path) + EncodeFields(vs[1..], ts[1..], path)
  }

  /** Where a byte of the storage of numbers of width w lies: its number and its place in it. */
  lemma ByteInside(w: Width, n: nat, k: nat)
    requires k < n * w
    ensures 0 <= k / w < n && 0 <= k % w < w
  {
    if w == 1 {
    } else if w == 2 {
    } else if w == 4 {
    } else {
    }
  }

  /** Byte k of the storage of a vector of scalars. */
  function ImageByte(vs: seq<Val>, w: Width, k: nat): byte
    requires AllTyped(vs, Scalar(w)) && k < |vs| * w
  {
    ByteInside(w, |vs|, k);
    ToBytes(vs[k / w].n, w)[k % w]
  }

  /** The storage of a vector of scalars. */
  function Image(vs: seq<Val>, w: Width): (b: Bytes)
    requires AllTyped(vs, Scalar(w))
    ensures |b| == |vs| * w
  {
    seq(|vs| * w, k requires 0 <= k < |vs| * w => ImageByte(vs, w, k))
  }

  /** The number of bytes a memcpy moves is a 32-bit product. */
  function CopyLength(n: nat, w: Width): (c: nat)
    ensures c < UINT32 && c <= n * w
    ensures c == n * w <==> n * w < UINT32
  {
    (n * w) % UINT32
  }

  function CopiedImage(vs: seq<Val>, w: Width): Bytes
    requires AllTyped(vs, Scalar(w))
  {
    Image(vs, w)[..CopyLength(|vs|, w)]
  }

  // ---------------------------------------------------------------- reading

  /** A value and the bytes after it; None when the stream overruns. */
  type Parsed = Option<(Val, Bytes)>

  function Decode(t: Ty, b: Bytes, path: Path): Parsed
    decreases t, 0
  {
    match t
    case Scalar(w) => if |b| < w then None else Some((Num(FromBytes(b[..w])), b[w..]))
    case Bool => if |b| < 1 then None else Some((Flag(b[0] != 0), b[1..]))
    case Str =>
      if |b| < 4 then None else
      var len, rest := FromBytes(b[..4]), b[4..];
      if |rest| < len then None else Some((Text(rest[..len]), rest[len..]))
    case Vec(e) => if |b| < 4 then None else DecodeItems(e, FromBytes(b[..4]), b[4..], path)
    case Arr(e, n) => DecodeItems(e, n, b, path)
    case Msg(_, fs) => DecodeFields(fs, b, path)
  }

  function DecodeItems(t: Ty, n: nat, b: Bytes, path: Path): (p: Parsed)
    ensures p.Some? ==> p.value.0.Items?
    decreases t, n + 1
  {
    if path.Block? && t.Scalar? then DecodeBlock(t.width, n, b) else DecodeAll(t, n, b, path)
  }

  function DecodeAll(t: Ty, n: nat, b: Bytes, path: Path): (p: Parsed)
    ensures p.Some? ==> p.value.0.Items?
    decreases t, n
  {
    if n == 0 then Some((Items([]), b)) else
    match Decode(t, b, path)
    case None => None
    case Some((v, rest)) => Joined([v], DecodeAll(t, n - 1, rest, path))
  }

  function DecodeFields(ts: seq<Ty>, b: Bytes, path: Path): (p: Parsed)
    ensures p.Some? ==> p.value.0.Items?
    decreases ts, 0
  {
    if ts == [] then Some((Items([]), b)) else
    match Decode(ts[0], b, path)
    case None => None
    case Some((v, rest)) => Joined([v], DecodeFields(ts[1..], rest, path))
  }

  /** The values read so far in front of the list read next. */
  function Joined(vs: seq<Val>, p: Parsed): (q: Parsed)
    ensures q.Some? ==> q.value.0.Items?
  {
    match p
    case Some((Items(ws), rest)) => Some((Items(vs + ws), rest))
    case _ => None
  }

  /** The i-th of n numbers of width w stored one after the other in b. */
  function NumberAt(b: Bytes, w: Width, n: nat, i: nat): Val
    requires |b| == n * w && i < n
  {
    assert (i + 1) * w <= n * w;
    Num(FromBytes(b[i * w..i * w + w]))
  }

  /** A storage of n numbers seen as a vector. */
  function Stored(b: Bytes, w: Width, n: nat): seq<Val>
    requires |b| == n * w
  {
    seq(n, i requires 0 <= i < n => NumberAt(b, w, n, i))
  }

  /** The vector is resized to n zeros and then overwritten by one memcpy: numbers beyond
      the copied bytes stay zero. */
  function DecodeBlock(w: Width, n: nat, b: Bytes): Parsed {
    var copied := CopyLength(n, w);
    if |b| < copied then None else
    Some((Items(Stored(b[..copied] + Zeros(n * w - copied), w, n)), b[copied..]))
  }

  // ---------------------------------------------------------------- fast path, writing

  /** Past the first number, the storage is that of the vector's tail. */
  lemma ImageByteOfTail(vs: seq<Val>, w: Width, k: nat)
    requires vs != [] && AllTyped(vs, Scalar(w)) && k < |vs[1..]| * w
    ensures w + k < |vs| * w
    ensures ImageByte(vs, w, w + k) == ImageByte(vs[1..], w, k)
  {
    ByteInside(w, |vs[1..]|, k);
    assert |vs| * w == w + |vs[1..]| * w;
    assert (w + k) / w == k / w + 1 && (w + k) % w == k % w;
  }

  lemma ImageByteOfHead(vs: seq<Val>, w: Width, k: nat)
    requires vs != [] && AllTyped(vs, Scalar(w)) && k < w
    ensures k < |vs| * w
    ensures ImageByte(vs, w, k) == ToBytes(vs[0].n, w)[k]
  {
    assert |vs| * w == w + |vs[1..]| * w;
    assert k / w == 0 && k % w == k;
  }

  lemma ImageOfTail(vs: seq<Val>, w: Width)
    requires vs != [] && AllTyped(vs, Scalar(w))
    ensures Image(vs, w) == ToBytes(vs[0].n, w) + Image(vs[1..], w)
  {
    hide ImageByte;
    assert |vs| * w == w + |vs[1..]| * w;
    forall k: nat | k < |vs| * w
      ensures Image(vs, w)[k] == (ToBytes(vs[0].n, w) + Image(vs[1..], w))[k]
    {
      if k < w {
        ImageByteOfHead(vs, w, k);
      } else {
        ImageByteOfTail(vs, w, k - w);
      }
    }
  }

  lemma {:induction false} ImageIsElementwise(vs: seq<Val>, w: Width, path: Path)
    requires AllTyped(vs, Scalar(w))
    ensures Image(vs, w) == EncodeAll(vs, Scalar(w), path)
  {
    if vs != [] {
      ImageOfTail(vs, w);
      ImageIsElementwise(vs[1..], w, path);
    }
  }

  /** Every vector of scalars inside v has fewer than 2^32 bytes. */
  predicate BlocksFit(v: Val, t: Ty)
    requires Typed(v, t)
    decreases t, 0
  {
    match t
    case Vec(e) => ItemsFit(v.vs, e)
    case Arr(e, _) => ItemsFit(v.vs, e)
    case Msg(_, fs) => forall i | 0 <= i < |fs| :: BlocksFit(v.vs[i], fs[i])
    case _ => true
  }

  predicate ItemsFit(vs: seq<Val>, t: Ty)
    requires AllTyped(vs, t)
    decreases t, 2
  {
    (t.Scalar? ==> |vs| * t.width < UINT32) && EachFits(vs, t)
  }

  predicate EachFits(vs: seq<Val>, t: Ty)
    requires AllTyped(vs, t)
    decreases t, 1
  {
    forall i | 0 <= i < |vs| :: BlocksFit(vs[i], t)
  }

  lemma EachFitsTail(vs: seq<Val>, t: Ty)
    requires vs != [] && AllTyped(vs, t)
    ensures EachFits(vs, t) <==> BlocksFit(vs[0], t) && EachFits(vs[1..], t)
  {
    assert forall i | 1 <= i < |vs| :: vs[i] == vs[1..][i - 1];
  }

  predicate FieldsFit(vs: seq<Val>, ts: seq<Ty>)
    requires FieldsTyped(vs, ts)
  {
    forall i | 0 <= i < |ts| :: BlocksFit(vs[i], ts[i])
  }

  /** What the memcpy form writes compared with the loop form: the same bytes if
      `fit`, fewer otherwise, and always as many modulo 2^32. */
  predicate Alike(block: Bytes, loop: Bytes, fit: bool) {
    && |block| <= |loop|
    && (|block| == |loop| <==> fit)
    && (fit ==> block == loop)
    && |block| % UINT32 == |loop| % UINT32
  }

  lemma AlikeConcat(b: Bytes, l: Bytes, fit: bool, bs: Bytes, ls: Bytes, fits: bool)
    requires Alike(b, l, fit) && Alike(bs, ls, fits)
    ensures Alike(b + bs, l + ls, fit && fits)
  {
    SumsModulo(|b|, |bs|, |l|, |ls|);
  }

  lemma SumsModulo(a: nat, b: nat, c: nat, d: nat)
    requires a % UINT32 == c % UINT32 && b % UINT32 == d % UINT32
    ensures (a + b) % UINT32 == (c + d) % UINT32
  {
  }

  /** The one-memcpy serializers write the bytes of the element-by-element loops exactly
      when no vector of scalars has 2^32 bytes or more. */
  lemma {:induction false} FastWriteExactly(v: Val, t: Ty)
    requires WellFormed(t) && Typed(v, t)
    ensures Alike(Encode(v, t, Block), Encode(v, t, Loop), BlocksFit(v, t))
    ensures Encode(v, t, Block) == Encode(v, t, Loop) <==> BlocksFit(v, t)
    decreases t, 0
  {
    match t
    case Vec(e) =>
      FastItems(v.vs, e);
      var len := ToBytes(|v.vs|, 4);
      AlikeConcat(len, len, true, EncodeItems(v.vs, e, Block), EncodeItems(v.vs, e, Loop), ItemsFit(v.vs, e));
    case Arr(e, _) => FastItems(v.vs, e);
    case Msg(_, fs) => FastFields(v.vs, fs);
    case _ =>
  }

  lemma {:induction false} FastItems(vs: seq<Val>, t: Ty)
    requires WellFormed(t) && AllTyped(vs, t)
    ensures Alike(EncodeItems(vs, t, Block), EncodeItems(vs, t, Loop), ItemsFit(vs, t))
    decreases t, |vs| + 1
  {
    if t.Scalar? {
      ImageIsElementwise(vs, t.width, Loop);
    } else {
      FastAll(vs, t);
    }
  }

  lemma {:induction false} FastAll(vs: seq<Val>, t: Ty)
    requires WellFormed(t) && AllTyped(vs, t)
    ensures Alike(EncodeAll(vs, t, Block), EncodeAll(vs, t, Loop), EachFits(vs, t))
    decreases t, |vs|
  {
    if vs != [] {
      var tail := vs[1..];
      FastWriteExactly(vs[0], t);
      FastAll(tail, t);
      AlikeConcat(Encode(vs[0], t, Block), Encode(vs[0], t, Loop), BlocksFit(vs[0], t),
                  EncodeAll(tail, t, Block), EncodeAll(tail, t, Loop), EachFits(tail, t));
      EachFitsTail(vs, t);
    }
  }

  lemma {:induction false} FastFields(vs: seq<Val>, ts: seq<Ty>)
    requires forall i | 0 <= i < |ts| :: WellFormed(ts[i])
    requires FieldsTyped(vs, ts)
    ensures Alike(EncodeFields(vs, ts, Block), EncodeFields(vs, ts, Loop), FieldsFit(vs, ts))
    decreases ts, 0
  {
    if ts != [] {
      FastWriteExactly(vs[0], ts[0]);
      FastFields(vs[1..], ts[1..]);
      AlikeConcat(Encode(vs[0], ts[0], Block), Encode(vs[0], ts[0], Loop), BlocksFit(vs[0], ts[0]),
                  EncodeFields(vs[1..], ts[1..], Block), EncodeFields(vs[1..], ts[1..], Loop),
                  FieldsFit(vs[1..], ts[1..]));
      assert forall i | 1 <= i < |ts| :: vs[i] == vs[1..][i - 1] && ts[i] == ts[1..][i - 1];
    }
  }
}
