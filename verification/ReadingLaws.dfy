/** When the readers that copy the storage of a vector of scalars with one memcpy do what
    the element-by-element readers do, for every type and every stream. */
module ReadingLaws {
  import opened Options
  import opened Bytes
  import opened Numbers
  import opened Serialization
  import opened SerializationLaws

  /** What the memcpy form reads compared with the loop form: it accepts whenever the loops
      do, a value of the type; they agree if that value's vectors fit, and otherwise the
      loops overrun. */
  ghost predicate ReadAlike(t: Ty, b: Bytes, block: Parsed, loop: Parsed) {
    match block
    case None => loop.None?
    case Some((v, rest)) =>
      Typed(v, t) && |rest| <= |b| && (if BlocksFit(v, t) then loop == block else loop.None?)
  }

  ghost predicate ItemsAlike(t: Ty, n: nat, b: Bytes, block: Parsed, loop: Parsed) {
    match block
    case None => loop.None?
    case Some((v, rest)) =>
      && v.Items? && |v.vs| == n && AllTyped(v.vs, t)
      && |rest| <= |b| && (if ItemsFit(v.vs, t) then loop == block else loop.None?)
  }

  /** The elements one by one, on either path. */
  ghost predicate EachAlike(t: Ty, n: nat, b: Bytes, block: Parsed, loop: Parsed) {
    match block
    case None => loop.None?
    case Some((v, rest)) =>
      && v.Items? && |v.vs| == n && AllTyped(v.vs, t)
      && |rest| <= |b| && (if EachFits(v.vs, t) then loop == block else loop.None?)
  }

  ghost predicate FieldsAlike(ts: seq<Ty>, b: Bytes, block: Parsed, loop: Parsed) {
    match block
    case None => loop.None?
    case Some((v, rest)) =>
      && v.Items? && FieldsTyped(v.vs, ts)
      && |rest| <= |b| && (if FieldsFit(v.vs, ts) then loop == block else loop.None?)
  }

  lemma StoredIsTyped(b: Bytes, w: Width, n: nat)
    requires |b| == n * w
    ensures AllTyped(Stored(b, w, n), Scalar(w))
  {
    forall i: nat | i < n
      ensures Typed(Stored(b, w, n)[i], Scalar(w))
    {
      assert (i + 1) * w <= n * w;
      assert |b[i * w..i * w + w]| == w;
    }
  }

  lemma BlockAlike(w: Width, n: nat, b: Bytes)
    requires |b| < UINT32
    ensures ItemsAlike(Scalar(w), n, b, DecodeBlock(w, n, b), DecodeAll(Scalar(w), n, b, Loop))
  {
    FastReadExactly(w, n, b);
    ElementwiseIsStored(b, w, n, Loop);
    var copied := CopyLength(n, w);
    if |b| >= copied {
      StoredIsTyped(b[..copied] + Zeros(n * w - copied), w, n);
      hide Stored;
    }
  }

  lemma {:induction false} ReadsAlike(t: Ty, b: Bytes)
    requires |b| < UINT32
    ensures ReadAlike(t, b, Decode(t, b, Block), Decode(t, b, Loop))
    decreases t, 0
  {
    match t
    case Scalar(w) =>
    case Bool =>
    case Str => Power256Of4();
    case Vec(e) =>
      if |b| >= 4 {
        Power256Of4();
        ReadsItemsAlike(e, FromBytes(b[..4]), b[4..]);
      }
    case Arr(e, n) => ReadsItemsAlike(e, n, b);
    case Msg(_, fs) => ReadsFieldsAlike(fs, b);
  }

  lemma {:induction false} ReadsItemsAlike(t: Ty, n: nat, b: Bytes)
    requires |b| < UINT32
    ensures ItemsAlike(t, n, b, DecodeItems(t, n, b, Block), DecodeAll(t, n, b, Loop))
    decreases t, n + 1
  {
    if t.Scalar? {
      BlockAlike(t.width, n, b);
    } else {
      ReadsAllAlike(t, n, b);
    }
  }

  lemma {:induction false} ReadsAllAlike(t: Ty, n: nat, b: Bytes)
    requires |b| < UINT32
    ensures EachAlike(t, n, b, DecodeAll(t, n, b, Block), DecodeAll(t, n, b, Loop))
    decreases t, n
  {
    if n > 0 {
      ReadsAlike(t, b);
      if Decode(t, b, Block).Some? {
        var (v, rest) := Decode(t, b, Block).value;
        ReadsAllAlike(t, n - 1, rest);
        var more := DecodeAll(t, n - 1, rest, Block);
        if more.Some? {
          EachFitsTail([v] + more.value.0.vs, t);
          assert ([v] + more.value.0.vs)[1..] == more.value.0.vs;
        }
      }
    }
  }

  lemma FieldsFitTail(vs: seq<Val>, ts: seq<Ty>)
    requires ts != [] && FieldsTyped(vs, ts)
    ensures FieldsFit(vs, ts) <==> BlocksFit(vs[0], ts[0]) && FieldsFit(vs[1..], ts[1..])
  {
    assert forall i | 1 <= i < |ts| :: vs[i] == vs[1..][i - 1] && ts[i] == ts[1..][i - 1];
  }

  lemma {:induction false} ReadsFieldsAlike(ts: seq<Ty>, b: Bytes)
    requires |b| < UINT32
    ensures FieldsAlike(ts, b, DecodeFields(ts, b, Block), DecodeFields(ts, b, Loop))
    decreases ts, 0
  {
    if ts != [] {
      ReadsAlike(ts[0], b);
      if Decode(ts[0], b, Block).Some? {
        var (v, rest) := Decode(ts[0], b, Block).value;
        ReadsFieldsAlike(ts[1..], rest);
        var more := DecodeFields(ts[1..], rest, Block);
        if more.Some? {
          FieldsFitTail([v] + more.value.0.vs, ts);
          assert ([v] + more.value.0.vs)[1..] == more.value.0.vs;
        }
      }
    }
  }

  /** For every type and every stream: what a reader accepts is a value of the type and a
      rest of the stream, and the memcpy readers agree with the element-by-element readers
      exactly unless they accept a value with a vector of scalars of 2^32 bytes or more,
      on which the loops overrun. */
  lemma FastReadExactlyAll(t: Ty, b: Bytes)
    requires |b| < UINT32
    ensures Decode(t, b, Block).Some? ==> Typed(Decode(t, b, Block).value.0, t)
    ensures Decode(t, b, Block) == Decode(t, b, Loop) <==>
              Decode(t, b, Block).None? || BlocksFit(Decode(t, b, Block).value.0, t)
    ensures Decode(t, b, Block) != Decode(t, b, Loop) ==> Decode(t, b, Loop).None?
  {
    ReadsAlike(t, b);
  }
}
