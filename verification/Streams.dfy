/** The cursor-based streams and the serializers that move them over a buffer in place. */
module Streams {
  import opened Options
  import opened Bytes
  import opened Numbers
  import opened Serialization
  import Laws = SerializationLaws

  /** What a write of the bytes b has made of a buffer: it went through exactly if they fit
      between the cursor and the end, and then they lie before the cursor; otherwise the
      first k of them have been written.  Nothing else has changed. */
  predicate WroteOver(was: Bytes, now: Bytes, from: nat, end: nat, pos: nat, b: Bytes, ok: bool, k: nat) {
    && from <= end <= |was|
    && (ok <==> |b| <= end - from)
    && (if ok then k == |b| && pos == from + k else pos > end)
    && k <= |b| && from + k <= end
    && now == was[..from] + b[..k] + was[from + k..]
  }

  /** One write after another. */
  lemma WroteTwice(was: Bytes, mid: Bytes, now: Bytes, from: nat, end: nat, pos: nat,
                   a: Bytes, b: Bytes, ok: bool, k: nat)
    requires WroteOver(was, mid, from, end, from + |a|, a, true, |a|)
    requires WroteOver(mid, now, from + |a|, end, pos, b, ok, k)
    ensures WroteOver(was, now, from, end, pos, a + b, ok, |a| + k)
  {
    assert mid[..from + |a|] == was[..from] + a;
    assert mid[from + |a| + k..] == was[from + |a| + k..];
    assert (a + b)[..|a| + k] == a + b[..k];
    assert now == was[..from] + (a + b)[..|a| + k] + was[from + (|a| + k)..];
  }

  /** What did not get through within the first part of the bytes does not get through. */
  lemma WroteSome(was: Bytes, now: Bytes, from: nat, end: nat, pos: nat, a: Bytes, b: Bytes, k: nat)
    requires WroteOver(was, now, from, end, pos, a, false, k)
    ensures WroteOver(was, now, from, end, pos, a + b, false, k)
  {
    assert (a + b)[..k] == a[..k];
  }

  lemma WroteNothing(was: Bytes, from: nat, end: nat)
    requires from <= end <= |was|
    ensures WroteOver(was, was, from, end, from, [], true, 0)
  {
    assert was == was[..from] + [] + was[from..];
  }

  /** The same for a buffer written from its front. */
  lemma WroteFront(was: Bytes, now: Bytes, end: nat, pos: nat, b: Bytes, ok: bool, k: nat)
    requires WroteOver(was, now, 0, end, pos, b, ok, k)
    ensures k <= |b| && k <= |was| && now == b[..k] + was[k..]
    ensures (ok <==> |b| <= end) && (ok ==> k == |b| <= |now| && now[..k] == b)
  {
    assert was[..0] + b[..k] + was[k..] == b[..k] + was[k..];
  }

  /** A cursor over the first `end` bytes of a buffer. */
  class Stream {
    const data: array<byte>
    const end: nat
    var pos: nat

    constructor (data: array<byte>, count: nat)
      requires count <= data.Length
      ensures this.data == data && end == count && pos == 0
    {
      this.data, end, pos := data, count, 0;
    }

    predicate Valid()
      reads this
    {
      pos <= end <= data.Length
    }

    /** The bytes left to read. */
    function Rest(): (b: Bytes)
      requires Valid()
      reads this, data
      ensures |b| == end - pos
    {
      data[pos..end]
    }

    /** Moves the cursor first and compares it with the end afterwards: false is the
        StreamOverrunException, after which the cursor stays past the end. */
    method Advance(len: nat) returns (ok: bool)
      requires Valid()
      modifies this
      ensures pos == old(pos) + len
      ensures ok <==> pos <= end
    {
      pos := pos + len;
      ok := pos <= end;
    }

    method GetLength() returns (n: nat)
      requires Valid()
      ensures n == |Rest()|
    {
      n := end - pos;
    }

    /** memcpy to the cursor, which moves past the bytes. */
    method Put(b: Bytes) returns (ok: bool, ghost k: nat)
      requires Valid()
      modifies this, data
      ensures Wrote(b, ok, k) && k == if ok then |b| else 0
    {
      var at := pos;
      ok := Advance(|b|);
      k := if ok then |b| else 0;
      if ok {
        for i := 0 to |b|
          invariant pos == at + |b|
          invariant forall j | 0 <= j < i :: data[at + j] == b[j]
          invariant forall j | 0 <= j < data.Length && !(at <= j < at + i) :: data[j] == old(data[j])
        {
          data[at + i] := b[i];
        }
        assert data[..] == old(data[..])[..at] + b + old(data[..])[at + |b|..];
      } else {
        assert data[..] == old(data[..])[..at] + b[..0] + old(data[..])[at..];
      }
    }

    twostate predicate Wrote(b: Bytes, ok: bool, k: nat)
      reads this, data
    {
      WroteOver(old(data[..]), data[..], old(pos), end, pos, b, ok, k)
    }

    /** memcpy from the cursor. */
    method Get(n: nat) returns (r: Option<Bytes>)
      requires Valid()
      modifies this
      ensures r.Some? <==> n <= |old(Rest())|
      ensures r.Some? ==> Valid() && r.value == old(Rest())[..n] && Rest() == old(Rest())[n..]
      ensures r.None? ==> pos > end
    {
      var at := pos;
      var ok := Advance(n);
      if ok {
        r := Some(data[at..pos]);
        assert data[pos..end] == data[at..end][n..];
      } else {
        r := None;
      }
    }
  }

  // ---------------------------------------------------------------- writing

  /** `OStream::next`: writes the value exactly if it fits the stream. */
  method Write(s: Stream, v: Val, t: Ty) returns (ok: bool, ghost k: nat)
    requires s.Valid() && Typed(v, t)
    modifies s, s.data
    ensures s.Wrote(Encode(v, t, Block), ok, k)
    decreases t, 0
  {
    hide WroteOver;
    match t {
      case Scalar(w) => ok, k := s.Put(ToBytes(v.n, w));
      case Bool => ok, k := s.Put([if v.b then 1 else 0]);
      case Str => ok, k := WriteString(s, v.s);
      case Vec(e) => ok, k := WriteVector(s, v.vs, e);
      case Arr(e, _) => ok, k := WriteItems(s, v.vs, e);
      case Msg(_, fs) => ok, k := WriteFields(s, v.vs, fs);
    }
  }

  method WriteString(s: Stream, text: Bytes) returns (ok: bool, ghost k: nat)
    requires s.Valid() && |text| < UINT32
    modifies s, s.data
    ensures s.Wrote(ToBytes(|text|, 4) + text, ok, k)
  {
    ghost var was, from := s.data[..], s.pos;
    var len := ToBytes(|text|, 4);
    ok, k := s.Put(len);
    if !ok {
      WroteSome(was, s.data[..], from, s.end, s.pos, len, text, k);
    } else if |text| > 0 {
      ghost var mid := s.data[..];
      ghost var more;
      ok, more := s.Put(text);
      WroteTwice(was, mid, s.data[..], from, s.end, s.pos, len, text, ok, more);
      k := 4 + more;
    } else {
      assert len + text == len;
    }
  }

  method WriteVector(s: Stream, vs: seq<Val>, e: Ty) returns (ok: bool, ghost k: nat)
    requires s.Valid() && AllTyped(vs, e) && |vs| < UINT32
    modifies s, s.data
    ensures s.Wrote(ToBytes(|vs|, 4) + EncodeItems(vs, e, Block), ok, k)
    decreases e, 3
  {
    hide EncodeItems, AllTyped;
    ghost var was, from := s.data[..], s.pos;
    var len := ToBytes(|vs|, 4);
    ok, k := s.Put(len);
    if !ok {
      WroteSome(was, s.data[..], from, s.end, s.pos, len, EncodeItems(vs, e, Block), k);
    } else {
      ghost var mid := s.data[..];
      ghost var more;
      ok, more := WriteItems(s, vs, e);
      WroteTwice(was, mid, s.data[..], from, s.end, s.pos, len, EncodeItems(vs, e, Block), ok, more);
      k := 4 + more;
    }
  }

  method WriteItems(s: Stream, vs: seq<Val>, t: Ty) returns (ok: bool, ghost k: nat)
    requires s.Valid() && AllTyped(vs, t)
    modifies s, s.data
    ensures s.Wrote(EncodeItems(vs, t, Block), ok, k)
    decreases t, 2
  {
    if t.Scalar? {
      ok, k := s.Put(CopiedImage(vs, t.width));
    } else {
      ok, k := WriteAll(s, vs, t);
    }
  }

  method WriteAll(s: Stream, vs: seq<Val>, t: Ty) returns (ok: bool, ghost k: nat)
    requires s.Valid() && AllTyped(vs, t)
    modifies s, s.data
    ensures s.Wrote(EncodeAll(vs, t, Block), ok, k)
    decreases t, 1
  {
    hide Encode, Typed, WroteOver;
    ok := true;
    ghost var was, from, done := s.data[..], s.pos, [];
    WroteNothing(was, from, s.end);
    for i := 0 to |vs|
      invariant s.Valid() && s.pos == from + |done|
      invariant done + EncodeAll(vs[i..], t, Block) == EncodeAll(vs, t, Block)
      invariant WroteOver(was, s.data[..], from, s.end, s.pos, done, true, |done|)
    {
      ghost var mid, b := s.data[..], Encode(vs[i], t, Block);
      Laws.EncodeAllStep(vs, t, Block, i);
      Laws.Concat(done, b, EncodeAll(vs[i + 1..], t, Block));
      ok, k := Write(s, vs[i], t);
      WroteTwice(was, mid, s.data[..], from, s.end, s.pos, done, b, ok, k);
      k := |done| + k;
      done := done + b;
      if !ok {
        WroteSome(was, s.data[..], from, s.end, s.pos, done, EncodeAll(vs[i + 1..], t, Block), k);
        return;
      }
      CursorMoved(was, s.data[..], from, s.end, s.pos, done, k);
    }
    assert vs[|vs|..] == [] && done + [] == done;
    k := |done|;
  }

  lemma CursorAfter(was: Bytes, now: Bytes, from: nat, end: nat, pos: nat, b: Bytes, ok: bool, k: nat)
    requires WroteOver(was, now, from, end, pos, b, ok, k)
    ensures (ok <==> from + |b| <= end) && (ok ==> k == |b| && pos == from + k)
  {
  }

  lemma CursorMoved(was: Bytes, now: Bytes, from: nat, end: nat, pos: nat, b: Bytes, k: nat)
    requires WroteOver(was, now, from, end, pos, b, true, k)
    ensures k == |b| && pos == from + |b| && pos <= end && |now| == |was|
  {
  }

  method WriteFields(s: Stream, vs: seq<Val>, ts: seq<Ty>) returns (ok: bool, ghost k: nat)
    requires s.Valid() && FieldsTyped(vs, ts)
    modifies s, s.data
    ensures s.Wrote(EncodeFields(vs, ts, Block), ok, k)
    decreases ts, 0
  {
    hide Encode, Typed, WroteOver;
    ok := true;
    ghost var was, from, done := s.data[..], s.pos, [];
    WroteNothing(was, from, s.end);
    for i := 0 to |ts|
      invariant s.Valid() && s.pos == from + |done|
      invariant done + EncodeFields(vs[i..], ts[i..], Block) == EncodeFields(vs, ts, Block)
      invariant WroteOver(was, s.data[..], from, s.end, s.pos, done, true, |done|)
    {
      ghost var mid, b := s.data[..], Encode(vs[i], ts[i], Block);
      Laws.EncodeFieldsStep(vs, ts, Block, i);
      Laws.Concat(done, b, EncodeFields(vs[i + 1..], ts[i + 1..], Block));
      ok, k := Write(s, vs[i], ts[i]);
      WroteTwice(was, mid, s.data[..], from, s.end, s.pos, done, b, ok, k);
      k := |done| + k;
      done := done + b;
      if !ok {
        WroteSome(was, s.data[..], from, s.end, s.pos, done, EncodeFields(vs[i + 1..], ts[i + 1..], Block), k);
        return;
      }
      CursorMoved(was, s.data[..], from, s.end, s.pos, done, k);
    }
    assert vs[|ts|..] == [] && ts[|ts|..] == [] && done + [] == done;
    k := |done|;
  }

  // ---------------------------------------------------------------- reading

  /** The outcome of a read: what the decoding of the stream's rest says, with the
      cursor in front of the bytes not consumed. */
  ghost predicate ReadAs(s: Stream, r: Option<Val>, p: Parsed)
    reads s, s.data
  {
    && (r.Some? <==> p.Some?)
    && (r.Some? ==> s.Valid() && p == Some((r.value, s.Rest())))
    && (r.None? ==> s.pos > s.end)
  }

  /** `IStream::next`. */
  method Read(s: Stream, t: Ty) returns (r: Option<Val>)
    requires s.Valid()
    modifies s
    ensures ReadAs(s, r, Decode(t, old(s.Rest()), Block))
    decreases t, 0
  {
    match t {
      case Scalar(w) =>
        var b := s.Get(w);
        r := if b.Some? then Some(Num(FromBytes(b.value))) else None;
      case Bool =>
        var b := s.Get(1);
        r := if b.Some? then Some(Flag(b.value[0] != 0)) else None;
      case Str =>
        var len := s.Get(4);
        if len.None? {
          return None;
        }
        if FromBytes(len.value) > 0 {
          var b := s.Get(FromBytes(len.value));
          r := if b.Some? then Some(Text(b.value)) else None;
        } else {
          r := Some(Text([]));
        }
      case Vec(e) =>
        var len := s.Get(4);
        if len.None? {
          return None;
        }
        r := ReadItems(s, e, FromBytes(len.value));
      case Arr(e, n) => r := ReadItems(s, e, n);
      case Msg(_, fs) => r := ReadFields(s, fs);
    }
  }

  method ReadItems(s: Stream, t: Ty, n: nat) returns (r: Option<Val>)
    requires s.Valid()
    modifies s
    ensures ReadAs(s, r, DecodeItems(t, n, old(s.Rest()), Block))
    decreases t, 2
  {
    if t.Scalar? {
      var copied := CopyLength(n, t.width);
      var b := s.Get(copied);
      r := if b.Some? then Some(Items(Stored(b.value + Zeros(n * t.width - copied), t.width, n))) else None;
    } else {
      r := ReadAll(s, t, n);
    }
  }

  method ReadAll(s: Stream, t: Ty, n: nat) returns (r: Option<Val>)
    requires s.Valid()
    modifies s
    ensures ReadAs(s, r, DecodeAll(t, n, old(s.Rest()), Block))
    decreases t, 1
  {
    hide Decode;
    var vs := [];
    JoinedToNothing(DecodeAll(t, n, s.Rest(), Block));
    for i := 0 to n
      invariant s.Valid()
      invariant DecodeAll(t, n, old(s.Rest()), Block) == Joined(vs, DecodeAll(t, n - i, s.Rest(), Block))
    {
      ghost var rest := s.Rest();
      var v := Read(s, t);
      if v.None? {
        return None;
      }
      JoinedTwice(vs, v.value, DecodeAll(t, n - i - 1, s.Rest(), Block));
      vs := vs + [v.value];
    }
    assert vs + [] == vs;
    r := Some(Items(vs));
  }

  method ReadFields(s: Stream, ts: seq<Ty>) returns (r: Option<Val>)
    requires s.Valid()
    modifies s
    ensures ReadAs(s, r, DecodeFields(ts, old(s.Rest()), Block))
    decreases ts, 0
  {
    hide Decode;
    var vs := [];
    JoinedToNothing(DecodeFields(ts, s.Rest(), Block));
    assert ts[0..] == ts;
    for i := 0 to |ts|
      invariant s.Valid()
      invariant DecodeFields(ts, old(s.Rest()), Block) == Joined(vs, DecodeFields(ts[i..], s.Rest(), Block))
    {
      assert ts[i..][1..] == ts[i + 1..];
      var v := Read(s, ts[i]);
      if v.None? {
        return None;
      }
      JoinedTwice(vs, v.value, DecodeFields(ts[i + 1..], s.Rest(), Block));
      vs := vs + [v.value];
    }
    assert vs + [] == vs;
    r := Some(Items(vs));
  }

  lemma JoinedToNothing(p: Parsed)
    requires p.Some? ==> p.value.0.Items?
    ensures Joined([], p) == p
  {
    match p
    case Some((Items(ws), rest)) => assert [] + ws == ws;
    case _ =>
  }

  lemma JoinedTwice(vs: seq<Val>, v: Val, p: Parsed)
    ensures Joined(vs, Joined([v], p)) == Joined(vs + [v], p)
  {
    match p
    case Some((Items(ws), rest)) => assert vs + ([v] + ws) == vs + [v] + ws;
    case _ =>
  }

  // ---------------------------------------------------------------- both together

  /** A value written to a buffer of its computed length: the stream overruns exactly
      when the bytes are 2^32 or more, and is filled exactly otherwise. */
  method WriteToFit(v: Val, t: Ty) returns (ok: bool, buffer: array<byte>)
    requires WellFormed(t) && Typed(v, t)
    ensures ok <==> |Encode(v, t, Block)| < UINT32
    ensures ok ==> buffer[..] == Encode(v, t, Block)
    ensures |Encode(v, t, Loop)| < UINT32 ==> ok && Encode(v, t, Block) == Encode(v, t, Loop)
  {
    hide Encode, BlocksFit, Typed, WellFormed;
    FastWriteExactly(v, t);
    var n := Laws.SerializationLength(v, t);
    buffer := new byte[n];
    var out := new Stream(buffer, n);
    ghost var k;
    ok, k := Write(out, v, t);
    if ok {
      assert buffer[..] == buffer[0..out.pos];
    }
  }

  /** A value written to any buffer and read back from it: it comes back exactly when the
      buffer has room for it. */
  method WriteThenRead(buffer: array<byte>, v: Val, t: Ty) returns (r: Option<Val>)
    requires WellFormed(t) && Typed(v, t) && |Encode(v, t, Loop)| < UINT32
    modifies buffer
    ensures r == if |Encode(v, t, Loop)| <= buffer.Length then Some(v) else None
  {
    hide Encode, Decode, BlocksFit, Typed, WellFormed;
    Laws.ShortValuesFit(v, t);
    var out := new Stream(buffer, buffer.Length);
    var ok, _ := Write(out, v, t);
    if !ok {
      return None;
    }
    ghost var after := buffer[out.pos..];
    assert buffer[..] == Encode(v, t, Block) + after;
    Laws.RoundTrip(v, t, after, Block);
    var input := new Stream(buffer, buffer.Length);
    assert input.Rest() == buffer[..];
    r := Read(input, t);
  }
}
