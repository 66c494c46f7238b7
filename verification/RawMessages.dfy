/** RawMessage: a timestamp and a buffer of bytes whose length is not written to the
    stream; a reader takes whatever is left of it. */
module RawMessages {
  import opened Options
  import opened Bytes
  import opened Numbers
  import opened Streams

  const UINT64: nat := 0x1_0000_0000_0000_0000

  /** The content of a message. */
  datatype Raw = Raw(timestamp: nat, payload: Bytes)

  predicate RawOk(r: Raw) {
    r.timestamp < UINT64 && |r.payload| < UINT32
  }

  function Image(r: Raw): (b: Bytes)
    ensures |b| == 8 + |r.payload|
  {
    ToBytes(r.timestamp, 8) + r.payload
  }

  /** The message a stream holds, all of it. */
  function FromImage(b: Bytes): (r: Raw)
    requires |b| >= 8
  {
    Raw(FromBytes(b[..8]), b[8..])
  }

  lemma Power256Of8()
    ensures Power256(8) == UINT64
  {
    Power256Of4();
    assert Power256(6) == 65536 * Power256(4);
    assert Power256(8) == 65536 * Power256(6);
  }

  /** The reader is greedy: it gives the message back exactly when nothing follows it. */
  lemma ReadBack(r: Raw, rest: Bytes)
    requires RawOk(r)
    ensures FromImage(Image(r) + rest) == Raw(r.timestamp, r.payload + rest)
    ensures FromImage(Image(r) + rest) == r <==> rest == []
  {
    Power256Of8();
    FromToBytes(r.timestamp, 8);
    hide ToBytes, FromBytes, Power256;
    Split(ToBytes(r.timestamp, 8), r.payload, rest);
    Extended(r.payload, rest);
  }

  lemma Split(stamp: Bytes, payload: Bytes, rest: Bytes)
    requires |stamp| == 8
    ensures (stamp + payload + rest)[..8] == stamp && (stamp + payload + rest)[8..] == payload + rest
  {
  }

  lemma Extended(payload: Bytes, rest: Bytes)
    ensures payload + rest == payload <==> rest == []
  {
    assert |payload + rest| == |payload| + |rest|;
  }

  /** What is written is the message and nothing else, whatever the stream held. */
  lemma WrittenBack(b: Bytes)
    requires 8 <= |b|
    ensures Image(FromImage(b)) == b
  {
    ToFromBytes(b[..8]);
    assert b == b[..8] + b[8..];
  }

  /** Whether a buffer of `size` bytes can be had by a message holding one of `held`. */
  predicate Granted(size: nat, held: nat, available: bool) {
    size == held || size == 0 || available
  }

  class RawMessage {
    var timestamp: nat
    var value: array?<byte>
    var allocatedBytes: nat

    constructor ()
      ensures Valid() && Content() == Raw(0, []) && value == null
    {
      timestamp, value, allocatedBytes := 0, null, 0;
    }

    predicate Valid()
      reads this
    {
      && timestamp < UINT64
      && allocatedBytes < UINT32
      && (allocatedBytes > 0 ==> value != null && value.Length == allocatedBytes)
    }

    function Content(): (r: Raw)
      requires Valid()
      reads this, value
      ensures RawOk(r) && |r.payload| == allocatedBytes
    {
      Raw(timestamp, if allocatedBytes == 0 then [] else value[..])
    }

    /** Frees the old buffer before asking for the new one; `available` is whether the
        allocator can serve the request.  After a failure the message is empty. */
    method Allocate(size: nat, available: bool) returns (ok: bool)
      requires Valid() && size < UINT32
      modifies this
      ensures Valid() && timestamp == old(timestamp)
      ensures ok <==> size == old(allocatedBytes) || size == 0 || available
      ensures allocatedBytes == if ok then size else 0
      ensures value == old(value) || fresh(value)
      ensures size == old(allocatedBytes) ==> value == old(value)
    {
      if size == allocatedBytes {
        return true;
      }
      if allocatedBytes > 0 {
        allocatedBytes := 0;
      }
      if size > 0 {
        if !available {
          return false;
        }
        value := new byte[size];
        allocatedBytes := size;
      }
      return true;
    }

    /** serializedLength, a `uint32_t`. */
    method SerializedLength() returns (n: nat)
      requires Valid()
      ensures n == |Image(Content())| % UINT32
    {
      n := (8 + allocatedBytes) % UINT32;
    }

    /** On an overrun the timestamp alone has been written, if there was room for it. */
    method Write(s: Stream) returns (ok: bool, ghost k: nat)
      requires Valid() && s.Valid() && value != s.data
      modifies s, s.data
      ensures s.Wrote(Image(Content()), ok, k)
      ensures !ok ==> k == if old(s.pos) + 8 <= s.end then 8 else 0
      ensures Content() == old(Content())
    {
      hide WroteOver;
      ghost var was, from := s.data[..], s.pos;
      var stamp := ToBytes(timestamp, 8);
      ok, k := s.Put(stamp);
      CursorAfter(was, s.data[..], from, s.end, s.pos, stamp, ok, k);
      if !ok {
        WroteSome(was, s.data[..], from, s.end, s.pos, stamp, Content().payload, k);
      } else if allocatedBytes > 0 {
        ghost var mid := s.data[..];
        ghost var more;
        ok, more := s.Put(value[..]);
        WroteTwice(was, mid, s.data[..], from, s.end, s.pos, stamp, value[..], ok, more);
        k := 8 + more;
      } else {
        assert stamp + [] == stamp;
      }
    }

    /** False is a stream too short for the timestamp.  When no buffer can be had, the
        payload is silently left unread. */
    method Read(s: Stream, available: bool) returns (ok: bool)
      requires Valid() && s.Valid() && s.end < UINT32 && value != s.data
      modifies this, value, s
      ensures Valid() && (value == old(value) || fresh(value))
      ensures ok <==> 8 <= |old(s.Rest())|
      ensures !ok ==> Content() == old(Content())
      ensures ok && Granted(|old(s.Rest())| - 8, old(allocatedBytes), available) ==>
                Content() == FromImage(old(s.Rest())) && s.Valid() && s.Rest() == []
      ensures ok && !Granted(|old(s.Rest())| - 8, old(allocatedBytes), available) ==>
                Content() == FromImage(old(s.Rest()[..8])) && s.Valid() && s.Rest() == old(s.Rest()[8..])
    {
      var stamp := s.Get(8);
      if stamp.None? {
        return false;
      }
      assert stamp.value[..8] == stamp.value && stamp.value[8..] == [];
      Power256Of8();
      timestamp := FromBytes(stamp.value);
      var size := s.GetLength();
      var room := Allocate(size, available);
      if room && size > 0 {
        var payload := s.Get(size);
        CopyIn(payload.value);
      }
      return true;
    }

    /** memcpy into the message's buffer. */
    method CopyIn(b: Bytes)
      requires Valid() && value != null && |b| == allocatedBytes == value.Length
      modifies value
      ensures value[..] == b
    {
      for i := 0 to |b|
        invariant value[..i] == b[..i]
      {
        value[i] := b[i];
      }
    }
  }

  /** A message read from the first `size` bytes of a block; without a buffer for the
      payload only the timestamp is. */
  method ReadFrom(block: array<byte>, size: nat, msg: RawMessage, available: bool) returns (ok: bool)
    requires size <= block.Length && size < UINT32
    requires msg.Valid() && msg.value != block
    modifies msg, msg.value
    ensures msg.Valid() && (msg.value == old(msg.value) || fresh(msg.value))
    ensures ok <==> 8 <= size
    ensures !ok ==> msg.Content() == old(msg.Content())
    ensures ok ==>
      msg.Content() == FromImage(block[..if Granted(size - 8, old(msg.allocatedBytes), available) then size else 8])
  {
    var input := new Stream(block, size);
    assert input.Rest() == block[..size];
    assert 8 <= size ==> block[..size][..8] == block[..8];
    ok := msg.Read(input, available);
  }
}
