/** One stream record and what each critical section of the multiplexer does to it. */
module Streams {
  import opened Words
  import opened Sequences

  const REORDER_CAPACITY: int := 100

  /** Identity of an allocated `Notify`. A `Notify` is created for one stream id and never moves to
      another, so the id is part of its identity; `serial` numbers the allocations. */
  datatype NotifyId = NotifyId(sid: u16, serial: nat)

  datatype Stream = Stream(
    clientId: u32,
    recvBuf: seq<byte>,
    closed: bool,
    nextRecvSeq: u32,
    nextSendSeq: u32,
    outOfOrder: map<u32, seq<byte>>,
    notify: NotifyId)

  function Fresh(clientId: u32, notify: NotifyId): Stream {
    Stream(clientId, [], false, 0, 0, map[], notify)
  }

  /** Result of draining the reorder buffer: the payloads taken out, in order, the next expected
      number, and what stays buffered. */
  datatype Drained = Drained(payloads: seq<seq<byte>>, next: u32, rest: map<u32, seq<byte>>)

  function Drain(next: u32, buffer: map<u32, seq<byte>>): Drained
    decreases |buffer|
  {
    if next in buffer then
      assert buffer.Keys == (buffer - {next}).Keys + {next};
      var d := Drain(Next32(next), buffer - {next});
      d.(payloads := [buffer[next]] + d.payloads)
    else Drained([], next, buffer)
  }

  /** The payloads that a data frame makes readable: none unless it carries the expected number. */
  function Released(s: Stream, sequence: u32, payload: seq<byte>): seq<seq<byte>> {
    if sequence == s.nextRecvSeq then
      [payload] + Drain(Next32(sequence), s.outOfOrder).payloads
    else []
  }

  /** A data frame of the record's own client. */
  function Accept(s: Stream, sequence: u32, payload: seq<byte>): Stream {
    if sequence == s.nextRecvSeq then
      var d := Drain(Next32(sequence), s.outOfOrder);
      s.(recvBuf := s.recvBuf + Concat(Released(s, sequence, payload)), nextRecvSeq := d.next, outOfOrder := d.rest)
    else if sequence > s.nextRecvSeq && |s.outOfOrder| < REORDER_CAPACITY then
      s.(outOfOrder := s.outOfOrder[sequence := payload])
    else s
  }

  /** The readable bytes grow by exactly what the frame releases. */
  lemma AcceptReleases(s: Stream, sequence: u32, payload: seq<byte>)
    ensures Accept(s, sequence, payload).recvBuf == s.recvBuf + Concat(Released(s, sequence, payload))
  {
    assert s.recvBuf + [] == s.recvBuf;
  }

  lemma OneFewer(buffer: map<u32, seq<byte>>, next: u32)
    requires next in buffer
    ensures |buffer - {next}| == |buffer| - 1
  {
    assert buffer.Keys == (buffer - {next}).Keys + {next};
  }

  /** What every record keeps: at most 100 buffered frames, all numbered strictly above the next
      expected number. */
  ghost predicate BufferBounded(s: Stream) {
    && |s.outOfOrder| <= REORDER_CAPACITY
    && forall k :: k in s.outOfOrder ==> k > s.nextRecvSeq
  }

  lemma {:induction false} DrainSize(next: u32, buffer: map<u32, seq<byte>>)
    ensures var d := Drain(next, buffer); |d.rest| + |d.payloads| == |buffer|
    decreases |buffer|
  {
    if next in buffer {
      var rest := buffer - {next};
      OneFewer(buffer, next);
      DrainSize(Next32(next), rest);
    }
  }

  lemma {:induction false} DrainBounds(next: u32, buffer: map<u32, seq<byte>>)
    requires forall k :: k in buffer ==> k >= next
    ensures var d := Drain(next, buffer);
      && (forall k :: k in d.rest ==> k > d.next)
      && (d.next == next + |d.payloads| || (d.next == 0 && d.rest == map[] && next + |d.payloads| == TWO_TO_THE_32))
    decreases |buffer|
  {
    if next in buffer {
      var rest := buffer - {next};
      OneFewer(buffer, next);
      if next == TWO_TO_THE_32 - 1 {
        assert rest == map[];
        assert Drain(0, rest) == Drained([], 0, rest);
      } else {
        assert forall k :: k in rest ==> k >= next + 1;
        DrainBounds(next + 1, rest);
        assert Drain(next, buffer).rest == Drain(next + 1, rest).rest;
      }
    } else {
      assert Drain(next, buffer) == Drained([], next, buffer);
    }
  }

  /** Accepting a frame keeps the bound, and whenever the expected number wraps around it lands on
      0 with nothing left in the reorder buffer. */
  lemma AcceptKeepsBound(s: Stream, sequence: u32, payload: seq<byte>)
    requires BufferBounded(s)
    ensures BufferBounded(Accept(s, sequence, payload))
    ensures var t := Accept(s, sequence, payload);
      t.nextRecvSeq < s.nextRecvSeq ==> t.nextRecvSeq == 0 && t.outOfOrder == map[]
  {
    if sequence == s.nextRecvSeq {
      if sequence == TWO_TO_THE_32 - 1 {
        assert s.outOfOrder == map[];
      } else {
        DrainBounds(Next32(sequence), s.outOfOrder);
      }
      DrainSize(Next32(sequence), s.outOfOrder);
    } else if sequence > s.nextRecvSeq && |s.outOfOrder| < REORDER_CAPACITY {
      assert s.outOfOrder[sequence := payload].Keys == s.outOfOrder.Keys + {sequence};
    }
  }
}
