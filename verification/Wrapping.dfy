/** Sequence numbers modulo 2^32 against absolute chunk positions.

    `seq > next_recv_seq` is not a modular comparison, so a record understands a frame number
    only relative to how many chunks it has delivered so far. */
module Wrapping {
  import opened Words
  import opened Sequences
  import opened Streams

  /** The record has delivered the first `got` chunks, and what it buffers are later chunks of the
      same block of 2^32 numbers, each under its own number. */
  ghost predicate Aligned(s: Stream, chunks: seq<seq<byte>>, got: nat) {
    && got <= |chunks|
    && s.nextRecvSeq == Low32(got)
    && Buffered(s.nextRecvSeq, s.outOfOrder, chunks, Block(got))
  }

  ghost predicate Buffered(next: u32, buffer: map<u32, seq<byte>>, chunks: seq<seq<byte>>, block: nat) {
    forall k :: k in buffer ==> k > next && Holds(buffer, k, chunks, block)
  }

  ghost predicate Holds(buffer: map<u32, seq<byte>>, k: u32, chunks: seq<seq<byte>>, block: nat)
    requires k in buffer
  {
    block * TWO_TO_THE_32 + k < |chunks| && buffer[k] == chunks[block * TWO_TO_THE_32 + k]
  }

  /** `payloads` are the chunks from position `from` on. */
  ghost predicate Follows(payloads: seq<seq<byte>>, chunks: seq<seq<byte>>, from: nat) {
    && from + |payloads| <= |chunks|
    && forall j :: 0 <= j < |payloads| ==> payloads[j] == chunks[from + j]
  }

  /** The arrivals that a record with `got` delivered chunks does not mistake: those whose number lies
      below the expected one, which it ignores, and those of the block of 2^32 numbers it is in. */
  predicate Admissible(got: nat, i: nat) {
    Low32(i) < Low32(got) || Block(i) == Block(got)
  }

  lemma {:induction false} DrainAligned(next: u32, buffer: map<u32, seq<byte>>, chunks: seq<seq<byte>>, block: nat)
    requires block * TWO_TO_THE_32 + next <= |chunks|
    requires forall k :: k in buffer ==> k >= next && Holds(buffer, k, chunks, block)
    ensures var d := Drain(next, buffer);
      var got := block * TWO_TO_THE_32 + next;
      && Follows(d.payloads, chunks, got)
      && Buffered(d.next, d.rest, chunks, block)
    decreases |buffer|
  {
    if next in buffer {
      var rest := buffer - {next};
      OneFewer(buffer, next);
      assert Holds(buffer, next, chunks, block);
      if next == TWO_TO_THE_32 - 1 {
        assert rest == map[];
        assert Drain(0, rest) == Drained([], 0, rest);
        assert Drain(next, buffer) == Drained([buffer[next]], 0, rest);
      } else {
        forall k | k in rest ensures k >= next + 1 && Holds(rest, k, chunks, block) {
          assert Holds(buffer, k, chunks, block);
        }
        DrainAligned(next + 1, rest, chunks, block);
        var d := Drain(next + 1, rest);
        assert Drain(next, buffer) == Drained([buffer[next]] + d.payloads, d.next, d.rest);
        FollowsFirst(d.payloads, chunks, block * TWO_TO_THE_32 + next);
      }
    } else {
      assert Drain(next, buffer) == Drained([], next, buffer);
    }
  }

  lemma FollowsFirst(payloads: seq<seq<byte>>, chunks: seq<seq<byte>>, from: nat)
    requires from < |chunks| && Follows(payloads, chunks, from + 1)
    ensures Follows([chunks[from]] + payloads, chunks, from)
  {
    forall j | 0 <= j < |payloads| + 1 ensures ([chunks[from]] + payloads)[j] == chunks[from + j] {
      if j > 0 {
        assert payloads[j - 1] == chunks[from + 1 + (j - 1)];
      }
    }
  }

  lemma PositionAfter(got: nat, n: nat, low: u32)
    requires var reached := Low32(got) + 1 + n;
      low == if reached == TWO_TO_THE_32 then 0 else reached
    ensures Low32(got + 1 + n) == low
    ensures Block(got + 1 + n) == if low == 0 then Block(got) + 1 else Block(got)
  {
    SplitPosition(got, 0, 0);
    SplitPosition(got + 1 + n, if low == 0 then Block(got) + 1 else Block(got), low);
  }

  /** Draining after chunk `got` arrived: the frames taken out are the chunks that come next. */
  lemma DrainAfter(next: u32, buffer: map<u32, seq<byte>>, chunks: seq<seq<byte>>, got: nat)
    requires got < |chunks| && next == Low32(got) && Buffered(next, buffer, chunks, Block(got))
    ensures var d := Drain(Next32(next), buffer);
      var after := got + 1 + |d.payloads|;
      && Follows(d.payloads, chunks, got + 1)
      && d.next == Low32(after)
      && Buffered(d.next, d.rest, chunks, Block(after))
  {
    SplitPosition(got, 0, 0);
    var d := Drain(Next32(next), buffer);
    if next == TWO_TO_THE_32 - 1 {
      assert buffer == map[];
      assert d == Drained([], 0, buffer);
    } else {
      DrainAligned(next + 1, buffer, chunks, Block(got));
      DrainBounds(next + 1, buffer);
    }
    PositionAfter(got, |d.payloads|, d.next);
  }

  lemma AcceptNext(s: Stream, chunks: seq<seq<byte>>, got: nat)
    requires Aligned(s, chunks, got) && got < |chunks|
    ensures var released := Released(s, Low32(got), chunks[got]);
      && released != []
      && Follows(released, chunks, got)
      && Aligned(Accept(s, Low32(got), chunks[got]), chunks, got + |released|)
  {
    DrainAfter(s.nextRecvSeq, s.outOfOrder, chunks, got);
    FollowsFirst(Drain(Next32(s.nextRecvSeq), s.outOfOrder).payloads, chunks, got);
  }

  /** An admissible copy of chunk `i` keeps the record aligned: what it releases are exactly the
      chunks that come next, across any number of wraps of the frame number. */
  lemma AcceptAligned(s: Stream, chunks: seq<seq<byte>>, got: nat, i: nat)
    requires Aligned(s, chunks, got) && i < |chunks| && Admissible(got, i)
    ensures var released := Released(s, Low32(i), chunks[i]);
      && Follows(released, chunks, got)
      && (released != [] <==> i == got)
      && Aligned(Accept(s, Low32(i), chunks[i]), chunks, got + |released|)
  {
    SplitPosition(got, 0, 0);
    SplitPosition(i, 0, 0);
    if i == got {
      AcceptNext(s, chunks, got);
    } else if Low32(i) > Low32(got) {
      if |s.outOfOrder| < REORDER_CAPACITY {
        AcceptAhead(s, chunks, got, i);
      }
    }
  }

  lemma AcceptAhead(s: Stream, chunks: seq<seq<byte>>, got: nat, i: nat)
    requires Aligned(s, chunks, got) && i < |chunks|
    requires Block(i) == Block(got) && Low32(i) > Low32(got) && |s.outOfOrder| < REORDER_CAPACITY
    ensures Aligned(Accept(s, Low32(i), chunks[i]), chunks, got)
  {
    SplitPosition(i, 0, 0);
    var buffer := s.outOfOrder[Low32(i) := chunks[i]];
    forall k | k in buffer ensures k > s.nextRecvSeq && Holds(buffer, k, chunks, Block(got)) {
      if k != Low32(i) {
        assert Holds(s.outOfOrder, k, chunks, Block(got));
      }
    }
  }

  /** The record has room for a frame numbered ahead, and does not hold that very frame already. */
  predicate Takes(s: Stream, sequence: u32, payload: seq<byte>) {
    && |s.outOfOrder| < REORDER_CAPACITY
    && !(sequence in s.outOfOrder && s.outOfOrder[sequence] == payload)
  }

  /** A late copy leaves the record unchanged exactly when its number lies below the expected one, or
      lies above it and the buffer is full or holds that very frame. Any other late copy (possible
      only once the number has wrapped) is taken for a frame still to come. */
  lemma LateCopyIgnoredExactly(s: Stream, chunks: seq<seq<byte>>, got: nat, i: nat)
    requires Aligned(s, chunks, got) && i < got
    ensures Accept(s, Low32(i), chunks[i]) == s
       <==> Admissible(got, i) || (Low32(i) > s.nextRecvSeq && !Takes(s, Low32(i), chunks[i]))
  {
    var sequence, payload := Low32(i), chunks[i];
    if sequence == s.nextRecvSeq {
      DrainChanges(sequence, s.outOfOrder);
    } else if sequence > s.nextRecvSeq {
      BufferingChanges(s.outOfOrder, sequence, payload);
    }
  }

  lemma BufferingChanges(buffer: map<u32, seq<byte>>, sequence: u32, payload: seq<byte>)
    ensures buffer[sequence := payload] == buffer <==> sequence in buffer && buffer[sequence] == payload
  {
    assert buffer[sequence := payload][sequence] == payload;
  }

  /** Accepting the expected number moves the record on, or empties a buffer that was not empty. */
  lemma DrainChanges(next: u32, buffer: map<u32, seq<byte>>)
    requires forall k :: k in buffer ==> k > next
    ensures var d := Drain(Next32(next), buffer); d.next != next || d.rest != buffer
  {
    if next == TWO_TO_THE_32 - 1 {
      assert buffer == map[];
    } else {
      DrainBounds(next + 1, buffer);
      if buffer == map[] {
        assert Drain(next + 1, buffer) == Drained([], next + 1, buffer);
      }
    }
  }

  // ----- what a late copy does that is not ignored

  /** The position that the record takes an inadmissible copy for. */
  function MistakenFor(got: nat, i: nat): nat {
    Block(got) * TWO_TO_THE_32 + Low32(i)
  }

  /** The record after these payloads arrived, each under the number expected next. */
  function FeedNext(s: Stream, payloads: seq<seq<byte>>): Stream {
    if payloads == [] then s
    else
      var before := FeedNext(s, Front(payloads));
      Accept(before, before.nextRecvSeq, Last(payloads))
  }

  /** A frame in order that reaches no buffered one. */
  lemma AcceptAlone(s: Stream, payload: seq<byte>)
    requires Next32(s.nextRecvSeq) !in s.outOfOrder
    ensures Accept(s, s.nextRecvSeq, payload)
         == s.(recvBuf := s.recvBuf + payload, nextRecvSeq := Next32(s.nextRecvSeq))
  {
    assert Drain(Next32(s.nextRecvSeq), s.outOfOrder) == Drained([], Next32(s.nextRecvSeq), s.outOfOrder);
    ConcatOne(payload);
  }

  /** The frame before the only buffered one releases both. */
  lemma AcceptBefore(s: Stream, payload: seq<byte>, waiting: u32, stale: seq<byte>)
    requires waiting == s.nextRecvSeq + 1 && s.outOfOrder == map[waiting := stale]
    ensures Accept(s, s.nextRecvSeq, payload)
         == s.(recvBuf := s.recvBuf + payload + stale, nextRecvSeq := Next32(waiting), outOfOrder := map[])
  {
    assert s.outOfOrder - {waiting} == map[];
    assert Drain(Next32(waiting), map[]) == Drained([], Next32(waiting), map[]);
    assert Drain(waiting, s.outOfOrder) == Drained([stale], Next32(waiting), map[]);
    ConcatCons(payload, [stale]);
    ConcatOne(stale);
    assert s.recvBuf + Concat([payload] + [stale]) == s.recvBuf + payload + stale;
  }

  /** Short of the only buffered frame, payloads are delivered one by one and it stays buffered. */
  lemma {:induction false} FeedUpTo(s: Stream, payloads: seq<seq<byte>>, waiting: u32)
    requires s.outOfOrder.Keys == {waiting} && s.nextRecvSeq + |payloads| < waiting
    ensures FeedNext(s, payloads)
         == s.(recvBuf := s.recvBuf + Concat(payloads), nextRecvSeq := s.nextRecvSeq + |payloads|)
    decreases |payloads|
  {
    if payloads == [] {
      assert s.recvBuf + [] == s.recvBuf;
    } else {
      FeedUpTo(s, Front(payloads), waiting);
      AcceptAlone(FeedNext(s, Front(payloads)), Last(payloads));
      TextSnoc(s.recvBuf, payloads);
    }
  }

  lemma TextSnoc(text: seq<byte>, payloads: seq<seq<byte>>)
    requires payloads != []
    ensures text + Concat(Front(payloads)) + Last(payloads) == text + Concat(payloads)
  {
    assert payloads == Front(payloads) + [Last(payloads)];
    ConcatSnoc(Front(payloads), Last(payloads));
  }

  lemma FeedReaches(s: Stream, payloads: seq<seq<byte>>, waiting: u32, stale: seq<byte>)
    requires payloads != [] && s.nextRecvSeq + |payloads| == waiting && s.outOfOrder == map[waiting := stale]
    ensures FeedNext(s, payloads)
         == s.(recvBuf := s.recvBuf + Concat(payloads) + stale, nextRecvSeq := Next32(waiting), outOfOrder := map[])
  {
    FeedUpTo(s, Front(payloads), waiting);
    AcceptBefore(FeedNext(s, Front(payloads)), Last(payloads), waiting, stale);
    TextSnoc(s.recvBuf, payloads);
  }

  lemma MistakenAhead(got: nat, i: nat)
    requires !Admissible(got, i)
    ensures var position := MistakenFor(got, i);
      && position != i && position - got == Low32(i) - Low32(got) >= 0
      && Low32(position) == Low32(i) && Block(position) == Block(got)
  {
    SplitPosition(got, 0, 0);
    SplitPosition(i, 0, 0);
    SplitPosition(MistakenFor(got, i), Block(got), Low32(i));
  }

  /** An inadmissible copy, late or of a later block, is delivered in place of the chunk it is taken
      for: at once, or as soon as the chunks before that position have arrived. */
  lemma StaleCopyDelivered(s: Stream, chunks: seq<seq<byte>>, got: nat, i: nat)
    requires Aligned(s, chunks, got) && s.outOfOrder == map[]
    requires i < |chunks| && !Admissible(got, i) && MistakenFor(got, i) <= |chunks|
    ensures var position := MistakenFor(got, i);
      && got <= position
      && FeedNext(Accept(s, Low32(i), chunks[i]), chunks[got..position])
         == s.(recvBuf := s.recvBuf + Concat(chunks[got..position]) + chunks[i], nextRecvSeq := Next32(Low32(position)))
  {
    var position, sequence, stale := MistakenFor(got, i), Low32(i), chunks[i];
    MistakenAhead(got, i);
    var between := chunks[got..position];
    if between == [] {
      AcceptAlone(s, stale);
      assert s.recvBuf + Concat(between) == s.recvBuf;
    } else {
      assert Accept(s, sequence, stale) == s.(outOfOrder := map[sequence := stale]);
      FeedReaches(s.(outOfOrder := map[sequence := stale]), between, sequence, stale);
    }
  }

  /** Fewer than 2^32 chunks never wrap, so every arrival is admissible. */
  lemma ShortStreamsAdmissible(got: nat, i: nat, total: nat)
    requires got <= total < TWO_TO_THE_32 && i < total
    ensures Admissible(got, i)
  {
    SplitPosition(got, 0, got);
    SplitPosition(i, 0, i);
  }

  /** The record after the first `n` chunks arrived in order, numbered modulo 2^32. */
  function FeedInOrder(s: Stream, chunks: seq<seq<byte>>, n: nat): Stream
    requires n <= |chunks|
  {
    if n == 0 then s else Accept(FeedInOrder(s, chunks, n - 1), Low32(n - 1), chunks[n - 1])
  }

  /** In-order arrival loses nothing, however often the number wraps. */
  lemma {:induction false} InOrderLosesNothing(clientId: u32, notify: NotifyId, chunks: seq<seq<byte>>, n: nat)
    requires n <= |chunks|
    ensures FeedInOrder(Fresh(clientId, notify), chunks, n)
         == Fresh(clientId, notify).(recvBuf := Concat(chunks[..n]), nextRecvSeq := Low32(n))
  {
    if n > 0 {
      InOrderLosesNothing(clientId, notify, chunks, n - 1);
      NextPosition(n - 1);
      AcceptAlone(FeedInOrder(Fresh(clientId, notify), chunks, n - 1), chunks[n - 1]);
      assert chunks[..n] == chunks[..n - 1] + [chunks[n - 1]];
      ConcatSnoc(chunks[..n - 1], chunks[n - 1]);
    } else {
      assert Concat(chunks[..0]) == [];
    }
  }
}
