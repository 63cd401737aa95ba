/** For which orders of arrival the reorder buffer loses nothing.

    The frames of one stream, of any length, arrive with repetitions and in any order; nothing is
    refused if and only if displacement is bounded and the blocks of 2^32 numbers come one after the
    other. When every frame arrives once, that is exactly when every stream is delivered. */
module Displacement {
  import opened Words
  import opened Sequences
  import opened Streams
  import opened Wrapping
  import opened Reorder

  ghost predicate NothingRefused(arrivals: seq<nat>) {
    arrivals == [] || (NothingRefused(Front(arrivals)) && !Refused(Kept(Front(arrivals)), Last(arrivals)))
  }

  /** As long as a frame has not arrived, at most 100 distinct later frames have. */
  ghost predicate BoundedDisplacement(arrivals: seq<nat>) {
    forall i, m: nat :: 0 <= i <= |arrivals| && m !in arrivals[..i] ==> |Overtaking(arrivals[..i], m)| <= REORDER_CAPACITY
  }

  ghost function Overtaking(arrived: seq<nat>, m: nat): set<nat> {
    set x | x in arrived && x > m
  }

  /** No frame arrives before all the frames of earlier blocks have. */
  ghost predicate BlockByBlock(arrivals: seq<nat>) {
    forall i, m: nat :: 0 <= i < |arrivals| && m < BlockStart(arrivals[i]) ==> m in arrivals[..i]
  }

  function BlockStart(n: nat): nat {
    Block(n) * TWO_TO_THE_32
  }

  ghost predicate LossFree(arrivals: seq<nat>) {
    BoundedDisplacement(arrivals) && BlockByBlock(arrivals)
  }

  lemma BlockStarts(gap: nat, x: nat)
    requires gap <= x
    ensures BlockStart(gap) <= gap
    ensures Block(gap) == Block(x) || gap < BlockStart(x)
  {
    SplitPosition(gap, 0, 0);
    SplitPosition(x, 0, 0);
  }

  // ----- nothing is refused

  /** With nothing refused so far, what was kept is what arrived. */
  lemma {:induction false} NothingRefusedKeepsAll(arrivals: seq<nat>)
    requires NothingRefused(arrivals)
    ensures Kept(arrivals) == Elements(arrivals)
    decreases |arrivals|
  {
    if arrivals == [] {
    } else {
      NothingRefusedKeepsAll(Front(arrivals));
      assert arrivals == Front(arrivals) + [Last(arrivals)];
    }
  }

  lemma {:induction false} NothingRefusedPrefix(arrivals: seq<nat>, n: nat)
    requires NothingRefused(arrivals) && n <= |arrivals|
    ensures NothingRefused(arrivals[..n])
    decreases |arrivals|
  {
    if n == |arrivals| {
      assert arrivals[..n] == arrivals;
    } else {
      NothingRefusedPrefix(Front(arrivals), n);
      assert Front(arrivals)[..n] == arrivals[..n];
    }
  }

  /** The record refuses nothing exactly when displacement is bounded and the blocks come in turn. */
  lemma NothingRefusedExactly(arrivals: seq<nat>)
    ensures NothingRefused(arrivals) <==> BoundedDisplacement(arrivals) && BlockByBlock(arrivals)
  {
    if NothingRefused(arrivals) {
      forall i, m: nat | 0 <= i <= |arrivals| && m !in arrivals[..i]
        ensures |Overtaking(arrivals[..i], m)| <= REORDER_CAPACITY
      {
        NothingRefusedPrefix(arrivals, i);
        FewOvertake(arrivals[..i], m);
      }
      forall i, m: nat | 0 <= i < |arrivals| && m < BlockStart(arrivals[i]) ensures m in arrivals[..i] {
        NothingRefusedPrefix(arrivals, i + 1);
        assert arrivals[..i + 1] == arrivals[..i] + [arrivals[i]];
        assert Front(arrivals[..i + 1]) == arrivals[..i];
        EarlierBlocksCame(arrivals[..i], arrivals[i], m);
      }
    }
    if LossFree(arrivals) {
      BoundedNothingRefused(arrivals, |arrivals|);
      assert arrivals[..|arrivals|] == arrivals;
    }
  }

  lemma FewOvertake(before: seq<nat>, m: nat)
    requires NothingRefused(before) && m !in before
    ensures |Overtaking(before, m)| <= REORDER_CAPACITY
  {
    NothingRefusedKeepsAll(before);
    KeptWithin(before);
    assert m in Kept(before) || LeastMissing(Kept(before)) <= m;
    SubsetSize(Overtaking(before, m), Above(Kept(before)));
  }

  lemma EarlierBlocksCame(before: seq<nat>, x: nat, m: nat)
    requires NothingRefused(before) && !Refused(Kept(before), x) && m < BlockStart(x)
    ensures m in before
  {
    NothingRefusedKeepsAll(before);
    KeptWithin(before);
    var kept := Kept(before);
    var gap := LeastMissing(kept);
    SplitPosition(x, 0, 0);
    SplitPosition(gap, 0, 0);
    assert x > gap && x in kept ==> x in Above(kept);
    assert m in kept;
  }

  lemma {:induction false} BoundedNothingRefused(arrivals: seq<nat>, n: nat)
    requires LossFree(arrivals) && n <= |arrivals|
    ensures NothingRefused(arrivals[..n])
  {
    if n > 0 {
      BoundedNothingRefused(arrivals, n - 1);
      assert arrivals[..n] == arrivals[..n - 1] + [arrivals[n - 1]];
      assert Front(arrivals[..n]) == arrivals[..n - 1];
      NotRefused(arrivals, n);
    }
  }

  lemma NotRefused(arrivals: seq<nat>, n: nat)
    requires LossFree(arrivals) && 0 < n <= |arrivals| && NothingRefused(arrivals[..n - 1])
    ensures !Refused(Kept(arrivals[..n - 1]), arrivals[n - 1])
  {
    var before, x := arrivals[..n - 1], arrivals[n - 1];
    NothingRefusedKeepsAll(before);
    var kept := Kept(before);
    var gap := LeastMissing(kept);
    if x !in kept && x > gap {
      BlockStarts(gap, x);
      assert gap !in before;
      assert arrivals[..n] == before + [x];
      SubsetSize(Above(kept) + {x}, Overtaking(arrivals[..n], gap));
    }
  }

  // ----- what then holds

  /** With nothing refused the record depends only on which frames arrived, not on their order or
      multiplicity. */
  lemma OrderIndependence(clientId: u32, notify: NotifyId, chunks: seq<seq<byte>>, xs: seq<nat>, ys: seq<nat>)
    requires Within(|chunks|, xs) && AdmissibleRun(xs) && LossFree(xs)
    requires Within(|chunks|, ys) && AdmissibleRun(ys) && LossFree(ys)
    requires Elements(xs) == Elements(ys)
    ensures Feed(Fresh(clientId, notify), chunks, xs) == Feed(Fresh(clientId, notify), chunks, ys)
  {
    HoldsElements(clientId, notify, chunks, xs);
    HoldsElements(clientId, notify, chunks, ys);
    FeedFrame(Fresh(clientId, notify), chunks, xs);
    FeedFrame(Fresh(clientId, notify), chunks, ys);
    HeldAlike(Feed(Fresh(clientId, notify), chunks, xs), Feed(Fresh(clientId, notify), chunks, ys), chunks, Elements(xs));
  }

  lemma HoldsElements(clientId: u32, notify: NotifyId, chunks: seq<seq<byte>>, arrivals: seq<nat>)
    requires Within(|chunks|, arrivals) && AdmissibleRun(arrivals) && LossFree(arrivals)
    ensures Reorder.Holds(Feed(Fresh(clientId, notify), chunks, arrivals), chunks, Elements(arrivals))
  {
    NothingRefusedExactly(arrivals);
    NothingRefusedKeepsAll(arrivals);
    FeedRefinesKept(clientId, notify, chunks, arrivals);
  }

  lemma HeldAlike(s: Stream, t: Stream, chunks: seq<seq<byte>>, kept: set<nat>)
    requires Reorder.Holds(s, chunks, kept) && Reorder.Holds(t, chunks, kept)
    ensures s.recvBuf == t.recvBuf && s.nextRecvSeq == t.nextRecvSeq && s.outOfOrder == t.outOfOrder
  {
    var gap := LeastMissing(kept);
    forall k: u32 ensures k in s.outOfOrder <==> k in t.outOfOrder {
      assert k in s.outOfOrder <==> At(gap, k) in Above(kept);
    }
    forall k | k in s.outOfOrder ensures s.outOfOrder[k] == t.outOfOrder[k] {
      assert Wrapping.Holds(s.outOfOrder, k, chunks, Block(gap)) && Wrapping.Holds(t.outOfOrder, k, chunks, Block(gap));
    }
  }

  lemma {:induction false} FeedFrame(s: Stream, chunks: seq<seq<byte>>, arrivals: seq<nat>)
    requires Within(|chunks|, arrivals)
    ensures var t := Feed(s, chunks, arrivals);
      && t.clientId == s.clientId && t.closed == s.closed
      && t.nextSendSeq == s.nextSendSeq && t.notify == s.notify
    decreases |arrivals|
  {
    if arrivals != [] {
      FeedFrame(s, chunks, Front(arrivals));
    }
  }

  /** Losslessness: if every frame arrives and nothing is refused, the whole stream is delivered. */
  lemma BoundedDisplacementDelivers(clientId: u32, notify: NotifyId, chunks: seq<seq<byte>>, arrivals: seq<nat>)
    requires Within(|chunks|, arrivals) && AdmissibleRun(arrivals)
    requires BoundedDisplacement(arrivals) && BlockByBlock(arrivals)
    requires forall i :: 0 <= i < |chunks| ==> i in arrivals
    ensures Feed(Fresh(clientId, notify), chunks, arrivals).recvBuf == Concat(chunks)
  {
    HoldsElements(clientId, notify, chunks, arrivals);
    GapUnique(Elements(arrivals), 0, |chunks|);
    assert chunks[..|chunks|] == chunks;
  }

  /** A stream of fewer than 2^32 chunks does not wrap: no frame is mistaken, and all are of one block. */
  lemma {:induction false} ShortRuns(n: nat, arrivals: seq<nat>)
    requires Within(n, arrivals) && n < TWO_TO_THE_32
    ensures AdmissibleRun(arrivals) && BlockByBlock(arrivals)
    decreases |arrivals|
  {
    if arrivals != [] {
      var before := Front(arrivals);
      ShortRuns(n, before);
      KeptWithin(before);
      assert n !in Kept(before);
      ShortStreamsAdmissible(LeastMissing(Kept(before)), Last(arrivals), n);
      forall i | 0 <= i < |arrivals| ensures BlockStart(arrivals[i]) == 0 {
        SplitPosition(arrivals[i], 0, arrivals[i]);
      }
    }
  }

  // ----- single copies

  ghost predicate Distinct(arrivals: seq<nat>) {
    forall i, j :: 0 <= i < j < |arrivals| ==> arrivals[i] != arrivals[j]
  }

  /** A frame that was not refused and comes for the first time is not mistaken for another. */
  lemma {:induction false} SingleCopiesAdmissible(arrivals: seq<nat>)
    requires Distinct(arrivals) && NothingRefused(arrivals)
    ensures AdmissibleRun(arrivals)
    decreases |arrivals|
  {
    if arrivals != [] {
      var before, x := Front(arrivals), Last(arrivals);
      SingleCopiesAdmissible(before);
      NothingRefusedKeepsAll(before);
      assert x !in before;
      assert x !in Kept(before);
    }
  }

  /** A stream whose chunks are one byte each: 1 at position `x` and 0 elsewhere. */
  function Marked(n: nat, x: nat): seq<seq<byte>> {
    seq(n, i => if i == x then [1] else [0])
  }

  lemma MarkedText(n: nat, x: nat)
    requires x < n
    ensures |Concat(Marked(n, x))| == n && Concat(Marked(n, x))[x] == 1
  {
    OnesConcat(Marked(n, x));
  }

  ghost predicate Ones(payloads: seq<seq<byte>>) {
    forall i :: 0 <= i < |payloads| ==> |payloads[i]| == 1
  }

  /** One-byte payloads stand in their text at their own positions. */
  lemma {:induction false} OnesConcat(payloads: seq<seq<byte>>)
    requires Ones(payloads)
    ensures |Concat(payloads)| == |payloads|
    ensures forall i :: 0 <= i < |payloads| ==> payloads[i] == [Concat(payloads)[i]]
  {
    if payloads != [] {
      OnesConcat(payloads[1..]);
    }
  }

  /** The mark of position `x` is lost: it is not at that place in the delivered bytes, and if it is
      buffered it is so in a block that is not its own. */
  ghost predicate Lost(s: Stream, x: nat) {
    && s.nextRecvSeq == Low32(|s.recvBuf|)
    && (forall j :: 0 <= j < |s.recvBuf| && s.recvBuf[j] == 1 ==> j != x)
    && LostIn(s.nextRecvSeq, s.outOfOrder, Block(|s.recvBuf|), x)
  }

  ghost predicate LostIn(next: u32, buffer: map<u32, seq<byte>>, block: nat, x: nat) {
    forall k :: k in buffer ==> k > next && MarkAway(buffer, k, block, x)
  }

  ghost predicate MarkAway(buffer: map<u32, seq<byte>>, k: u32, block: nat, x: nat)
    requires k in buffer
  {
    |buffer[k]| == 1 && (buffer[k] == [1] ==> block * TWO_TO_THE_32 + k != x)
  }

  // ----- a lost mark stays lost

  lemma {:induction false} LostDrain(next: u32, buffer: map<u32, seq<byte>>, block: nat, x: nat)
    requires forall k :: k in buffer ==> k >= next && MarkAway(buffer, k, block, x)
    ensures var d := Drain(next, buffer);
      && Unmarked(d.payloads, block * TWO_TO_THE_32 + next, x)
      && LostIn(d.next, d.rest, block, x)
    decreases |buffer|
  {
    if next in buffer {
      var rest := buffer - {next};
      OneFewer(buffer, next);
      assert MarkAway(buffer, next, block, x);
      if next == TWO_TO_THE_32 - 1 {
        assert rest == map[];
        assert Drain(0, rest) == Drained([], 0, rest);
        assert Drain(next, buffer) == Drained([buffer[next]], 0, rest);
      } else {
        forall k | k in rest ensures k >= next + 1 && MarkAway(rest, k, block, x) {
          assert MarkAway(buffer, k, block, x);
        }
        LostDrain(next + 1, rest, block, x);
        var d := Drain(next + 1, rest);
        assert Drain(next, buffer) == Drained([buffer[next]] + d.payloads, d.next, d.rest);
        UnmarkedCons(buffer[next], d.payloads, block * TWO_TO_THE_32 + next, x);
      }
    } else {
      assert Drain(next, buffer) == Drained([], next, buffer);
    }
  }

  /** One-byte payloads for the positions from `from` on, with no mark at position `x`. */
  ghost predicate Unmarked(payloads: seq<seq<byte>>, from: nat, x: nat) {
    forall i :: 0 <= i < |payloads| ==> |payloads[i]| == 1 && (payloads[i] == [1] ==> from + i != x)
  }

  lemma UnmarkedCons(payload: seq<byte>, payloads: seq<seq<byte>>, from: nat, x: nat)
    requires Unmarked(payloads, from + 1, x) && |payload| == 1 && (payload == [1] ==> from != x)
    ensures Unmarked([payload] + payloads, from, x)
  {
    var all := [payload] + payloads;
    forall i | 0 <= i < |all| ensures |all[i]| == 1 && (all[i] == [1] ==> from + i != x) {
      assert i > 0 ==> all[i] == payloads[i - 1];
    }
  }

  /** The number `k` is ignored, or stands for another position than `x`. */
  ghost predicate Stray(s: Stream, k: u32, x: nat) {
    || k < s.nextRecvSeq
    || (k > s.nextRecvSeq && |s.outOfOrder| >= REORDER_CAPACITY)
    || Block(|s.recvBuf|) * TWO_TO_THE_32 + k != x
  }

  lemma LostAccept(s: Stream, x: nat, k: u32, payload: seq<byte>)
    requires Lost(s, x) && |payload| == 1 && (payload == [1] ==> Stray(s, k, x))
    ensures Lost(Accept(s, k, payload), x)
  {
    if k == s.nextRecvSeq {
      LostExpected(s, x, payload);
    } else if k > s.nextRecvSeq && |s.outOfOrder| < REORDER_CAPACITY {
      var block, buffer := Block(|s.recvBuf|), s.outOfOrder[k := payload];
      forall j | j in buffer ensures j > s.nextRecvSeq && MarkAway(buffer, j, block, x) {
        assert j != k ==> MarkAway(s.outOfOrder, j, block, x);
      }
    }
  }

  lemma LostExpected(s: Stream, x: nat, payload: seq<byte>)
    requires Lost(s, x) && |payload| == 1 && (payload == [1] ==> |s.recvBuf| != x)
    ensures Lost(Accept(s, s.nextRecvSeq, payload), x)
  {
    var got, next := |s.recvBuf|, s.nextRecvSeq;
    var d, released := Drain(Next32(next), s.outOfOrder), Released(s, next, payload);
    SplitPosition(got, 0, 0);
    if next == TWO_TO_THE_32 - 1 {
      assert s.outOfOrder == map[];
      assert d == Drained([], 0, s.outOfOrder);
    } else {
      LostDrain(next + 1, s.outOfOrder, Block(got), x);
      DrainBounds(next + 1, s.outOfOrder);
    }
    PositionAfter(got, |d.payloads|, d.next);
    UnmarkedCons(payload, d.payloads, got, x);
    LostText(s.recvBuf, released, x);
  }

  lemma LostText(text: seq<byte>, released: seq<seq<byte>>, x: nat)
    requires forall j :: 0 <= j < |text| && text[j] == 1 ==> j != x
    requires Unmarked(released, |text|, x)
    ensures |text + Concat(released)| == |text| + |released|
    ensures forall j :: 0 <= j < |text + Concat(released)| && (text + Concat(released))[j] == 1 ==> j != x
  {
    OnesConcat(released);
    var whole := text + Concat(released);
    forall j | 0 <= j < |whole| && whole[j] == 1 ensures j != x {
      assert j >= |text| ==> released[j - |text|] == [1];
    }
  }

  /** Before its frame came the mark is nowhere. */
  lemma NotYetMarked(s: Stream, n: nat, kept: set<nat>, x: nat)
    requires x < n && Reorder.Holds(s, Marked(n, x), kept) && x !in kept && x > LeastMissing(kept)
    ensures Lost(s, x) && |s.recvBuf| == LeastMissing(kept)
  {
    var chunks, gap := Marked(n, x), LeastMissing(kept);
    UnmarkedText(n, x, gap);
    forall k | k in s.outOfOrder ensures MarkAway(s.outOfOrder, k, Block(gap), x) {
      assert Wrapping.Holds(s.outOfOrder, k, chunks, Block(gap));
      assert At(gap, k) in Above(kept);
    }
  }

  lemma UnmarkedText(n: nat, x: nat, gap: nat)
    requires gap <= x < n
    ensures |Concat(Marked(n, x)[..gap])| == gap
    ensures forall j :: 0 <= j < gap ==> Concat(Marked(n, x)[..gap])[j] == 0
  {
    var payloads := Marked(n, x)[..gap];
    OnesConcat(payloads);
    forall j | 0 <= j < gap ensures Concat(payloads)[j] == 0 {
      assert payloads[j] == [0];
    }
  }

  /** When a frame is refused its mark is lost: it is ignored, or taken for a frame of another block. */
  lemma RefusedIsLost(s: Stream, n: nat, kept: set<nat>, x: nat)
    requires x < n && Reorder.Holds(s, Marked(n, x), kept) && Refused(kept, x)
    ensures Lost(Accept(s, Low32(x), [1]), x)
  {
    NotYetMarked(s, n, kept, x);
    BufferIsAbove(s, Marked(n, x), kept);
    RefusedIsStray(s, LeastMissing(kept), x);
    LostAccept(s, x, Low32(x), [1]);
  }

  lemma RefusedIsStray(s: Stream, gap: nat, x: nat)
    requires x > gap == |s.recvBuf| && s.nextRecvSeq == Low32(gap)
    requires Block(x) != Block(gap) || |s.outOfOrder| >= REORDER_CAPACITY
    ensures Stray(s, Low32(x), x)
  {
    SplitPosition(x, 0, 0);
    if Block(x) == Block(gap) {
      PositionOf(gap, x);
    } else {
      SplitPosition(x, Block(gap), Low32(x));
    }
  }

  lemma {:induction false} LostRun(clientId: u32, notify: NotifyId, n: nat, arrivals: seq<nat>, i: nat)
    requires Within(n, arrivals) && Distinct(arrivals) && i < |arrivals|
    requires NothingRefused(arrivals[..i]) && Refused(Kept(arrivals[..i]), arrivals[i])
    ensures Lost(Feed(Fresh(clientId, notify), Marked(n, arrivals[i]), arrivals), arrivals[i])
    decreases |arrivals|
  {
    var before, x := Front(arrivals), arrivals[i];
    if i == |arrivals| - 1 {
      SingleCopiesAdmissible(before);
      FeedRefinesKept(clientId, notify, Marked(n, x), before);
      RefusedIsLost(Feed(Fresh(clientId, notify), Marked(n, x), before), n, Kept(before), x);
    } else {
      assert before[..i] == arrivals[..i];
      LostRun(clientId, notify, n, before, i);
      LostAccept(Feed(Fresh(clientId, notify), Marked(n, x), before), x, Low32(Last(arrivals)), [0]);
    }
  }

  lemma {:induction false} FirstRefused(arrivals: seq<nat>) returns (i: nat)
    requires !NothingRefused(arrivals)
    ensures i < |arrivals| && NothingRefused(arrivals[..i]) && Refused(Kept(arrivals[..i]), arrivals[i])
    decreases |arrivals|
  {
    if NothingRefused(Front(arrivals)) {
      i := |arrivals| - 1;
    } else {
      i := FirstRefused(Front(arrivals));
      assert Front(arrivals)[..i] == arrivals[..i];
    }
  }

  ghost predicate DeliversAll(clientId: u32, notify: NotifyId, n: nat, arrivals: seq<nat>)
    requires Within(n, arrivals)
  {
    forall chunks: seq<seq<byte>> :: |chunks| == n ==> Feed(Fresh(clientId, notify), chunks, arrivals).recvBuf == Concat(chunks)
  }

  /** Without duplicates the condition is also necessary, for streams of any length: a run in which
      each of the `n` frames arrives exactly once delivers every stream of `n` chunks if and only if
      displacement is bounded and the blocks come one after the other. */
  lemma SingleCopiesDeliveredExactly(clientId: u32, notify: NotifyId, n: nat, arrivals: seq<nat>)
    requires Within(n, arrivals) && Distinct(arrivals) && forall i :: 0 <= i < n ==> i in arrivals
    ensures DeliversAll(clientId, notify, n, arrivals) <==> BoundedDisplacement(arrivals) && BlockByBlock(arrivals)
  {
    NothingRefusedExactly(arrivals);
    if NothingRefused(arrivals) {
      SingleCopiesAdmissible(arrivals);
      forall chunks: seq<seq<byte>> | |chunks| == n
        ensures Feed(Fresh(clientId, notify), chunks, arrivals).recvBuf == Concat(chunks)
      {
        BoundedDisplacementDelivers(clientId, notify, chunks, arrivals);
      }
    } else {
      var i := FirstRefused(arrivals);
      LostRun(clientId, notify, n, arrivals, i);
      MarkedText(n, arrivals[i]);
    }
  }

  /** Two neighbours swapped across a wrap lose a chunk: the frame numbered 0 comes while 2^32 - 1 is
      expected and is ignored, and the next one leaves the record waiting for it. */
  lemma SwapAcrossWrapLoses(s: Stream, chunks: seq<seq<byte>>, got: nat)
    requires Aligned(s, chunks, got) && s.outOfOrder == map[]
    requires Low32(got) == TWO_TO_THE_32 - 1 && got + 1 < |chunks|
    ensures Feed(s, chunks, [got + 1, got]) == s.(recvBuf := s.recvBuf + chunks[got], nextRecvSeq := 0)
  {
    NextPosition(got);
    assert Front([got + 1, got]) == [got + 1] && Front([got + 1]) == [];
    assert Feed(s, chunks, [got + 1]) == s;
    AcceptAlone(s, chunks[got]);
  }
}
