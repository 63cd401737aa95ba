/** The reorder buffer against a specification on sets of received frames.

    One sender numbers its chunks 0, 1, 2, ... modulo 2^32; any sequence of those frames arrives, with
    repetitions, gaps and in any order. */
module Reorder {
  import opened Words
  import opened Sequences
  import opened Streams
  import opened Wrapping

  // ----- the specification: the set of frames kept, and its least missing number

  function FirstGap(kept: set<nat>, n: nat): (g: nat)
    ensures g >= n && g !in kept && forall i :: n <= i < g ==> i in kept
    decreases |set k | k in kept && k >= n|
  {
    if n in kept then
      assert (set k | k in kept && k >= n) == (set k | k in kept && k >= n + 1) + {n};
      FirstGap(kept, n + 1)
    else n
  }

  function LeastMissing(kept: set<nat>): (g: nat)
    ensures g !in kept && forall i :: 0 <= i < g ==> i in kept
  {
    FirstGap(kept, 0)
  }

  function Above(kept: set<nat>): set<nat> {
    set k | k in kept && k > LeastMissing(kept)
  }

  /** A frame is refused when it is new, ahead of the gap, and of a later block of 2^32 numbers than
      the gap or met by 100 frames that are already ahead of it. */
  predicate Refused(kept: set<nat>, x: nat) {
    var gap := LeastMissing(kept);
    x !in kept && x > gap && (Block(x) != Block(gap) || |Above(kept)| >= REORDER_CAPACITY)
  }

  function Keep(kept: set<nat>, x: nat): set<nat> {
    if Refused(kept, x) then kept else kept + {x}
  }

  function Kept(arrivals: seq<nat>): set<nat> {
    if arrivals == [] then {} else Keep(Kept(Front(arrivals)), Last(arrivals))
  }

  ghost function Elements(xs: seq<nat>): set<nat> {
    set x | x in xs
  }

  // ----- the implementation: the record after those frames

  ghost predicate Within(n: nat, arrivals: seq<nat>) {
    forall i :: 0 <= i < |arrivals| ==> arrivals[i] < n
  }

  /** No frame arrives at a moment at which the record takes it for another. */
  ghost predicate AdmissibleRun(arrivals: seq<nat>) {
    arrivals == [] || (AdmissibleRun(Front(arrivals)) && Admissible(LeastMissing(Kept(Front(arrivals))), Last(arrivals)))
  }

  /** The record after the data frames `arrivals`, each with its own chunk as payload. */
  function Feed(s: Stream, chunks: seq<seq<byte>>, arrivals: seq<nat>): Stream
    requires Within(|chunks|, arrivals)
  {
    if arrivals == [] then s
    else Accept(Feed(s, chunks, Front(arrivals)), Low32(Last(arrivals)), chunks[Last(arrivals)])
  }

  /** What is kept above the gap lies in the gap's block. */
  ghost predicate InOneBlock(kept: set<nat>) {
    forall k :: k in Above(kept) ==> Block(k) == Block(LeastMissing(kept))
  }

  /** The position that a buffered number stands for. */
  function At(gap: nat, k: u32): nat {
    Block(gap) * TWO_TO_THE_32 + k
  }

  /** The buffered numbers are those of the frames above the gap. */
  ghost predicate Tracks(buffer: map<u32, seq<byte>>, gap: nat, above: set<nat>) {
    forall k: u32 :: k in buffer <==> At(gap, k) in above
  }

  /** The record that holds exactly the frames `kept`: the next expected number is that of the least
      missing one, the chunks below it were delivered in order, those above are buffered with their
      own payloads. */
  ghost predicate Holds(s: Stream, chunks: seq<seq<byte>>, kept: set<nat>) {
    var gap := LeastMissing(kept);
    && (forall k :: k in kept ==> k < |chunks|)
    && InOneBlock(kept)
    && Delivered(s, chunks, gap)
    && Buffers(s, gap, Above(kept))
  }

  ghost predicate Delivered(s: Stream, chunks: seq<seq<byte>>, gap: nat) {
    Aligned(s, chunks, gap) && s.recvBuf == Concat(chunks[..gap])
  }

  ghost predicate Buffers(s: Stream, gap: nat, above: set<nat>) {
    Tracks(s.outOfOrder, gap, above) && |s.outOfOrder| <= REORDER_CAPACITY
  }

  lemma GapUnique(kept: set<nat>, n: nat, g: nat)
    requires n <= g && g !in kept && forall i :: n <= i < g ==> i in kept
    ensures FirstGap(kept, n) == g
  {
    var f := FirstGap(kept, n);
    assert f < g ==> f in kept;
    assert g < f ==> g in kept;
  }

  lemma {:induction false} SubsetSize<T>(a: set<T>, b: set<T>)
    requires a <= b
    ensures |a| <= |b|
  {
    if a != {} {
      var x :| x in a;
      SubsetSize(a - {x}, b - {x});
    }
  }

  // ----- the set of frames kept, whatever arrives

  lemma BlockBetween(a: nat, b: nat, c: nat)
    requires a <= b <= c && Block(a) == Block(c)
    ensures Block(b) == Block(a)
  {
    SplitPosition(a, 0, 0);
    SplitPosition(b, 0, 0);
    SplitPosition(c, 0, 0);
  }

  lemma KeepBound(kept: set<nat>, x: nat)
    requires |Above(kept)| <= REORDER_CAPACITY && InOneBlock(kept) && !Refused(kept, x)
    ensures |Above(kept + {x})| <= REORDER_CAPACITY && InOneBlock(kept + {x})
  {
    var gap := LeastMissing(kept);
    var more := kept + {x};
    if x == gap {
      GapMoves(kept);
      SubsetSize(Above(more), Above(kept));
      forall k | k in Above(more) ensures Block(k) == Block(LeastMissing(more)) {
        assert k in Above(kept);
        BlockBetween(gap, LeastMissing(more), k);
      }
    } else if x in kept {
      assert more == kept;
    } else {
      GapUnique(more, 0, gap);
      assert Above(more) == Above(kept) + {x};
    }
  }

  /** When the least missing frame comes, the gap moves on and what lies above it can only shrink. */
  lemma GapMoves(kept: set<nat>)
    ensures var gap, more := LeastMissing(kept), kept + {LeastMissing(kept)};
      LeastMissing(more) > gap && Above(more) <= Above(kept)
  {
    var gap, more := LeastMissing(kept), kept + {LeastMissing(kept)};
    assert LeastMissing(more) !in kept;
  }

  lemma {:induction false} KeptWithin(arrivals: seq<nat>)
    ensures Kept(arrivals) <= Elements(arrivals)
    ensures |Above(Kept(arrivals))| <= REORDER_CAPACITY && InOneBlock(Kept(arrivals))
    decreases |arrivals|
  {
    if arrivals == [] {
    } else {
      KeptWithin(Front(arrivals));
      var before, x := Kept(Front(arrivals)), Last(arrivals);
      if !Refused(before, x) {
        KeepBound(before, x);
      }
    }
  }

  // ----- one frame

  lemma PositionOf(gap: nat, x: nat)
    requires Block(x) == Block(gap)
    ensures At(gap, Low32(x)) == x && (Low32(x) > Low32(gap) <==> x > gap)
  {
    SplitPosition(gap, 0, 0);
    SplitPosition(x, 0, 0);
  }

  lemma BufferIsAbove(s: Stream, chunks: seq<seq<byte>>, kept: set<nat>)
    requires Holds(s, chunks, kept)
    ensures |s.outOfOrder| == |Above(kept)|
  {
    var gap := LeastMissing(kept);
    forall k | k in Above(kept) ensures Low32(k) in s.outOfOrder && At(gap, Low32(k)) == k {
      PositionOf(gap, k);
    }
    SameSize(s.outOfOrder.Keys, Above(kept), gap);
  }

  lemma {:induction false} SameSize(keys: set<u32>, above: set<nat>, gap: nat)
    requires forall k: u32 :: k in keys <==> At(gap, k) in above
    requires forall n :: n in above ==> Low32(n) in keys && At(gap, Low32(n)) == n
    ensures |keys| == |above|
    decreases |above|
  {
    if above == {} {
      assert keys == {};
    } else {
      var n :| n in above;
      forall k: u32 ensures k in keys - {Low32(n)} <==> At(gap, k) in above - {n} {
      }
      forall m | m in above - {n} ensures Low32(m) in keys - {Low32(n)} && At(gap, Low32(m)) == m {
      }
      SameSize(keys - {Low32(n)}, above - {n}, gap);
    }
  }

  /** One frame: the record follows the set specification. */
  lemma AcceptHolds(s: Stream, chunks: seq<seq<byte>>, kept: set<nat>, x: nat)
    requires x < |chunks| && Holds(s, chunks, kept) && Admissible(LeastMissing(kept), x)
    ensures Holds(Accept(s, Low32(x), chunks[x]), chunks, Keep(kept, x))
  {
    var gap := LeastMissing(kept);
    SplitPosition(gap, 0, 0);
    SplitPosition(x, 0, 0);
    if x == gap {
      AcceptExpected(s, chunks, kept);
    } else if Low32(x) < Low32(gap) {
      assert x in kept || (x !in Above(kept) && Block(x) != Block(gap));
      if x in kept {
        assert kept + {x} == kept;
      }
    } else {
      AcceptAheadHolds(s, chunks, kept, x);
    }
  }

  lemma AcceptAheadHolds(s: Stream, chunks: seq<seq<byte>>, kept: set<nat>, x: nat)
    requires x < |chunks| && Holds(s, chunks, kept)
    requires Block(x) == Block(LeastMissing(kept)) && x > LeastMissing(kept)
    ensures Holds(Accept(s, Low32(x), chunks[x]), chunks, Keep(kept, x))
  {
    var gap := LeastMissing(kept);
    PositionOf(gap, x);
    BufferIsAbove(s, chunks, kept);
    if x in kept {
      assert kept + {x} == kept;
      assert Wrapping.Holds(s.outOfOrder, Low32(x), chunks, Block(gap));
      assert s.outOfOrder[Low32(x) := chunks[x]] == s.outOfOrder;
    } else if |s.outOfOrder| < REORDER_CAPACITY {
      AcceptNew(s, chunks, kept, x);
    }
  }

  lemma TracksMore(buffer: map<u32, seq<byte>>, gap: nat, above: set<nat>, x: nat, payload: seq<byte>)
    requires Tracks(buffer, gap, above) && Block(x) == Block(gap)
    ensures Tracks(buffer[Low32(x) := payload], gap, above + {x})
  {
    PositionOf(gap, x);
    forall k: u32 ensures k in buffer[Low32(x) := payload] <==> At(gap, k) in above + {x} {
      assert At(gap, k) == x <==> k == Low32(x);
    }
  }

  lemma AboveMore(kept: set<nat>, x: nat)
    requires x !in kept && x > LeastMissing(kept)
    ensures LeastMissing(kept + {x}) == LeastMissing(kept)
    ensures Above(kept + {x}) == Above(kept) + {x}
  {
    GapUnique(kept + {x}, 0, LeastMissing(kept));
  }

  lemma AcceptBuffers(s: Stream, chunks: seq<seq<byte>>, gap: nat, above: set<nat>, x: nat)
    requires Delivered(s, chunks, gap) && Buffers(s, gap, above) && |s.outOfOrder| < REORDER_CAPACITY
    requires x < |chunks| && Block(x) == Block(gap) && x > gap
    ensures var t := Accept(s, Low32(x), chunks[x]); Delivered(t, chunks, gap) && Buffers(t, gap, above + {x})
  {
    PositionOf(gap, x);
    AcceptAhead(s, chunks, gap, x);
    TracksMore(s.outOfOrder, gap, above, x, chunks[x]);
    assert s.outOfOrder[Low32(x) := chunks[x]].Keys == s.outOfOrder.Keys + {Low32(x)};
  }

  lemma AcceptNew(s: Stream, chunks: seq<seq<byte>>, kept: set<nat>, x: nat)
    requires x < |chunks| && Holds(s, chunks, kept) && |s.outOfOrder| < REORDER_CAPACITY
    requires Block(x) == Block(LeastMissing(kept)) && x > LeastMissing(kept) && x !in kept
    ensures Holds(Accept(s, Low32(x), chunks[x]), chunks, kept + {x})
  {
    var gap := LeastMissing(kept);
    AboveMore(kept, x);
    AcceptBuffers(s, chunks, gap, Above(kept), x);
    Reached(Accept(s, Low32(x), chunks[x]), chunks, kept, x, gap);
  }

  // ----- the expected frame

  /** What draining leaves, in terms of the frames kept within one block. */
  lemma {:induction false} DrainHolds(next: u32, buffer: map<u32, seq<byte>>, base: nat, kept: set<nat>)
    requires forall k :: k in kept && k >= base + next ==> k < base + TWO_TO_THE_32
    requires forall k: u32 :: k in buffer <==> base + k in kept && k >= next
    ensures var d, gap := Drain(next, buffer), FirstGap(kept, base + next);
      && gap == base + next + |d.payloads| <= base + TWO_TO_THE_32
      && (forall k: u32 :: k in d.rest <==> base + k in kept && base + k > gap)
    decreases |buffer|
  {
    if next in buffer {
      var rest := buffer - {next};
      OneFewer(buffer, next);
      assert base + next in kept;
      if next == TWO_TO_THE_32 - 1 {
        GapUnique(kept, base + next, base + TWO_TO_THE_32);
        assert rest == map[];
        assert Drain(0, rest) == Drained([], 0, rest);
        assert Drain(next, buffer) == Drained([buffer[next]], 0, rest);
      } else {
        DrainHolds(next + 1, rest, base, kept);
        var d := Drain(next + 1, rest);
        assert Drain(next, buffer) == Drained([buffer[next]] + d.payloads, d.next, d.rest);
        GapUnique(kept, base + next, FirstGap(kept, base + next + 1));
      }
    } else {
      assert Drain(next, buffer) == Drained([], next, buffer);
      GapUnique(kept, base + next, base + next);
    }
  }

  /** The gap after the least missing frame came, and what the record still buffers. */
  lemma ExpectedGap(s: Stream, chunks: seq<seq<byte>>, kept: set<nat>)
    requires Holds(s, chunks, kept) && LeastMissing(kept) < |chunks|
    ensures var gap := LeastMissing(kept);
      var more, d := kept + {gap}, Drain(Next32(s.nextRecvSeq), s.outOfOrder);
      LeastMissing(more) == gap + 1 + |d.payloads| && Tracks(d.rest, LeastMissing(more), Above(more))
  {
    if s.nextRecvSeq == TWO_TO_THE_32 - 1 {
      LastOfBlock(s, chunks, kept);
    } else {
      GapWithinBlock(s, kept);
    }
  }

  lemma GapWithinBlock(s: Stream, kept: set<nat>)
    requires InOneBlock(kept) && Tracks(s.outOfOrder, LeastMissing(kept), Above(kept))
    requires s.nextRecvSeq == Low32(LeastMissing(kept)) < TWO_TO_THE_32 - 1
    ensures var gap := LeastMissing(kept);
      var more, d := kept + {gap}, Drain(s.nextRecvSeq + 1, s.outOfOrder);
      LeastMissing(more) == gap + 1 + |d.payloads| && Tracks(d.rest, LeastMissing(more), Above(more))
  {
    var gap := LeastMissing(kept);
    var more, next, base := kept + {gap}, s.nextRecvSeq, Block(gap) * TWO_TO_THE_32;
    SplitPosition(gap, 0, 0);
    OneBlockFrom(kept, base);
    DrainedBeyond(s.outOfOrder, next, base, gap, kept);
    RestIsAbove(more, base, LeastMissing(more), Drain(next + 1, s.outOfOrder).rest);
  }

  lemma DrainedBeyond(buffer: map<u32, seq<byte>>, next: u32, base: nat, gap: nat, kept: set<nat>)
    requires gap == LeastMissing(kept) == base + next && next < TWO_TO_THE_32 - 1
    requires forall k :: k in kept && k > gap ==> k < base + TWO_TO_THE_32
    requires forall k: u32 :: k in buffer <==> base + k in kept && k > next
    ensures var more, d := kept + {gap}, Drain(next + 1, buffer);
      && LeastMissing(more) == gap + 1 + |d.payloads| <= base + TWO_TO_THE_32
      && (forall k: u32 :: k in d.rest <==> base + k in more && base + k > LeastMissing(more))
  {
    var more := kept + {gap};
    DrainHolds(next + 1, buffer, base, more);
    GapUnique(more, 0, FirstGap(more, gap + 1));
  }

  lemma OneBlockFrom(kept: set<nat>, base: nat)
    requires InOneBlock(kept) && base == Block(LeastMissing(kept)) * TWO_TO_THE_32
    ensures base <= LeastMissing(kept) < base + TWO_TO_THE_32
    ensures forall k :: k in kept && k > LeastMissing(kept) ==> k < base + TWO_TO_THE_32
  {
    SplitPosition(LeastMissing(kept), 0, 0);
    forall k | k in kept && k > LeastMissing(kept) ensures k < base + TWO_TO_THE_32 {
      assert k in Above(kept);
      SplitPosition(k, 0, 0);
    }
  }

  lemma LastOfBlock(s: Stream, chunks: seq<seq<byte>>, kept: set<nat>)
    requires Holds(s, chunks, kept) && LeastMissing(kept) < |chunks| && s.nextRecvSeq == TWO_TO_THE_32 - 1
    ensures var gap := LeastMissing(kept);
      var more, d := kept + {gap}, Drain(0, s.outOfOrder);
      && d == Drained([], 0, map[]) && LeastMissing(more) == gap + 1 && Above(more) == {}
  {
    var gap := LeastMissing(kept);
    var more := kept + {gap};
    SplitPosition(gap, 0, 0);
    forall k | k in kept ensures k <= gap {
      if k in Above(kept) {
        SplitPosition(k, 0, 0);
      }
    }
    GapUnique(more, 0, gap + 1);
    assert s.outOfOrder == map[];
    assert Drain(0, s.outOfOrder) == Drained([], 0, s.outOfOrder);
  }

  lemma RestIsAbove(more: set<nat>, base: nat, after: nat, rest: map<u32, seq<byte>>)
    requires base == base / TWO_TO_THE_32 * TWO_TO_THE_32 <= after <= base + TWO_TO_THE_32
    requires LeastMissing(more) == after
    requires forall k :: k in more && k > after ==> k < base + TWO_TO_THE_32
    requires forall k: u32 :: k in rest <==> base + k in more && base + k > after
    ensures Tracks(rest, after, Above(more))
  {
    if after < base + TWO_TO_THE_32 {
      SplitPosition(after, base / TWO_TO_THE_32, after - base);
    } else {
      SplitPosition(after, base / TWO_TO_THE_32 + 1, 0);
    }
  }

  /** What the record buffers after the expected frame, and how many frames that released. */
  lemma ExpectedBuffer(s: Stream, chunks: seq<seq<byte>>, kept: set<nat>, payload: seq<byte>)
    requires Holds(s, chunks, kept) && LeastMissing(kept) < |chunks|
    ensures var x := LeastMissing(kept);
      var more, t := kept + {x}, Accept(s, Low32(x), payload);
      LeastMissing(more) == x + |Released(s, Low32(x), payload)| && Buffers(t, LeastMissing(more), Above(more))
  {
    ExpectedGap(s, chunks, kept);
    ReleasedSize(s, LeastMissing(kept), payload);
    DrainSize(Next32(s.nextRecvSeq), s.outOfOrder);
  }

  lemma AcceptExpected(s: Stream, chunks: seq<seq<byte>>, kept: set<nat>)
    requires LeastMissing(kept) < |chunks| && Holds(s, chunks, kept)
    ensures Holds(Accept(s, Low32(LeastMissing(kept)), chunks[LeastMissing(kept)]), chunks, kept + {LeastMissing(kept)})
  {
    var x := LeastMissing(kept);
    ExpectedBuffer(s, chunks, kept, chunks[x]);
    ReadsOn(s, chunks, x, LeastMissing(kept + {x}));
    BlockKept(s, chunks, kept);
    Reached(Accept(s, Low32(x), chunks[x]), chunks, kept, x, LeastMissing(kept + {x}));
  }

  lemma Reached(t: Stream, chunks: seq<seq<byte>>, kept: set<nat>, x: nat, after: nat)
    requires x < |chunks| && forall k :: k in kept ==> k < |chunks|
    requires LeastMissing(kept + {x}) == after && InOneBlock(kept + {x})
    requires Delivered(t, chunks, after) && Buffers(t, after, Above(kept + {x}))
    ensures Holds(t, chunks, kept + {x})
  {
  }

  lemma ReleasedSize(s: Stream, x: nat, payload: seq<byte>)
    requires s.nextRecvSeq == Low32(x)
    ensures |Released(s, Low32(x), payload)| == 1 + |Drain(Next32(s.nextRecvSeq), s.outOfOrder).payloads|
    ensures Accept(s, Low32(x), payload).outOfOrder == Drain(Next32(s.nextRecvSeq), s.outOfOrder).rest
  {
  }

  lemma BlockKept(s: Stream, chunks: seq<seq<byte>>, kept: set<nat>)
    requires Holds(s, chunks, kept)
    ensures InOneBlock(kept + {LeastMissing(kept)})
  {
    BufferIsAbove(s, chunks, kept);
    KeepBound(kept, LeastMissing(kept));
  }

  /** The chunks that the expected frame releases are those that come next. */
  lemma ReadsOn(s: Stream, chunks: seq<seq<byte>>, x: nat, after: nat)
    requires Delivered(s, chunks, x) && x < |chunks| && after == x + |Released(s, Low32(x), chunks[x])|
    ensures Delivered(Accept(s, Low32(x), chunks[x]), chunks, after)
  {
    AcceptNext(s, chunks, x);
    AcceptReleases(s, Low32(x), chunks[x]);
    assert Released(s, Low32(x), chunks[x]) == [chunks[x]] + chunks[x + 1..after];
    ConcatExtend(chunks, x, after);
  }

  /** Refinement, for every run: the record is the one that holds exactly the frames kept by the set
      specification, and never more than 100 frames are buffered. */
  lemma {:induction false} FeedRefinesKept(clientId: u32, notify: NotifyId, chunks: seq<seq<byte>>, arrivals: seq<nat>)
    requires Within(|chunks|, arrivals) && AdmissibleRun(arrivals)
    ensures Holds(Feed(Fresh(clientId, notify), chunks, arrivals), chunks, Kept(arrivals))
    decreases |arrivals|
  {
    if arrivals == [] {
      SplitPosition(0, 0, 0);
      assert Concat(chunks[..0]) == [];
    } else {
      FeedRefinesKept(clientId, notify, chunks, Front(arrivals));
      AcceptHolds(Feed(Fresh(clientId, notify), chunks, Front(arrivals)), chunks, Kept(Front(arrivals)), Last(arrivals));
    }
  }
}
