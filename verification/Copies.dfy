/** Which copies of a data frame may be delivered: exactly those that are not taken for another chunk,
    that are dropped, or that are taken for an equal one. */
module Copies {
  import opened Words
  import opened Sequences
  import opened Frames
  import opened Streams
  import opened Wrapping
  import opened Table
  import opened Delivery
  import opened Restarts

  // ----- what draining leaves

  /** A buffered frame stays buffered, or is among those taken out. */
  lemma {:induction false} DrainTakesOrKeeps(next: u32, buffer: map<u32, seq<byte>>, k: u32)
    requires k in buffer && forall x :: x in buffer ==> x >= next
    ensures k in Drain(next, buffer).rest || k < next + |Drain(next, buffer).payloads|
    ensures k in Drain(next, buffer).rest ==> Drain(next, buffer).rest[k] == buffer[k]
    decreases |buffer|
  {
    if next in buffer {
      var rest := buffer - {next};
      OneFewer(buffer, next);
      if k == next {
        assert Drain(next, buffer).payloads == [buffer[next]] + Drain(Next32(next), rest).payloads;
        KeysLeft(Next32(next), rest, k);
      } else {
        assert forall x :: x in rest ==> x >= next + 1;
        DrainTakesOrKeeps(next + 1, rest, k);
        assert Drain(next, buffer).rest == Drain(next + 1, rest).rest;
        assert Drain(next, buffer).payloads == [buffer[next]] + Drain(next + 1, rest).payloads;
      }
    } else {
      assert Drain(next, buffer) == Drained([], next, buffer);
    }
  }

  lemma {:induction false} KeysLeft(next: u32, buffer: map<u32, seq<byte>>, k: u32)
    requires k !in buffer
    ensures k !in Drain(next, buffer).rest
    decreases |buffer|
  {
    if next in buffer {
      OneFewer(buffer, next);
      KeysLeft(Next32(next), buffer - {next}, k);
    }
  }

  // ----- a record that was misled about one chunk

  /** The chunk at position `j` is not yet delivered but buffered. */
  ghost predicate Waits(r: Stream, got: nat, j: nat) {
    Block(j) == Block(got) && Low32(j) in r.outOfOrder
  }

  /** The next chunk arrives: the frame that waits goes on waiting, or is delivered. */
  lemma WaitsOn(r: Stream, chunks: seq<seq<byte>>, got: nat, j: nat)
    requires Aligned(r, chunks, got) && got < |chunks| && Waits(r, got, j)
    ensures var after := got + |Released(r, Low32(got), chunks[got])|;
      j < after || Waits(Accept(r, Low32(got), chunks[got]), after, j)
  {
    SplitPosition(got, 0, 0);
    SplitPosition(j, 0, 0);
    var d := Drain(Next32(r.nextRecvSeq), r.outOfOrder);
    assert Low32(j) > r.nextRecvSeq;
    DrainTakesOrKeeps(r.nextRecvSeq + 1, r.outOfOrder, Low32(j));
    DrainBounds(r.nextRecvSeq + 1, r.outOfOrder);
    if Low32(j) in d.rest {
      SplitPosition(got + 1 + |d.payloads|, Block(got), d.next);
    }
  }

  lemma NotYetReached(r: Stream, chunks: seq<seq<byte>>, got: nat, j: nat)
    requires Aligned(r, chunks, got) && Waits(r, got, j)
    ensures j != got
  {
  }

  /** The receiver is right about `wrong` so far, and has or will have the chunk at position `j` of it. */
  ghost predicate Believes(r: Stream, wrong: seq<seq<byte>>, got: nat, taken: seq<byte>, j: nat) {
    StreamOk(r, wrong, got, taken) && (j < got || Waits(r, got, j))
  }

  /** `wrong` has the chunks at their places, but perhaps the one at position `j`. */
  ghost predicate AgreeBut(chunks: seq<seq<byte>>, wrong: seq<seq<byte>>, j: nat) {
    |chunks| <= |wrong| && forall k :: 0 <= k < |chunks| && k != j ==> wrong[k] == chunks[k]
  }

  /** The sender numbered `chunks`, and the receiver believes `wrong`, which differs at `j` alone. */
  ghost predicate Misled(c: Config, s: System, sid: u16, chunks: seq<seq<byte>>, wrong: seq<seq<byte>>, j: nat) {
    && Issued(s, sid) == chunks && |wrong| == |chunks| && AgreeBut(chunks, wrong, j)
    && Current(c, s, sid)
    && Believes(s.receiver[sid], wrong, Got(c, s, sid), Taken(c, s, sid), j)
  }

  lemma MisledRecord(r: Stream, wrong: seq<seq<byte>>, got: nat, taken: seq<byte>, j: nat, chunk: seq<byte>)
    requires Believes(r, wrong, got, taken, j) && got < |wrong| && (got != j ==> wrong[got] == chunk)
    ensures var released := Released(r, Low32(got), chunk);
      released != [] && Believes(Accept(r, Low32(got), chunk), wrong, got + |released|, taken, j)
  {
    if j >= got {
      NotYetReached(r, wrong, got, j);
      WaitsOn(r, wrong, got, j);
    }
    AcceptNext(r, wrong, got);
    AcceptOk(r, wrong, got, taken, got);
  }

  lemma BelievesOn(r: Stream, chunks: seq<seq<byte>>, wrong: seq<seq<byte>>, got: nat, taken: seq<byte>, j: nat,
                   next: Stream, after: nat)
    requires Believes(r, wrong, got, taken, j) && got < |chunks| && AgreeBut(chunks, wrong, j)
    requires next == Accept(r, Low32(got), chunks[got]) && after == got + |Released(r, Low32(got), chunks[got])|
    ensures after > got && Believes(next, wrong, after, taken, j)
  {
    MisledRecord(r, wrong, got, taken, j, chunks[got]);
  }

  /** What the next chunk leaves behind of a misled receiver. */
  lemma MisledAfter(c: Config, s: System, t: System, sid: u16, chunks: seq<seq<byte>>, wrong: seq<seq<byte>>, j: nat)
    requires Misled(c, s, sid, chunks, wrong, j) && Got(c, s, sid) < |chunks|
    requires var got, r := Got(c, s, sid), s.receiver[sid];
      && Issued(t, sid) == chunks && Current(c, t, sid)
      && t.receiver[sid] == Accept(r, Low32(got), chunks[got])
      && Got(c, t, sid) == got + |Released(r, Low32(got), chunks[got])|
      && Taken(c, t, sid) == Taken(c, s, sid)
    ensures Misled(c, t, sid, chunks, wrong, j) && Got(c, t, sid) > Got(c, s, sid)
  {
    var got := Got(c, s, sid);
    BelievesOn(s.receiver[sid], chunks, wrong, got, Taken(c, s, sid), j, t.receiver[sid], Got(c, t, sid));
  }

  /** The next chunk is delivered to a misled receiver. */
  lemma MisledStep(c: Config, s: System, sid: u16, chunks: seq<seq<byte>>, wrong: seq<seq<byte>>, j: nat)
    requires Misled(c, s, sid, chunks, wrong, j) && Got(c, s, sid) < |chunks|
    requires OnWire(s, ChunkPacket(s, sid, Got(c, s, sid)), sid, Got(c, s, sid))
    ensures var t := Next(c, s, Deliver(ChunkPacket(s, sid, Got(c, s, sid)), 0));
      Misled(c, t, sid, chunks, wrong, j) && Got(c, t, sid) > Got(c, s, sid)
  {
    var p := ChunkPacket(s, sid, Got(c, s, sid));
    HearOne(c, s, p, sid);
    DeliverLeavesSender(c, s, p);
    MisledAfter(c, s, Next(c, s, Deliver(p, 0)), sid, chunks, wrong, j);
  }

  lemma NextChunkEnabled(c: Config, s: System, sid: u16)
    requires Got(c, s, sid) < |Issued(s, sid)|
    requires ChunkPacket(s, sid, Got(c, s, sid)) in s.wire
    ensures Enabled(c, s, Deliver(ChunkPacket(s, sid, Got(c, s, sid)), 0))
  {
  }

  /** A delivered data packet changes its stream's record as `Accept` does. */
  lemma HearAny(c: Config, s: System, p: Packet, serial: nat)
    requires p.DataPacket? && 0 < |p.chunk| <= CHUNK_SIZE
    ensures var r, t := RecordFor(s.receiver, c.sender, p.sid, serial), Next(c, s, Deliver(p, serial));
      && Current(c, t, p.sid)
      && t.receiver[p.sid] == Accept(r, p.sequence, p.chunk)
      && Got(c, t, p.sid) == Got(c, s, p.sid) + |Released(r, p.sequence, p.chunk)|
      && Taken(c, t, p.sid) == Taken(c, s, p.sid)
  {
    DataPacketParses(c.sender, p);
    HearFrame(c, s, Bytes(c.sender, p), serial, p.sid, p.sequence, p.chunk);
  }

  lemma HearFrame(c: Config, s: System, frame: seq<byte>, serial: nat, sid: u16, sequence: u32, payload: seq<byte>)
    requires Parse(frame) == Data(c.sender, sid, sequence, payload)
    ensures var r, t := RecordFor(s.receiver, c.sender, sid, serial), Hear(c, s, frame, serial);
      && Current(c, t, sid)
      && t.receiver[sid] == Accept(r, sequence, payload)
      && Got(c, t, sid) == Got(c, s, sid) + |Released(r, sequence, payload)|
      && Taken(c, t, sid) == Taken(c, s, sid)
  {
    HearData(c, s, frame, serial);
  }

  lemma HearOne(c: Config, s: System, p: Packet, sid: u16)
    requires p.DataPacket? && p.sid == sid && 0 < |p.chunk| <= CHUNK_SIZE && Current(c, s, sid)
    ensures var r, t := s.receiver[sid], Next(c, s, Deliver(p, 0));
      && Current(c, t, sid)
      && t.receiver[sid] == Accept(r, p.sequence, p.chunk)
      && Got(c, t, sid) == Got(c, s, sid) + |Released(r, p.sequence, p.chunk)|
      && Taken(c, t, sid) == Taken(c, s, sid)
  {
    HearAny(c, s, p, 0);
    assert RecordFor(s.receiver, c.sender, sid, 0) == s.receiver[sid];
  }

  lemma {:induction false} MisledToTheEnd(c: Config, s: System, sid: u16, chunks: seq<seq<byte>>, wrong: seq<seq<byte>>, j: nat)
    returns (actions: seq<Action>, t: System)
    requires Misled(c, s, sid, chunks, wrong, j) && AllOnWire(s, sid)
    ensures Reaches(c, s, actions, t) && Misled(c, t, sid, chunks, wrong, j) && Got(c, t, sid) == |chunks|
    ensures t.wire == s.wire && t.issued == s.issued && t.sender == s.sender
    decreases |chunks| - Got(c, s, sid)
  {
    var got := Got(c, s, sid);
    if got == |chunks| {
      return [], s;
    }
    var p := ChunkPacket(s, sid, got);
    MisledStep(c, s, sid, chunks, wrong, j);
    NextChunkEnabled(c, s, sid);
    DeliverLeavesSender(c, s, p);
    var next := Next(c, s, Deliver(p, 0));
    OnWireKept(s, next, sid);
    actions, t := MisledToTheEnd(c, next, sid, chunks, wrong, j);
    ReachesThen(c, s, [Deliver(p, 0)], next, actions, t) by {
      ReachesOneMore(c, s, [], s, Deliver(p, 0));
      assert [] + [Deliver(p, 0)] == [Deliver(p, 0)];
    }
    actions := [Deliver(p, 0)] + actions;
  }

  lemma OnWireKept(s: System, t: System, sid: u16)
    requires AllOnWire(s, sid) && t.wire == s.wire && t.issued == s.issued
    ensures AllOnWire(t, sid)
  {
    forall i: nat | i < |Issued(t, sid)| ensures OnWire(t, ChunkPacket(t, sid, i), sid, i) {
      assert OnWire(s, ChunkPacket(s, sid, i), sid, i);
    }
  }

  // ----- how a receiver is misled

  /** The copy of another chunk is accepted under the number of position `j`, as if it were `wrong[j]`. */
  lemma MisledAtOnce(r: Stream, chunks: seq<seq<byte>>, wrong: seq<seq<byte>>, got: nat, taken: seq<byte>, j: nat)
    requires StreamOk(r, chunks, got, taken) && AgreeBut(chunks, wrong, j) && wrong[..got] == chunks[..got]
    requires got <= j < |wrong| && Block(j) == Block(got) && (Low32(j) > r.nextRecvSeq ==> |r.outOfOrder| < REORDER_CAPACITY)
    ensures Believes(Accept(r, Low32(j), wrong[j]), wrong, got + |Released(r, Low32(j), wrong[j])|, taken, j)
  {
    if j == got {
      BelievedNow(r, chunks, wrong, got, taken);
    } else {
      BelievedLater(r, chunks, wrong, got, taken, j);
    }
  }

  lemma ReplacedAgrees(chunks: seq<seq<byte>>, more: seq<seq<byte>>, j: nat, bad: seq<byte>, got: nat)
    requires chunks <= more && got <= |chunks| && got <= j < |more|
    ensures AgreeBut(chunks, more[j := bad], j) && more[j := bad][..got] == chunks[..got]
  {
  }

  lemma BelievedLater(r: Stream, chunks: seq<seq<byte>>, wrong: seq<seq<byte>>, got: nat, taken: seq<byte>, j: nat)
    requires StreamOk(r, chunks, got, taken) && got < j < |wrong| && AgreeBut(chunks, wrong, j) && wrong[..got] == chunks[..got]
    requires Block(j) == Block(got) && (Low32(j) > r.nextRecvSeq ==> |r.outOfOrder| < REORDER_CAPACITY)
    ensures Released(r, Low32(j), wrong[j]) == [] && Believes(Accept(r, Low32(j), wrong[j]), wrong, got, taken, j)
  {
    BelievedOnceBuffered(r, chunks, wrong, got, j);
  }

  lemma BelievedNow(r: Stream, chunks: seq<seq<byte>>, wrong: seq<seq<byte>>, got: nat, taken: seq<byte>)
    requires StreamOk(r, chunks, got, taken) && got < |wrong| && AgreeBut(chunks, wrong, got) && wrong[..got] == chunks[..got]
    ensures var released := Released(r, Low32(got), wrong[got]);
      released != [] && StreamOk(Accept(r, Low32(got), wrong[got]), wrong, got + |released|, taken)
  {
    BelievedAlready(r, chunks, wrong, got, got);
    AcceptNext(r, wrong, got);
    AcceptOk(r, wrong, got, taken, got);
  }

  lemma BelievedAlready(r: Stream, chunks: seq<seq<byte>>, wrong: seq<seq<byte>>, got: nat, j: nat)
    requires Aligned(r, chunks, got) && j == got && AgreeBut(chunks, wrong, j)
    ensures Aligned(r, wrong, got)
  {
    SplitPosition(got, 0, 0);
    forall k | k in r.outOfOrder ensures Holds(r.outOfOrder, k, wrong, Block(got)) {
      assert Holds(r.outOfOrder, k, chunks, Block(got));
    }
  }

  lemma BelievedOnceBuffered(r: Stream, chunks: seq<seq<byte>>, wrong: seq<seq<byte>>, got: nat, j: nat)
    requires Aligned(r, chunks, got) && got < j < |wrong| && AgreeBut(chunks, wrong, j) && Block(j) == Block(got)
    ensures Low32(j) > r.nextRecvSeq
    ensures Aligned(r.(outOfOrder := r.outOfOrder[Low32(j) := wrong[j]]), wrong, got)
  {
    SplitPosition(got, 0, 0);
    SplitPosition(j, 0, 0);
    var buffer := r.outOfOrder[Low32(j) := wrong[j]];
    forall k | k in buffer ensures k > r.nextRecvSeq && Holds(buffer, k, wrong, Block(got)) {
      if k != Low32(j) {
        assert Holds(r.outOfOrder, k, chunks, Block(got));
      }
    }
  }

  // ----- the sender goes on

  lemma IssueOne(c: Config, s: System, sid: u16, chunk: seq<byte>)
    requires CanIssue(s.sender, sid) && SenderOkAt(s, sid) && AllOnWire(s, sid) && 0 < |chunk| <= CHUNK_SIZE
    ensures var t := Next(c, s, SenderIssues(sid, chunk));
      && Enabled(c, s, SenderIssues(sid, chunk))
      && CanIssue(t.sender, sid) && SenderOkAt(t, sid) && AllOnWire(t, sid)
      && Issued(t, sid) == Issued(s, sid) + [chunk]
      && t.receiver == s.receiver && t.got == s.got && t.taken == s.taken
  {
    var t := Next(c, s, SenderIssues(sid, chunk));
    var n := |Issued(s, sid)|;
    NextPosition(n);
    forall i: nat | i < n + 1 ensures OnWire(t, ChunkPacket(t, sid, i), sid, i) {
      if i < n {
        assert OnWire(s, ChunkPacket(s, sid, i), sid, i);
      }
    }
  }

  /** The sender numbers chunks up to position `j`, that one different from `bad`. */
  lemma {:induction false} IssueBeyond(c: Config, s: System, sid: u16, j: nat, bad: seq<byte>)
    returns (actions: seq<Action>, t: System)
    requires CanIssue(s.sender, sid) && SenderOkAt(s, sid) && AllOnWire(s, sid) && bad != []
    requires j < |Issued(s, sid)| ==> Issued(s, sid)[j] != bad
    ensures Reaches(c, s, actions, t)
    ensures CanIssue(t.sender, sid) && SenderOkAt(t, sid) && AllOnWire(t, sid)
    ensures Issued(s, sid) <= Issued(t, sid) && j < |Issued(t, sid)| && Issued(t, sid)[j] != bad
    ensures t.receiver == s.receiver && t.got == s.got && t.taken == s.taken
    decreases j + 1 - |Issued(s, sid)|
  {
    var n := |Issued(s, sid)|;
    if j < n {
      return [], s;
    }
    var chunk := if n == j then Other(bad) else [0];
    var a := SenderIssues(sid, chunk);
    IssueOne(c, s, sid, chunk);
    actions, t := IssueBeyond(c, Next(c, s, a), sid, j, bad);
    assert ([a] + actions)[1..] == actions;
    actions := [a] + actions;
  }

  // ----- the run that breaks delivery

  lemma ReplacedDiffers(chunks: seq<seq<byte>>, j: nat, bad: seq<byte>)
    requires j < |chunks| && chunks[j] != bad
    ensures Concat(chunks[j := bad]) != Concat(chunks)
  {
    var before, after := chunks[..j], chunks[j + 1..];
    assert chunks == before + ([chunks[j]] + after) && chunks[j := bad] == before + ([bad] + after);
    ConcatAppend(before, [chunks[j]] + after);
    ConcatAppend(before, [bad] + after);
    ConcatCons(chunks[j], after);
    ConcatCons(bad, after);
    MiddleEqual(Concat(before), chunks[j], bad, Concat(after));
  }

  lemma MiddleEqual(a: seq<byte>, x: seq<byte>, y: seq<byte>, b: seq<byte>)
    ensures a + (x + b) == a + (y + b) ==> x == y
  {
    if a + (x + b) == a + (y + b) {
      assert |x| == |y|;
      assert (a + (x + b))[|a|..|a| + |x|] == x && (a + (y + b))[|a|..|a| + |y|] == y;
    }
  }

  /** A receiver that has been told everything has nothing buffered. */
  lemma NothingBuffered(r: Stream, chunks: seq<seq<byte>>)
    requires Aligned(r, chunks, |chunks|)
    ensures r.outOfOrder == map[]
  {
    forall k: u32 ensures k !in r.outOfOrder {
      BufferedIsAhead(r, chunks, |chunks|, k);
    }
  }

  lemma BufferedIsAhead(r: Stream, chunks: seq<seq<byte>>, got: nat, k: u32)
    requires Aligned(r, chunks, got)
    ensures k in r.outOfOrder ==> got < |chunks|
  {
    SplitPosition(got, 0, 0);
    assert k in r.outOfOrder ==> Holds(r.outOfOrder, k, chunks, Block(got));
  }

  lemma ReadsOneMore(r: Stream, wrong: seq<seq<byte>>, taken: seq<byte>, x: seq<byte>)
    requires StreamOk(r, wrong, |wrong|, taken)
    ensures taken + Accept(r, Low32(|wrong|), x).recvBuf == Concat(wrong) + x
  {
    NothingBuffered(r, wrong);
    AcceptOne(r, x);
    assert wrong[..|wrong|] == wrong;
    assert taken + (r.recvBuf + x) == taken + r.recvBuf + x;
  }

  /** One more chunk reaches a misled receiver that has everything else. */
  lemma OneMoreChunk(c: Config, s: System, sid: u16, chunks: seq<seq<byte>>, wrong: seq<seq<byte>>, j: nat, x: seq<byte>)
    returns (t: System)
    requires Misled(c, s, sid, chunks, wrong, j) && Got(c, s, sid) == |chunks| && 0 < |x| <= CHUNK_SIZE
    requires CanIssue(s.sender, sid) && SenderOkAt(s, sid) && AllOnWire(s, sid)
    ensures Reaches(c, s, [SenderIssues(sid, x), Deliver(DataPacket(sid, |chunks|, Low32(|chunks|), x), 0)], t)
    ensures Current(c, t, sid) && Issued(t, sid) == chunks + [x]
    ensures Taken(c, t, sid) + t.receiver[sid].recvBuf == Concat(wrong) + x
  {
    var p := DataPacket(sid, |chunks|, Low32(|chunks|), x);
    IssueOne(c, s, sid, x);
    var issued := Next(c, s, SenderIssues(sid, x));
    assert OnWire(issued, ChunkPacket(issued, sid, |chunks|), sid, |chunks|);
    NextChunkEnabled(c, issued, sid);
    ReachesTwo(c, s, SenderIssues(sid, x), Deliver(p, 0));
    t := Next(c, issued, Deliver(p, 0));
    ReadsOneMore(s.receiver[sid], wrong, Taken(c, s, sid), x);
    HearOne(c, issued, p, sid);
    DeliverLeavesSender(c, issued, p);
  }

  /** A text with one chunk replaced is no prefix, or some further chunk makes it none. */
  lemma ReplacedBreaks(chunks: seq<seq<byte>>, j: nat, bad: seq<byte>) returns (x: seq<byte>)
    requires j < |chunks| && chunks[j] != bad
    ensures 0 < |x| <= CHUNK_SIZE
    ensures Concat(chunks[j := bad]) <= Concat(chunks) ==> !(Concat(chunks[j := bad]) + x <= Concat(chunks + [x]))
  {
    var text, all := Concat(chunks[j := bad]), Concat(chunks);
    x := [0];
    if text <= all {
      ReplacedDiffers(chunks, j, bad);
      var rest := all[|text|..];
      assert all == text + rest;
      x := Other(rest);
      ConcatSnoc(chunks, x);
      assert all + x == text + (rest + x);
      DifferAfter(text, x, rest + x);
    }
  }

  /** The text of a misled receiver that was told everything is no prefix, or one chunk later it is none. */
  lemma MisledBreaks(c: Config, s: System, sid: u16, chunks: seq<seq<byte>>, wrong: seq<seq<byte>>, j: nat)
    returns (actions: seq<Action>, t: System)
    requires Misled(c, s, sid, chunks, wrong, j) && Got(c, s, sid) == |chunks|
    requires CanIssue(s.sender, sid) && SenderOkAt(s, sid) && AllOnWire(s, sid)
    requires j < |chunks| && wrong == chunks[j := wrong[j]] && wrong[j] != chunks[j]
    ensures Reaches(c, s, actions, t) && !PrefixAt(c, t, sid)
  {
    var x := ReplacedBreaks(chunks, j, wrong[j]);
    if !(Concat(wrong) <= Concat(chunks)) {
      assert wrong[..|wrong|] == wrong;
      return [], s;
    }
    t := OneMoreChunk(c, s, sid, chunks, wrong, j, x);
    actions := [SenderIssues(sid, x), Deliver(DataPacket(sid, |chunks|, Low32(|chunks|), x), 0)];
  }

  /** The receiver takes the chunk `bad` for the one at position `j`, and the sender can go on. */
  ghost predicate MisledAbout(c: Config, s: System, sid: u16, j: nat, bad: seq<byte>) {
    var chunks := Issued(s, sid);
    && j < |chunks| && chunks[j] != bad
    && Misled(c, s, sid, chunks, chunks[j := bad], j)
    && CanIssue(s.sender, sid) && SenderOkAt(s, sid) && AllOnWire(s, sid)
  }

  lemma MisledCanBreak(c: Config, s: System, sid: u16, j: nat, bad: seq<byte>) returns (actions: seq<Action>, t: System)
    requires MisledAbout(c, s, sid, j, bad)
    ensures Reaches(c, s, actions, t) && !PrefixAt(c, t, sid)
  {
    var chunks := Issued(s, sid);
    var first, misled := MisledToTheEnd(c, s, sid, chunks, chunks[j := bad], j);
    OnWireKept(s, misled, sid);
    var second, broken := MisledBreaks(c, misled, sid, chunks, chunks[j := bad], j);
    ReachesThen(c, s, first, misled, second, broken);
    actions, t := first + second, broken;
  }

  lemma SenderGoesOn(c: Config, s: System, p: Packet, serial: nat)
    requires Inv(c, s) && p in s.wire && p.DataPacket? && CanIssue(s.sender, p.sid)
    ensures var t := Next(c, s, Deliver(p, serial));
      && CanIssue(t.sender, p.sid) && SenderOkAt(t, p.sid) && AllOnWire(t, p.sid) && Issued(t, p.sid) == Issued(s, p.sid)
    ensures 0 < |p.chunk| && p.index < |Issued(s, p.sid)|
  {
    assert PacketOk(s, p) && SenderOkAt(s, p.sid);
    SentIsOnWire(s, s, p.sid);
    DeliverLeavesSender(c, s, p);
    OnWireKept(s, Next(c, s, Deliver(p, serial)), p.sid);
  }

  lemma UnsafeCopyMisleads(c: Config, s: System, p: Packet, serial: nat) returns (actions: seq<Action>, t: System)
    requires Inv(c, s) && p in s.wire && p.DataPacket? && !SafeCopy(c, s, p) && CanIssue(s.sender, p.sid)
    ensures Reaches(c, Next(c, s, Deliver(p, serial)), actions, t)
    ensures MisledAbout(c, t, p.sid, MistakenFor(Got(c, s, p.sid), p.index), p.chunk)
  {
    var sid, j := p.sid, MistakenFor(Got(c, s, p.sid), p.index);
    var told := Next(c, s, Deliver(p, serial));
    SenderGoesOn(c, s, p, serial);
    actions, t := IssueBeyond(c, told, sid, j, p.chunk);
    ToldWrong(c, s, p, serial, Issued(t, sid));
  }

  /** An unsafe copy, once delivered, can be followed by a run that breaks delivery. */
  lemma UnsafeCopyBreaks(c: Config, s: System, p: Packet, serial: nat) returns (actions: seq<Action>, t: System)
    requires Inv(c, s) && p in s.wire && p.DataPacket? && !SafeCopy(c, s, p) && CanIssue(s.sender, p.sid)
    ensures Reaches(c, Next(c, s, Deliver(p, serial)), actions, t) && !PrefixAt(c, t, p.sid)
  {
    var first, misled := UnsafeCopyMisleads(c, s, p, serial);
    var second, broken := MisledCanBreak(c, misled, p.sid, MistakenFor(Got(c, s, p.sid), p.index), p.chunk);
    ReachesThen(c, Next(c, s, Deliver(p, serial)), first, misled, second, broken);
    actions, t := first + second, broken;
  }

  /** What an unsafe copy makes the receiver believe. */
  lemma ToldWrong(c: Config, s: System, p: Packet, serial: nat, chunks: seq<seq<byte>>)
    requires Inv(c, s) && p in s.wire && p.DataPacket? && !SafeCopy(c, s, p)
    requires Issued(s, p.sid) <= chunks && MistakenFor(Got(c, s, p.sid), p.index) < |chunks|
    ensures var t, j := Next(c, s, Deliver(p, serial)), MistakenFor(Got(c, s, p.sid), p.index);
      && Current(c, t, p.sid)
      && Believes(t.receiver[p.sid], chunks[j := p.chunk], Got(c, t, p.sid), Taken(c, t, p.sid), j)
  {
    var j := MistakenFor(Got(c, s, p.sid), p.index);
    RecordToldWrong(c, s, p, serial, chunks);
    CopyHeard(c, s, p, serial, chunks[j := p.chunk], j);
  }

  lemma CopyHeard(c: Config, s: System, p: Packet, serial: nat, wrong: seq<seq<byte>>, j: nat)
    requires p.DataPacket? && 0 < |p.chunk| <= CHUNK_SIZE
    requires var r := RecordFor(s.receiver, c.sender, p.sid, serial);
      Believes(Accept(r, p.sequence, p.chunk), wrong, Got(c, s, p.sid) + |Released(r, p.sequence, p.chunk)|,
               Taken(c, s, p.sid), j)
    ensures var t := Next(c, s, Deliver(p, serial));
      Current(c, t, p.sid) && Believes(t.receiver[p.sid], wrong, Got(c, t, p.sid), Taken(c, t, p.sid), j)
  {
    HearAny(c, s, p, serial);
  }

  lemma RecordToldWrong(c: Config, s: System, p: Packet, serial: nat, chunks: seq<seq<byte>>)
    requires Inv(c, s) && p in s.wire && p.DataPacket? && !SafeCopy(c, s, p)
    requires Issued(s, p.sid) <= chunks && MistakenFor(Got(c, s, p.sid), p.index) < |chunks|
    ensures 0 < |p.chunk| <= CHUNK_SIZE
    ensures var j, r := MistakenFor(Got(c, s, p.sid), p.index), RecordFor(s.receiver, c.sender, p.sid, serial);
      Believes(Accept(r, p.sequence, p.chunk), chunks[j := p.chunk],
               Got(c, s, p.sid) + |Released(r, p.sequence, p.chunk)|, Taken(c, s, p.sid), j)
  {
    var got, j := Got(c, s, p.sid), MistakenFor(Got(c, s, p.sid), p.index);
    assert PacketOk(s, p);
    MistakenAhead(got, p.index);
    assert p.sequence == Low32(j);
    MetOk(c, s, p.sid, serial);
    ReplacedAgrees(Issued(s, p.sid), chunks, j, p.chunk, got);
    MisledAtOnce(RecordFor(s.receiver, c.sender, p.sid, serial), Issued(s, p.sid), chunks[j := p.chunk], got,
                 Taken(c, s, p.sid), j);
  }

  /** The record that a frame of the sender meets. */
  lemma MetOk(c: Config, s: System, sid: u16, serial: nat)
    requires Inv(c, s)
    ensures StreamOk(RecordFor(s.receiver, c.sender, sid, serial), Issued(s, sid), Got(c, s, sid), Taken(c, s, sid))
  {
    assert ReceiverOkAt(c, s, sid);
    if !Current(c, s, sid) {
      FreshOk(c.sender, RecordFor(s.receiver, c.sender, sid, serial).notify, Issued(s, sid));
    }
  }

  /** The condition on the copies that the channel delivers is exact, at every reachable state whose
      sender can still number chunks on the stream: prefix delivery goes on holding on all streams in
      all runs from there if and only if the copy is safe. */
  lemma SafeCopyExactly(c: Config, actions: seq<Action>, s: System, p: Packet, serial: nat)
    requires Reaches(c, Init, actions, s) && p in s.wire && p.DataPacket? && CanIssue(s.sender, p.sid)
    ensures SafeCopy(c, s, p) <==> PrefixSafe(c, Next(c, s, Deliver(p, serial)))
  {
    var after := Next(c, s, Deliver(p, serial));
    InitOk(c);
    RunKeepsInvariant(c, Init, actions, s);
    if SafeCopy(c, s, p) {
      StepKeepsInvariant(c, s, Deliver(p, serial));
      InvariantIsSafe(c, after);
    } else {
      var more, t := UnsafeCopyBreaks(c, s, p, serial);
      assert Reaches(c, after, more, t) && !PrefixAt(c, t, p.sid);
    }
  }
}
