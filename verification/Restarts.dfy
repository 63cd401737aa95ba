/** Frames that make the sender number a stream from 0 again, and what they do to delivery.

    A data frame of another client replaces a record and a reset removes records. Delivery survives
    that exactly as long as the record had no number to lose. */
module Restarts {
  import opened Words
  import opened Sequences
  import opened Frames
  import opened Streams
  import opened Wrapping
  import opened Table
  import opened Delivery

  /** Prefix delivery holds on every stream at every point of every run from here. */
  ghost predicate PrefixSafe(c: Config, s: System) {
    forall actions, t, sid: u16 :: Reaches(c, s, actions, t) ==> PrefixAt(c, t, sid)
  }

  lemma {:induction false} ReachesOneMore(c: Config, s: System, actions: seq<Action>, t: System, a: Action)
    requires Reaches(c, s, actions, t) && Enabled(c, t, a)
    ensures Reaches(c, s, actions + [a], Next(c, t, a))
    decreases |actions|
  {
    var more := actions + [a];
    if actions == [] {
      assert more[1..] == [];
    } else {
      ReachesOneMore(c, Next(c, s, actions[0]), actions[1..], t, a);
      assert more[1..] == actions[1..] + [a];
    }
  }

  lemma {:induction false} ReachesThen(c: Config, s: System, first: seq<Action>, t: System, second: seq<Action>, u: System)
    requires Reaches(c, s, first, t) && Reaches(c, t, second, u)
    ensures Reaches(c, s, first + second, u)
    decreases |first|
  {
    if first == [] {
      assert first + second == second;
    } else {
      ReachesThen(c, Next(c, s, first[0]), first[1..], t, second, u);
      assert (first + second)[1..] == first[1..] + second;
    }
  }

  // ----- the record starts over

  /** The sender's record is gone or replaced although chunks were numbered on the stream. */
  ghost predicate StartedOver(s: System, sid: u16) {
    && SendSequence(s.sender, sid) == 0
    && (sid in s.sender ==> !s.sender[sid].closed)
    && Low32(|Issued(s, sid)|) != 0
  }

  /** A frame that is not harmless makes some record start over. */
  lemma RecordRestarts(c: Config, s: System, frame: seq<byte>, serial: nat) returns (sid: u16)
    requires Inv(c, s) && !Harmless(s.sender, frame)
    ensures StartedOver(Next(c, s, SenderHandles(frame, serial)), sid)
  {
    match Parse(frame)
    case Data(client, x, sequence, payload) =>
      sid := x;
      var r := RecordFor(s.sender, client, x, serial);
      assert Accept(r, sequence, payload).nextSendSeq == r.nextSendSeq && Accept(r, sequence, payload).closed == r.closed;
      assert SenderOkAt(s, sid);
    case Reset(client) =>
      sid :| sid in s.sender && s.sender[sid].clientId == client && s.sender[sid].nextSendSeq != 0;
      assert SenderOkAt(s, sid);
  }

  // ----- the receiver up to a multiple of 2^32

  /** The receiver has delivered the first `k` chunks in order and buffers nothing. */
  ghost predicate Poised(c: Config, s: System, sid: u16, k: nat) {
    && k <= |Issued(s, sid)|
    && Got(c, s, sid) == k
    && if k == 0 then !Current(c, s, sid)
       else
         && Current(c, s, sid)
         && s.receiver[sid].nextRecvSeq == Low32(k)
         && s.receiver[sid].outOfOrder == map[]
         && Taken(c, s, sid) + s.receiver[sid].recvBuf == Concat(Issued(s, sid)[..k])
  }

  /** The packet that the receiver takes for chunk `k`. */
  ghost predicate OnWire(s: System, p: Packet, sid: u16, k: nat) {
    p in s.wire && p.DataPacket? && p.sid == sid && p.sequence == Low32(k) && 0 < |p.chunk| <= CHUNK_SIZE
  }

  /** The record that the next frame meets. */
  lemma PoisedRecord(c: Config, s: System, sid: u16, k: nat)
    requires Poised(c, s, sid, k)
    ensures var r := RecordFor(s.receiver, c.sender, sid, 0);
      && r.nextRecvSeq == Low32(k) && r.outOfOrder == map[]
      && Taken(c, s, sid) + r.recvBuf == Concat(Issued(s, sid)[..k])
  {
    SplitPosition(0, 0, 0);
  }

  lemma AcceptOne(r: Stream, payload: seq<byte>)
    requires r.outOfOrder == map[]
    ensures Accept(r, r.nextRecvSeq, payload) == r.(recvBuf := r.recvBuf + payload, nextRecvSeq := Next32(r.nextRecvSeq))
    ensures |Released(r, r.nextRecvSeq, payload)| == 1
  {
    AcceptAlone(r, payload);
    assert Drain(Next32(r.nextRecvSeq), r.outOfOrder) == Drained([], Next32(r.nextRecvSeq), r.outOfOrder);
  }

  /** The receiver has delivered `k` frames, their text is `text`, and nothing is buffered. */
  ghost predicate Delivered(c: Config, s: System, sid: u16, k: nat, text: seq<byte>) {
    && Current(c, s, sid) && Got(c, s, sid) == k
    && s.receiver[sid].nextRecvSeq == Low32(k) && s.receiver[sid].outOfOrder == map[]
    && Taken(c, s, sid) + s.receiver[sid].recvBuf == text
  }

  /** The next number is heard, whatever chunk it carries. */
  lemma HearNext(c: Config, s: System, frame: seq<byte>, sid: u16, k: nat, payload: seq<byte>)
    requires Poised(c, s, sid, k) && Parse(frame) == Data(c.sender, sid, Low32(k), payload)
    ensures Delivered(c, Hear(c, s, frame, 0), sid, k + 1, Concat(Issued(s, sid)[..k]) + payload)
  {
    var r := RecordFor(s.receiver, c.sender, sid, 0);
    PoisedRecord(c, s, sid, k);
    AcceptOne(r, payload);
    NextPosition(k);
    HearData(c, s, frame, 0);
    assert Taken(c, s, sid) + (r.recvBuf + payload) == Taken(c, s, sid) + r.recvBuf + payload;
  }

  lemma DeliverNext(c: Config, s: System, p: Packet, sid: u16, k: nat)
    requires Poised(c, s, sid, k) && OnWire(s, p, sid, k)
    ensures Delivered(c, Next(c, s, Deliver(p, 0)), sid, k + 1, Concat(Issued(s, sid)[..k]) + p.chunk)
  {
    DataPacketParses(c.sender, p);
    HearNext(c, s, Bytes(c.sender, p), sid, k, p.chunk);
  }

  lemma DeliverLeavesSender(c: Config, s: System, p: Packet)
    ensures var t := Next(c, s, Deliver(p, 0)); t.wire == s.wire && t.issued == s.issued && t.sender == s.sender
  {
  }

  lemma DeliverChunk(c: Config, s: System, sid: u16, k: nat)
    requires Poised(c, s, sid, k) && k < |Issued(s, sid)| && OnWire(s, ChunkPacket(s, sid, k), sid, k)
    ensures Enabled(c, s, Deliver(ChunkPacket(s, sid, k), 0))
    ensures var t := Next(c, s, Deliver(ChunkPacket(s, sid, k), 0));
      Poised(c, t, sid, k + 1) && t.wire == s.wire && t.issued == s.issued && t.sender == s.sender
  {
    var chunks := Issued(s, sid);
    DeliverNext(c, s, ChunkPacket(s, sid, k), sid, k);
    DeliverLeavesSender(c, s, ChunkPacket(s, sid, k));
    assert chunks[..k + 1] == chunks[..k] + [chunks[k]];
    ConcatSnoc(chunks[..k], chunks[k]);
  }

  function ChunkPacket(s: System, sid: u16, k: nat): Packet
    requires k < |Issued(s, sid)|
  {
    DataPacket(sid, k, Low32(k), Issued(s, sid)[k])
  }

  /** With its packets still on the wire, the channel can bring the receiver to any chunk. */
  lemma {:induction false} DeliverUpTo(c: Config, s: System, sid: u16, k: nat) returns (actions: seq<Action>, t: System)
    requires Poised(c, s, sid, 0) && k <= |Issued(s, sid)|
    requires forall i: nat :: i < k ==> OnWire(s, ChunkPacket(s, sid, i), sid, i)
    ensures Reaches(c, s, actions, t) && Poised(c, t, sid, k)
    ensures t.wire == s.wire && t.issued == s.issued && t.sender == s.sender
  {
    if k == 0 {
      return [], s;
    }
    actions, t := DeliverUpTo(c, s, sid, k - 1);
    assert ChunkPacket(t, sid, k - 1) == ChunkPacket(s, sid, k - 1) && OnWire(s, ChunkPacket(s, sid, k - 1), sid, k - 1);
    actions, t := DeliverOneMore(c, s, actions, t, sid, k - 1);
  }

  lemma DeliverOneMore(c: Config, s: System, before: seq<Action>, reached: System, sid: u16, k: nat)
    returns (actions: seq<Action>, t: System)
    requires Reaches(c, s, before, reached) && Poised(c, reached, sid, k) && k < |Issued(reached, sid)|
    requires OnWire(reached, ChunkPacket(reached, sid, k), sid, k)
    ensures Reaches(c, s, actions, t) && Poised(c, t, sid, k + 1)
    ensures t.wire == reached.wire && t.issued == reached.issued && t.sender == reached.sender
  {
    var a := Deliver(ChunkPacket(reached, sid, k), 0);
    DeliverChunk(c, reached, sid, k);
    ReachesOneMore(c, s, before, reached, a);
    actions, t := before + [a], Next(c, reached, a);
  }

  // ----- the run that breaks delivery

  /** A one-byte chunk that begins differently. */
  function Other(chunk: seq<byte>): seq<byte>
    requires chunk != []
  {
    if chunk[0] == 0 then [1] else [0]
  }

  lemma DifferAfter(text: seq<byte>, x: seq<byte>, y: seq<byte>)
    requires x != [] && y != [] && x[0] != y[0]
    ensures !(text + x <= text + y)
  {
    assert (text + x)[|text|] == x[0] && (text + y)[|text|] == y[0];
  }

  lemma OtherBreaks(chunks: seq<seq<byte>>, g: nat)
    requires g < |chunks| && chunks[g] != []
    ensures var x := Other(chunks[g]); !(Concat(chunks[..g]) + x <= Concat(chunks + [x]))
  {
    var x := Other(chunks[g]);
    var rest := ConcatAround(chunks, g, x);
    DifferAfter(Concat(chunks[..g]), x, chunks[g] + rest);
  }

  lemma ConcatAround(chunks: seq<seq<byte>>, g: nat, x: seq<byte>) returns (rest: seq<byte>)
    requires g < |chunks|
    ensures Concat(chunks + [x]) == Concat(chunks[..g]) + (chunks[g] + rest)
  {
    var others := chunks[g + 1..] + [x];
    assert chunks + [x] == chunks[..g] + ([chunks[g]] + others);
    ConcatAppend(chunks[..g], [chunks[g]] + others);
    ConcatCons(chunks[g], others);
    rest := Concat(others);
  }

  /** The sender resets: the receiver has no record of it any more. */
  lemma ResetArrives(c: Config, s: System, sid: u16)
    ensures var t := Next(c, Next(c, s, SenderResets), Deliver(ResetPacket, 0));
      && Enabled(c, Next(c, s, SenderResets), Deliver(ResetPacket, 0))
      && Poised(c, t, sid, 0) && t.issued == s.issued && t.sender == s.sender && s.wire <= t.wire
  {
    BuiltFramesParseBack(c.sender, sid, 0, [0]);
  }

  /** One more chunk is numbered after the record started over: its packet carries number 0. */
  lemma IssueAfterRestart(c: Config, s: System, sid: u16, chunk: seq<byte>)
    requires StartedOver(s, sid) && 0 < |chunk| <= CHUNK_SIZE
    ensures var w := Next(c, s, SenderOther(Wait(sid, 0)));
      var t := Next(c, w, SenderIssues(sid, chunk));
      && Enabled(c, s, SenderOther(Wait(sid, 0))) && Enabled(c, w, SenderIssues(sid, chunk))
      && Issued(t, sid) == Issued(s, sid) + [chunk]
      && t.wire == s.wire + {DataPacket(sid, |Issued(s, sid)|, 0, chunk)}
  {
  }

  lemma ReachesTwo(c: Config, s: System, a: Action, b: Action)
    requires Enabled(c, s, a) && Enabled(c, Next(c, s, a), b)
    ensures Reaches(c, s, [a, b], Next(c, Next(c, s, a), b))
  {
    ReachesOneMore(c, s, [], s, a);
    assert [] + [a] == [a] && [a] + [b] == [a, b];
    ReachesOneMore(c, s, [a], Next(c, s, a), b);
  }

  /** All packets of a stream's chunks are on the wire. */
  ghost predicate AllOnWire(s: System, sid: u16) {
    forall i: nat :: i < |Issued(s, sid)| ==> OnWire(s, ChunkPacket(s, sid, i), sid, i)
  }

  lemma SentIsOnWire(s: System, t: System, sid: u16)
    requires SendSideOk(s) && t.wire == s.wire && t.issued == s.issued
    ensures AllOnWire(t, sid)
  {
    assert SentOkAt(s, sid);
    forall i: nat | i < |Issued(t, sid)| ensures OnWire(t, ChunkPacket(t, sid, i), sid, i) {
      assert PacketOk(s, ChunkPacket(s, sid, i));
    }
  }

  /** The last full block of numbers before the restart. */
  lemma BlockStart(n: nat) returns (g: nat)
    requires Low32(n) != 0
    ensures g < n < g + TWO_TO_THE_32 && Low32(g) == 0
  {
    SplitPosition(n, 0, 0);
    g := Block(n) * TWO_TO_THE_32;
    SplitPosition(g, Block(n), 0);
  }

  /** A chunk is numbered 0 after a restart, and then the receiver forgets the sender. */
  lemma IssueAndClear(c: Config, s: System, sid: u16, chunk: seq<byte>) returns (actions: seq<Action>, t: System)
    requires StartedOver(s, sid) && 0 < |chunk| <= CHUNK_SIZE
    ensures Reaches(c, s, actions, t) && Poised(c, t, sid, 0)
    ensures Issued(t, sid) == Issued(s, sid) + [chunk]
    ensures s.wire + {DataPacket(sid, |Issued(s, sid)|, 0, chunk)} <= t.wire
  {
    var first, second := [SenderOther(Wait(sid, 0)), SenderIssues(sid, chunk)], [SenderResets, Deliver(ResetPacket, 0)];
    IssueAfterRestart(c, s, sid, chunk);
    ReachesTwo(c, s, SenderOther(Wait(sid, 0)), SenderIssues(sid, chunk));
    var issued := Next(c, Next(c, s, SenderOther(Wait(sid, 0))), SenderIssues(sid, chunk));
    ResetArrives(c, issued, sid);
    ReachesTwo(c, issued, SenderResets, Deliver(ResetPacket, 0));
    t := Next(c, Next(c, issued, SenderResets), Deliver(ResetPacket, 0));
    ReachesThen(c, s, first, issued, second, t);
    actions := first + second;
  }

  /** After a restart delivery can be broken: a chunk that begins differently from the first chunk of
      the present block of numbers gets that chunk's number, the receiver is brought to that position,
      and takes the one for the other. */
  lemma RestartBreaks(c: Config, s: System, sid: u16) returns (actions: seq<Action>, t: System)
    requires StartedOver(s, sid) && AllOnWire(s, sid)
    ensures Reaches(c, s, actions, t) && !PrefixAt(c, t, sid)
  {
    var chunks := Issued(s, sid);
    var g := BlockStart(|chunks|);
    assert OnWire(s, ChunkPacket(s, sid, g), sid, g);
    var x := Other(chunks[g]);
    var p := DataPacket(sid, |chunks|, 0, x);
    var first, cleared := IssueAndClear(c, s, sid, x);
    forall i: nat | i < g ensures OnWire(cleared, ChunkPacket(cleared, sid, i), sid, i) {
      assert OnWire(s, ChunkPacket(s, sid, i), sid, i);
    }
    var more, poised := DeliverUpTo(c, cleared, sid, g);
    ReachesThen(c, s, first, cleared, more, poised);
    assert OnWire(poised, p, sid, g);
    DeliverNext(c, poised, p, sid, g);
    ReachesOneMore(c, s, first + more, poised, Deliver(p, 0));
    actions, t := first + more + [Deliver(p, 0)], Next(c, poised, Deliver(p, 0));
    DeliverLeavesSender(c, poised, p);
    OtherBreaks(chunks, g);
    assert (chunks + [x])[..g] == chunks[..g];
  }

  lemma InvariantIsSafe(c: Config, s: System)
    requires Inv(c, s)
    ensures PrefixSafe(c, s)
  {
    forall actions, t, sid: u16 | Reaches(c, s, actions, t) ensures PrefixAt(c, t, sid) {
      RunKeepsInvariant(c, s, actions, t);
      InvariantGivesPrefix(c, t, sid);
    }
  }

  /** The condition on the frames that the sender hears is exact, at every reachable state: prefix
      delivery goes on holding in all runs from there if and only if the frame neither replaces nor
      removes a record with a number to lose. */
  lemma HarmlessExactly(c: Config, actions: seq<Action>, s: System, frame: seq<byte>, serial: nat)
    requires Reaches(c, Init, actions, s)
    ensures Harmless(s.sender, frame) <==> PrefixSafe(c, Next(c, s, SenderHandles(frame, serial)))
  {
    var after := Next(c, s, SenderHandles(frame, serial));
    InitOk(c);
    RunKeepsInvariant(c, Init, actions, s);
    if Harmless(s.sender, frame) {
      StepKeepsInvariant(c, s, SenderHandles(frame, serial));
      InvariantIsSafe(c, after);
    } else {
      var sid := RecordRestarts(c, s, frame, serial);
      SentIsOnWire(s, after, sid);
      var more, t := RestartBreaks(c, after, sid);
      assert Reaches(c, after, more, t) && !PrefixAt(c, t, sid);
    }
  }

  // ----- the shortest such run, from the start

  /** A stream is opened and one byte numbered on it. */
  function OneByteSent(c: Config, a: byte): System {
    Next(c, Next(c, Init, SenderOther(Opened(1, 0))), SenderIssues(1, [a]))
  }

  lemma OneByteSentReached(c: Config, a: byte)
    ensures Reaches(c, Init, [SenderOther(Opened(1, 0)), SenderIssues(1, [a])], OneByteSent(c, a))
    ensures Issued(OneByteSent(c, a), 1) == [[a]] && OneByteSent(c, a).receiver == map[]
    ensures OneByteSent(c, a).sender == map[1 := Fresh(0, NotifyId(1, 0)).(nextSendSeq := 1)]
  {
    ReachesTwo(c, Init, SenderOther(Opened(1, 0)), SenderIssues(1, [a]));
    assert CanIssue(Next(c, Init, SenderOther(Opened(1, 0))).sender, 1);
  }

  /** A data frame of another client (any but 0, under which streams are opened) is heard. */
  lemma ForeignFrameHeard(c: Config, a: byte, client: u32, serial: nat)
    requires client != 0
    ensures !Harmless(OneByteSent(c, a).sender, DataFrame(client, 1, 0, [0]))
    ensures var s, t := OneByteSent(c, a), Next(c, OneByteSent(c, a), SenderHandles(DataFrame(client, 1, 0, [0]), serial));
      && CanIssue(t.sender, 1) && t.sender[1].nextSendSeq == 0
      && t.receiver == s.receiver && t.issued == s.issued
  {
    OneByteSentReached(c, a);
    ForeignReplaces(c, OneByteSent(c, a), client, serial);
  }

  lemma ForeignReplaces(c: Config, s: System, client: u32, serial: nat)
    requires 1 in s.sender && s.sender[1].clientId != client && s.sender[1].nextSendSeq != 0
    ensures !Harmless(s.sender, DataFrame(client, 1, 0, [0]))
    ensures var t := Next(c, s, SenderHandles(DataFrame(client, 1, 0, [0]), serial));
      && CanIssue(t.sender, 1) && t.sender[1].nextSendSeq == 0
      && t.receiver == s.receiver && t.issued == s.issued
  {
    BuiltFramesParseBack(client, 1, 0, [0]);
    ReplacedByData(s.sender, client, serial);
  }

  lemma ReplacedByData(t: Records, client: u32, serial: nat)
    requires 1 in t && t[1].clientId != client
    ensures var after := HandleParsed(t, Data(client, 1, 0, [0]), serial);
      CanIssue(after, 1) && after[1].nextSendSeq == 0
  {
    var r := RecordFor(t, client, 1, serial);
    assert Accept(r, 0, [0]).nextSendSeq == r.nextSendSeq && Accept(r, 0, [0]).closed == r.closed;
  }

  /** The second byte is numbered 0 again, and the receiver takes it for the first. */
  lemma SecondForFirst(c: Config, s: System, a: byte, b: byte)
    requires CanIssue(s.sender, 1) && s.sender[1].nextSendSeq == 0
    requires Issued(s, 1) == [[a]] && 1 !in s.receiver && a != b
    ensures var issue, deliver := SenderIssues(1, [b]), Deliver(DataPacket(1, 1, 0, [b]), 0);
      var t := Next(c, Next(c, s, issue), deliver);
      Reaches(c, s, [issue, deliver], t) && !PrefixAt(c, t, 1)
  {
    var issue, p := SenderIssues(1, [b]), DataPacket(1, 1, 0, [b]);
    var issued := Next(c, s, issue);
    SplitPosition(0, 0, 0);
    assert OnWire(issued, p, 1, 0) && Poised(c, issued, 1, 0);
    ReachesTwo(c, s, issue, Deliver(p, 0));
    DeliverNext(c, issued, p, 1, 0);
    DeliverLeavesSender(c, issued, p);
    assert Concat(Issued(issued, 1)[..0]) + [b] == [b];
    ConcatSnoc([[a]], [b]);
    ConcatOne([a]);
    DifferAfter([], [b], [a, b]);
  }

  /** Delivery fails from the start: open, send a byte, hear a frame of another client, send another
      byte, deliver it. */
  lemma ReplacedSenderBreaksDelivery(c: Config, client: u32, serial: nat, a: byte, b: byte) returns (t: System)
    requires client != 0 && a != b
    ensures var s, frame := OneByteSent(c, a), DataFrame(client, 1, 0, [0]);
      && Reaches(c, Init, [SenderOther(Opened(1, 0)), SenderIssues(1, [a])], s)
      && Reaches(c, Next(c, s, SenderHandles(frame, serial)),
                 [SenderIssues(1, [b]), Deliver(DataPacket(1, 1, 0, [b]), 0)], t)
      && !PrefixAt(c, t, 1)
  {
    OneByteSentReached(c, a);
    ForeignFrameHeard(c, a, client, serial);
    var heard := Next(c, OneByteSent(c, a), SenderHandles(DataFrame(client, 1, 0, [0]), serial));
    SecondForFirst(c, heard, a, b);
    t := Next(c, Next(c, heard, SenderIssues(1, [b])), Deliver(DataPacket(1, 1, 0, [b]), 0));
  }
}
