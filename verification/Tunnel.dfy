/** What holds of one SOCKS5 connection carried over one stream of the multiplexer. */
module Tunnel {
  import opened Words
  import opened Sequences
  import opened Frames
  import opened Streams
  import opened Table
  import opened Mux
  import opened Socks
  import Delivery
  import Wrapping

  const READ_BUFFER: nat := 16384
  const REPLY_SUCCESS: seq<byte> := [5, 0, 0, 1, 0, 0, 0, 0, 0, 0]
  const REPLY_HOST_UNREACHABLE: seq<byte> := [5, 4, 0, 1, 0, 0, 0, 0, 0, 0]

  /** What other tasks may do to this connection's record between two of its own steps: deliver
      bytes, close it, and move its receive counters. */
  ghost predicate Disturbs(s: Stream, t: Stream, arrived: seq<byte>) {
    && t.recvBuf == s.recvBuf + arrived
    && (s.closed ==> t.closed)
    && t.nextSendSeq == s.nextSendSeq && t.clientId == s.clientId
  }

  /** What other tasks may do while the record is neither replaced nor removed: any operation on
      another stream, and any frame of the record's own client or for another stream. */
  predicate Elsewhere(t: Records, sid: u16, op: Op) {
    sid in t &&
    match op
    case Handle(frame, _) =>
      (match Parse(frame)
       case Data(c, s, _, _) => s == sid ==> t[sid].clientId == c
       case Reset(c) => t[sid].clientId != c
       case _ => true)
    case _ => op.sid != sid
  }

  /** Such an operation disturbs the record in no other way. */
  lemma OthersDisturb(self: u32, t: Records, sid: u16, op: Op)
    requires Elsewhere(t, sid, op)
    ensures sid in Step(self, t, op)
    ensures exists arrived :: Disturbs(t[sid], Step(self, t, op)[sid], arrived)
  {
    var s := t[sid];
    var after := Step(self, t, op)[sid];
    match op
    case Handle(frame, serial) =>
      match Parse(frame) {
        case Data(c, x, sequence, payload) =>
          if x == sid && sequence == s.nextRecvSeq {
            assert Disturbs(s, after, Concat(Released(s, sequence, payload)));
          } else {
            assert Disturbs(s, after, []);
          }
        case _ => assert Disturbs(s, after, []);
      }
    case _ => assert Disturbs(s, after, []);
  }

  predicate AllElsewhere(self: u32, t: Records, sid: u16, ops: seq<Op>) {
    ops == [] || (AllElsewhere(self, t, sid, Front(ops)) && Elsewhere(Run(self, t, Front(ops)), sid, Last(ops)))
  }

  /** Nor do any number of them in a row, those of all other connections over the same table included. */
  lemma {:induction false} OthersDisturbRun(self: u32, t: Records, sid: u16, ops: seq<Op>) returns (arrived: seq<byte>)
    requires sid in t && AllElsewhere(self, t, sid, ops)
    ensures sid in Run(self, t, ops)
    ensures Disturbs(t[sid], Run(self, t, ops)[sid], arrived)
    decreases |ops|
  {
    if ops == [] {
      return [];
    }
    var before := Run(self, t, Front(ops));
    arrived := OthersDisturbRun(self, t, sid, Front(ops));
    OthersDisturb(self, before, sid, Last(ops));
    var more :| Disturbs(before[sid], Step(self, before, Last(ops))[sid], more);
    arrived := arrived + more;
  }

  /** Where the downlink task is in its loop. */
  datatype Downlink = Waiting | Reading | Writing(rest: seq<byte>) | CheckingClosed | Stopped

  datatype Setup = NotTried | Refused | Established

  // ----- the frames of one stream among all frames sent

  predicate OnStream(frame: seq<byte>, sid: u16) {
    match Parse(frame)
    case Data(_, s, _, _) => s == sid
    case Close(_, s) => s == sid
    case _ => false
  }

  /** What was handed to the transport for one stream. */
  function OfStream(log: seq<Sending>, sid: u16): seq<Sending> {
    if log == [] then []
    else OfStream(Front(log), sid) + if OnStream(Last(log).frame, sid) then [Last(log)] else []
  }

  lemma {:induction false} OfStreamAppend(a: seq<Sending>, b: seq<Sending>, sid: u16)
    ensures OfStream(a + b, sid) == OfStream(a, sid) + OfStream(b, sid)
    decreases |b|
  {
    if b == [] {
      assert a + b == a;
    } else {
      OfStreamAppend(a, Front(b), sid);
      assert Front(a + b) == a + Front(b) && Last(a + b) == Last(b);
    }
  }

  /** What is handed over later comes behind what was since the stream was opened. */
  lemma WireGrows(log: seq<Sending>, more: seq<Sending>, started: nat, sid: u16)
    requires started <= |log|
    ensures OfStream((log + more)[started..], sid) == OfStream(log[started..], sid) + OfStream(more, sid)
  {
    assert (log + more)[started..] == log[started..] + more;
    OfStreamAppend(log[started..], more, sid);
  }

  lemma WireGrowsByOne(log: seq<Sending>, sending: Sending, started: nat, sid: u16)
    requires started <= |log| && OnStream(sending.frame, sid)
    ensures OfStream((log + [sending])[started..], sid) == OfStream(log[started..], sid) + [sending]
  {
    WireGrows(log, [sending], started, sid);
    assert Front([sending]) == [];
  }

  lemma BuiltOnStream(clientId: u32, sid: u16, sequence: u32, payload: seq<byte>)
    requires 0 < |payload| <= CHUNK_SIZE
    ensures OnStream(DataFrame(clientId, sid, sequence, payload), sid)
    ensures OnStream(CloseFrame(clientId, sid), sid)
  {
    BuiltFramesParseBack(clientId, sid, sequence, payload);
  }

  // ----- what holds at every point of a connection

  ghost predicate Sized(chunks: seq<seq<byte>>) {
    forall i :: 0 <= i < |chunks| ==> 0 < |chunks[i]| <= CHUNK_SIZE
  }

  /** The transport was handed the frames of the numbered chunks in order, and took them all, but
      for the last one: that may be in flight, or refused. */
  ghost predicate OnTheWire(clientId: u32, sid: u16, payloads: seq<seq<byte>>, wire: seq<Sending>,
                            inFlight: Option<seq<byte>>, failed: bool)
  {
    && (failed ==> payloads != [])
    && match inFlight
       case None => wire == Handed(DataFrames(clientId, sid, 0, payloads), !failed)
       case Some(frame) =>
         && payloads != [] && !failed
         && wire == Handed(DataFrames(clientId, sid, 0, Front(payloads)), true)
         && frame == DataFrame(clientId, sid, Low32(|payloads| - 1), Last(payloads))
  }

  /** The numbered chunks are a prefix of what the client means to have sent so far, and all of it
      but the pending chunks unless some were dropped. */
  ghost predicate FromClient(payloads: seq<seq<byte>>, pending: seq<seq<byte>>, intended: seq<byte>, dropped: bool) {
    && Concat(payloads) <= intended
    && (!dropped ==> Concat(payloads) + Concat(pending) == intended)
  }

  /** Consumed by the setup, then taken by the pump, then readable: exactly what was delivered. */
  ghost predicate Conserved(response: seq<byte>, taken: seq<byte>, readable: seq<byte>, delivered: seq<byte>) {
    response + taken + readable == delivered
  }

  /** What was written are the first of the bytes taken, at every point of a write and when it is cut
      short; only a socket that takes no more bytes makes the loop stop with a rest. */
  ghost predicate Passed(taken: seq<byte>, written: seq<byte>, downlink: Downlink, full: bool) {
    match downlink
    case Writing(rest) => taken == written + rest
    case Stopped => written <= taken && (full || written == taken)
    case _ => taken == written
  }

  /** How many steps of the downlink it takes at most until `target` bytes are written, once that many
      were delivered: a byte a step, and the way round the loop to take the missing ones. */
  function DueSteps(target: nat, taken: nat, written: nat, downlink: Downlink): nat {
    if written >= target then 0
    else
      target - written +
      match downlink
      case Waiting => 2
      case Reading => 1
      case Writing(_) => if taken >= target then 0 else 4
      case CheckingClosed => 3
      case Stopped => 0
  }

  /** The client got the answer to its greeting, and a refusal or a reply that was cut off. */
  ghost predicate Unanswered(output: seq<byte>, room: nat) {
    || output == [5, 0]
    || output == Fit([5, 0] + REPLY_HOST_UNREACHABLE, room)
    || (room < 12 && output == Fit([5, 0] + REPLY_SUCCESS, room))
  }

  predicate Good(response: seq<byte>) {
    response != [] && response[0] == 0
  }

  /** The client sees the success reply only after a response whose first byte is 0, and then
      nothing but the bytes written by the downlink. */
  ghost predicate Answered(setup: Setup, output: seq<byte>, room: nat, response: seq<byte>, taken: seq<byte>, written: seq<byte>) {
    match setup
    case NotTried => output == [5, 0] && taken == [] && written == []
    case Refused => Unanswered(output, room) && taken == [] && written == []
    case Established => output == [5, 0] + REPLY_SUCCESS + written && Good(response)
  }

  /** Numbering the first pending chunk puts its frame in flight. */
  lemma NumberKeepsUplink(clientId: u32, sid: u16, numbered: seq<seq<byte>>, pending: seq<seq<byte>>,
                          wire: seq<Sending>, intended: seq<byte>, dropped: bool)
    requires pending != []
    requires OnTheWire(clientId, sid, numbered, wire, None, false) && FromClient(numbered, pending, intended, dropped) && !dropped
    ensures var more := numbered + [pending[0]];
      var frame := DataFrame(clientId, sid, Low32(|numbered|), pending[0]);
      && OnTheWire(clientId, sid, more, wire, Some(frame), false)
      && FromClient(more, pending[1..], intended, false)
  {
    var more := numbered + [pending[0]];
    ConcatSnoc(numbered, pending[0]);
    assert Concat(pending) == pending[0] + Concat(pending[1..]);
    assert Concat(more) + Concat(pending[1..]) == intended;
    assert Front(more) == numbered;
  }

  /** The frame in flight is taken by the transport, or refused. */
  lemma ArrivalKeepsUplink(clientId: u32, sid: u16, numbered: seq<seq<byte>>, wire: seq<Sending>, frame: seq<byte>, ok: bool)
    requires OnTheWire(clientId, sid, numbered, wire, Some(frame), false)
    ensures OnTheWire(clientId, sid, numbered, wire + [Sending(frame, ok)], None, !ok)
  {
    var n := |numbered| - 1;
    DataFramesSnoc(clientId, sid, 0, numbered, n);
    assert numbered[..n + 1] == numbered;
    HandedSnoc(DataFrames(clientId, sid, 0, Front(numbered)), frame, ok);
  }

  lemma InFlightOnStream(clientId: u32, sid: u16, numbered: seq<seq<byte>>, wire: seq<Sending>, frame: seq<byte>)
    requires Sized(numbered) && OnTheWire(clientId, sid, numbered, wire, Some(frame), false)
    ensures OnStream(frame, sid)
  {
    BuiltOnStream(clientId, sid, Low32(|numbered| - 1), Last(numbered));
  }

  lemma NothingOnTheWire(clientId: u32, sid: u16)
    ensures OnTheWire(clientId, sid, [], [], None, false)
  {
    assert DataFrames(clientId, sid, 0, []) == [];
  }

  lemma NothingYet(text: seq<byte>, input: seq<byte>, n: nat, log: seq<Sending>, sid: u16)
    requires n <= |input|
    ensures text + input[n..n] == text && OfStream(log[|log|..], sid) == []
  {
  }

  lemma EverythingPending(text: seq<byte>)
    ensures Sized(Chunks(text)) && FromClient([], Chunks(text), text, false)
  {
    ChunksPartition(text);
  }

  /** What is read next becomes the pending chunks, of which there are no more than bytes. */
  lemma NextRead(payloads: seq<seq<byte>>, intended: seq<byte>, data: seq<byte>, dropped: bool)
    requires FromClient(payloads, [], intended, dropped)
    ensures FromClient(payloads, Chunks(data), intended + data, dropped)
    ensures Sized(Chunks(data)) && |Chunks(data)| <= |data|
  {
    ChunksPartition(data);
  }

  /** The client sees a whole success reply exactly when the tunnel was established; then the first
      byte ever delivered was 0, and what follows the reply is a contiguous run of the delivered
      bytes that begins behind everything the setup consumed. The bytes that arrived together with
      the status byte lie in between: they are never passed on, and there are none exactly if the
      status byte came alone. */
  lemma SocketSees(setup: Setup, output: seq<byte>, room: nat, response: seq<byte>, taken: seq<byte>, readable: seq<byte>,
                   delivered: seq<byte>, written: seq<byte>, downlink: Downlink, full: bool)
    requires Conserved(response, taken, readable, delivered) && Passed(taken, written, downlink, full)
    requires Answered(setup, output, room, response, taken, written)
    ensures [5, 0] + REPLY_SUCCESS <= output <==> setup == Established
    ensures setup == Established ==>
              && |response| + |written| <= |delivered|
              && delivered[0] == 0
              && output == [5, 0] + REPLY_SUCCESS + delivered[|response|..|response| + |written|]
              && (var skipped := delivered[1..|response|];
                  delivered == [0] + skipped + delivered[|response|..] && (skipped == [] <==> |response| == 1))
  {
    if setup == Established {
      assert written == taken[..|written|];
      assert delivered[|response|..|response| + |written|] == written;
      assert delivered == delivered[..1] + delivered[1..|response|] + delivered[|response|..];
      assert delivered[..1] == [0];
    }
    if setup == Refused {
      RefusalIsNoSuccess(output, room);
    }
  }

  /** A client that was refused, or whose reply was cut off, has not seen a whole success reply. */
  lemma RefusalIsNoSuccess(output: seq<byte>, room: nat)
    requires Unanswered(output, room)
    ensures !([5, 0] + REPLY_SUCCESS <= output)
  {
    var refusal := [5, 0] + REPLY_HOST_UNREACHABLE;
    assert refusal[3] == 4 && ([5, 0] + REPLY_SUCCESS)[3] == 0;
    assert |output| > 3 && output == Fit(refusal, room) ==> output[3] == 4;
  }

  /** A peer's first frame on a freshly opened stream becomes readable as a whole. */
  lemma FirstFrameReadable(self: u32, sid: u16, notify: NotifyId, payload: seq<byte>, serial: nat)
    requires 0 < |payload| <= CHUNK_SIZE
    ensures var t := Step(self, map[sid := Fresh(0, notify)], Handle(DataFrame(0, sid, 0, payload), serial));
      sid in t && t[sid].recvBuf == payload
  {
    BuiltFramesParseBack(0, sid, 0, payload);
    Wrapping.AcceptAlone(Fresh(0, notify), payload);
  }

  /** A peer that sends its status byte and its first data in one frame makes the setup consume both,
      since it takes all that is readable: the data is among the bytes that are skipped, whatever is
      delivered and written later. */
  lemma DataWithStatusIsLost(data: seq<byte>, response: seq<byte>, taken: seq<byte>, readable: seq<byte>,
                             delivered: seq<byte>, written: seq<byte>, downlink: Downlink, full: bool)
    requires [0] + data <= response
    requires Conserved(response, taken, readable, delivered) && Passed(taken, written, downlink, full)
    ensures data <= delivered[1..|response|] && written <= delivered[|response|..]
  {
    assert response[1..][..|data|] == data;
    assert delivered[1..|response|] == response[1..];
    assert delivered[|response|..] == taken + readable;
  }

  // ----- the peer

  /** `s` is the sender's and the peer's side of this stream alone: the sender has just the one record. */
  ghost predicate Mirrors(c: Delivery.Config, s: Delivery.System, clientId: u32, sid: u16, record: Stream) {
    Delivery.Inv(c, s) && c.sender == clientId && s.sender == map[sid := record]
  }

  function Reflect(s: Delivery.System, sid: u16, record: Stream): Delivery.System {
    s.(sender := map[sid := record])
  }

  /** Whatever leaves the next number alone does not concern the peer. */
  lemma ReflectKeeps(c: Delivery.Config, s: Delivery.System, clientId: u32, sid: u16, before: Stream, after: Stream)
    requires Mirrors(c, s, clientId, sid, before) && after.nextSendSeq == before.nextSendSeq
    ensures Mirrors(c, Reflect(s, sid, after), clientId, sid, after)
    ensures Delivery.Issued(Reflect(s, sid, after), sid) == Delivery.Issued(s, sid)
  {
    var t := Reflect(s, sid, after);
    forall x: u16 ensures Delivery.SenderOkAt(t, x) && Delivery.SentOkAt(t, x) && Delivery.ReceiverOkAt(c, t, x) {
      assert Delivery.SenderOkAt(s, x) && Delivery.SentOkAt(s, x) && Delivery.ReceiverOkAt(c, s, x);
    }
    forall p | p in t.wire ensures Delivery.PacketOk(t, p) {
      assert Delivery.PacketOk(s, p);
    }
  }

  /** The record's next number, given to a chunk. */
  lemma IssueMirrored(c: Delivery.Config, s: Delivery.System, clientId: u32, sid: u16, record: Stream, chunk: seq<byte>)
    requires Mirrors(c, s, clientId, sid, record) && !record.closed && 0 < |chunk| <= CHUNK_SIZE
    ensures var t := Delivery.Next(c, s, Delivery.SenderIssues(sid, chunk));
      && Mirrors(c, t, clientId, sid, record.(nextSendSeq := Next32(record.nextSendSeq)))
      && Delivery.Issued(t, sid) == Delivery.Issued(s, sid) + [chunk]
    ensures record.nextSendSeq == Low32(|Delivery.Issued(s, sid)|)
  {
    assert Delivery.SenderOkAt(s, sid);
    Delivery.StepKeepsInvariant(c, s, Delivery.SenderIssues(sid, chunk));
  }

  lemma CloseMirrored(c: Delivery.Config, s: Delivery.System, clientId: u32, sid: u16, record: Stream)
    requires Mirrors(c, s, clientId, sid, record)
    ensures var t := Delivery.Next(c, s, Delivery.SenderCloses(sid));
      && Mirrors(c, t, clientId, sid, record.(closed := true))
      && Delivery.Issued(t, sid) == Delivery.Issued(s, sid)
  {
    Delivery.StepKeepsInvariant(c, s, Delivery.SenderCloses(sid));
  }

  /** A system in which the stream is yet to be opened. */
  ghost predicate Unopened(c: Delivery.Config, s: Delivery.System, clientId: u32, sid: u16) {
    Delivery.Inv(c, s) && c.sender == clientId && s.sender == map[] && Delivery.Issued(s, sid) == []
  }

  lemma OpenMirrored(c: Delivery.Config, s: Delivery.System, clientId: u32, sid: u16, serial: nat)
    requires Unopened(c, s, clientId, sid)
    ensures var t := Delivery.Next(c, s, Delivery.SenderOther(Opened(sid, serial)));
      Mirrors(c, t, clientId, sid, Fresh(0, NotifyId(sid, serial))) && Delivery.Issued(t, sid) == []
  {
    Delivery.StepKeepsInvariant(c, s, Delivery.SenderOther(Opened(sid, serial)));
  }

  /** The channel and the peer: packets delivered, lost, repeated and reordered, other clients heard,
      and whatever the peer does with its own streams. */
  predicate FarSide(a: Delivery.Action) {
    a.Deliver? || a.OtherClient? || a.ReceiverReads? || a.ReceiverOther?
  }

  ghost predicate FarMoves(c: Delivery.Config, s: Delivery.System, t: Delivery.System) {
    exists actions :: FarActions(actions) && Delivery.Reaches(c, s, actions, t)
  }

  ghost predicate FarActions(actions: seq<Delivery.Action>) {
    forall i :: 0 <= i < |actions| ==> FarSide(actions[i])
  }

  lemma {:induction false} FarRun(c: Delivery.Config, s: Delivery.System, actions: seq<Delivery.Action>, t: Delivery.System)
    requires FarActions(actions) && Delivery.Reaches(c, s, actions, t)
    ensures t.sender == s.sender && t.issued == s.issued
    decreases |actions|
  {
    if actions != [] {
      assert FarSide(actions[0]);
      assert forall i :: 0 <= i < |actions| - 1 ==> FarSide(actions[1..][i]) by {
        assert forall i :: 0 <= i < |actions| - 1 ==> actions[1..][i] == actions[i + 1];
      }
      FarRun(c, Delivery.Next(c, s, actions[0]), actions[1..], t);
    }
  }

  lemma FarKeeps(c: Delivery.Config, s: Delivery.System, t: Delivery.System, clientId: u32, sid: u16, record: Stream)
    requires Mirrors(c, s, clientId, sid, record) && FarMoves(c, s, t)
    ensures Mirrors(c, t, clientId, sid, record) && Delivery.Issued(t, sid) == Delivery.Issued(s, sid)
  {
    var actions :| FarActions(actions) && Delivery.Reaches(c, s, actions, t);
    Delivery.RunKeepsInvariant(c, s, actions, t);
    FarRun(c, s, actions, t);
  }

  /** What the peer has read on the stream and can read now. */
  ghost function Heard(c: Delivery.Config, s: Delivery.System, sid: u16): seq<byte> {
    if Delivery.Current(c, s, sid) then Delivery.Taken(c, s, sid) + s.receiver[sid].recvBuf else []
  }

  lemma PeerSeesPrefix(c: Delivery.Config, s: Delivery.System, sid: u16, pending: seq<seq<byte>>, intended: seq<byte>, dropped: bool)
    requires Delivery.Inv(c, s) && FromClient(Delivery.Issued(s, sid), pending, intended, dropped)
    ensures Heard(c, s, sid) <= intended
  {
    Delivery.InvariantGivesPrefix(c, s, sid);
  }
}
