/** Two multiplexers and a lossy, duplicating, reordering channel from one to the other.

    Losing a packet is never delivering it, duplicating it is delivering it again; a packet may be
    delivered at any time after it was put on the wire. */
module Delivery {
  import opened Words
  import opened Sequences
  import opened Frames
  import opened Streams
  import opened Wrapping
  import opened Table

  /** A frame the sender put on the wire. `index` is the position of the chunk on its stream, which
      the frame itself does not carry. */
  datatype Packet =
    | DataPacket(sid: u16, index: nat, sequence: u32, chunk: seq<byte>)
    | ClosePacket(sid: u16)
    | ResetPacket

  function Bytes(sender: u32, p: Packet): seq<byte> {
    match p
    case DataPacket(sid, _, sequence, chunk) => DataFrame(sender, sid, sequence, chunk)
    case ClosePacket(sid) => CloseFrame(sender, sid)
    case ResetPacket => ResetFrame(sender)
  }

  datatype Config = Config(sender: u32, receiver: u32)  // the two client ids

  /** `issued`: the chunks numbered so far on each stream. `got` and `taken`: how many chunks the
      receiver's present record delivered, and what `read_stream` returned of them. */
  datatype System = System(
    sender: Records,
    receiver: Records,
    wire: set<Packet>,
    issued: map<u16, seq<seq<byte>>>,
    got: map<u16, nat>,
    taken: map<u16, seq<byte>>)

  const Init: System := System(map[], map[], {}, map[], map[], map[])

  function Issued(s: System, sid: u16): seq<seq<byte>> {
    if sid in s.issued then s.issued[sid] else []
  }

  predicate Current(c: Config, s: System, sid: u16) {
    sid in s.receiver && s.receiver[sid].clientId == c.sender
  }

  function Got(c: Config, s: System, sid: u16): nat {
    if Current(c, s, sid) && sid in s.got then s.got[sid] else 0
  }

  function Taken(c: Config, s: System, sid: u16): seq<byte> {
    if Current(c, s, sid) && sid in s.taken then s.taken[sid] else []
  }

  datatype Action =
    | SenderIssues(sid: u16, chunk: seq<byte>)          // one chunk of a send_data call
    | SenderCloses(sid: u16)
    | SenderResets
    | SenderHandles(frame: seq<byte>, serial: nat)      // any frame from anywhere
    | SenderOther(op: Op)                               // open_stream, read_stream, wait_for_data
    | Deliver(packet: Packet, serial: nat)
    | OtherClient(frame: seq<byte>, serial: nat)        // the receiver hears another client
    | ReceiverReads(sid: u16)
    | ReceiverOther(op: Op)                             // open_stream, send_data, close_stream, wait_for_data

  /** The frame replaces or removes no record on which a number was handed out (or none since the
      numbers last wrapped around). */
  predicate Harmless(t: Records, frame: seq<byte>) {
    match Parse(frame)
    case Data(c, sid, _, _) => sid in t && t[sid].clientId != c ==> t[sid].nextSendSeq == 0
    case Reset(c) => forall sid :: sid in t && t[sid].clientId == c ==> t[sid].nextSendSeq == 0
    case _ => true
  }

  predicate FromOtherClient(c: Config, frame: seq<byte>) {
    match Parse(frame)
    case Ignored => true
    case other => other.clientId != c.sender
  }

  /** The receiver has no room for the frame, which is numbered ahead. */
  predicate Dropped(c: Config, s: System, sid: u16, sequence: u32) {
    var r := RecordFor(s.receiver, c.sender, sid, 0);
    sequence > r.nextRecvSeq && |r.outOfOrder| >= REORDER_CAPACITY
  }

  /** The copy of a chunk is not taken for another chunk, or is dropped, or is taken for an equal one. */
  predicate SafeCopy(c: Config, s: System, p: Packet)
    requires p.DataPacket?
  {
    var position := MistakenFor(Got(c, s, p.sid), p.index);
    || Admissible(Got(c, s, p.sid), p.index)
    || Dropped(c, s, p.sid, p.sequence)
    || (position < |Issued(s, p.sid)| && Issued(s, p.sid)[position] == p.chunk)
  }

  predicate Enabled(c: Config, s: System, a: Action) {
    match a
    case SenderIssues(sid, chunk) => CanIssue(s.sender, sid) && 0 < |chunk| <= CHUNK_SIZE
    case SenderHandles(frame, _) => Harmless(s.sender, frame)
    case SenderOther(op) => op.Opened? || op.Read? || op.Wait?
    case Deliver(p, _) => p in s.wire && (p.DataPacket? ==> SafeCopy(c, s, p))
    case OtherClient(frame, _) => FromOtherClient(c, frame)
    case ReceiverOther(op) => op.Opened? || op.Issue? || op.CloseLocal? || op.Wait?
    case _ => true
  }

  function Next(c: Config, s: System, a: Action): System {
    match a
    case SenderIssues(sid, chunk) =>
      s.(sender := Step(c.sender, s.sender, Issue(sid)),
         wire := if sid !in s.sender then s.wire
                 else s.wire + {DataPacket(sid, |Issued(s, sid)|, s.sender[sid].nextSendSeq, chunk)},
         issued := s.issued[sid := Issued(s, sid) + [chunk]])
    case SenderCloses(sid) => s.(sender := Step(c.sender, s.sender, CloseLocal(sid)), wire := s.wire + {ClosePacket(sid)})
    case SenderResets => s.(wire := s.wire + {ResetPacket})
    case SenderHandles(frame, serial) => s.(sender := Step(c.sender, s.sender, Handle(frame, serial)))
    case SenderOther(op) => s.(sender := Step(c.sender, s.sender, op))
    case Deliver(p, serial) => Hear(c, s, Bytes(c.sender, p), serial)
    case OtherClient(frame, serial) => Hear(c, s, frame, serial)
    case ReceiverReads(sid) =>
      s.(receiver := Step(c.receiver, s.receiver, Read(sid)),
         taken := if Current(c, s, sid) then s.taken[sid := Taken(c, s, sid) + s.receiver[sid].recvBuf] else s.taken)
    case ReceiverOther(op) => s.(receiver := Step(c.receiver, s.receiver, op))
  }

  /** The receiver handles a frame; `got` and `taken` follow the life of the records. */
  function Hear(c: Config, s: System, frame: seq<byte>, serial: nat): System {
    s.(receiver := Step(c.receiver, s.receiver, Handle(frame, serial)),
       got := GotAfter(c, s, Parse(frame), serial),
       taken := TakenAfter(c, s, Parse(frame)))
  }

  function GotAfter(c: Config, s: System, parsed: Parsed, serial: nat): map<u16, nat> {
    match parsed
    case Data(client, sid, sequence, payload) =>
      if client != c.sender then s.got - {sid}
      else s.got[sid := Got(c, s, sid) + |Released(RecordFor(s.receiver, client, sid, serial), sequence, payload)|]
    case Reset(client) => if client == c.sender then map[] else s.got
    case _ => s.got
  }

  function TakenAfter(c: Config, s: System, parsed: Parsed): map<u16, seq<byte>> {
    match parsed
    case Data(client, sid, _, _) => if client != c.sender then s.taken - {sid} else s.taken[sid := Taken(c, s, sid)]
    case Reset(client) => if client == c.sender then map[] else s.taken
    case _ => s.taken
  }

  /** Executions from a state, as successive steps. */
  ghost predicate Reaches(c: Config, s: System, actions: seq<Action>, t: System)
    decreases |actions|
  {
    if actions == [] then t == s
    else Enabled(c, s, actions[0]) && Reaches(c, Next(c, s, actions[0]), actions[1..], t)
  }

  // ----- the invariant

  /** The number the next chunk gets; a record that is yet to be created starts at 0. */
  function SendSequence(t: Records, sid: u16): u32 {
    if sid in t then t[sid].nextSendSeq else 0
  }

  ghost predicate SenderOkAt(s: System, sid: u16) {
    SendSequence(s.sender, sid) == Low32(|Issued(s, sid)|)
  }

  /** The packet of every chunk numbered so far is on the wire. */
  ghost predicate SentOkAt(s: System, sid: u16) {
    forall i: nat :: i < |Issued(s, sid)| ==> DataPacket(sid, i, Low32(i), Issued(s, sid)[i]) in s.wire
  }

  ghost predicate PacketOk(s: System, p: Packet) {
    p.DataPacket? ==>
      && p.index < |Issued(s, p.sid)|
      && p.sequence == Low32(p.index)
      && p.chunk == Issued(s, p.sid)[p.index]
      && 0 < |p.chunk| <= CHUNK_SIZE
  }

  ghost predicate StreamOk(r: Stream, chunks: seq<seq<byte>>, got: nat, taken: seq<byte>) {
    Aligned(r, chunks, got) && taken + r.recvBuf == Concat(chunks[..got])
  }

  ghost predicate ReceiverOkAt(c: Config, s: System, sid: u16) {
    if Current(c, s, sid) then StreamOk(s.receiver[sid], Issued(s, sid), Got(c, s, sid), Taken(c, s, sid))
    else sid !in s.got && sid !in s.taken
  }

  ghost predicate SendSideOk(s: System) {
    && (forall sid: u16 :: SenderOkAt(s, sid) && SentOkAt(s, sid))
    && (forall p :: p in s.wire ==> PacketOk(s, p))
  }

  ghost predicate Inv(c: Config, s: System) {
    SendSideOk(s) && forall sid: u16 :: ReceiverOkAt(c, s, sid)
  }

  lemma FreshOk(clientId: u32, notify: NotifyId, chunks: seq<seq<byte>>)
    ensures StreamOk(Fresh(clientId, notify), chunks, 0, [])
  {
    SplitPosition(0, 0, 0);
    assert Concat(chunks[..0]) == [];
  }

  lemma GrowOk(r: Stream, chunks: seq<seq<byte>>, got: nat, taken: seq<byte>, chunk: seq<byte>)
    requires StreamOk(r, chunks, got, taken)
    ensures StreamOk(r, chunks + [chunk], got, taken)
  {
    assert (chunks + [chunk])[..got] == chunks[..got];
    forall k | k in r.outOfOrder
      ensures Holds(r.outOfOrder, k, chunks + [chunk], Block(got))
    {
      assert Holds(r.outOfOrder, k, chunks, Block(got));
    }
  }

  lemma {:induction false} FollowsExtends(released: seq<seq<byte>>, chunks: seq<seq<byte>>, got: nat)
    requires Follows(released, chunks, got)
    ensures Concat(chunks[..got + |released|]) == Concat(chunks[..got]) + Concat(released)
    decreases |released|
  {
    if released != [] {
      var n := |released| - 1;
      FollowsExtends(Front(released), chunks, got);
      assert chunks[..got + n + 1] == chunks[..got + n] + [chunks[got + n]];
      ConcatSnoc(chunks[..got + n], chunks[got + n]);
      assert released == Front(released) + [released[n]];
      ConcatSnoc(Front(released), released[n]);
    }
  }

  lemma AcceptOk(r: Stream, chunks: seq<seq<byte>>, got: nat, taken: seq<byte>, i: nat)
    requires StreamOk(r, chunks, got, taken)
    requires i < |chunks| && Admissible(got, i)
    ensures var released := Released(r, Low32(i), chunks[i]);
      StreamOk(Accept(r, Low32(i), chunks[i]), chunks, got + |released|, taken)
  {
    AcceptAligned(r, chunks, got, i);
    AcceptReleases(r, Low32(i), chunks[i]);
    var released := Released(r, Low32(i), chunks[i]);
    FollowsExtends(released, chunks, got);
    assert taken + (r.recvBuf + Concat(released)) == (taken + r.recvBuf) + Concat(released);
  }

  lemma IssueKeepsSendSide(c: Config, s: System, sid: u16, chunk: seq<byte>)
    requires SendSideOk(s) && Enabled(c, s, SenderIssues(sid, chunk))
    ensures SendSideOk(Next(c, s, SenderIssues(sid, chunk)))
  {
    var t := Next(c, s, SenderIssues(sid, chunk));
    NextPosition(|Issued(s, sid)|);
    forall x: u16 ensures SenderOkAt(t, x) && SentOkAt(t, x) {
      assert SenderOkAt(s, x) && SentOkAt(s, x);
    }
    forall p | p in t.wire ensures PacketOk(t, p) {
      assert SenderOkAt(s, sid);
      assert p in s.wire ==> PacketOk(s, p);
    }
  }

  lemma IssueStep(c: Config, s: System, sid: u16, chunk: seq<byte>)
    requires Inv(c, s) && Enabled(c, s, SenderIssues(sid, chunk))
    ensures Inv(c, Next(c, s, SenderIssues(sid, chunk)))
  {
    var t := Next(c, s, SenderIssues(sid, chunk));
    IssueKeepsSendSide(c, s, sid, chunk);
    forall x: u16 ensures ReceiverOkAt(c, t, x) {
      assert ReceiverOkAt(c, s, x);
      if Current(c, s, x) && x == sid {
        GrowOk(s.receiver[x], Issued(s, x), Got(c, s, x), Taken(c, s, x), chunk);
      }
    }
  }

  /** The receiver's side does not notice what else the sender does. */
  lemma SenderStep(c: Config, s: System, a: Action)
    requires Inv(c, s) && Enabled(c, s, a)
    requires a.SenderCloses? || a.SenderResets? || a.SenderHandles? || a.SenderOther?
    ensures Inv(c, Next(c, s, a))
  {
    var t := Next(c, s, a);
    forall x: u16 ensures SenderOkAt(t, x) && SentOkAt(t, x) && ReceiverOkAt(c, t, x) {
      assert SenderOkAt(s, x) && SentOkAt(s, x) && ReceiverOkAt(c, s, x);
      SenderKeeps(c, s, a, x);
    }
    forall p | p in t.wire ensures PacketOk(t, p) {
      assert p in s.wire ==> PacketOk(s, p);
    }
  }

  lemma SenderKeeps(c: Config, s: System, a: Action, sid: u16)
    requires SenderOkAt(s, sid) && Enabled(c, s, a)
    requires a.SenderCloses? || a.SenderResets? || a.SenderHandles? || a.SenderOther?
    ensures SenderOkAt(Next(c, s, a), sid)
  {
    if a.SenderHandles? {
      HarmlessKeepsNumber(s.sender, a.frame, a.serial, sid);
    }
  }

  lemma HarmlessKeepsNumber(t: Records, frame: seq<byte>, serial: nat, sid: u16)
    requires Harmless(t, frame)
    ensures SendSequence(HandleParsed(t, Parse(frame), serial), sid) == SendSequence(t, sid)
  {
    match Parse(frame)
    case Data(client, x, sequence, payload) =>
      var r := RecordFor(t, client, x, serial);
      assert Accept(r, sequence, payload).nextSendSeq == r.nextSendSeq;
    case _ =>
  }

  /** Nothing the receiver does touches the sender's side. */
  lemma SendSideKept(s: System, t: System)
    requires SendSideOk(s) && t.sender == s.sender && t.wire == s.wire && t.issued == s.issued
    ensures SendSideOk(t)
  {
    forall x: u16 ensures SenderOkAt(t, x) && SentOkAt(t, x) {
      assert SenderOkAt(s, x) && SentOkAt(s, x);
    }
    forall p | p in t.wire ensures PacketOk(t, p) {
      assert PacketOk(s, p);
    }
  }

  /** A stream whose record and counters are as before is as good as before. */
  lemma ReceiverKept(c: Config, s: System, t: System, sid: u16)
    requires ReceiverOkAt(c, s, sid) && Issued(t, sid) == Issued(s, sid)
    requires if sid in s.receiver then sid in t.receiver && t.receiver[sid] == s.receiver[sid] else sid !in t.receiver
    requires if sid in s.got then sid in t.got && t.got[sid] == s.got[sid] else sid !in t.got
    requires if sid in s.taken then sid in t.taken && t.taken[sid] == s.taken[sid] else sid !in t.taken
    ensures ReceiverOkAt(c, t, sid)
  {
  }

  lemma DataPacketParses(sender: u32, p: Packet)
    requires p.DataPacket? && 0 < |p.chunk| <= CHUNK_SIZE
    ensures Parse(Bytes(sender, p)) == Data(sender, p.sid, p.sequence, p.chunk)
  {
    BuiltFramesParseBack(sender, p.sid, p.sequence, p.chunk);
  }

  lemma HearStep(c: Config, s: System, frame: seq<byte>, serial: nat)
    requires Inv(c, s)
    requires Parse(frame).Data? && Parse(frame).clientId == c.sender ==>
      || Dropped(c, s, Parse(frame).sid, Parse(frame).sequence)
      || exists index: nat :: Genuine(c, s, frame, index)
    ensures Inv(c, Hear(c, s, frame, serial))
  {
    SendSideKept(s, Hear(c, s, frame, serial));
    forall x: u16 ensures ReceiverOkAt(c, Hear(c, s, frame, serial), x) {
      HearAt(c, s, frame, serial, x);
    }
  }

  lemma HearAt(c: Config, s: System, frame: seq<byte>, serial: nat, x: u16)
    requires ReceiverOkAt(c, s, x)
    requires Parse(frame).Data? && Parse(frame).clientId == c.sender ==>
      || Dropped(c, s, Parse(frame).sid, Parse(frame).sequence)
      || exists index: nat :: Genuine(c, s, frame, index)
    ensures ReceiverOkAt(c, Hear(c, s, frame, serial), x)
  {
    match Parse(frame)
    case Data(client, sid, _, _) =>
      if sid != x {
        ReceiverKept(c, s, Hear(c, s, frame, serial), x);
      } else if client == c.sender && Dropped(c, s, x, Parse(frame).sequence) {
        HearDropped(c, s, frame, serial);
      } else if client == c.sender {
        var index: nat :| Genuine(c, s, frame, index);
        HearGenuine(c, s, frame, serial, index);
      } else {
        HearForeign(c, s, frame, serial);
      }
    case Reset(_) => HearReset(c, s, frame, serial, x);
    case Close(_, sid) =>
      if sid != x {
        ReceiverKept(c, s, Hear(c, s, frame, serial), x);
      } else {
        HearClose(c, s, frame, serial);
      }
    case Ignored =>
  }

  /** The frame carries the sender's chunk `index` of its stream, at an admissible moment. */
  ghost predicate Genuine(c: Config, s: System, frame: seq<byte>, index: nat)
    requires Parse(frame).Data?
  {
    var Data(client, sid, sequence, payload) := Parse(frame);
    && client == c.sender && sequence == Low32(index)
    && index < |Issued(s, sid)| && payload == Issued(s, sid)[index]
    && Admissible(Got(c, s, sid), index)
  }

  /** What a data frame of the sender leaves behind. */
  lemma HearData(c: Config, s: System, frame: seq<byte>, serial: nat)
    requires Parse(frame).Data? && Parse(frame).clientId == c.sender
    ensures var Data(_, sid, sequence, payload) := Parse(frame);
      var r, t := RecordFor(s.receiver, c.sender, sid, serial), Hear(c, s, frame, serial);
      && Current(c, t, sid)
      && t.receiver[sid] == Accept(r, sequence, payload)
      && Got(c, t, sid) == Got(c, s, sid) + |Released(r, sequence, payload)|
      && Taken(c, t, sid) == Taken(c, s, sid)
  {
    var Data(_, sid, sequence, payload) := Parse(frame);
    var r := RecordFor(s.receiver, c.sender, sid, serial);
    assert Accept(r, sequence, payload).clientId == r.clientId;
  }

  lemma HearGenuine(c: Config, s: System, frame: seq<byte>, serial: nat, index: nat)
    requires Parse(frame).Data? && Genuine(c, s, frame, index)
    requires ReceiverOkAt(c, s, Parse(frame).sid)
    ensures ReceiverOkAt(c, Hear(c, s, frame, serial), Parse(frame).sid)
  {
    var sid := Parse(frame).sid;
    var r := RecordFor(s.receiver, c.sender, sid, serial);
    assert StreamOk(r, Issued(s, sid), Got(c, s, sid), Taken(c, s, sid)) by {
      if !Current(c, s, sid) {
        FreshOk(c.sender, r.notify, Issued(s, sid));
      }
    }
    AcceptOk(r, Issued(s, sid), Got(c, s, sid), Taken(c, s, sid), index);
    HearData(c, s, frame, serial);
  }

  lemma HearDropped(c: Config, s: System, frame: seq<byte>, serial: nat)
    requires Parse(frame).Data? && Parse(frame).clientId == c.sender
    requires Dropped(c, s, Parse(frame).sid, Parse(frame).sequence)
    requires ReceiverOkAt(c, s, Parse(frame).sid)
    ensures ReceiverOkAt(c, Hear(c, s, frame, serial), Parse(frame).sid)
  {
    var r := RecordFor(s.receiver, c.sender, Parse(frame).sid, serial);
    assert Accept(r, Parse(frame).sequence, Parse(frame).payload) == r;
    HearData(c, s, frame, serial);
  }

  lemma HearForeign(c: Config, s: System, frame: seq<byte>, serial: nat)
    requires Parse(frame).Data? && Parse(frame).clientId != c.sender
    ensures ReceiverOkAt(c, Hear(c, s, frame, serial), Parse(frame).sid)
  {
    var r := RecordFor(s.receiver, Parse(frame).clientId, Parse(frame).sid, serial);
    assert Accept(r, Parse(frame).sequence, Parse(frame).payload).clientId == r.clientId;
  }

  lemma HearReset(c: Config, s: System, frame: seq<byte>, serial: nat, sid: u16)
    requires Parse(frame).Reset? && ReceiverOkAt(c, s, sid)
    ensures ReceiverOkAt(c, Hear(c, s, frame, serial), sid)
  {
    var t := Hear(c, s, frame, serial);
    if Current(c, s, sid) && Parse(frame).clientId != c.sender {
      ReceiverKept(c, s, t, sid);
    }
  }

  lemma HearClose(c: Config, s: System, frame: seq<byte>, serial: nat)
    requires Parse(frame).Close? && ReceiverOkAt(c, s, Parse(frame).sid)
    ensures ReceiverOkAt(c, Hear(c, s, frame, serial), Parse(frame).sid)
  {
    var sid := Parse(frame).sid;
    if Current(c, s, sid) {
      assert Aligned(s.receiver[sid], Issued(s, sid), Got(c, s, sid));
    }
  }

  /** A copy that is not dropped counts as the chunk it is taken for. */
  lemma SafeIsGenuine(c: Config, s: System, p: Packet)
    requires p.DataPacket? && PacketOk(s, p) && SafeCopy(c, s, p) && !Dropped(c, s, p.sid, p.sequence)
    ensures Parse(Bytes(c.sender, p)) == Data(c.sender, p.sid, p.sequence, p.chunk)
    ensures exists index: nat :: Genuine(c, s, Bytes(c.sender, p), index)
  {
    var frame, got := Bytes(c.sender, p), Got(c, s, p.sid);
    BuiltFramesParseBack(c.sender, p.sid, p.sequence, p.chunk);
    if Admissible(got, p.index) {
      assert Genuine(c, s, frame, p.index);
    } else {
      MistakenAhead(got, p.index);
      assert Genuine(c, s, frame, MistakenFor(got, p.index));
    }
  }

  /** On streams of fewer than 2^32 chunks every copy is safe. */
  lemma ShortStreamsSafe(c: Config, s: System, p: Packet)
    requires Inv(c, s) && p in s.wire && p.DataPacket? && |Issued(s, p.sid)| < TWO_TO_THE_32
    ensures Enabled(c, s, Deliver(p, 0))
  {
    assert PacketOk(s, p) && ReceiverOkAt(c, s, p.sid);
    ShortStreamsAdmissible(Got(c, s, p.sid), p.index, |Issued(s, p.sid)|);
  }

  lemma DeliverStep(c: Config, s: System, p: Packet, serial: nat)
    requires Inv(c, s) && Enabled(c, s, Deliver(p, serial))
    ensures Inv(c, Next(c, s, Deliver(p, serial)))
  {
    var frame := Bytes(c.sender, p);
    match p {
      case DataPacket(sid, index, sequence, chunk) =>
        assert PacketOk(s, p);
        BuiltFramesParseBack(c.sender, sid, sequence, chunk);
        if !Dropped(c, s, sid, sequence) {
          SafeIsGenuine(c, s, p);
        }
      case ClosePacket(sid) => BuiltFramesParseBack(c.sender, sid, 0, [0]);
      case ResetPacket => BuiltFramesParseBack(c.sender, 0, 0, [0]);
    }
    HearStep(c, s, frame, serial);
  }

  lemma ReceiverStep(c: Config, s: System, a: Action)
    requires Inv(c, s) && Enabled(c, s, a)
    requires a.ReceiverReads? || a.ReceiverOther?
    ensures Inv(c, Next(c, s, a))
  {
    var t := Next(c, s, a);
    SendSideKept(s, t);
    forall x: u16 ensures ReceiverOkAt(c, t, x) {
      assert ReceiverOkAt(c, s, x);
      if x == (if a.ReceiverReads? then a.sid else a.op.sid) {
        ReceiverLocal(c, s, a, x);
      } else {
        ReceiverKept(c, s, t, x);
      }
    }
  }

  lemma ReceiverLocal(c: Config, s: System, a: Action, sid: u16)
    requires ReceiverOkAt(c, s, sid) && Enabled(c, s, a)
    requires (a.ReceiverReads? && a.sid == sid) || (a.ReceiverOther? && a.op.sid == sid)
    ensures ReceiverOkAt(c, Next(c, s, a), sid)
  {
    var t := Next(c, s, a);
    if Current(c, s, sid) {
      assert Aligned(s.receiver[sid], Issued(s, sid), Got(c, s, sid));
    } else if Current(c, t, sid) {
      FreshOk(c.sender, t.receiver[sid].notify, Issued(t, sid));
    }
  }

  lemma StepKeepsInvariant(c: Config, s: System, a: Action)
    requires Inv(c, s) && Enabled(c, s, a)
    ensures Inv(c, Next(c, s, a))
  {
    match a
    case SenderIssues(sid, chunk) => IssueStep(c, s, sid, chunk);
    case Deliver(p, serial) => DeliverStep(c, s, p, serial);
    case OtherClient(frame, serial) => HearStep(c, s, frame, serial);
    case ReceiverReads(_) => ReceiverStep(c, s, a);
    case ReceiverOther(_) => ReceiverStep(c, s, a);
    case _ => SenderStep(c, s, a);
  }

  lemma {:induction false} RunKeepsInvariant(c: Config, s: System, actions: seq<Action>, t: System)
    requires Inv(c, s) && Reaches(c, s, actions, t)
    ensures Inv(c, t)
    decreases |actions|
  {
    if actions != [] {
      StepKeepsInvariant(c, s, actions[0]);
      RunKeepsInvariant(c, Next(c, s, actions[0]), actions[1..], t);
    }
  }

  lemma InitOk(c: Config)
    ensures Inv(c, Init)
  {
    SplitPosition(0, 0, 0);
  }

  /** What was read from a stream since the sender's record on it began, followed by what is readable
      now, is a prefix of the chunks numbered on that stream, in sequence order. */
  ghost predicate PrefixAt(c: Config, s: System, sid: u16) {
    Current(c, s, sid) ==> Taken(c, s, sid) + s.receiver[sid].recvBuf <= Concat(Issued(s, sid))
  }

  lemma InvariantGivesPrefix(c: Config, s: System, sid: u16)
    requires Inv(c, s)
    ensures PrefixAt(c, s, sid)
  {
    assert ReceiverOkAt(c, s, sid);
    if Current(c, s, sid) {
      ConcatPrefix(Issued(s, sid)[..Got(c, s, sid)], Issued(s, sid));
    }
  }

  /** End-to-end prefix delivery, over any run of any number of interleaved streams, whatever the
      channel loses, repeats and reorders and whatever other clients send. */
  lemma PrefixDelivery(c: Config, actions: seq<Action>, s: System, sid: u16)
    requires Reaches(c, Init, actions, s) && Current(c, s, sid)
    ensures Taken(c, s, sid) + s.receiver[sid].recvBuf <= Concat(Issued(s, sid))
  {
    InitOk(c);
    RunKeepsInvariant(c, Init, actions, s);
    InvariantGivesPrefix(c, s, sid);
  }
}
