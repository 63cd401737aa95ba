/** Runs of lock sections: streams do not influence each other, and nothing of an earlier client
    survives a change of client id. */
module Runs {
  import opened Words
  import opened Sequences
  import opened Frames
  import opened Streams
  import opened Table

  // ----- isolation

  /** The operation is addressed to the stream, or is a reset frame. */
  predicate Concerns(op: Op, sid: u16) {
    match op
    case Handle(frame, _) =>
      (match Parse(frame)
       case Ignored => false
       case Reset(_) => true
       case Close(_, s) => s == sid
       case Data(_, s, _, _) => s == sid)
    case _ => op.sid == sid
  }

  function Project(ops: seq<Op>, sid: u16): seq<Op> {
    if ops == [] then []
    else Project(Front(ops), sid) + if Concerns(Last(ops), sid) then [Last(ops)] else []
  }

  function Lookup(t: Records, sid: u16): Option<Stream> {
    if sid in t then Some(t[sid]) else None
  }

  lemma StepIsLocal(self: u32, t: Records, u: Records, op: Op, sid: u16)
    requires Lookup(t, sid) == Lookup(u, sid)
    ensures Concerns(op, sid) ==> Lookup(Step(self, t, op), sid) == Lookup(Step(self, u, op), sid)
    ensures !Concerns(op, sid) ==> Lookup(Step(self, t, op), sid) == Lookup(t, sid)
  {
  }

  /** Stream isolation: the record of a stream after any run is its record after only the operations
      addressed to it and the reset frames. */
  lemma {:induction false} RunIsolated(self: u32, ops: seq<Op>, sid: u16)
    ensures Lookup(Run(self, map[], ops), sid) == Lookup(Run(self, map[], Project(ops, sid)), sid)
    decreases |ops|
  {
    if ops != [] {
      var t, u := Run(self, map[], Front(ops)), Run(self, map[], Project(Front(ops), sid));
      RunIsolated(self, Front(ops), sid);
      StepIsLocal(self, t, u, Last(ops), sid);
      if Concerns(Last(ops), sid) {
        assert Front(Project(ops, sid)) == Project(Front(ops), sid);
      } else {
        assert Project(ops, sid) == Project(Front(ops), sid);
      }
    }
  }

  // ----- epochs

  /** The data frames and reads of a stream since the last frame of another client on it, and since
      the last reset of this client. */
  function Epoch(ops: seq<Op>, sid: u16, clientId: u32): seq<Op> {
    if ops == [] then []
    else
      match Last(ops)
      case Handle(frame, _) =>
        (match Parse(frame)
         case Data(c, s, _, _) =>
           if s != sid then Epoch(Front(ops), sid, clientId)
           else if c == clientId then Epoch(Front(ops), sid, clientId) + [Last(ops)]
           else []
         case Reset(c) => if c == clientId then [] else Epoch(Front(ops), sid, clientId)
         case _ => Epoch(Front(ops), sid, clientId))
      case Read(s) =>
        if s == sid then Epoch(Front(ops), sid, clientId) + [Last(ops)] else Epoch(Front(ops), sid, clientId)
      case _ => Epoch(Front(ops), sid, clientId)
  }

  /** A record fed only data frames and reads. */
  function FeedOps(s: Stream, ops: seq<Op>): Stream {
    if ops == [] then s
    else
      var before := FeedOps(s, Front(ops));
      match Last(ops)
      case Handle(frame, _) =>
        (match Parse(frame)
         case Data(_, _, sequence, payload) => Accept(before, sequence, payload)
         case _ => before)
      case Read(_) => before.(recvBuf := [])
      case _ => before
  }

  ghost predicate SameReceive(s: Stream, t: Stream) {
    s.recvBuf == t.recvBuf && s.nextRecvSeq == t.nextRecvSeq && s.outOfOrder == t.outOfOrder
  }

  /** The record of the stream if it belongs to the client, else a fresh one. */
  function RecordOf(self: u32, ops: seq<Op>, sid: u16, clientId: u32): Stream {
    var t := Run(self, map[], ops);
    if sid in t && t[sid].clientId == clientId then t[sid] else Fresh(clientId, NotifyId(sid, 0))
  }

  function EpochRecord(ops: seq<Op>, sid: u16, clientId: u32): Stream {
    FeedOps(Fresh(clientId, NotifyId(sid, 0)), Epoch(ops, sid, clientId))
  }

  /** Epoch independence: whatever happened before, the receive state of a record is that of a fresh
      record fed only its current client's frames (and reads) of the current epoch; and as long as
      the stream does not belong to a client, that client's epoch leaves a fresh record fresh. */
  lemma {:induction false} EpochIndependence(self: u32, ops: seq<Op>, sid: u16, clientId: u32)
    ensures SameReceive(RecordOf(self, ops, sid, clientId), EpochRecord(ops, sid, clientId))
    decreases |ops|
  {
    if ops != [] {
      EpochIndependence(self, Front(ops), sid, clientId);
      if Last(ops).Handle? && Parse(Last(ops).frame).Data? {
        EpochData(self, ops, sid, clientId);
      } else if Last(ops).Read? {
        FeedSnoc(Fresh(clientId, NotifyId(sid, 0)), Epoch(Front(ops), sid, clientId), Last(ops));
      } else {
        EpochQuiet(self, ops, sid, clientId);
      }
    }
  }

  lemma FeedSnoc(s: Stream, ops: seq<Op>, op: Op)
    ensures Front(ops + [op]) == ops && Last(ops + [op]) == op
  {
  }

  lemma EpochData(self: u32, ops: seq<Op>, sid: u16, clientId: u32)
    requires ops != [] && Last(ops).Handle? && Parse(Last(ops).frame).Data?
    requires SameReceive(RecordOf(self, Front(ops), sid, clientId), EpochRecord(Front(ops), sid, clientId))
    ensures SameReceive(RecordOf(self, ops, sid, clientId), EpochRecord(ops, sid, clientId))
  {
    if Parse(Last(ops).frame).sid != sid {
      EpochElsewhere(self, ops, sid, clientId);
    } else if Parse(Last(ops).frame).clientId == clientId {
      EpochOwn(self, ops, sid, clientId);
    } else {
      EpochForeign(self, ops, sid, clientId);
    }
  }

  /** A data frame of another stream. */
  lemma EpochElsewhere(self: u32, ops: seq<Op>, sid: u16, clientId: u32)
    requires ops != [] && Last(ops).Handle? && Parse(Last(ops).frame).Data? && Parse(Last(ops).frame).sid != sid
    ensures RecordOf(self, ops, sid, clientId) == RecordOf(self, Front(ops), sid, clientId)
    ensures EpochRecord(ops, sid, clientId) == EpochRecord(Front(ops), sid, clientId)
  {
    var t := Run(self, map[], Front(ops));
    StepIsLocal(self, t, t, Last(ops), sid);
    assert Lookup(Run(self, map[], ops), sid) == Lookup(t, sid);
  }

  /** The record after a data frame of its stream. */
  lemma RecordAfterData(self: u32, ops: seq<Op>, sid: u16)
    requires ops != [] && Last(ops).Handle? && Parse(Last(ops).frame).Data? && Parse(Last(ops).frame).sid == sid
    ensures var t, u := Run(self, map[], Front(ops)), Run(self, map[], ops);
      var Data(c, _, sequence, payload) := Parse(Last(ops).frame);
      && sid in u && u[sid] == Accept(RecordFor(t, c, sid, Last(ops).serial), sequence, payload)
      && u[sid].clientId == c
  {
  }

  /** A data frame of the client itself. */
  lemma EpochOwn(self: u32, ops: seq<Op>, sid: u16, clientId: u32)
    requires ops != [] && Last(ops).Handle? && Parse(Last(ops).frame).Data?
    requires Parse(Last(ops).frame).sid == sid && Parse(Last(ops).frame).clientId == clientId
    requires SameReceive(RecordOf(self, Front(ops), sid, clientId), EpochRecord(Front(ops), sid, clientId))
    ensures SameReceive(RecordOf(self, ops, sid, clientId), EpochRecord(ops, sid, clientId))
  {
    var start, before := Fresh(clientId, NotifyId(sid, 0)), Epoch(Front(ops), sid, clientId);
    var Data(_, _, sequence, payload) := Parse(Last(ops).frame);
    RecordAfterData(self, ops, sid);
    FeedSnoc(start, before, Last(ops));
    assert EpochRecord(ops, sid, clientId) == Accept(FeedOps(start, before), sequence, payload);
    var r := RecordFor(Run(self, map[], Front(ops)), clientId, sid, Last(ops).serial);
    AcceptSame(r, FeedOps(start, before), sequence, payload);
  }

  /** A data frame of another client on the stream: the epoch starts over. */
  lemma EpochForeign(self: u32, ops: seq<Op>, sid: u16, clientId: u32)
    requires ops != [] && Last(ops).Handle? && Parse(Last(ops).frame).Data?
    requires Parse(Last(ops).frame).sid == sid && Parse(Last(ops).frame).clientId != clientId
    ensures RecordOf(self, ops, sid, clientId) == EpochRecord(ops, sid, clientId) == Fresh(clientId, NotifyId(sid, 0))
  {
    RecordAfterData(self, ops, sid);
    assert Epoch(ops, sid, clientId) == [];
  }

  /** Operations that are neither data nor reads do not touch the receive state of a record they keep. */
  lemma EpochQuiet(self: u32, ops: seq<Op>, sid: u16, clientId: u32)
    requires ops != [] && !Last(ops).Read? && !(Last(ops).Handle? && Parse(Last(ops).frame).Data?)
    requires SameReceive(RecordOf(self, Front(ops), sid, clientId), EpochRecord(Front(ops), sid, clientId))
    ensures SameReceive(RecordOf(self, ops, sid, clientId), EpochRecord(ops, sid, clientId))
  {
  }

  lemma AcceptSame(s: Stream, t: Stream, sequence: u32, payload: seq<byte>)
    ensures SameReceive(s, t) ==> SameReceive(Accept(s, sequence, payload), Accept(t, sequence, payload))
    ensures Accept(s, sequence, payload).clientId == s.clientId
  {
  }
}
