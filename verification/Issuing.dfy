/** Concurrent `send_data` calls on one stream: the lock is taken once per chunk, so calls interleave
    chunk by chunk, with each other and with everything else the multiplexer does. */
module Issuing {
  import opened Words
  import opened Sequences
  import opened Frames
  import opened Streams
  import opened Table

  datatype Outcome = Running | AllIssued | StreamClosed | TransportFailed

  /** A call of `send_data`: its data, how many of its chunks have been numbered, how it ended. */
  datatype Call = Call(data: seq<byte>, done: nat, outcome: Outcome)

  /** A number handed out: to which call, and for which chunk. */
  datatype Entry = Entry(call: nat, sequence: u32, payload: seq<byte>)

  datatype World = World(streams: Records, calls: seq<Call>, log: seq<Entry>)

  datatype Act =
    | Start(data: seq<byte>)
    | Turn(call: nat)            // the next loop turn of a call
    | Fail(call: nat)            // the transport refuses the frame of a call
    | Other(op: Op)

  /** The operation neither replaces nor removes the record, nor is one of the calls' own sections. */
  predicate Leaves(t: Records, sid: u16, op: Op) {
    match op
    case Issue(s) => s != sid
    case Handle(frame, _) =>
      sid in t ==>
        (match Parse(frame)
         case Data(c, s, _, _) => s == sid ==> t[sid].clientId == c
         case Reset(c) => t[sid].clientId != c
         case _ => true)
    case _ => true
  }

  predicate Enabled(sid: u16, w: World, a: Act) {
    match a
    case Start(_) => true
    case Turn(j) => j < |w.calls| && w.calls[j].outcome.Running?
    case Fail(j) => j < |w.calls| && w.calls[j].outcome.Running? && w.calls[j].done > 0
    case Other(op) => Leaves(w.streams, sid, op)
  }

  function Next(self: u32, sid: u16, w: World, a: Act): World
    requires Enabled(sid, w, a)
  {
    match a
    case Start(data) => w.(calls := w.calls + [Call(data, 0, Running)])
    case Turn(j) =>
      var c := w.calls[j];
      if c.done >= |Chunks(c.data)| then w.(calls := w.calls[j := c.(outcome := AllIssued)])
      else if !CanIssue(w.streams, sid) then w.(calls := w.calls[j := c.(outcome := StreamClosed)])
      else
        World(Step(self, w.streams, Issue(sid)),
              w.calls[j := c.(done := c.done + 1)],
              w.log + [Entry(j, w.streams[sid].nextSendSeq, Chunks(c.data)[c.done])])
    case Fail(j) => w.(calls := w.calls[j := w.calls[j].(outcome := TransportFailed)])
    case Other(op) => w.(streams := Step(self, w.streams, op))
  }

  /** Executions from a state, as successive steps. */
  ghost predicate Reaches(self: u32, sid: u16, w: World, acts: seq<Act>, v: World)
    decreases |acts|
  {
    if acts == [] then v == w
    else Enabled(sid, w, acts[0]) && Reaches(self, sid, Next(self, sid, w, acts[0]), acts[1..], v)
  }

  /** The payloads numbered for one call, in the order of their numbers. */
  function PayloadsOf(log: seq<Entry>, call: nat): seq<seq<byte>> {
    if log == [] then []
    else PayloadsOf(Front(log), call) + if Last(log).call == call then [Last(log).payload] else []
  }

  ghost predicate CallOk(w: World, j: nat)
    requires j < |w.calls|
  {
    var c := w.calls[j];
    && c.done <= |Chunks(c.data)|
    && PayloadsOf(w.log, j) == Chunks(c.data)[..c.done]
    && (c.outcome.AllIssued? ==> c.done == |Chunks(c.data)|)
  }

  ghost predicate Inv(sid: u16, w: World) {
    && sid in w.streams
    && w.streams[sid].nextSendSeq == Low32(|w.log|)
    && (forall k :: 0 <= k < |w.log| ==> w.log[k].sequence == Low32(k) && w.log[k].call < |w.calls|)
    && (forall j: nat :: j < |w.calls| ==> CallOk(w, j))
  }

  lemma {:induction false} NoPayloads(log: seq<Entry>, call: nat)
    requires forall k :: 0 <= k < |log| ==> log[k].call < call
    ensures PayloadsOf(log, call) == []
    decreases |log|
  {
    if log != [] {
      NoPayloads(Front(log), call);
    }
  }

  lemma OtherLeaves(self: u32, sid: u16, t: Records, op: Op)
    requires sid in t && Leaves(t, sid, op)
    ensures sid in Step(self, t, op)
    ensures Step(self, t, op)[sid].nextSendSeq == t[sid].nextSendSeq
    ensures t[sid].closed ==> Step(self, t, op)[sid].closed
  {
    match op
    case Handle(frame, serial) =>
      match Parse(frame) {
        case Data(c, s, sequence, payload) =>
          var r := RecordFor(t, c, s, serial);
          assert Accept(r, sequence, payload).nextSendSeq == r.nextSendSeq;
          assert Accept(r, sequence, payload).closed == r.closed;
        case _ =>
      }
    case _ =>
  }

  lemma TurnIssues(self: u32, sid: u16, w: World, j: nat)
    requires Inv(sid, w) && Enabled(sid, w, Turn(j))
    requires w.calls[j].done < |Chunks(w.calls[j].data)| && CanIssue(w.streams, sid)
    ensures Inv(sid, Next(self, sid, w, Turn(j)))
  {
    var v := Next(self, sid, w, Turn(j));
    NextPosition(|w.log|);
    assert Front(v.log) == w.log;
    forall i: nat | i < |v.calls| ensures CallOk(v, i) {
      assert CallOk(w, i);
      var c := w.calls[i];
      if i == j {
        assert Chunks(c.data)[..c.done + 1] == Chunks(c.data)[..c.done] + [Chunks(c.data)[c.done]];
      } else {
        assert PayloadsOf(v.log, i) == PayloadsOf(w.log, i) + [];
      }
    }
  }

  lemma StepKeepsInvariant(self: u32, sid: u16, w: World, a: Act)
    requires Inv(sid, w) && Enabled(sid, w, a)
    ensures Inv(sid, Next(self, sid, w, a))
  {
    match a
    case Turn(j) =>
      assert CallOk(w, j);
      if w.calls[j].done < |Chunks(w.calls[j].data)| && CanIssue(w.streams, sid) {
        TurnIssues(self, sid, w, j);
      } else {
        CallsKept(w, Next(self, sid, w, a));
      }
    case Start(data) =>
      NoPayloads(w.log, |w.calls|);
      var v := Next(self, sid, w, a);
      forall i: nat | i < |v.calls| ensures CallOk(v, i) {
        assert i < |w.calls| ==> CallOk(w, i);
      }
    case Fail(_) => CallsKept(w, Next(self, sid, w, a));
    case Other(op) =>
      OtherLeaves(self, sid, w.streams, op);
      CallsKept(w, Next(self, sid, w, a));
  }

  lemma CallsKept(w: World, v: World)
    requires v.log == w.log && |v.calls| == |w.calls|
    requires forall i :: 0 <= i < |w.calls| ==> v.calls[i].data == w.calls[i].data && v.calls[i].done == w.calls[i].done
    requires forall i :: 0 <= i < |w.calls| && v.calls[i].outcome.AllIssued? ==>
               w.calls[i].outcome.AllIssued? || w.calls[i].done >= |Chunks(w.calls[i].data)|
    requires forall i: nat :: i < |w.calls| ==> CallOk(w, i)
    ensures forall i: nat :: i < |v.calls| ==> CallOk(v, i)
  {
    forall i: nat | i < |v.calls| ensures CallOk(v, i) {
      assert CallOk(w, i);
    }
  }

  lemma {:induction false} RunKeepsInvariant(self: u32, sid: u16, w: World, acts: seq<Act>, v: World)
    requires Inv(sid, w) && Reaches(self, sid, w, acts, v)
    ensures Inv(sid, v)
    decreases |acts|
  {
    if acts != [] {
      StepKeepsInvariant(self, sid, w, acts[0]);
      RunKeepsInvariant(self, sid, Next(self, sid, w, acts[0]), acts[1..], v);
    }
  }

  /** A stream that was just opened, before any call. */
  ghost predicate JustOpened(sid: u16, w: World) {
    sid in w.streams && w.streams[sid].nextSendSeq == 0 && w.calls == [] && w.log == []
  }

  /** Over every interleaving of any number of calls: the numbers handed out are 0, 1, 2, ... modulo
      2^32 with none skipped or repeated; each call's payloads, in the order of their numbers, are
      the first chunks of its data; and a call that issued all its chunks put exactly its data on
      the stream, in `ceil(n / 7000)` frames. */
  lemma NumbersIssued(self: u32, sid: u16, w: World, acts: seq<Act>, v: World)
    requires JustOpened(sid, w) && Reaches(self, sid, w, acts, v)
    ensures forall k :: 0 <= k < |v.log| ==> v.log[k].sequence == Low32(k)
    ensures forall j: nat :: j < |v.calls| ==> PayloadsOf(v.log, j) <= Chunks(v.calls[j].data)
    ensures forall j: nat :: j < |v.calls| && v.calls[j].outcome.AllIssued? ==>
              var frames, size := PayloadsOf(v.log, j), |v.calls[j].data|;
              && Concat(frames) == v.calls[j].data
              && (|frames| - 1) * CHUNK_SIZE < size <= |frames| * CHUNK_SIZE
  {
    SplitPosition(0, 0, 0);
    assert Inv(sid, w);
    RunKeepsInvariant(self, sid, w, acts, v);
    forall j: nat | j < |v.calls|
      ensures PayloadsOf(v.log, j) <= Chunks(v.calls[j].data)
      ensures v.calls[j].outcome.AllIssued? ==> PayloadsOf(v.log, j) == Chunks(v.calls[j].data)
    {
      assert CallOk(v, j);
    }
    forall j: nat | j < |v.calls| && v.calls[j].outcome.AllIssued?
      ensures var frames, size := PayloadsOf(v.log, j), |v.calls[j].data|;
        && Concat(frames) == v.calls[j].data
        && (|frames| - 1) * CHUNK_SIZE < size <= |frames| * CHUNK_SIZE
    {
      ChunksPartition(v.calls[j].data);
    }
  }

  /** Once the record is closed it stays closed and no further number is handed out. */
  lemma {:induction false} NothingAfterClose(self: u32, sid: u16, w: World, acts: seq<Act>, v: World)
    requires sid in w.streams && w.streams[sid].closed && Reaches(self, sid, w, acts, v)
    ensures sid in v.streams && v.streams[sid].closed && v.log == w.log
    decreases |acts|
  {
    if acts != [] {
      if acts[0].Other? {
        OtherLeaves(self, sid, w.streams, acts[0].op);
      }
      NothingAfterClose(self, sid, Next(self, sid, w, acts[0]), acts[1..], v);
    }
  }
}
