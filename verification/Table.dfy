/** The table of stream records and the effect of each critical section on it. */
module Table {
  import opened Words
  import opened Sequences
  import opened Frames
  import opened Streams

  type Records = map<u16, Stream>

  /** One acquisition of the `streams` lock. `serial` numbers the `Notify` that the section
      allocates if it creates a record. */
  datatype Op =
    | Opened(sid: u16, serial: nat)             // open_stream, on the vacant id it settled on
    | Issue(sid: u16)                           // send_data, one chunk
    | CloseLocal(sid: u16)                      // close_stream
    | Handle(frame: seq<byte>, serial: nat)     // handle_frame, mark_closed and reset_client
    | Read(sid: u16)                            // read_stream
    | Wait(sid: u16, serial: nat)               // wait_for_data

  function RecordFor(t: Records, clientId: u32, sid: u16, serial: nat): Stream {
    if sid !in t then Fresh(clientId, NotifyId(sid, serial))
    else if t[sid].clientId != clientId then Fresh(clientId, t[sid].notify)
    else t[sid]
  }

  function HandleParsed(t: Records, parsed: Parsed, serial: nat): Records {
    match parsed
    case Ignored => t
    case Reset(c) => map sid | sid in t && t[sid].clientId != c :: t[sid]
    case Close(c, sid) => if sid in t && t[sid].clientId == c then t[sid := t[sid].(closed := true)] else t
    case Data(c, sid, sequence, payload) => t[sid := Accept(RecordFor(t, c, sid, serial), sequence, payload)]
  }

  predicate CanIssue(t: Records, sid: u16) {
    sid in t && !t[sid].closed
  }

  function Step(self: u32, t: Records, op: Op): Records {
    match op
    case Opened(sid, serial) => if sid in t then t else t[sid := Fresh(0, NotifyId(sid, serial))]
    case Issue(sid) => if CanIssue(t, sid) then t[sid := t[sid].(nextSendSeq := Next32(t[sid].nextSendSeq))] else t
    case CloseLocal(sid) => if sid in t then t[sid := t[sid].(closed := true)] else t
    case Handle(frame, serial) => HandleParsed(t, Parse(frame), serial)
    case Read(sid) => if sid in t then t[sid := t[sid].(recvBuf := [])] else t
    case Wait(sid, serial) => if sid in t then t else t[sid := Fresh(self, NotifyId(sid, serial))]
  }

  /** The `Notify` that `handle_frame` signals after it released the lock, if any. */
  function SignalAfter(t: Records, parsed: Parsed, serial: nat): Option<NotifyId> {
    match parsed
    case Close(c, sid) => if sid in t && t[sid].clientId == c then Some(t[sid].notify) else None
    case Data(c, sid, sequence, payload) =>
      var s := RecordFor(t, c, sid, serial);
      if Released(s, sequence, payload) != [] then Some(s.notify) else None
    case _ => None
  }

  /** The `Notify`s signalled while the lock is still held. */
  function SignalsWithin(t: Records, op: Op): set<NotifyId> {
    match op
    case CloseLocal(sid) => if sid in t then {t[sid].notify} else {}
    case Handle(frame, _) =>
      (match Parse(frame)
       case Reset(c) => set sid | sid in t && t[sid].clientId == c :: t[sid].notify
       case _ => {})
    case _ => {}
  }

  function Run(self: u32, t: Records, ops: seq<Op>): Records {
    if ops == [] then t else Step(self, Run(self, t, Front(ops)), Last(ops))
  }

  // ----- what every record of a table keeps

  ghost predicate AllBounded(t: Records) {
    forall sid :: sid in t ==> BufferBounded(t[sid]) && t[sid].notify.sid == sid
  }

  lemma StepKeepsBound(self: u32, t: Records, op: Op)
    requires AllBounded(t)
    ensures AllBounded(Step(self, t, op))
  {
    match op
    case Handle(frame, serial) =>
      match Parse(frame) {
        case Data(c, sid, sequence, payload) =>
          DataKeepsBound(t, c, sid, sequence, payload, serial);
        case _ =>
      }
    case _ =>
  }

  lemma DataKeepsBound(t: Records, c: u32, sid: u16, sequence: u32, payload: seq<byte>, serial: nat)
    requires AllBounded(t)
    ensures AllBounded(HandleParsed(t, Data(c, sid, sequence, payload), serial))
  {
    var s := RecordFor(t, c, sid, serial);
    AcceptKeepsBound(s, sequence, payload);
    assert Accept(s, sequence, payload).notify == s.notify;
  }

  /** In every run the reorder buffer of every record holds at most 100 frames, all strictly ahead
      of the next expected number. */
  lemma {:induction false} RunKeepsBound(self: u32, ops: seq<Op>)
    ensures AllBounded(Run(self, map[], ops))
    decreases |ops|
  {
    if ops != [] {
      RunKeepsBound(self, Front(ops));
      StepKeepsBound(self, Run(self, map[], Front(ops)), Last(ops));
    }
  }

  /** A reset removes exactly the records of that client and leaves every other record as it was. */
  lemma ResetExactly(self: u32, t: Records, clientId: u32, serial: nat, sid: u16)
    ensures var after := Step(self, t, Handle(ResetFrame(clientId), serial));
      && (sid in after <==> sid in t && t[sid].clientId != clientId)
      && (sid in after ==> after[sid] == t[sid])
  {
    BuiltFramesParseBack(clientId, sid, 0, [0]);
  }

  // ----- closing

  /** What `stream_closed` reports: a stream without a record counts as closed. */
  predicate IsClosed(t: Records, sid: u16) {
    sid in t ==> t[sid].closed
  }

  /** The operation creates a record for the stream or replaces the one it has. */
  predicate Renews(t: Records, sid: u16, op: Op) {
    match op
    case Opened(s, _) => s == sid && sid !in t
    case Wait(s, _) => s == sid && sid !in t
    case Handle(frame, _) =>
      (match Parse(frame)
       case Data(c, s, _, _) => s == sid && (sid in t ==> t[sid].clientId != c)
       case _ => false)
    case _ => false
  }

  /** A stream that is closed locally, by its client's close frame or by its client's reset is reported
      as closed. */
  lemma CloseIsReported(self: u32, t: Records, sid: u16, serial: nat)
    ensures IsClosed(Step(self, t, CloseLocal(sid)), sid)
    ensures sid in t ==>
              var client := t[sid].clientId;
              && IsClosed(Step(self, t, Handle(CloseFrame(client, sid), serial)), sid)
              && IsClosed(Step(self, t, Handle(ResetFrame(client), serial)), sid)
  {
    if sid in t {
      BuiltFramesParseBack(t[sid].clientId, sid, 0, [0]);
    }
  }

  /** Once reported as closed, a stream is reported as open again exactly by an operation that creates
      its record or replaces it. */
  lemma ReopenedExactly(self: u32, t: Records, op: Op, sid: u16)
    requires IsClosed(t, sid)
    ensures !IsClosed(Step(self, t, op), sid) <==> Renews(t, sid, op)
  {
    match op
    case Handle(frame, serial) =>
      match Parse(frame) {
        case Data(c, s, sequence, payload) =>
          var r := RecordFor(t, c, s, serial);
          assert Accept(r, sequence, payload).closed == r.closed;
        case _ =>
      }
    case _ =>
  }

  // ----- stream-id allocation

  /** The id that the `k`-th turn of the search loop looks at: the counter plus `k`, with 0 mapped to 1. */
  function Probe(counter: u16, k: nat): u16
    requires k < TWO_TO_THE_16
  {
    var x := CounterAfter(counter, k);
    if x == 0 then 1 else x
  }

  /** The wrapping counter after `k` increments. */
  function CounterAfter(counter: u16, k: nat): u16
    requires k <= TWO_TO_THE_16
  {
    if counter + k < TWO_TO_THE_16 then counter + k else counter + k - TWO_TO_THE_16
  }

  ghost predicate FirstVacant(t: Records, counter: u16, k: nat)
    requires k < TWO_TO_THE_16
  {
    Probe(counter, k) !in t && forall j: nat :: j < k ==> Probe(counter, j) in t
  }

  /** The cyclic distance from the counter to an id. */
  function Distance(counter: u16, sid: u16): nat {
    if sid >= counter then sid - counter else sid + TWO_TO_THE_16 - counter
  }

  lemma ProbeReaches(counter: u16, sid: u16)
    requires sid != 0
    ensures Distance(counter, sid) < TWO_TO_THE_16 && Probe(counter, Distance(counter, sid)) == sid
  {
  }

  /** The search finds a vacant id within 65536 turns exactly when one of the ids 1..65535 is vacant. */
  lemma SearchStopsExactly(t: Records, counter: u16)
    ensures (exists k: nat :: k < TWO_TO_THE_16 && Probe(counter, k) !in t)
       <==> (exists sid: u16 :: sid != 0 && sid !in t)
  {
    if exists sid: u16 :: sid != 0 && sid !in t {
      var sid: u16 :| sid != 0 && sid !in t;
      ProbeReaches(counter, sid);
    }
    if exists k: nat :: k < TWO_TO_THE_16 && Probe(counter, k) !in t {
      var k: nat :| k < TWO_TO_THE_16 && Probe(counter, k) !in t;
      assert Probe(counter, k) != 0;
    }
  }
}
