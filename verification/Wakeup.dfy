/** The wait/notify handshake: lock sections and notify steps of any number of handlers and of one
    waiter per stream, in any interleaving. */
module Wakeup {
  import opened Words
  import opened Sequences
  import opened Frames
  import opened Streams
  import opened Table

  /** Where the task waiting on a stream is: outside `wait_for_data`, about to take the lock, holding
      a `Notify` it has not polled yet, parked on it, or woken and not yet running again. */
  datatype Waiter =
    | Outside
    | Checking
    | Armed(notify: NotifyId)
    | Parked(notify: NotifyId)
    | Woken(notify: NotifyId)

  /** `inFlight`: handlers that released the lock and have not called `notify_one` yet. */
  datatype World = World(
    streams: Records,
    waiters: map<u16, Waiter>,
    permits: set<NotifyId>,
    inFlight: multiset<NotifyId>,
    serials: nat)

  const Init: World := World(map[], map[], {}, multiset{}, 0)

  datatype Act =
    | Section(op: Op)                // a lock section of any method but wait_for_data
    | Signal(notify: NotifyId)       // a handler's notify_one after its section
    | EnterWait(sid: u16)            // a task calls wait_for_data
    | Check(sid: u16)                // its lock section
    | Poll(sid: u16)                 // it polls notified(): takes the permit or parks
    | Resume(sid: u16)               // it runs again after being woken
    | Cancel(sid: u16)               // the wait is dropped (timeout or select)

  function WaiterOf(w: World, sid: u16): Waiter {
    if sid in w.waiters then w.waiters[sid] else Outside
  }

  /** `notify_one`: wakes the task parked on this `Notify`, or stores a permit. */
  function NotifyOne(w: World, n: NotifyId): World {
    if WaiterOf(w, n.sid) == Parked(n) then w.(waiters := w.waiters[n.sid := Woken(n)])
    else w.(permits := w.permits + {n})
  }

  /** `notify_one` on each of several `Notify`s while the lock is held. */
  function NotifyEach(w: World, ns: set<NotifyId>): World {
    w.(waiters := map sid | sid in w.waiters ::
                    if w.waiters[sid].Parked? && w.waiters[sid].notify in ns
                    then Woken(w.waiters[sid].notify) else w.waiters[sid],
       permits := w.permits + set n | n in ns && WaiterOf(w, n.sid) != Parked(n))
  }

  predicate HasWork(s: Stream) {
    s.recvBuf != [] || s.closed
  }

  function SerialOf(op: Op): Option<nat> {
    match op
    case Opened(_, serial) => Some(serial)
    case Handle(_, serial) => Some(serial)
    case Wait(_, serial) => Some(serial)
    case _ => None
  }

  predicate Enabled(w: World, a: Act) {
    match a
    case Section(op) => !op.Wait? && (SerialOf(op).Some? ==> SerialOf(op).value == w.serials)
    case Signal(n) => n in w.inFlight
    case EnterWait(sid) => WaiterOf(w, sid) == Outside
    case Check(sid) => WaiterOf(w, sid) == Checking
    case Poll(sid) => WaiterOf(w, sid).Armed?
    case Resume(sid) => WaiterOf(w, sid).Woken?
    case Cancel(sid) => WaiterOf(w, sid) != Outside
  }

  function Next(self: u32, w: World, a: Act): World {
    match a
    case Section(op) =>
      var after := NotifyEach(w, SignalsWithin(w.streams, op));
      var later := if op.Handle? then SignalAfter(w.streams, Parse(op.frame), op.serial) else None;
      after.(streams := Step(self, w.streams, op),
             inFlight := if later.Some? then w.inFlight + multiset{later.value} else w.inFlight,
             serials := if SerialOf(op).Some? then w.serials + 1 else w.serials)
    case Signal(n) => NotifyOne(w.(inFlight := w.inFlight - multiset{n}), n)
    case EnterWait(sid) => w.(waiters := w.waiters[sid := Checking])
    case Check(sid) =>
      var streams := Step(self, w.streams, Wait(sid, w.serials));
      w.(streams := streams, serials := w.serials + 1,
         waiters := w.waiters[sid := if HasWork(streams[sid]) then Outside else Armed(streams[sid].notify)])
    case Poll(sid) =>
      (match WaiterOf(w, sid)
       case Armed(n) =>
         if n in w.permits then w.(permits := w.permits - {n}, waiters := w.waiters[sid := Checking])
         else w.(waiters := w.waiters[sid := Parked(n)])
       case _ => w)
    case Resume(sid) => w.(waiters := w.waiters[sid := Checking])
    case Cancel(sid) =>
      // a dropped wait that had already been woken passes its wake-up on
      var n := WaiterOf(w, sid);
      w.(waiters := w.waiters[sid := Outside], permits := if n.Woken? then w.permits + {n.notify} else w.permits)
  }

  /** Executions from a state, as successive steps. */
  ghost predicate Reaches(self: u32, w: World, acts: seq<Act>, v: World)
    decreases |acts|
  {
    if acts == [] then v == w
    else Enabled(w, acts[0]) && Reaches(self, Next(self, w, acts[0]), acts[1..], v)
  }

  // ----- the invariant

  /** What a waiting task can rely on. If its `Notify` is still the record's, then work implies a
      permit or a signal on its way; if it is not, a permit is stored. A parked task has no permit. */
  ghost predicate WaiterOk(w: World, sid: u16) {
    match WaiterOf(w, sid)
    case Armed(n) => Reached(w, sid, n)
    case Parked(n) => Reached(w, sid, n) && n !in w.permits
    case Woken(n) => n.sid == sid
    case _ => true
  }

  ghost predicate Reached(w: World, sid: u16, n: NotifyId) {
    && n.sid == sid
    && n.serial < w.serials
    && if sid in w.streams && w.streams[sid].notify == n
       then HasWork(w.streams[sid]) ==> n in w.permits || n in w.inFlight
       else n in w.permits
  }

  ghost predicate Numbered(w: World) {
    forall sid :: sid in w.streams ==> w.streams[sid].notify.sid == sid && w.streams[sid].notify.serial < w.serials
  }

  ghost predicate Inv(w: World) {
    Numbered(w) && forall sid: u16 :: WaiterOk(w, sid)
  }

  /** A lock section as one stream sees it: its record stays as idle as it was, or its `Notify` is
      signalled, or the record is new. */
  ghost predicate Answered(w: World, t: Records, sid: u16, op: Op) {
    var later := if op.Handle? then SignalAfter(w.streams, Parse(op.frame), op.serial) else None;
    if sid in w.streams then
      var s := w.streams[sid];
      || s.notify in SignalsWithin(w.streams, op)
      || (sid in t && t[sid].notify == s.notify && (HasWork(t[sid]) ==> HasWork(s) || later == Some(s.notify)))
    else true
  }

  lemma SectionAnswers(self: u32, w: World, op: Op, sid: u16)
    requires !op.Wait?
    ensures Answered(w, Step(self, w.streams, op), sid, op)
  {
    match op
    case Handle(frame, serial) =>
      match Parse(frame) {
        case Data(c, s, sequence, payload) =>
          var r := RecordFor(w.streams, c, s, serial);
          assert Released(r, sequence, payload) == [] ==> Accept(r, sequence, payload).recvBuf == r.recvBuf;
          assert Accept(r, sequence, payload).notify == r.notify && Accept(r, sequence, payload).closed == r.closed;
        case _ =>
      }
    case _ =>
  }

  lemma SectionNumbers(self: u32, w: World, op: Op)
    requires Numbered(w) && Enabled(w, Section(op))
    ensures Numbered(Next(self, w, Section(op)))
    ensures forall sid :: sid in Next(self, w, Section(op)).streams && sid !in w.streams ==>
              Next(self, w, Section(op)).streams[sid].notify.serial == w.serials
  {
    match op
    case Handle(frame, serial) =>
      match Parse(frame) {
        case Data(c, s, sequence, payload) =>
          var r := RecordFor(w.streams, c, s, serial);
          assert Accept(r, sequence, payload).notify == r.notify;
        case _ =>
      }
    case _ =>
  }

  lemma SectionStep(self: u32, w: World, op: Op, sid: u16)
    requires Inv(w) && Enabled(w, Section(op))
    ensures WaiterOk(Next(self, w, Section(op)), sid)
  {
    var v := Next(self, w, Section(op));
    assert WaiterOk(w, sid);
    SectionAnswers(self, w, op, sid);
    SectionNumbers(self, w, op);
    var held := SignalsWithin(w.streams, op);
    match WaiterOf(w, sid)
    case Armed(n) =>
      if n in held {
        assert n in v.permits;
      }
    case Parked(n) =>
      if n !in held {
        assert n !in v.permits;
      }
    case _ =>
  }

  lemma SignalStep(self: u32, w: World, n: NotifyId, sid: u16)
    requires Inv(w) && Enabled(w, Signal(n))
    ensures WaiterOk(Next(self, w, Signal(n)), sid)
  {
    assert WaiterOk(w, sid) && WaiterOk(w, n.sid);
  }

  lemma PollStep(self: u32, w: World, s: u16, sid: u16)
    requires Inv(w) && Enabled(w, Poll(s))
    ensures WaiterOk(Next(self, w, Poll(s)), sid)
  {
    assert WaiterOk(w, sid) && WaiterOk(w, s);
  }

  lemma CancelStep(self: u32, w: World, s: u16, sid: u16)
    requires Inv(w) && Enabled(w, Cancel(s))
    ensures WaiterOk(Next(self, w, Cancel(s)), sid)
  {
    assert WaiterOk(w, sid) && WaiterOk(w, s);
  }

  lemma OtherStep(self: u32, w: World, a: Act, sid: u16)
    requires Inv(w) && Enabled(w, a) && !a.Section?
    ensures WaiterOk(Next(self, w, a), sid)
  {
    assert WaiterOk(w, sid);
    match a
    case Signal(n) => SignalStep(self, w, n, sid);
    case Check(s) => CheckStep(self, w, s, sid);
    case Poll(s) => PollStep(self, w, s, sid);
    case Cancel(s) => CancelStep(self, w, s, sid);
    case _ =>
  }

  lemma CheckStep(self: u32, w: World, s: u16, sid: u16)
    requires Inv(w) && Enabled(w, Check(s))
    ensures WaiterOk(Next(self, w, Check(s)), sid)
  {
    assert WaiterOk(w, sid);
  }

  lemma StepKeepsInvariant(self: u32, w: World, a: Act)
    requires Inv(w) && Enabled(w, a)
    ensures Inv(Next(self, w, a))
  {
    forall sid: u16 ensures WaiterOk(Next(self, w, a), sid) {
      if a.Section? {
        SectionStep(self, w, a.op, sid);
      } else {
        OtherStep(self, w, a, sid);
      }
    }
    if a.Section? {
      SectionNumbers(self, w, a.op);
    }
  }

  lemma {:induction false} RunKeepsInvariant(self: u32, w: World, acts: seq<Act>, v: World)
    requires Inv(w) && Reaches(self, w, acts, v)
    ensures Inv(v)
    decreases |acts|
  {
    if acts != [] {
      StepKeepsInvariant(self, w, acts[0]);
      RunKeepsInvariant(self, Next(self, w, acts[0]), acts[1..], v);
    }
  }

  /** No lost wake-up, over every interleaving, resets and replacements included: a task parked in
      `wait_for_data` is parked on the `Notify` of the present record of its stream, and if that
      record has data or is closed then a handler is about to signal that very `Notify`. */
  lemma NoLostWakeup(self: u32, acts: seq<Act>, w: World, sid: u16, n: NotifyId)
    requires Reaches(self, Init, acts, w) && WaiterOf(w, sid) == Parked(n)
    ensures sid in w.streams && w.streams[sid].notify == n
    ensures HasWork(w.streams[sid]) ==> n in w.inFlight
  {
    RunKeepsInvariant(self, Init, acts, w);
    assert WaiterOk(w, sid);
  }

  /** Once the handlers have finished, nobody is parked on a stream that has data or is closed. */
  lemma QuietMeansServed(self: u32, acts: seq<Act>, w: World, sid: u16)
    requires Reaches(self, Init, acts, w) && w.inFlight == multiset{}
    ensures WaiterOf(w, sid).Parked? ==> sid in w.streams && !HasWork(w.streams[sid])
  {
    if WaiterOf(w, sid).Parked? {
      NoLostWakeup(self, acts, w, sid, WaiterOf(w, sid).notify);
    }
  }

  /** The signal that `NoLostWakeup` promises lets the wait return: signal, resume, check. */
  lemma SignalReleasesWaiter(self: u32, acts: seq<Act>, w: World, sid: u16)
    requires Reaches(self, Init, acts, w)
    requires WaiterOf(w, sid).Parked? && sid in w.streams && HasWork(w.streams[sid])
    ensures var signal := Signal(WaiterOf(w, sid).notify);
      var signalled := Next(self, w, signal);
      var resumed := Next(self, signalled, Resume(sid));
      && Enabled(w, signal) && Enabled(signalled, Resume(sid)) && Enabled(resumed, Check(sid))
      && WaiterOf(Next(self, resumed, Check(sid)), sid) == Outside
  {
    NoLostWakeup(self, acts, w, sid, WaiterOf(w, sid).notify);
    RunKeepsInvariant(self, Init, acts, w);
    assert WaiterOk(w, sid);
  }
}
