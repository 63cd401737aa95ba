/** The desktop engine (Linux and Windows): starts and stops under the `child` lock, step by step. */
module Engine {
  import opened Words
  import opened Sequences

  /** The mutex-held fields. `owned` are the core processes that some variable still holds (dropping
      the handle kills the process), `polling` the stats tasks spawned and not aborted; `serial`
      numbers processes and tasks. `olcrtc` is the configured port of the stored OLC RTC client. */
  datatype State = State(
    child: Option<nat>,
    olcrtc: Option<u16>,
    windowsJob: bool,
    stats: Option<nat>,
    owned: set<nat>,
    polling: set<nat>,
    serial: nat)

  const Idle: State := State(None, None, false, None, {}, {}, 0)

  datatype StartFate = PreflightFails | SpawnFails | NeverReady | ExitsEarly | ComesUp

  datatype StopFate = KillTimesOut | KillFails | CleanupFails | Stops

  /** A command together with what its environment does to it. A start for an OLC RTC profile names
      the local port of that profile. */
  datatype Command =
    | Start(startFate: StartFate, port: Option<u16>, attachesJob: bool)
    | Stop(stopFate: StopFate)

  datatype Result = Started | AlreadyRunning | StartFailed | StoppedOk | NotRunning | StopFailed

  // ----- the steps, between two of which other tasks may run

  /** Where the holder of the `child` lock is. */
  datatype Pc =
    | Begin
    | Preflight
    | Spawn
    | AttachJob(pid: nat)
    | AwaitReady(pid: nat)
    | Publish(pid: nat)
    | StoreOlcrtc
    | AbortOldStats
    | SpawnStats
    | StoreStats(task: nat)
    | TakeChild
    | Kill(pid: nat)
    | TakeOlcrtc
    | Finished(result: Result)

  function AbortStats(e: State): State {
    match e.stats
    case Some(t) => e.(stats := None, polling := e.polling - {t})
    case None => e
  }

  /** A stored OLC RTC client still listens on the port that the start needs for its own. Configured
      with port 0 each client listens on a port that the system picks, so 0 is never taken. */
  predicate PortTaken(e: State, c: Command) {
    c.Start? && c.port.Some? && c.port != Some(0) && e.olcrtc == c.port
  }

  /** One step of the command that holds the lock. */
  function Micro(e: State, c: Command, pc: Pc): (State, Pc) {
    match pc
    case Begin =>
      if c.Stop? then (AbortStats(e), TakeChild)
      else if e.child.Some? then (e, Finished(AlreadyRunning))
      else (e, Preflight)
    case Preflight =>
      (e, if c.Start? && (c.startFate.PreflightFails? || PortTaken(e, c)) then Finished(StartFailed) else Spawn)
    case Spawn =>
      if c.Start? && c.startFate.SpawnFails? then (e, Finished(StartFailed))
      else (e.(owned := e.owned + {e.serial}, serial := e.serial + 1), AttachJob(e.serial))
    case AttachJob(pid) => (e.(windowsJob := e.windowsJob || (c.Start? && c.attachesJob)), AwaitReady(pid))
    case AwaitReady(pid) =>
      if c.Start? && c.startFate.NeverReady? then (e.(owned := e.owned - {pid}), Finished(StartFailed))
      else if c.Start? && c.startFate.ExitsEarly? then
        (e.(owned := e.owned - {pid}, windowsJob := false), Finished(StartFailed))
      else (e, Publish(pid))
    case Publish(pid) => (e.(child := Some(pid)), StoreOlcrtc)
    case StoreOlcrtc => (e.(olcrtc := if c.Start? then c.port else None), AbortOldStats)
    case AbortOldStats => (AbortStats(e), SpawnStats)
    case SpawnStats => (e.(polling := e.polling + {e.serial}, serial := e.serial + 1), StoreStats(e.serial))
    case StoreStats(task) => (e.(stats := Some(task)), Finished(Started))
    case TakeChild =>
      (match e.child
       case None =>
         (e.(windowsJob := false), Finished(if c.Stop? && c.stopFate.CleanupFails? then StopFailed else NotRunning))
       case Some(pid) => (e.(child := None), Kill(pid)))
    case Kill(pid) =>
      (e.(owned := e.owned - {pid}),
       if c.Stop? && c.stopFate.KillTimesOut? then Finished(StopFailed) else TakeOlcrtc)
    case TakeOlcrtc =>
      (e.(olcrtc := None, windowsJob := false),
       Finished(if c.Stop? && c.stopFate.Stops? then StoppedOk else StopFailed))
    case Finished(_) => (e, pc)
  }

  function Rank(pc: Pc): nat {
    match pc
    case Begin => 12
    case Preflight => 10
    case Spawn => 9
    case AttachJob(_) => 8
    case AwaitReady(_) => 7
    case Publish(_) => 6
    case StoreOlcrtc => 5
    case AbortOldStats => 4
    case SpawnStats => 3
    case StoreStats(_) => 2
    case TakeChild => 3
    case Kill(_) => 2
    case TakeOlcrtc => 1
    case Finished(_) => 0
  }

  /** What the steps from here on amount to if nothing comes between them. */
  function Complete(e: State, c: Command, pc: Pc): (State, Result)
    decreases Rank(pc)
  {
    match pc
    case Finished(result) => (e, result)
    case _ =>
      var (after, next) := Micro(e, c, pc);
      Complete(after, c, next)
  }

  // ----- the same as one atomic action

  /** A command as one atomic action on an engine whose lock is free. */
  function Atomic(e: State, c: Command): (State, Result) {
    match c
    case Start(fate, port, attachesJob) =>
      if e.child.Some? then (e, AlreadyRunning)
      else if PortTaken(e, c) then (e, StartFailed)
      else
        (match fate
         case PreflightFails => (e, StartFailed)
         case SpawnFails => (e, StartFailed)
         case NeverReady => (e.(serial := e.serial + 1, windowsJob := e.windowsJob || attachesJob), StartFailed)
         case ExitsEarly => (e.(serial := e.serial + 1, windowsJob := false), StartFailed)
         case ComesUp =>
           (State(Some(e.serial), port, e.windowsJob || attachesJob, Some(e.serial + 1),
                  {e.serial}, {e.serial + 1}, e.serial + 2), Started))
    case Stop(fate) =>
      (match e.child
       case None => (e.(windowsJob := false), if fate.CleanupFails? then StopFailed else NotRunning)
       case Some(_) =>
         var quiet := e.(child := None, stats := None, owned := {}, polling := {});
         if fate.KillTimesOut? then (quiet, StopFailed)
         else (quiet.(olcrtc := None, windowsJob := false), if fate.Stops? then StoppedOk else StopFailed))
  }

  /** Whenever the lock is free: one child is held and polled, or none of either exists. */
  ghost predicate Consistent(e: State) {
    && e.owned == (match e.child case Some(pid) => {pid} case None => {})
    && e.polling == (match e.stats case Some(t) => {t} case None => {})
    && (e.stats.Some? <==> e.child.Some?)
    && (forall x :: x in e.owned || x in e.polling ==> x < e.serial)
  }

  lemma AtomicConsistent(e: State, c: Command)
    requires Consistent(e)
    ensures Consistent(Atomic(e, c).0)
  {
  }

  lemma CompleteStart(e: State, c: Command)
    requires Consistent(e) && c.Start? && e.child == None
    ensures Complete(e, c, Begin) == Atomic(e, c)
  {
    var pid := e.serial;
    var spawned := e.(owned := e.owned + {pid}, serial := e.serial + 1);
    var attached := spawned.(windowsJob := e.windowsJob || c.attachesJob);
    assert Complete(e, c, Begin) == Complete(e, c, Preflight);
    if !c.startFate.PreflightFails? && !PortTaken(e, c) && !c.startFate.SpawnFails? {
      assert Complete(e, c, Preflight) == Complete(e, c, Spawn) == Complete(spawned, c, AttachJob(pid))
          == Complete(attached, c, AwaitReady(pid));
      assert attached.owned == {pid} && attached.owned - {pid} == {} == e.owned;
      if c.startFate.ComesUp? {
        CompletePublish(attached, c, pid);
      } else {
        CompleteFailure(attached, c, pid);
      }
    }
  }

  lemma CompleteFailure(e: State, c: Command, pid: nat)
    requires c.Start? && (c.startFate.NeverReady? || c.startFate.ExitsEarly?)
    ensures Complete(e, c, AwaitReady(pid))
         == (e.(owned := e.owned - {pid}, windowsJob := e.windowsJob && c.startFate.NeverReady?), StartFailed)
  {
    var failed := e.(owned := e.owned - {pid}, windowsJob := e.windowsJob && c.startFate.NeverReady?);
    assert Micro(e, c, AwaitReady(pid)) == (failed, Finished(StartFailed));
    assert Complete(failed, c, Finished(StartFailed)) == (failed, StartFailed);
  }

  lemma CompletePublish(e: State, c: Command, pid: nat)
    requires e.stats == None && e.owned == {pid} && e.polling == {}
    ensures Complete(e, c, Publish(pid))
         == (State(Some(pid), if c.Start? then c.port else None, e.windowsJob, Some(e.serial),
                   {pid}, {e.serial}, e.serial + 1), Started)
  {
    var published := e.(child := Some(pid), olcrtc := if c.Start? then c.port else None);
    assert Complete(e, c, Publish(pid)) == Complete(e.(child := Some(pid)), c, StoreOlcrtc)
        == Complete(published, c, AbortOldStats) == Complete(published, c, SpawnStats);
    var polled := published.(polling := {e.serial}, serial := e.serial + 1);
    assert published.polling + {e.serial} == {e.serial};
    assert Micro(published, c, SpawnStats) == (polled, StoreStats(e.serial));
    assert Complete(published, c, SpawnStats) == Complete(polled, c, StoreStats(e.serial))
        == Complete(polled.(stats := Some(e.serial)), c, Finished(Started));
  }

  lemma CompleteStop(e: State, c: Command)
    requires Consistent(e) && c.Stop?
    ensures Complete(e, c, Begin) == Atomic(e, c)
  {
    var quiet := AbortStats(e);
    assert Complete(e, c, Begin) == Complete(quiet, c, TakeChild);
    match e.child
    case None => assert quiet == e;
    case Some(pid) =>
      var taken := quiet.(child := None);
      assert taken.polling == {} && taken.owned - {pid} == {};
      assert Complete(quiet, c, TakeChild) == Complete(taken, c, Kill(pid));
  }

  /** The steps of a command, uninterrupted, are its atomic action. */
  lemma StepsAreAtomic(e: State, c: Command)
    requires Consistent(e)
    ensures Complete(e, c, Begin) == Atomic(e, c)
  {
    if c.Stop? {
      CompleteStop(e, c);
    } else if e.child == None {
      CompleteStart(e, c);
    }
  }

  // ----- every interleaving

  datatype Task = Task(command: Command, pc: Pc)

  /** `history` lists the commands that gave the lock back, `results` what they returned. */
  datatype World = World(
    engine: State,
    holder: Option<nat>,
    tasks: map<nat, Task>,
    history: seq<Command>,
    results: seq<Result>)

  const Boot: World := World(Idle, None, map[], [], [])

  datatype Act =
    | Call(id: nat, command: Command)    // a task issues a command
    | Acquire(id: nat)
    | Advance(id: nat)                   // one step of the holder
    | Release(id: nat)

  predicate Enabled(w: World, a: Act) {
    match a
    case Call(id, _) => id !in w.tasks
    case Acquire(id) => id in w.tasks && w.holder == None && w.tasks[id].pc == Begin
    case Advance(id) => id in w.tasks && w.holder == Some(id) && !w.tasks[id].pc.Finished?
    case Release(id) => id in w.tasks && w.holder == Some(id) && w.tasks[id].pc.Finished?
  }

  function Next(w: World, a: Act): World
    requires Enabled(w, a)
  {
    match a
    case Call(id, c) => w.(tasks := w.tasks[id := Task(c, Begin)])
    case Acquire(id) => w.(holder := Some(id))
    case Advance(id) =>
      var (engine, pc) := Micro(w.engine, w.tasks[id].command, w.tasks[id].pc);
      w.(engine := engine, tasks := w.tasks[id := Task(w.tasks[id].command, pc)])
    case Release(id) =>
      w.(holder := None, history := w.history + [w.tasks[id].command], results := w.results + [w.tasks[id].pc.result])
  }

  ghost predicate Reaches(w: World, acts: seq<Act>, v: World)
    decreases |acts|
  {
    if acts == [] then v == w
    else Enabled(w, acts[0]) && Reaches(Next(w, acts[0]), acts[1..], v)
  }

  /** The commands one after the other. */
  function Serial(history: seq<Command>): (State, seq<Result>) {
    if history == [] then (Idle, [])
    else
      var (e, rs) := Serial(Front(history));
      var (after, r) := Atomic(e, Last(history));
      (after, rs + [r])
  }

  /** What is held and polled at each step of the holder. */
  ghost predicate AtStep(e: State, pc: Pc) {
    match pc
    case Begin => Consistent(e)
    case Preflight => Consistent(e) && e.child == None
    case Spawn => Consistent(e) && e.child == None
    case AttachJob(pid) => e.child == None && e.owned == {pid} && e.polling == {} && e.stats == None
    case AwaitReady(pid) => e.child == None && e.owned == {pid} && e.polling == {} && e.stats == None
    case Publish(pid) => e.child == None && e.owned == {pid} && e.polling == {} && e.stats == None
    case StoreOlcrtc => e.child.Some? && e.owned == {e.child.value} && e.polling == {} && e.stats == None
    case AbortOldStats => e.child.Some? && e.owned == {e.child.value} && e.polling == {} && e.stats == None
    case SpawnStats => e.child.Some? && e.owned == {e.child.value} && e.polling == {} && e.stats == None
    case StoreStats(t) => e.child.Some? && e.owned == {e.child.value} && e.polling == {t} && e.stats == None
    case TakeChild => e.owned == (match e.child case Some(p) => {p} case None => {}) && e.polling == {} && e.stats == None
    case Kill(pid) => e.child == None && e.owned == {pid} && e.polling == {} && e.stats == None
    case TakeOlcrtc => e.child == None && e.owned == {} && e.polling == {} && e.stats == None
    case Finished(_) => true
  }

  ghost predicate Inv(w: World) {
    var (base, results) := Serial(w.history);
    && Consistent(base) && w.results == results
    && match w.holder
       case None => w.engine == base
       case Some(id) =>
         && id in w.tasks
         && Complete(w.engine, w.tasks[id].command, w.tasks[id].pc) == Atomic(base, w.tasks[id].command)
         && AtStep(w.engine, w.tasks[id].pc)
         && (w.tasks[id].pc.Finished? ==> Consistent(w.engine))
  }

  lemma AdvanceKeepsInvariant(w: World, id: nat)
    requires Inv(w) && Enabled(w, Advance(id))
    ensures Inv(Next(w, Advance(id)))
  {
    var c, pc := w.tasks[id].command, w.tasks[id].pc;
    var (after, next) := Micro(w.engine, c, pc);
    assert Complete(w.engine, c, pc) == Complete(after, c, next);
    MicroAtStep(w.engine, c, pc);
    if next.Finished? {
      AtomicConsistent(Serial(w.history).0, c);
    }
  }

  lemma MicroAtStep(e: State, c: Command, pc: Pc)
    requires AtStep(e, pc) && !pc.Finished?
    ensures AtStep(Micro(e, c, pc).0, Micro(e, c, pc).1)
  {
  }

  lemma StepKeepsInvariant(w: World, a: Act)
    requires Inv(w) && Enabled(w, a)
    ensures Inv(Next(w, a))
  {
    match a
    case Call(_, _) =>
    case Acquire(id) => StepsAreAtomic(w.engine, w.tasks[id].command);
    case Advance(id) => AdvanceKeepsInvariant(w, id);
    case Release(id) =>
      assert Front(w.history + [w.tasks[id].command]) == w.history;
      AtomicConsistent(Serial(w.history).0, w.tasks[id].command);
  }

  lemma {:induction false} RunKeepsInvariant(w: World, acts: seq<Act>, v: World)
    requires Inv(w) && Reaches(w, acts, v)
    ensures Inv(v)
    decreases |acts|
  {
    if acts != [] {
      StepKeepsInvariant(w, acts[0]);
      RunKeepsInvariant(Next(w, acts[0]), acts[1..], v);
    }
  }

  /** Over every interleaving of any number of starts and stops, whenever the lock is free: the
      engine and all results are those of the finished commands run one after the other in the
      order in which they gave the lock back, and a stats task exists exactly when a child is held. */
  lemma EngineLinearizes(acts: seq<Act>, w: World)
    requires Reaches(Boot, acts, w) && w.holder == None
    ensures (w.engine, w.results) == Serial(w.history)
    ensures w.engine.stats.Some? <==> w.engine.child.Some?
    ensures |w.engine.polling| == |w.engine.owned| == if w.engine.child.Some? then 1 else 0
  {
    RunKeepsInvariant(Boot, acts, w);
  }

  /** At every point of every interleaving at most one core process is held and at most one stats
      task polls. */
  lemma AtMostOneChild(acts: seq<Act>, w: World)
    requires Reaches(Boot, acts, w)
    ensures |w.engine.owned| <= 1 && |w.engine.polling| <= 1
    ensures w.engine.child.Some? ==> w.engine.owned == {w.engine.child.value}
  {
    RunKeepsInvariant(Boot, acts, w);
  }

  // ----- the OLC RTC client after a stop

  /** The engine before command `i`. */
  function Before(history: seq<Command>, i: nat): State
    requires i <= |history|
  {
    Serial(history[..i]).0
  }

  predicate CameUp(history: seq<Command>, i: nat)
    requires i < |history|
  {
    history[i].Start? && Atomic(Before(history, i), history[i]).1 == Started
  }

  predicate FoundChild(history: seq<Command>, i: nat)
    requires i < |history|
  {
    history[i].Stop? && Before(history, i).child.Some?
  }

  lemma BeforeFront(history: seq<Command>, i: nat)
    requires i < |history|
    ensures Front(history)[..i] == history[..i]
    ensures Before(Front(history), i) == Before(history, i)
  {
  }

  /** The last start that came up is number `i`. */
  ghost predicate LastUp(history: seq<Command>, i: nat) {
    i < |history| && CameUp(history, i) && forall k: nat :: i < k < |history| ==> !CameUp(history, k)
  }

  /** The last stop that found a child is number `j`. */
  ghost predicate LastFound(history: seq<Command>, j: nat) {
    j < |history| && FoundChild(history, j) && forall k: nat :: j < k < |history| ==> !FoundChild(history, k)
  }

  lemma LastOfFront(history: seq<Command>, i: nat)
    requires history != []
    ensures LastUp(Front(history), i) && !CameUp(history, |history| - 1) ==> LastUp(history, i)
    ensures LastFound(Front(history), i) && !FoundChild(history, |history| - 1) ==> LastFound(history, i)
  {
    forall k: nat | k < |history| - 1
      ensures CameUp(Front(history), k) == CameUp(history, k) && FoundChild(Front(history), k) == FoundChild(history, k)
    {
      BeforeFront(history, k);
    }
  }

  /** Where the stored client comes from: while a child is held, from the start `up` that brought it
      up; afterwards from the same start if the stop `found` that took the child timed out. */
  ghost predicate Origin(history: seq<Command>, up: Option<nat>, found: Option<nat>) {
    var e := Serial(history).0;
    && (up.Some? ==> LastUp(history, up.value))
    && (found.Some? ==> LastFound(history, found.value))
    && (e.child.Some? ==> up.Some? && e.olcrtc == history[up.value].port)
    && (e.child == None && found == None ==> e.olcrtc == None && forall k: nat :: k < |history| ==> !FoundChild(history, k))
    && (e.child == None && found.Some? ==>
          up.Some? && e.olcrtc == if history[found.value].stopFate.KillTimesOut? then history[up.value].port else None)
  }

  lemma {:induction false} OriginKnown(history: seq<Command>) returns (up: Option<nat>, found: Option<nat>)
    ensures Origin(history, up, found)
    decreases |history|
  {
    if history == [] {
      return None, None;
    }
    var n := |history| - 1;
    up, found := OriginKnown(Front(history));
    assert history[..n] == Front(history);
    if up.Some? {
      LastOfFront(history, up.value);
    }
    if found.Some? {
      LastOfFront(history, found.value);
    } else {
      forall k: nat | k < n ensures FoundChild(Front(history), k) == FoundChild(history, k) {
        BeforeFront(history, k);
      }
    }
    if CameUp(history, n) {
      up := Some(n);
    } else if FoundChild(history, n) {
      found := Some(n);
    }
  }

  /** The last stop that found a child timed out, and the last start that came up was for the port. */
  ghost predicate LeftOn(history: seq<Command>, port: u16) {
    exists up: nat, found: nat ::
      && LastUp(history, up) && history[up].port == Some(port)
      && LastFound(history, found) && history[found].stopFate.KillTimesOut?
  }

  /** After any commands that leave no child, an OLC RTC client is still stored, on a port, if and only
      if the last stop that found a child timed out and the last start that came up was for that port. */
  lemma OlcrtcLeftBehindExactly(history: seq<Command>, port: u16)
    requires Serial(history).0.child == None
    ensures Serial(history).0.olcrtc == Some(port)
       <==> LeftOn(history, port)
  {
    var up, found := OriginKnown(history);
    forall x: nat, y: nat | LastUp(history, x) && LastFound(history, y)
      ensures up == Some(x) && found == Some(y)
    {
      assert CameUp(history, x) && FoundChild(history, y);
      assert up.Some? ==> CameUp(history, up.value);
      assert found.Some? ==> FoundChild(history, found.value);
    }
  }

  /** As long as nothing comes up, a client left behind keeps its port. */
  lemma {:induction false} PortStaysTaken(history: seq<Command>, more: seq<Command>, port: u16)
    requires Serial(history).0.child == None && Serial(history).0.olcrtc == Some(port)
    requires forall k: nat :: |history| <= k < |history + more| ==> !CameUp(history + more, k)
    ensures Serial(history + more).0.child == None && Serial(history + more).0.olcrtc == Some(port)
    decreases |more|
  {
    if more == [] {
      assert history + more == history;
    } else {
      var all := history + more;
      assert Front(all) == history + Front(more);
      forall k: nat | |history| <= k < |Front(all)| ensures !CameUp(Front(all), k) {
        assert !CameUp(all, k);
        BeforeFront(all, k);
      }
      PortStaysTaken(history, Front(more), port);
      assert all[..|all| - 1] == Front(all);
      assert !CameUp(all, |all| - 1);
    }
  }

  /** After a timed-out stop of an OLC RTC session configured with a port of its own, not 0, no start on
      that port succeeds, whatever its fate, until some other start has come up. */
  lemma PortBlockedUntilReplaced(history: seq<Command>, more: seq<Command>, port: u16, fate: StartFate, attachesJob: bool)
    requires Serial(history).0.child == None && Serial(history).0.olcrtc == Some(port) && port != 0
    requires forall k: nat :: |history| <= k < |history + more| ==> !CameUp(history + more, k)
    ensures Atomic(Serial(history + more).0, Start(fate, Some(port), attachesJob)).1 == StartFailed
  {
    PortStaysTaken(history, more, port);
  }
}
