/** Overlapping `connect` and `disconnect` commands: each takes the status lock, then acts on the
    engine, then takes the status lock again, and other commands may come between. */
module Overlap {
  import opened Words
  import opened Sequences
  import opened Engine
  import opened Plugin

  datatype Stage = Waiting | Begun | Acted(result: Result) | Ended(result: Result) | Refused

  datatype Job = Job(command: Command, stage: Stage)

  /** `actor` is the command that acted last on the engine, `writer` the one that last wrote the phase.
      The engine action is one step: by `EngineLinearizes` it takes effect where the lock is given back. */
  datatype Session = Session(app: App, jobs: map<nat, Job>, actor: Option<nat>, writer: Option<nat>)

  const Boot: Session := Session(App(Disconnected, Idle), map[], None, None)

  datatype Act =
    | Issue(id: nat, command: Command)
    | Enter(id: nat)       // the first status section
    | Engage(id: nat)      // the engine call
    | Leave(id: nat)       // the last status section

  predicate Enabled(w: Session, a: Act) {
    match a
    case Issue(id, _) => id !in w.jobs
    case Enter(id) => id in w.jobs && w.jobs[id].stage.Waiting?
    case Engage(id) => id in w.jobs && w.jobs[id].stage.Begun?
    case Leave(id) => id in w.jobs && w.jobs[id].stage.Acted?
  }

  function Next(w: Session, a: Act): Session
    requires Enabled(w, a)
  {
    match a
    case Issue(id, c) => w.(jobs := w.jobs[id := Job(c, Waiting)])
    case Enter(id) =>
      var c := w.jobs[id].command;
      if c.Start? && !ConnectBegins(w.app).1 then w.(jobs := w.jobs[id := Job(c, Refused)])
      else
        w.(app := if c.Start? then ConnectBegins(w.app).0 else DisconnectBegins(w.app),
           jobs := w.jobs[id := Job(c, Begun)], writer := Some(id))
    case Engage(id) =>
      var c := w.jobs[id].command;
      var (engine, r) := Atomic(w.app.engine, c);
      w.(app := w.app.(engine := engine), jobs := w.jobs[id := Job(c, Acted(r))], actor := Some(id))
    case Leave(id) =>
      var c, r := w.jobs[id].command, w.jobs[id].stage.result;
      w.(app := if c.Start? then ConnectEnds(w.app, r) else DisconnectEnds(w.app, r),
         jobs := w.jobs[id := Job(c, Ended(r))],
         writer := if c.Start? || r == StoppedOk then Some(id) else w.writer)
  }

  ghost predicate Reaches(w: Session, acts: seq<Act>, v: Session)
    decreases |acts|
  {
    if acts == [] then v == w
    else Enabled(w, acts[0]) && Reaches(Next(w, acts[0]), acts[1..], v)
  }

  /** No command is in progress. */
  ghost predicate Quiet(w: Session) {
    forall id :: id in w.jobs ==> w.jobs[id].stage.Ended? || w.jobs[id].stage.Refused?
  }

  ghost predicate Agree(a: App) {
    a.phase.Connected? <==> a.engine.child.Some?
  }

  // ----- what the last action and the last write leave

  predicate HasActed(j: Job) {
    j.stage.Acted? || j.stage.Ended?
  }

  /** The phase that a command wrote last, once it has begun. */
  function Written(j: Job): Phase {
    match j.stage
    case Ended(r) =>
      if j.command.Start? then (if r == Started then Connected else Failed)
      else if r == StoppedOk then Disconnected else Disconnecting
    case _ => if j.command.Start? then Connecting else Disconnecting
  }

  predicate LeavesChild(r: Result) {
    r == Started || r == AlreadyRunning
  }

  ghost predicate JobOk(j: Job) {
    HasActed(j) ==>
      if j.command.Start? then j.stage.result in {Started, AlreadyRunning, StartFailed}
      else j.stage.result in {StoppedOk, NotRunning, StopFailed}
  }

  ghost predicate Inv(base: App, w: Session) {
    && Consistent(w.app.engine)
    && (forall id :: id in w.jobs ==> JobOk(w.jobs[id]))
    && ActorOk(base, w)
    && WriterOk(base, w)
  }

  ghost predicate ActorOk(base: App, w: Session) {
    match w.actor
    case None => w.app.engine == base.engine && forall id :: id in w.jobs ==> !HasActed(w.jobs[id])
    case Some(a) =>
      && a in w.jobs && HasActed(w.jobs[a])
      && (w.app.engine.child.Some? <==> LeavesChild(w.jobs[a].stage.result))
  }

  ghost predicate WriterOk(base: App, w: Session) {
    match w.writer
    case None =>
      w.app.phase == base.phase && forall id :: id in w.jobs ==> w.jobs[id].stage.Waiting? || w.jobs[id].stage.Refused?
    case Some(b) =>
      && b in w.jobs && !w.jobs[b].stage.Waiting? && !w.jobs[b].stage.Refused?
      && w.app.phase == Written(w.jobs[b])
  }

  lemma EnterKeeps(base: App, w: Session, id: nat)
    requires Inv(base, w) && Enabled(w, Enter(id))
    ensures Inv(base, Next(w, Enter(id)))
  {
  }

  lemma EngageKeeps(base: App, w: Session, id: nat)
    requires Inv(base, w) && Enabled(w, Engage(id))
    ensures Inv(base, Next(w, Engage(id)))
  {
    AtomicConsistent(w.app.engine, w.jobs[id].command);
  }

  lemma LeaveKeeps(base: App, w: Session, id: nat)
    requires Inv(base, w) && Enabled(w, Leave(id))
    ensures Inv(base, Next(w, Leave(id)))
  {
  }

  lemma StepKeepsInvariant(base: App, w: Session, a: Act)
    requires Inv(base, w) && Enabled(w, a)
    ensures Inv(base, Next(w, a))
  {
    match a
    case Issue(_, _) =>
    case Enter(id) => EnterKeeps(base, w, id);
    case Engage(id) => EngageKeeps(base, w, id);
    case Leave(id) => LeaveKeeps(base, w, id);
  }

  lemma {:induction false} RunKeepsInvariant(base: App, w: Session, acts: seq<Act>, v: Session)
    requires Inv(base, w) && Reaches(w, acts, v)
    ensures Inv(base, v)
    decreases |acts|
  {
    if acts != [] {
      StepKeepsInvariant(base, w, acts[0]);
      RunKeepsInvariant(base, Next(w, acts[0]), acts[1..], v);
    }
  }

  /** The command that wrote the phase last was a `connect` whose start came up. */
  predicate ReportedUp(w: Session) {
    w.writer.Some? && w.writer.value in w.jobs && w.jobs[w.writer.value].stage == Ended(Started)
  }

  /** The command that acted last on the engine was a start that came up or found a child. */
  predicate LeftChild(w: Session) {
    && w.actor.Some? && w.actor.value in w.jobs && HasActed(w.jobs[w.actor.value])
    && LeavesChild(w.jobs[w.actor.value].stage.result)
  }

  /** Over every run of any number of commands in any interleaving, once none is in progress: phase and
      engine agree if and only if the last write of the phase reports what the last action left. */
  lemma AgreementExactly(acts: seq<Act>, w: Session)
    requires Reaches(Boot, acts, w) && Quiet(w)
    ensures Agree(w.app) <==> (ReportedUp(w) <==> LeftChild(w))
  {
    RunKeepsInvariant(Boot.app, Boot, acts, w);
  }

  /** In particular they agree whenever the same command acted last and wrote last, unless that was a
      start which found a child already there. */
  lemma SameCommandAgrees(acts: seq<Act>, w: Session, id: nat)
    requires Reaches(Boot, acts, w) && Quiet(w) && id in w.jobs
    requires w.actor == w.writer == Some(id) && w.jobs[id].stage != Ended(AlreadyRunning)
    ensures Agree(w.app)
  {
    AgreementExactly(acts, w);
    RunKeepsInvariant(Boot.app, Boot, acts, w);
  }

  // ----- one connect and one disconnect

  const CONNECT: nat := 0
  const DISCONNECT: nat := 1

  function Pair(app: App, start: Command, stop: Command): Session {
    Session(app, map[CONNECT := Job(start, Waiting), DISCONNECT := Job(stop, Waiting)], None, None)
  }

  /** A start that acts after the stop finds no child. */
  ghost predicate PairOk(w: Session) {
    && CONNECT in w.jobs && w.jobs[CONNECT].command.Start?
    && DISCONNECT in w.jobs && w.jobs[DISCONNECT].command.Stop?
    && w.jobs.Keys == {CONNECT, DISCONNECT}
    && !w.jobs[DISCONNECT].stage.Refused?
    && (HasActed(w.jobs[DISCONNECT]) && !HasActed(w.jobs[CONNECT]) ==> w.app.engine.child == None)
    && (HasActed(w.jobs[CONNECT]) && w.jobs[CONNECT].stage.result == AlreadyRunning && HasActed(w.jobs[DISCONNECT]) ==>
          w.actor == Some(DISCONNECT))
  }

  lemma PairStep(base: App, w: Session, a: Act)
    requires Inv(base, w) && PairOk(w) && Enabled(w, a) && Next(w, a).jobs.Keys == {CONNECT, DISCONNECT}
    ensures PairOk(Next(w, a))
  {
    assert !a.Issue?;
  }

  lemma {:induction false} PairKept(base: App, w: Session, acts: seq<Act>, v: Session)
    requires Inv(base, w) && PairOk(w) && Reaches(w, acts, v) && v.jobs.Keys == {CONNECT, DISCONNECT}
    ensures PairOk(v) && Inv(base, v)
    decreases |acts|
  {
    if acts != [] {
      var next := Next(w, acts[0]);
      StepKeepsInvariant(base, w, acts[0]);
      JobsOnlyGrow(next, acts[1..], v);
      PairStep(base, w, acts[0]);
      PairKept(base, next, acts[1..], v);
    }
  }

  lemma {:induction false} JobsOnlyGrow(w: Session, acts: seq<Act>, v: Session)
    requires Reaches(w, acts, v)
    ensures w.jobs.Keys <= v.jobs.Keys
    decreases |acts|
  {
    if acts != [] {
      JobsOnlyGrow(Next(w, acts[0]), acts[1..], v);
    }
  }

  /** For every interleaving of one `connect` and one `disconnect`, from any state with a consistent
      engine and for every fate of both: phase and engine agree afterwards if and only if the start did
      not come up, or the command that acted last on the engine also wrote the phase last. */
  lemma PairExactly(app: App, start: Command, stop: Command, acts: seq<Act>, w: Session)
    requires start.Start? && stop.Stop? && Consistent(app.engine)
    requires Reaches(Pair(app, start, stop), acts, w) && w.jobs.Keys == {CONNECT, DISCONNECT} && Quiet(w)
    ensures Agree(w.app) <==> (w.jobs[CONNECT].stage == Ended(Started) ==> w.actor == w.writer)
  {
    PairKept(app, Pair(app, start, stop), acts, w);
  }

  // ----- schedules that end in disagreement

  const UP: Command := Start(ComesUp, None, false)
  const DOWN: Command := Stop(Stops)

  lemma {:induction false} ReachesThen(w: Session, first: seq<Act>, v: Session, second: seq<Act>, u: Session)
    requires Reaches(w, first, v) && Reaches(v, second, u)
    ensures Reaches(w, first + second, u)
    decreases |first|
  {
    if first == [] {
      assert first + second == second;
    } else {
      ReachesThen(Next(w, first[0]), first[1..], v, second, u);
      assert (first + second)[1..] == first[1..] + second;
    }
  }

  /** Four steps in a row. */
  function Four(w: Session, a: Act, b: Act, c: Act, d: Act): Session
    requires CanDo(w, a, b, c, d)
  {
    Next(Next(Next(Next(w, a), b), c), d)
  }

  predicate CanDo(w: Session, a: Act, b: Act, c: Act, d: Act) {
    && Enabled(w, a) && Enabled(Next(w, a), b)
    && Enabled(Next(Next(w, a), b), c) && Enabled(Next(Next(Next(w, a), b), c), d)
  }

  lemma ReachesTwo(w: Session, a: Act, b: Act)
    requires Enabled(w, a) && Enabled(Next(w, a), b)
    ensures Reaches(w, [a, b], Next(Next(w, a), b))
  {
    assert [a, b][1..] == [b] && [b][1..] == [];
  }

  lemma ReachesFour(w: Session, a: Act, b: Act, c: Act, d: Act)
    requires CanDo(w, a, b, c, d)
    ensures Reaches(w, [a, b, c, d], Four(w, a, b, c, d))
  {
    var v := Next(Next(w, a), b);
    ReachesTwo(w, a, b);
    ReachesTwo(v, c, d);
    ReachesThen(w, [a, b], v, [c, d], Next(Next(v, c), d));
    assert [a, b] + [c, d] == [a, b, c, d];
  }

  /** A whole command, issued and run alone. */
  lemma Alone(w: Session, id: nat, c: Command)
    requires id !in w.jobs && (c.Start? ==> ConnectBegins(w.app).1)
    ensures CanDo(w, Issue(id, c), Enter(id), Engage(id), Leave(id))
    ensures var v := Four(w, Issue(id, c), Enter(id), Engage(id), Leave(id));
      v.app == Run(w.app, c) && v.jobs == w.jobs[id := Job(c, Ended(Atomic(w.app.engine, c).1))]
  {
  }

  /** A command that is already issued takes its first two sections, after another is issued. */
  lemma IssuedThenEngaged(w: Session, id: nat, c: Command, other: nat, d: Command)
    requires id !in w.jobs && other !in w.jobs && id != other && (c.Start? ==> ConnectBegins(w.app).1)
    ensures CanDo(w, Issue(id, c), Issue(other, d), Enter(id), Engage(id))
    ensures var v := Four(w, Issue(id, c), Issue(other, d), Enter(id), Engage(id));
      var begun := if c.Start? then ConnectBegins(w.app).0 else DisconnectBegins(w.app);
      && v.app == begun.(engine := Atomic(begun.engine, c).0)
      && v.jobs == w.jobs[other := Job(d, Waiting)][id := Job(c, Acted(Atomic(begun.engine, c).1))]
  {
  }

  /** One command runs through while another has only its last section left, which then comes. */
  lemma InsideThenLeave(w: Session, id: nat, outer: nat)
    requires id in w.jobs && outer in w.jobs && w.jobs[id].stage.Waiting? && w.jobs[outer].stage.Acted?
    requires w.jobs[id].command.Start? ==> ConnectBegins(w.app).1
    ensures CanDo(w, Enter(id), Engage(id), Leave(id), Leave(outer))
    ensures var v := Four(w, Enter(id), Engage(id), Leave(id), Leave(outer));
      var c, d, r := w.jobs[id].command, w.jobs[outer].command, w.jobs[outer].stage.result;
      var inside := Run(w.app, c);
      && v.app == (if d.Start? then ConnectEnds(inside, r) else DisconnectEnds(inside, r))
      && v.jobs == w.jobs[id := Job(c, Ended(Atomic(w.app.engine, c).1))][outer := Job(d, Ended(r))]
  {
  }

  lemma UpAndDown(e: State)
    ensures e.child == None ==> Atomic(e, UP).1 == Started && Atomic(e, UP).0.child.Some?
    ensures e.child.Some? ==> Atomic(e, DOWN).1 == StoppedOk && Atomic(e, DOWN).0.child == None
  {
  }

  /** From any disconnected state: `disconnect` runs between the engine call of a `connect` and its last
      section, and the phase ends as `Connected` without a core process. */
  lemma StopInsideConnect(w: Session)
    requires 0 !in w.jobs && 1 !in w.jobs && w.app.phase.Disconnected? && w.app.engine.child == None
    ensures CanDo(w, Issue(0, UP), Issue(1, DOWN), Enter(0), Engage(0))
    ensures var half := Four(w, Issue(0, UP), Issue(1, DOWN), Enter(0), Engage(0));
      && CanDo(half, Enter(1), Engage(1), Leave(1), Leave(0))
      && var v := Four(half, Enter(1), Engage(1), Leave(1), Leave(0));
      && v.app.phase == Connected && v.app.engine.child == None
      && v.jobs == w.jobs[1 := Job(DOWN, Ended(StoppedOk))][0 := Job(UP, Ended(Started))]
  {
    IssuedThenEngaged(w, 0, UP, 1, DOWN);
    var half := Four(w, Issue(0, UP), Issue(1, DOWN), Enter(0), Engage(0));
    UpAndDown(w.app.engine);
    UpAndDown(half.app.engine);
    InsideThenLeave(half, 1, 0);
  }

  /** From any connected state: `connect` runs between the engine call of a `disconnect` and its last
      section, and the phase ends as `Disconnected` with a core process held. */
  lemma StartInsideDisconnect(w: Session)
    requires 1 !in w.jobs && 2 !in w.jobs && w.app.phase.Connected? && w.app.engine.child.Some?
    ensures CanDo(w, Issue(1, DOWN), Issue(2, UP), Enter(1), Engage(1))
    ensures var half := Four(w, Issue(1, DOWN), Issue(2, UP), Enter(1), Engage(1));
      && CanDo(half, Enter(2), Engage(2), Leave(2), Leave(1))
      && var v := Four(half, Enter(2), Engage(2), Leave(2), Leave(1));
      && v.app.phase == Disconnected && v.app.engine.child.Some?
      && v.jobs == w.jobs[2 := Job(UP, Ended(Started))][1 := Job(DOWN, Ended(StoppedOk))]
  {
    IssuedThenEngaged(w, 1, DOWN, 2, UP);
    var half := Four(w, Issue(1, DOWN), Issue(2, UP), Enter(1), Engage(1));
    UpAndDown(w.app.engine);
    UpAndDown(half.app.engine);
    InsideThenLeave(half, 2, 1);
  }

  /** Both are reached from the start. */
  lemma ConnectedWithoutChild() returns (w: Session)
    ensures Reaches(Boot, [Issue(0, UP), Issue(1, DOWN), Enter(0), Engage(0)] + [Enter(1), Engage(1), Leave(1), Leave(0)], w)
    ensures Quiet(w) && w.app.phase == Connected && w.app.engine.child == None
  {
    StopInsideConnect(Boot);
    var half := Four(Boot, Issue(0, UP), Issue(1, DOWN), Enter(0), Engage(0));
    w := Four(half, Enter(1), Engage(1), Leave(1), Leave(0));
    ReachesFour(Boot, Issue(0, UP), Issue(1, DOWN), Enter(0), Engage(0));
    ReachesFour(half, Enter(1), Engage(1), Leave(1), Leave(0));
    ReachesThen(Boot, [Issue(0, UP), Issue(1, DOWN), Enter(0), Engage(0)], half, [Enter(1), Engage(1), Leave(1), Leave(0)], w);
  }

  lemma ConnectedFirst() returns (w: Session)
    ensures Reaches(Boot, [Issue(0, UP), Enter(0), Engage(0), Leave(0)], w)
    ensures w.app.phase == Connected && w.app.engine.child.Some? && w.jobs == map[0 := Job(UP, Ended(Started))]
  {
    Alone(Boot, 0, UP);
    UpAndDown(Boot.app.engine);
    ReachesFour(Boot, Issue(0, UP), Enter(0), Engage(0), Leave(0));
    w := Four(Boot, Issue(0, UP), Enter(0), Engage(0), Leave(0));
  }

  lemma DisconnectedWithChild() returns (w: Session)
    ensures Reaches(Boot, [Issue(0, UP), Enter(0), Engage(0), Leave(0)]
                          + ([Issue(1, DOWN), Issue(2, UP), Enter(1), Engage(1)] + [Enter(2), Engage(2), Leave(2), Leave(1)]), w)
    ensures Quiet(w) && w.app.phase == Disconnected && w.app.engine.child.Some?
  {
    var connected := ConnectedFirst();
    StartInsideDisconnect(connected);
    var half := Four(connected, Issue(1, DOWN), Issue(2, UP), Enter(1), Engage(1));
    w := Four(half, Enter(2), Engage(2), Leave(2), Leave(1));
    ReachesFour(connected, Issue(1, DOWN), Issue(2, UP), Enter(1), Engage(1));
    ReachesFour(half, Enter(2), Engage(2), Leave(2), Leave(1));
    var second, third := [Issue(1, DOWN), Issue(2, UP), Enter(1), Engage(1)], [Enter(2), Engage(2), Leave(2), Leave(1)];
    ReachesThen(connected, second, half, third, w);
    ReachesThen(Boot, [Issue(0, UP), Enter(0), Engage(0), Leave(0)], connected, second + third, w);
  }
}
