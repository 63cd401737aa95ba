/** The engine object and the `connect` and `disconnect` commands around it. */
module Plugin {
  import opened Words
  import opened Sequences
  import opened Engine

  class SingBoxEngine {
    var child: Option<nat>
    var olcrtc: Option<u16>
    var windowsJob: bool
    var stats: Option<nat>
    ghost var owned: set<nat>
    ghost var polling: set<nat>
    var serial: nat

    ghost function View(): State
      reads this
    {
      State(child, olcrtc, windowsJob, stats, owned, polling, serial)
    }

    constructor ()
      ensures View() == Idle
    {
      child, olcrtc, windowsJob, stats, owned, polling, serial := None, None, false, None, {}, {}, 0;
    }

    method StopStatsPolling()
      modifies this`stats, this`polling
      ensures View() == AbortStats(old(View()))
    {
      if stats.Some? {
        polling := polling - {stats.value};
        stats := None;
      }
    }

    method StartStatsPolling()
      modifies this`stats, this`polling, this`serial
      ensures stats == Some(old(serial)) && serial == old(serial) + 1
      ensures polling == AbortStats(old(View())).polling + {old(serial)}
    {
      StopStatsPolling();
      var task := serial;
      serial := serial + 1;
      polling := polling + {task};
      stats := Some(task);
    }

    /** `start_desktop`, with the fate its environment has in store for it. */
    method StartDesktop(fate: StartFate, port: Option<u16>, attachesJob: bool) returns (result: Result)
      requires Consistent(View())
      modifies this
      ensures (View(), result) == Atomic(old(View()), Start(fate, port, attachesJob))
      ensures Consistent(View())
    {
      if child.Some? {
        return AlreadyRunning;
      }
      if fate.PreflightFails? || (port.Some? && port != Some(0) && olcrtc == port) || fate.SpawnFails? {
        return StartFailed;
      }
      var process := serial;
      serial := serial + 1;
      owned := owned + {process};
      if attachesJob {
        windowsJob := true;
      }
      if fate.NeverReady? {
        owned := owned - {process};
        return StartFailed;
      }
      if fate.ExitsEarly? {
        windowsJob := false;
        owned := owned - {process};
        return StartFailed;
      }
      child := Some(process);
      olcrtc := port;
      StartStatsPolling();
      assert owned == {process} && polling == {process + 1};
      result := Started;
    }

    /** `stop_desktop`: the child is taken out first, so no failure can leave it behind. */
    method StopDesktop(fate: StopFate) returns (result: Result)
      requires Consistent(View())
      modifies this
      ensures (View(), result) == Atomic(old(View()), Stop(fate))
      ensures Consistent(View())
    {
      StopStatsPolling();
      if child == None {
        windowsJob := false;
        return if fate.CleanupFails? then StopFailed else NotRunning;
      }
      var process := child.value;
      child := None;
      owned := owned - {process};
      assert owned == {} && polling == {};
      if fate.KillTimesOut? {
        return StopFailed;
      }
      olcrtc := None;
      windowsJob := false;
      result := if fate.Stops? then StoppedOk else StopFailed;
    }
  }

  // ----- the commands

  datatype Phase = Disconnected | Connecting | Connected | Disconnecting | Failed

  datatype App = App(phase: Phase, engine: State)

  /** The lock sections of `connect` around the engine call. */
  function ConnectBegins(a: App): (App, bool) {
    if a.phase.Connected? || a.phase.Connecting? then (a, false) else (a.(phase := Connecting), true)
  }

  function ConnectEnds(a: App, r: Result): App {
    a.(phase := if r == Started then Connected else Failed)
  }

  /** The lock sections of `disconnect`; a failed stop leaves the phase as it is. */
  function DisconnectBegins(a: App): App {
    a.(phase := Disconnecting)
  }

  function DisconnectEnds(a: App, r: Result): App {
    if r == StoppedOk then a.(phase := Disconnected) else a
  }

  function Run(a: App, c: Command): App {
    match c
    case Start(_, _, _) =>
      var (begun, go) := ConnectBegins(a);
      if !go then a
      else
        var (engine, r) := Atomic(begun.engine, c);
        ConnectEnds(begun.(engine := engine), r)
    case Stop(_) =>
      var begun := DisconnectBegins(a);
      var (engine, r) := Atomic(begun.engine, c);
      DisconnectEnds(begun.(engine := engine), r)
  }

  function RunAll(commands: seq<Command>): App {
    if commands == [] then App(Disconnected, Idle) else Run(RunAll(Front(commands)), Last(commands))
  }

  /** Over every run of commands that do not overlap, failures included: the phase is `Connected`
      exactly when a core process is held, and no command leaves `Connecting` behind. */
  lemma {:induction false} ConnectedMeansChild(commands: seq<Command>)
    ensures var a := RunAll(commands);
      && (a.phase.Connected? <==> a.engine.child.Some?)
      && !a.phase.Connecting?
      && Consistent(a.engine)
    decreases |commands|
  {
    if commands != [] {
      ConnectedMeansChild(Front(commands));
      AtomicConsistent(RunAll(Front(commands)).engine, Last(commands));
    }
  }

  /** The commands that get as far as the engine. */
  function Passed(commands: seq<Command>): seq<Command> {
    if commands == [] then []
    else
      Passed(Front(commands))
      + if Last(commands).Start? && !ConnectBegins(RunAll(Front(commands))).1 then [] else [Last(commands)]
  }

  lemma {:induction false} EngineAfter(commands: seq<Command>)
    ensures RunAll(commands).engine == Serial(Passed(commands)).0
    decreases |commands|
  {
    if commands != [] {
      EngineAfter(Front(commands));
      var before := Passed(Front(commands));
      assert before + [] == before;
      assert Front(before + [Last(commands)]) == before && Last(before + [Last(commands)]) == Last(commands);
    }
  }

  /** After any such run a `connect` whose engine would come up ends in `Connected` exactly unless the
      plugin is not connected and its OLC RTC port is not 0 and one that a timed-out stop left taken. */
  lemma ConnectPossibleExactly(commands: seq<Command>, port: Option<u16>, attachesJob: bool)
    ensures RunAll(commands + [Start(ComesUp, port, attachesJob)]).phase == Connected
       <==> !(RunAll(commands).phase != Connected && port.Some? && port.value != 0 && LeftOn(Passed(commands), port.value))
  {
    var all := commands + [Start(ComesUp, port, attachesJob)];
    assert Front(all) == commands && Last(all) == Start(ComesUp, port, attachesJob);
    var a := RunAll(commands);
    assert RunAll(all) == Run(a, Start(ComesUp, port, attachesJob));
    ConnectedMeansChild(commands);
    EngineAfter(commands);
    if a.phase != Connected {
      assert a.engine.child == None;
      if port.Some? {
        OlcrtcLeftBehindExactly(Passed(commands), port.value);
      }
    }
  }

  class VpnState {
    var phase: Phase
    const engine: SingBoxEngine

    constructor ()
      ensures fresh(engine) && View() == App(Disconnected, Idle)
    {
      phase := Disconnected;
      engine := new SingBoxEngine();
    }

    ghost function View(): App
      reads this, engine
    {
      App(phase, engine.View())
    }

    method Connect(fate: StartFate, port: Option<u16>, attachesJob: bool) returns (result: Result)
      requires Consistent(engine.View())
      modifies this, engine
      ensures View() == Run(old(View()), Start(fate, port, attachesJob))
      ensures result == if old(phase).Connected? || old(phase).Connecting? then AlreadyRunning
                        else Atomic(old(engine.View()), Start(fate, port, attachesJob)).1
    {
      if phase.Connected? || phase.Connecting? {
        return AlreadyRunning;
      }
      phase := Connecting;
      result := engine.StartDesktop(fate, port, attachesJob);
      if result == Started {
        phase := Connected;
      } else {
        phase := Failed;
      }
    }

    method Disconnect(fate: StopFate) returns (result: Result)
      requires Consistent(engine.View())
      modifies this, engine
      ensures View() == Run(old(View()), Stop(fate))
      ensures result == Atomic(old(engine.View()), Stop(fate)).1
    {
      phase := Disconnecting;
      result := engine.StopDesktop(fate);
      if result == StoppedOk {
        phase := Disconnected;
      }
    }
  }
}
