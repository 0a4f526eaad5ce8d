/**
 * The supervisor's event loop. `RunSpec` states, as functions, what
 * `Supervisor::run` does with a sequence of arrivals (the branch the `select!`
 * takes in each iteration); the class `Supervisor` carries it out against a
 * `ProcessManager` and a console and is proved to agree with `RunSpec`; the
 * lemmas at the end state the properties of `RunSpec`.
 */
module Supervision {
  import opened Wrappers
  import S = Signals
  import P = Process
  import O = Output

  /**
   * What the `select!` in one iteration of the loop completed with: the
   * signal stream yielded a signal (`None` once it is exhausted); the hotkey
   * branch completed with a press (`pressed`) or with a closed channel; or
   * the child's `wait` completed.
   */
  datatype Arrival =
    | SignalNext(received: Option<S.Signal>)
    | HotkeyNext(pressed: bool)
    | ChildExited

  /** The lines the supervisor prints. */
  datatype Notice =
    | HotkeyActive(key: char)
    | ReceivedTerminate(signal: string)
    | ReceivedRestart(signal: string)
    | NotRunningStarting
    | HotkeyRestarting
    | ChildExitedWith(status: string)
    | StoppingOnChildExit
    | SupervisorContinues
    | HintWithHotkey
    | HintWithoutHotkey
    | WaitFailed(message: string)

  function NoticeText(n: Notice): string
  {
    match n
    case HotkeyActive(key) => "[supi] Hotkey listener active: press '" + [key] + "' to restart"
    case ReceivedTerminate(signal) => "[supi] Received " + signal + " signal, shutting down..."
    case ReceivedRestart(signal) => "[supi] Received " + signal + " signal"
    case NotRunningStarting => "[supi] Child process not running, starting..."
    case HotkeyRestarting => "[supi] Hotkey pressed, restarting..."
    case ChildExitedWith(status) => "[supi] Child process exited with status: " + status
    case StoppingOnChildExit => "[supi] Exiting (--stop-on-child-exit is set)"
    case SupervisorContinues => "[supi] Child process exited, but supervisor continues running"
    case HintWithHotkey => "[supi] (Press Ctrl+C to exit, or press hotkey/send restart signal to restart)"
    case HintWithoutHotkey => "[supi] (Press Ctrl+C to exit, or send restart signal to restart)"
    case WaitFailed(message) => "[supi] Error waiting for child process: " + message
  }

  /** Only the wait error is printed on standard error. */
  predicate OnStderr(n: Notice)
  {
    n.WaitFailed?
  }

  /** The tokens the notices put on standard output, in order. */
  function StdoutLines(ns: seq<Notice>, color: O.LogColor): seq<O.Token>
  {
    if ns == [] then []
    else
      var last := ns[|ns| - 1];
      StdoutLines(ns[..|ns| - 1], color) + (if OnStderr(last) then [] else O.ColoredLine(NoticeText(last), color))
  }

  /** The tokens the notices put on standard error, in order. */
  function StderrLines(ns: seq<Notice>, color: O.LogColor): seq<O.Token>
  {
    if ns == [] then []
    else
      var last := ns[|ns| - 1];
      StderrLines(ns[..|ns| - 1], color) + (if OnStderr(last) then O.ColoredLine(NoticeText(last), color) else [])
  }

  /** Printing one more notice appends its line to the stream it belongs to. */
  lemma LinesOfAppended(ns: seq<Notice>, n: Notice, color: O.LogColor)
    ensures StdoutLines(ns + [n], color) ==
            StdoutLines(ns, color) + (if OnStderr(n) then [] else O.ColoredLine(NoticeText(n), color))
    ensures StderrLines(ns + [n], color) ==
            StderrLines(ns, color) + (if OnStderr(n) then O.ColoredLine(NoticeText(n), color) else [])
  {
    assert (ns + [n])[..|ns|] == ns;
  }

  /**
   * Concatenation regrouped. Stated on plain sequences, it stays cheap; asserted
   * directly on the notice lines, the solver unfolds the notice texts.
   */
  lemma Regroup<T>(a: seq<T>, b: seq<T>, c: seq<T>)
    ensures a + b + c == a + (b + c)
  {
  }

  /** Printing one more notice appends its line to the stream it belongs to. */
  lemma NoticeLands(out0: seq<O.Token>, err0: seq<O.Token>, out: seq<O.Token>, err: seq<O.Token>,
                    ns: seq<Notice>, n: Notice, color: O.LogColor)
    requires out == out0 + StdoutLines(ns, color) && err == err0 + StderrLines(ns, color)
    ensures OnStderr(n) ==>
              out == out0 + StdoutLines(ns + [n], color) &&
              err + O.ColoredLine(NoticeText(n), color) == err0 + StderrLines(ns + [n], color)
    ensures !OnStderr(n) ==>
              out + O.ColoredLine(NoticeText(n), color) == out0 + StdoutLines(ns + [n], color) &&
              err == err0 + StderrLines(ns + [n], color)
  {
    LinesOfAppended(ns, n, color);
    var line := O.ColoredLine(NoticeText(n), color);
    if OnStderr(n) {
      assert StdoutLines(ns + [n], color) == StdoutLines(ns, color) + [];
      Regroup(err0, StderrLines(ns, color), line);
    } else {
      assert StderrLines(ns + [n], color) == StderrLines(ns, color) + [];
      Regroup(out0, StdoutLines(ns, color), line);
    }
  }

  /** Why `run` returned an error. */
  datatype RunError = ManagerFailure(error: P.ManagerError) | TerminalFailure(message: string)

  /** The supervisor's configuration: the hotkey listener (by its key, if there is one), the flag and the colour. */
  datatype Config = Config(hotkey: Option<char>, stopOnChildExit: bool, logColor: O.LogColor)

  /** The process manager's answers, as in `ProcessManager`. */
  datatype Env = Env(replies: nat -> P.OpReply, waits: nat -> P.WaitReply)

  /**
   * The state of a run: whether a child is running, the calls made on the
   * manager, the lines printed, whether raw mode was switched on, and the
   * value `run` returns once it has returned.
   */
  datatype Machine = Machine(
    running: bool,
    trace: seq<P.Call>,
    notices: seq<Notice>,
    rawMode: bool,
    exit: Option<Result<Unit, RunError>>)

  function Say(m: Machine, n: Notice): Machine
  {
    m.(notices := m.notices + [n])
  }

  /** Call `op` (spawn, restart or shutdown) and propagate its error with `?`. */
  function Invoke(env: Env, m: Machine, op: P.Op): (m': Machine)
    requires op != P.Wait
  {
    var r := env.replies(|m.trace|);
    m.(running := P.RunningAfter(op, r),
       trace := m.trace + [P.Call(op, m.running, r.OpOk?)],
       exit := if r.OpErr? then Some(Err(ManagerFailure(r.error))) else m.exit)
  }

  /** A restart signal or a hotkey press: restart a running child, or spawn one. */
  function Trigger(env: Env, m: Machine): Machine
  {
    if m.running then Invoke(env, m, P.Restart)
    else Invoke(env, Say(m, NotRunningStarting), P.Spawn)
  }

  /**
   * One iteration of the loop. It makes at most one call on the manager, only
   * adds lines, never the banner, and leaves raw mode alone.
   */
  function Step(cfg: Config, env: Env, m: Machine, a: Arrival): (m': Machine)
    ensures |m.trace| <= |m'.trace| <= |m.trace| + 1 && m'.trace[..|m.trace|] == m.trace
    ensures |m.notices| <= |m'.notices| && m'.notices[..|m.notices|] == m.notices
    ensures m'.rawMode == m.rawMode
    ensures forall i :: |m.notices| <= i < |m'.notices| ==> !m'.notices[i].HotkeyActive?
  {
    match a
    case SignalNext(received) =>
      (match S.Next(received)
       case None => m
       case Some(ev) =>
         if ev.Terminate? then
           var m1 := Invoke(env, Say(m, ReceivedTerminate(ev.name)), P.Shutdown);
           if m1.exit.None? then m1.(exit := Some(Ok(Unit))) else m1
         else Trigger(env, Say(m, ReceivedRestart(ev.name))))
    case HotkeyNext(pressed) =>
      if cfg.hotkey.None? || !pressed then m
      else Trigger(env, Say(m, HotkeyRestarting))
    case ChildExited =>
      if !m.running then m
      else
        var w := env.waits(|m.trace|);
        var m1 := m.(running := P.RunningAfterWait(w), trace := m.trace + [P.Call(P.Wait, true, w.Exited?)]);
        match w
        case WaitErr(e, _) => Say(m1, WaitFailed(e.message)).(exit := Some(Ok(Unit)))
        case Exited(status) =>
          var m2 := Say(m1, ChildExitedWith(status));
          if cfg.stopOnChildExit then Say(m2, StoppingOnChildExit).(exit := Some(Ok(Unit)))
          else Say(Say(m2, SupervisorContinues), if cfg.hotkey.Some? then HintWithHotkey else HintWithoutHotkey)
  }

  /** The loop, until `run` returns or the arrivals run out. */
  function Loop(cfg: Config, env: Env, m: Machine, arrivals: seq<Arrival>): Machine
    decreases |arrivals|
  {
    if m.exit.Some? || arrivals == [] then m
    else Loop(cfg, env, Step(cfg, env, m, arrivals[0]), arrivals[1..])
  }

  /**
   * Before the loop: the initial spawn, then raw mode and the banner when there
   * is a hotkey listener. `rawMode` is the terminal's answer to enabling raw
   * mode (`None` when it succeeds).
   */
  function Start(cfg: Config, env: Env, m: Machine, rawMode: Option<string>): (m': Machine)
    ensures m'.trace == m.trace + [P.Call(P.Spawn, m.running, env.replies(|m.trace|).OpOk?)]
    ensures m.exit.None? ==>
              var spawned := env.replies(|m.trace|).OpOk?;
              var shown := spawned && cfg.hotkey.Some? && rawMode.None?;
              && (m'.rawMode <==> m.rawMode || shown)
              && m'.notices == m.notices + (if shown then [HotkeyActive(cfg.hotkey.value)] else [])
              && (m'.exit.None? <==> shown || (spawned && cfg.hotkey.None?))
              && (!spawned ==> m'.exit == Some(Err(ManagerFailure(env.replies(|m.trace|).error))))
              && (spawned && cfg.hotkey.Some? && rawMode.Some? ==> m'.exit == Some(Err(TerminalFailure(rawMode.value))))
  {
    var m1 := Invoke(env, m, P.Spawn);
    if m1.exit.Some? then m1
    else match cfg.hotkey
      case None => m1
      case Some(key) =>
        match rawMode
        case Some(err) => m1.(exit := Some(Err(TerminalFailure(err))))
        case None => Say(m1.(rawMode := true), HotkeyActive(key))
  }

  /** `Supervisor::run` on a manager in state (`running0`, `trace0`), given the arrivals. */
  function RunSpec(cfg: Config, env: Env, running0: bool, trace0: seq<P.Call>, rawMode: Option<string>,
                   arrivals: seq<Arrival>): (m: Machine)
    ensures |m.trace| > |trace0| && m.trace[..|trace0|] == trace0
    ensures m.trace[|trace0|] == P.Call(P.Spawn, running0, env.replies(|trace0|).OpOk?)
  {
    var s := Start(cfg, env, Machine(running0, trace0, [], false, None), rawMode);
    LoopExtends(cfg, env, s, arrivals);
    var m := Loop(cfg, env, s, arrivals);
    assert m.trace[..|s.trace|][|trace0|] == s.trace[|trace0|];
    assert m.trace[..|trace0|] == m.trace[..|s.trace|][..|trace0|];
    m
  }

  /** How a run ends: `run` returned, or it is still waiting when the arrivals run out. */
  datatype RunOutcome = Returned(result: Result<Unit, RunError>) | StillWaiting

  function OutcomeOf(m: Machine): RunOutcome
  {
    if m.exit.Some? then Returned(m.exit.value) else StillWaiting
  }

  /** `Supervisor`. */
  class Supervisor {
    const processManager: P.ProcessManager
    const signalHandler: S.SignalHandler
    const hotkey: Option<char>
    const stopOnChildExit: bool
    const logColor: O.LogColor

    constructor (processManager: P.ProcessManager, signalHandler: S.SignalHandler, hotkey: Option<char>,
                 stopOnChildExit: bool, logColor: O.LogColor)
      ensures this.processManager == processManager && this.signalHandler == signalHandler
      ensures this.hotkey == hotkey && this.stopOnChildExit == stopOnChildExit && this.logColor == logColor
    {
      this.processManager := processManager;
      this.signalHandler := signalHandler;
      this.hotkey := hotkey;
      this.stopOnChildExit := stopOnChildExit;
      this.logColor := logColor;
    }

    function Cfg(): Config
    {
      Config(hotkey, stopOnChildExit, logColor)
    }

    function Environment(): Env
    {
      Env(processManager.replies, processManager.waits)
    }

    /** The manager is in the state the machine records. */
    ghost predicate Tracks(m: Machine)
      reads processManager
    {
      processManager.running == m.running && processManager.trace == m.trace
    }

    /** The console holds what it held before the run, followed by the machine's notices. */
    ghost predicate Shows(io: O.Console, out0: seq<O.Token>, err0: seq<O.Token>, m: Machine)
      reads io
    {
      io.stdout == out0 + StdoutLines(m.notices, logColor) && io.stderr == err0 + StderrLines(m.notices, logColor)
    }

    /**
     * `Supervisor::run`, given the arrivals the `select!` completes with and
     * the terminal's answer to enabling raw mode.
     */
    method Run(arrivals: seq<Arrival>, rawMode: Option<string>, io: O.Console) returns (outcome: RunOutcome)
      modifies processManager, io
      ensures var m := RunSpec(Cfg(), Environment(), old(processManager.running), old(processManager.trace),
                               rawMode, arrivals);
              && processManager.running == m.running && processManager.trace == m.trace
              && outcome == OutcomeOf(m)
              && io.stdout == old(io.stdout) + StdoutLines(m.notices, logColor)
              && io.stderr == old(io.stderr) + StderrLines(m.notices, logColor)
    {
      ghost var out0, err0 := io.stdout, io.stderr;
      ghost var spec := RunSpec(Cfg(), Environment(), processManager.running, processManager.trace, rawMode, arrivals);
      ghost var m := Machine(processManager.running, processManager.trace, [], false, None);
      var exit;
      exit, m := Begin(rawMode, io, out0, err0, m);
      if exit.Some? {
        return Returned(exit.value);
      }
      var i := 0;
      while i < |arrivals|
        invariant i <= |arrivals|
        invariant m.exit.None?
        invariant Loop(Cfg(), Environment(), m, arrivals[i..]) == spec
        invariant Tracks(m) && Shows(io, out0, err0, m)
      {
        assert arrivals[i..][1..] == arrivals[i + 1..];
        exit, m := Handle(arrivals[i], io, out0, err0, m);
        if exit.Some? {
          return Returned(exit.value);
        }
        i := i + 1;
      }
      return StillWaiting;
    }

    /** The code before the loop. */
    method Begin(rawMode: Option<string>, io: O.Console, ghost out0: seq<O.Token>, ghost err0: seq<O.Token>,
                 ghost m: Machine) returns (exit: Option<Result<Unit, RunError>>, ghost m': Machine)
      requires m.notices == [] && !m.rawMode && m.exit.None?
      requires Tracks(m) && Shows(io, out0, err0, m)
      modifies processManager, io
      ensures m' == Start(Cfg(), Environment(), m, rawMode) && exit == m'.exit
      ensures Tracks(m') && Shows(io, out0, err0, m')
    {
      var failure;
      failure, m' := Perform(P.Spawn, m);
      if failure.Some? {
        return Some(Err(ManagerFailure(failure.value))), m';
      }
      if hotkey.Some? {
        if rawMode.Some? {
          m' := m'.(exit := Some(Err(TerminalFailure(rawMode.value))));
          return Some(Err(TerminalFailure(rawMode.value))), m';
        }
        m' := m'.(rawMode := true);
        m' := Announce(HotkeyActive(hotkey.value), io, out0, err0, m');
      }
      exit := None;
    }

    /** One iteration of the loop. */
    method Handle(a: Arrival, io: O.Console, ghost out0: seq<O.Token>, ghost err0: seq<O.Token>,
                  ghost m: Machine) returns (exit: Option<Result<Unit, RunError>>, ghost m': Machine)
      requires m.exit.None?
      requires Tracks(m) && Shows(io, out0, err0, m)
      modifies processManager, io
      ensures m' == Step(Cfg(), Environment(), m, a) && exit == m'.exit
      ensures Tracks(m') && Shows(io, out0, err0, m')
    {
      m' := m;
      exit := None;
      match a {
        case SignalNext(received) =>
          var event := S.Next(received);
          if event.Some? && event.value.Terminate? {
            m' := Announce(ReceivedTerminate(event.value.name), io, out0, err0, m');
            var failure;
            failure, m' := Perform(P.Shutdown, m');
            if failure.None? {
              m' := m'.(exit := Some(Ok(Unit)));
              exit := Some(Ok(Unit));
            } else {
              exit := Some(Err(ManagerFailure(failure.value)));
            }
          } else if event.Some? {
            m' := Announce(ReceivedRestart(event.value.name), io, out0, err0, m');
            exit, m' := RestartOrSpawn(io, out0, err0, m');
          }
        case HotkeyNext(pressed) =>
          if hotkey.Some? && pressed {
            m' := Announce(HotkeyRestarting, io, out0, err0, m');
            exit, m' := RestartOrSpawn(io, out0, err0, m');
          }
        case ChildExited =>
          if processManager.IsRunning() {
            var w := processManager.Wait();
            m' := m'.(running := P.RunningAfterWait(w), trace := m'.trace + [P.Call(P.Wait, true, w.Exited?)]);
            match w {
              case WaitErr(e, _) =>
                m' := Announce(WaitFailed(e.message), io, out0, err0, m');
                m' := m'.(exit := Some(Ok(Unit)));
                exit := Some(Ok(Unit));
              case Exited(status) =>
                m' := Announce(ChildExitedWith(status), io, out0, err0, m');
                if stopOnChildExit {
                  m' := Announce(StoppingOnChildExit, io, out0, err0, m');
                  m' := m'.(exit := Some(Ok(Unit)));
                  exit := Some(Ok(Unit));
                } else {
                  m' := Announce(SupervisorContinues, io, out0, err0, m');
                  if hotkey.Some? {
                    m' := Announce(HintWithHotkey, io, out0, err0, m');
                  } else {
                    m' := Announce(HintWithoutHotkey, io, out0, err0, m');
                  }
                }
            }
          }
      }
    }

    /** The shared handling of a restart signal and a hotkey press. */
    method RestartOrSpawn(io: O.Console, ghost out0: seq<O.Token>, ghost err0: seq<O.Token>,
                          ghost m: Machine) returns (exit: Option<Result<Unit, RunError>>, ghost m': Machine)
      requires m.exit.None?
      requires Tracks(m) && Shows(io, out0, err0, m)
      modifies processManager, io
      ensures m' == Trigger(Environment(), m) && exit == m'.exit
      ensures Tracks(m') && Shows(io, out0, err0, m')
    {
      var failure;
      if processManager.IsRunning() {
        failure, m' := Perform(P.Restart, m);
      } else {
        m' := Announce(NotRunningStarting, io, out0, err0, m);
        failure, m' := Perform(P.Spawn, m');
      }
      exit := if failure.Some? then Some(Err(ManagerFailure(failure.value))) else None;
    }

    /** Call `op` on the manager; `failure` is its error, if any. */
    method Perform(op: P.Op, ghost m: Machine) returns (failure: Option<P.ManagerError>, ghost m': Machine)
      requires op != P.Wait
      requires Tracks(m)
      modifies processManager
      ensures m' == Invoke(Environment(), m, op) && Tracks(m')
      ensures failure.Some? <==> Environment().replies(|m.trace|).OpErr?
      ensures failure.Some? ==> failure.value == Environment().replies(|m.trace|).error
    {
      var r;
      match op {
        case Spawn => r := processManager.Spawn();
        case Restart => r := processManager.Restart();
        case Shutdown => r := processManager.Shutdown();
      }
      failure := if r.OpErr? then Some(r.error) else None;
      m' := Invoke(Environment(), m, op);
    }

    /** Print a notice in the log colour, on the stream it belongs to. */
    method Announce(n: Notice, io: O.Console, ghost out0: seq<O.Token>, ghost err0: seq<O.Token>,
                    ghost m: Machine) returns (ghost m': Machine)
      requires Shows(io, out0, err0, m)
      modifies io
      ensures m' == Say(m, n) && Shows(io, out0, err0, m')
    {
      var text := NoticeText(n);
      NoticeLands(out0, err0, io.stdout, io.stderr, m.notices, n, logColor);
      if OnStderr(n) {
        O.EPrintLineColored(io, text, logColor);
      } else {
        O.PrintLineColored(io, text, logColor);
      }
      m' := Say(m, n);
    }
  }

  // ---------------------------------------------------------------------------
  // Properties of the loop

  /** Spawn only without a child; restart and wait only with one. */
  predicate Disciplined(calls: seq<P.Call>)
  {
    forall i :: 0 <= i < |calls| ==> Orderly(calls[i])
  }

  /** One call keeps the discipline. */
  predicate Orderly(c: P.Call)
  {
    (c.op == P.Spawn ==> !c.wasRunning) && (c.op == P.Restart ==> c.wasRunning) && (c.op == P.Wait ==> c.wasRunning)
  }

  /** The arrivals other than hotkey completions. */
  function WithoutHotkey(arrivals: seq<Arrival>): (r: seq<Arrival>)
    ensures forall i :: 0 <= i < |r| ==> !r[i].HotkeyNext?
  {
    if arrivals == [] then []
    else (if arrivals[0].HotkeyNext? then [] else [arrivals[0]]) + WithoutHotkey(arrivals[1..])
  }

  /** The loop only adds calls and lines, never the banner, and stops for good once `run` returned. */
  lemma {:induction false} LoopExtends(cfg: Config, env: Env, m: Machine, arrivals: seq<Arrival>)
    ensures var m' := Loop(cfg, env, m, arrivals);
            && |m.trace| <= |m'.trace| && m'.trace[..|m.trace|] == m.trace
            && |m.notices| <= |m'.notices| && m'.notices[..|m.notices|] == m.notices
            && m'.rawMode == m.rawMode
            && (forall i :: |m.notices| <= i < |m'.notices| ==> !m'.notices[i].HotkeyActive?)
            && (m.exit.Some? ==> m' == m)
    decreases |arrivals|
  {
    if m.exit.None? && arrivals != [] {
      var m1 := Step(cfg, env, m, arrivals[0]);
      LoopExtends(cfg, env, m1, arrivals[1..]);
      var m' := Loop(cfg, env, m1, arrivals[1..]);
      assert m'.trace[..|m.trace|] == m'.trace[..|m1.trace|][..|m.trace|];
      assert m'.notices[..|m.notices|] == m'.notices[..|m1.notices|][..|m.notices|];
      forall i | |m.notices| <= i < |m'.notices| ensures !m'.notices[i].HotkeyActive? {
        if i < |m1.notices| {
          assert m'.notices[i] == m'.notices[..|m1.notices|][i] == m1.notices[i];
        }
      }
    }
  }

  /** `run` calls `spawn` before anything else; if it fails, `run` returns its error and handles no arrival. */
  lemma InitialSpawnFirst(cfg: Config, env: Env, running0: bool, trace0: seq<P.Call>, rawMode: Option<string>,
                          arrivals: seq<Arrival>)
    ensures var m := RunSpec(cfg, env, running0, trace0, rawMode, arrivals);
            && |m.trace| > |trace0| && m.trace[..|trace0|] == trace0
            && m.trace[|trace0|] == P.Call(P.Spawn, running0, env.replies(|trace0|).OpOk?)
    ensures var r := env.replies(|trace0|);
            r.OpErr? ==> RunSpec(cfg, env, running0, trace0, rawMode, arrivals) ==
                         Machine(r.runningAfter, trace0 + [P.Call(P.Spawn, running0, false)], [], false,
                                 Some(Err(ManagerFailure(r.error))))
  {
    var s := Start(cfg, env, Machine(running0, trace0, [], false, None), rawMode);
    LoopExtends(cfg, env, s, arrivals);
    var m := RunSpec(cfg, env, running0, trace0, rawMode, arrivals);
    assert m.trace[..|s.trace|][|trace0|] == s.trace[|trace0|];
    assert m.trace[..|trace0|] == m.trace[..|s.trace|][..|trace0|];
  }

  /**
   * Raw mode is switched on exactly when there is a hotkey listener, the
   * initial spawn succeeded and the terminal accepted raw mode; the banner is
   * shown, as the first line, exactly then, and never again.
   */
  lemma HotkeyBannerAfterSpawn(cfg: Config, env: Env, running0: bool, trace0: seq<P.Call>, rawMode: Option<string>,
                               arrivals: seq<Arrival>)
    ensures var m := RunSpec(cfg, env, running0, trace0, rawMode, arrivals);
            m.rawMode <==> cfg.hotkey.Some? && env.replies(|trace0|).OpOk? && rawMode.None?
    ensures var m := RunSpec(cfg, env, running0, trace0, rawMode, arrivals);
            var shown := cfg.hotkey.Some? && env.replies(|trace0|).OpOk? && rawMode.None?;
            && (shown ==> |m.notices| > 0 && m.notices[0] == HotkeyActive(cfg.hotkey.value))
            && (forall i :: 0 <= i < |m.notices| && m.notices[i].HotkeyActive? ==> shown && i == 0)
  {
    var s := Start(cfg, env, Machine(running0, trace0, [], false, None), rawMode);
    LoopExtends(cfg, env, s, arrivals);
    var m := RunSpec(cfg, env, running0, trace0, rawMode, arrivals);
    if |s.notices| > 0 {
      assert m.notices[0] == m.notices[..|s.notices|][0];
    }
  }

  /** A termination signal shuts the child down and ends the loop with shutdown's result. */
  lemma TerminateShutsDown(cfg: Config, env: Env, m: Machine, sig: S.Signal)
    requires m.exit.None? && S.IsTermination(sig)
    ensures var m' := Step(cfg, env, m, SignalNext(Some(sig)));
            var r := env.replies(|m.trace|);
            && m'.trace == m.trace + [P.Call(P.Shutdown, m.running, r.OpOk?)]
            && m'.exit == Some(if r.OpOk? then Ok(Unit) else Err(ManagerFailure(r.error)))
            && m'.notices == m.notices + [ReceivedTerminate(S.CanonicalName(sig))]
  {
  }

  /** Once `run` has returned, later arrivals are never handled. */
  lemma {:induction false} ReturnedIgnoresLater(cfg: Config, env: Env, m: Machine, arrivals: seq<Arrival>,
                                                later: seq<Arrival>)
    requires Loop(cfg, env, m, arrivals).exit.Some?
    ensures Loop(cfg, env, m, arrivals + later) == Loop(cfg, env, m, arrivals)
    decreases |arrivals|
  {
    if m.exit.None? {
      assert arrivals != [];
      assert (arrivals + later)[1..] == arrivals[1..] + later;
      ReturnedIgnoresLater(cfg, env, Step(cfg, env, m, arrivals[0]), arrivals[1..], later);
    }
  }

  /**
   * A restart signal and a hotkey press are handled alike: restart when a
   * child runs, spawn when none does; the loop goes on exactly when that call succeeds.
   */
  lemma RestartSignalLikeHotkey(cfg: Config, env: Env, m: Machine, sig: S.Signal)
    requires m.exit.None? && cfg.hotkey.Some? && S.IsRestartCandidate(sig)
    ensures var bySignal := Step(cfg, env, m, SignalNext(Some(sig)));
            var byKey := Step(cfg, env, m, HotkeyNext(true));
            && bySignal.running == byKey.running && bySignal.trace == byKey.trace && bySignal.exit == byKey.exit
    ensures var m' := Step(cfg, env, m, SignalNext(Some(sig)));
            var r := env.replies(|m.trace|);
            && m'.trace == m.trace + [P.Call(if m.running then P.Restart else P.Spawn, m.running, r.OpOk?)]
            && (m'.exit.None? <==> r.OpOk?)
            && (r.OpOk? ==> m'.running)
  {
  }

  /** Without a hotkey listener, hotkey completions change nothing: the run is that of the other arrivals. */
  lemma {:induction false} NoListenerNoHotkey(cfg: Config, env: Env, m: Machine, arrivals: seq<Arrival>)
    requires cfg.hotkey.None?
    ensures Loop(cfg, env, m, arrivals) == Loop(cfg, env, m, WithoutHotkey(arrivals))
    decreases |arrivals|
  {
    if arrivals != [] && m.exit.None? {
      var rest := arrivals[1..];
      if arrivals[0].HotkeyNext? {
        assert Step(cfg, env, m, arrivals[0]) == m;
        assert WithoutHotkey(arrivals) == [] + WithoutHotkey(rest);
        assert WithoutHotkey(arrivals) == WithoutHotkey(rest);
        assert Loop(cfg, env, m, arrivals) == Loop(cfg, env, m, rest);
        NoListenerNoHotkey(cfg, env, m, rest);
      } else {
        NoListenerNoHotkey(cfg, env, Step(cfg, env, m, arrivals[0]), rest);
        assert WithoutHotkey(arrivals) == [arrivals[0]] + WithoutHotkey(rest);
        assert WithoutHotkey(arrivals)[1..] == WithoutHotkey(rest);
      }
    }
  }

  /** Arrivals that complete no branch leave the state as it is. */
  lemma IdleArrivals(cfg: Config, env: Env, m: Machine, number: int)
    ensures Step(cfg, env, m, SignalNext(None)) == m
    ensures Step(cfg, env, m, SignalNext(Some(S.SigOther(number)))) == m
    ensures Step(cfg, env, m, HotkeyNext(false)) == m
    ensures !m.running ==> Step(cfg, env, m, ChildExited) == m
  {
  }

  /**
   * A child exit, while a child runs: one wait call; on a clean exit either
   * the run ends with `Ok` (stop on child exit) or the loop goes on with no
   * other call; a wait error ends the run with `Ok`.
   */
  lemma ChildExitHandling(cfg: Config, env: Env, m: Machine)
    requires m.exit.None? && m.running
    ensures var m' := Step(cfg, env, m, ChildExited);
            var w := env.waits(|m.trace|);
            && m'.trace == m.trace + [P.Call(P.Wait, true, w.Exited?)]
            && (w.Exited? ==> !m'.running && m'.exit == (if cfg.stopOnChildExit then Some(Ok(Unit)) else None))
            && (w.WaitErr? ==> m'.exit == Some(Ok(Unit)))
  {
  }

  /** One iteration keeps the call discipline. */
  lemma StepDisciplined(cfg: Config, env: Env, m: Machine, a: Arrival, from: nat)
    requires from <= |m.trace| && Disciplined(m.trace[from..])
    ensures var m' := Step(cfg, env, m, a);
            from <= |m'.trace| && Disciplined(m'.trace[from..])
  {
    var m' := Step(cfg, env, m, a);
    if |m'.trace| > |m.trace| {
      StepCallOrderly(cfg, env, m, a);
    }
    OrderlyExtension(m.trace, m'.trace, from);
  }

  /** A trace extended by at most one orderly call stays disciplined. */
  lemma OrderlyExtension(calls: seq<P.Call>, calls': seq<P.Call>, from: nat)
    requires from <= |calls| <= |calls'| <= |calls| + 1 && calls'[..|calls|] == calls
    requires Disciplined(calls[from..])
    requires |calls'| > |calls| ==> Orderly(calls'[|calls|])
    ensures Disciplined(calls'[from..])
  {
    if |calls'| > |calls| {
      assert calls'[from..] == calls[from..] + [calls'[|calls|]];
    } else {
      assert calls' == calls;
    }
  }

  /** The call an iteration makes, if any, keeps the discipline. */
  lemma StepCallOrderly(cfg: Config, env: Env, m: Machine, a: Arrival)
    requires |Step(cfg, env, m, a).trace| > |m.trace|
    ensures Orderly(Step(cfg, env, m, a).trace[|m.trace|])
  {
    match a
    case SignalNext(received) =>
    case HotkeyNext(pressed) =>
    case ChildExited =>
  }

  /** The loop keeps the call discipline. */
  lemma {:induction false} LoopDisciplined(cfg: Config, env: Env, m: Machine, arrivals: seq<Arrival>, from: nat)
    requires from <= |m.trace| && Disciplined(m.trace[from..])
    ensures var m' := Loop(cfg, env, m, arrivals);
            from <= |m'.trace| && Disciplined(m'.trace[from..])
    decreases |arrivals|
  {
    if m.exit.None? && arrivals != [] {
      StepDisciplined(cfg, env, m, arrivals[0], from);
      LoopDisciplined(cfg, env, Step(cfg, env, m, arrivals[0]), arrivals[1..], from);
    }
  }

  /**
   * On a manager with no child, `run` calls `spawn` only while no child runs,
   * and `restart` and `wait` only while one does.
   */
  lemma SpawnOnlyWithoutChild(cfg: Config, env: Env, trace0: seq<P.Call>, rawMode: Option<string>,
                              arrivals: seq<Arrival>)
    ensures var m := RunSpec(cfg, env, false, trace0, rawMode, arrivals);
            |trace0| <= |m.trace| && Disciplined(m.trace[|trace0|..])
  {
    var s := Start(cfg, env, Machine(false, trace0, [], false, None), rawMode);
    assert s.trace[|trace0|..] == [P.Call(P.Spawn, false, env.replies(|trace0|).OpOk?)];
    LoopDisciplined(cfg, env, s, arrivals, |trace0|);
  }

  // ---------------------------------------------------------------------------
  // Two runs worked through

  /** Every call succeeds and the child exits with status 0. */
  function AllSucceed(): Env
  {
    Env((_: nat) => P.OpOk, (_: nat) => P.Exited("exit status: 0"))
  }

  /**
   * With stop on child exit, a child that exits by itself: one spawn, one wait,
   * and `run` returns `Ok`.
   */
  lemma StopOnChildExitRun()
    ensures var m := RunSpec(Config(None, true, O.LogColor.Yellow), AllSucceed(), false, [], None, [ChildExited]);
            && m.trace == [P.Call(P.Spawn, false, true), P.Call(P.Wait, true, true)]
            && m.exit == Some(Ok(Unit))
  {
    var cfg := Config(None, true, O.LogColor.Yellow);
    var s := Start(cfg, AllSucceed(), Machine(false, [], [], false, None), None);
    assert s.trace == [P.Call(P.Spawn, false, true)] && s.running && s.exit.None?;
    assert Loop(cfg, AllSucceed(), s, [ChildExited]) ==
           Loop(cfg, AllSucceed(), Step(cfg, AllSucceed(), s, ChildExited), []);
  }

  /** Three restart signals while the child runs: three restarts, and the loop goes on. */
  lemma ThreeRestartSignals()
    ensures var usr1 := SignalNext(Some(S.SigUsr1));
            var m := RunSpec(Config(Some('r'), false, O.LogColor.Yellow), AllSucceed(), false, [], None, [usr1, usr1, usr1]);
            && m.trace == [P.Call(P.Spawn, false, true), P.Call(P.Restart, true, true),
                           P.Call(P.Restart, true, true), P.Call(P.Restart, true, true)]
            && m.exit.None? && m.running
  {
    var usr1 := SignalNext(Some(S.SigUsr1));
    var cfg := Config(Some('r'), false, O.LogColor.Yellow);
    var env := AllSucceed();
    var s := Start(cfg, env, Machine(false, [], [], false, None), None);
    var s1 := Step(cfg, env, s, usr1);
    var s2 := Step(cfg, env, s1, usr1);
    var s3 := Step(cfg, env, s2, usr1);
    assert [usr1, usr1, usr1][1..] == [usr1, usr1];
    assert [usr1, usr1][1..] == [usr1];
    assert Loop(cfg, env, s3, []) == s3;
  }
}
