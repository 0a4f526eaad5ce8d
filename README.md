# supi: a verified model of the supervisor core

`supi` is a small process supervisor. It starts a child command and restarts
it on a restart signal (SIGUSR1, SIGUSR2 or SIGHUP) or on a hotkey typed in the
terminal. It stops the child and exits on SIGINT, SIGTERM or SIGQUIT. It can
optionally stop when the child exits by itself. Supervisor messages are
printed in a configurable colour.

This project models four parts of the program in Dafny and proves their
properties:

- `signals.dfy` (module `Signals`): `parse_signal_name`; the classification a
  received signal goes through in `SignalHandler::next`; and the set of
  signals `SignalHandler::new` registers. Signals form an enumerated datatype
  rather than platform numbers.
- `hotkey.dfy` (module `Hotkey`): the background reader loop of
  `HotkeyListener::new`. It is an imperative `while` loop over a finite
  sequence of terminal events. It appends presses to a queue, which models
  the channel, and counts the SIGINTs it sends to its own process.
  `HotkeyListener::next` pops that queue in FIFO order.
- `output.dfy` (module `Output`): `LogColor::from_str`,
  `LogColor::to_crossterm_color`, and the four `print_line*` routines.
  The routines are methods that append tokens to two sequence buffers of a
  `Console` object: set-colour, text, reset-colour. The `Output` value (log
  colour, info colour, silent flag) has the six writing methods.
- `supervisor.dfy` (module `Supervision`): `Supervisor::run`.
  - Its behaviour is first stated as functions. `Start` covers the initial
    spawn, raw mode and the banner. `Step` is one iteration of the `select!`
    loop. `Loop` and `RunSpec` are the whole run.
  - The class `Supervisor` carries the run out with a `while` loop over the
    arrivals. It acts on a `ProcessManager` object and a `Console`.
  - Its `Run` method is proved to leave the manager, the console and the
    result exactly as `RunSpec` says.
  - Lemmas about `RunSpec` state the loop's properties.
- `process.dfy` (module `Process`): the process manager `run` talks to,
  modelled abstractly.
  - `running` is a field. The calls made so far are kept as a trace.
  - The success or failure of each call comes from answer functions given at
    construction, indexed by the call's position in the trace.
  - The only assumptions are these: a successful spawn or restart leaves a
    child running; a successful shutdown or wait leaves none. After a failed
    call, the answer itself says whether a child still runs.
- `ascii.dfy` (module `Ascii`): ASCII case folding, used by both parsers.
- `wrappers.dfy` (module `Wrappers`): `Option`, `Result` and `Unit`.

The `select!` of each loop iteration is given as a sequence of `Arrival`s,
the branch that completed in that iteration:

- a signal from the stream (`None` when the stream is exhausted);
- a hotkey completion (`pressed` false when the channel is closed);
- the child's exit.

A branch whose pattern does not match (`Some(..) = …` receiving `None`) is
disabled by `select!`. That arrival is therefore a no-op. So is a child-exit
arrival while no child runs, because the branch's guard then keeps it
disabled.

## Model

| member | source | states |
|---|---|---|
| Signals.ParseSignalName | src/signals.rs:44-54 | an accepted name is a restart signal, never a termination signal; a rejected one gives "Unsupported signal: <name>. Supported: SIGUSR1, SIGUSR2, SIGHUP" |
| Signals.ParseAcceptsExactly | src/signals.rs:44-54 | the name parses to SIGUSR1, SIGUSR2 or SIGHUP exactly when it equals "SIGUSR1"/"USR1", "SIGUSR2"/"USR2" or "SIGHUP"/"HUP" ignoring letter case, and is rejected exactly when it equals none of the six |
| Signals.RejectionMessage | src/signals.rs:49-52 | every rejection message starts with "Unsupported signal: " followed by the input as given |
| Signals.ParseCaseInsensitive | src/signals.rs:45 | a name and its upper-case form are both accepted or both rejected, and accepted ones give the same signal |
| Signals.NewSignalHandler | src/signals.rs:16-24 | construction fails with the parse error when parsing fails, fails when registration fails, and otherwise registers exactly SIGINT, SIGTERM, SIGQUIT and the parsed restart signal |
| Signals.RegisteredSetHasFour | src/signals.rs:17-21 | the registered set has four distinct members: the restart signal is never one of the termination signals |
| Signals.RegisteredSignalsClassified | src/signals.rs:21-40 | every registered signal yields an event carrying its canonical name, and it is a Restart exactly when it is the parsed restart signal |
| Signals.Next | src/signals.rs:27-41 | no event exactly for an exhausted stream or an unknown signal; otherwise the event carries the signal's canonical name and is Terminate exactly for SIGINT, SIGTERM and SIGQUIT and Restart exactly for SIGUSR1, SIGUSR2 and SIGHUP |
| Signals.TerminateClassification | src/signals.rs:30-32 | SIGINT, SIGTERM and SIGQUIT, and only they, classify as Terminate, carrying "SIGINT", "SIGTERM" or "SIGQUIT" |
| Signals.RestartClassification | src/signals.rs:33-35 | SIGUSR1, SIGUSR2 and SIGHUP, and only they, classify as Restart, carrying their "SIG…" name |
| Signals.NoEventClassification | src/signals.rs:28-40 | there is no event exactly when the stream is exhausted or the signal is none of the six |
| Signals.ParseThenClassify | src/signals.rs:33-48 | classifying a parsed signal gives Restart with the accepted name upper-cased and "SIG"-prefixed ("usr1" gives Restart("SIGUSR1")) |
| Ascii.ToUpper | src/signals.rs:45 | the result has the input's length and upper-cases each character in place (ASCII letters only) |
| Ascii.ToLower | src/output.rs:24 | the result has the input's length and lower-cases each character in place (ASCII letters only) |
| Ascii.ToUpperMatches | src/signals.rs:45 | for a word already in upper case, a string upper-cases to it exactly when it equals it ignoring case |
| Ascii.ToLowerMatches | src/output.rs:24 | for a word already in lower case, a string lower-cases to it exactly when it equals it ignoring case |
| Hotkey.React | src/hotkey.rs:43-73 | an event sends a press exactly when it is the hotkey character with no modifier, interrupts exactly when it is 'c' with exactly Control, and quits exactly when it is a read error; everything else is ignored |
| Hotkey.HotkeyNeedsNoModifiers | src/hotkey.rs:44-59 | a key event is a press exactly when it is the hotkey with no modifier, and an interrupt exactly when it is 'c' with exactly Control |
| Hotkey.OnlyErrorsQuit | src/hotkey.rs:66-72 | only a read error makes the reader quit; non-key events and non-character keys are ignored |
| Hotkey.HotkeyListener.constructor | src/hotkey.rs:42-74 | running the reader queues one press per hotkey event before the first Ctrl+C, read error or failed send; SIGINT is sent once if a Ctrl+C stopped it and otherwise not at all; nothing after the stopping event is examined |
| Hotkey.StopIndex | src/hotkey.rs:42-74 | the reader stops at the first event that is a Ctrl+C, a read error, or a press the dropped receiver refuses, or at the end of the stream |
| Hotkey.LaterEventsNotExamined | src/hotkey.rs:50-69 | once the reader stops inside a stream, events appended after it do not change where it stops |
| Hotkey.PressesMonotone | src/hotkey.rs:44-54 | over a longer prefix of the stream the reader sends at least as many presses, and at most one more per extra event |
| Hotkey.TypedPresses | src/hotkey.rs:44-54 | typing a string without modifiers sends one press per occurrence of the hotkey in it |
| Hotkey.TypedRunsToEnd | src/hotkey.rs:42-74 | plain typing never stops the reader while the receiver lives |
| Hotkey.OtherCharactersIgnored | src/hotkey.rs:70-72 | typing "abc123xyz" with hotkey 'r' sends nothing |
| Hotkey.HotkeyListener.Next | src/hotkey.rs:84-86 | returns the oldest queued press and removes it, or None once the reader has finished and the queue is empty |
| Output.FromStr | src/output.rs:23-38 | a rejected input gives "Invalid color '<input>'. Supported: yellow, red, green, blue, cyan, magenta, white, none" |
| Output.FromStrAccepts | src/output.rs:23-38 | the input parses to a colour exactly when it equals that colour's name ignoring letter case |
| Output.FromStrRejects | src/output.rs:33-36 | the input is rejected exactly when it matches no colour name, and the message starts with "Invalid color '" followed by the input |
| Output.FromStrOfName | src/output.rs:25-32 | parsing each colour's lower-case name gives that colour |
| Output.ToCrosstermColor | src/output.rs:41-52 | there is no terminal colour exactly for None; otherwise the terminal colour has the log colour's name |
| Output.CrosstermColorInjective | src/output.rs:41-52 | there is no terminal colour exactly for None, and distinct log colours map to distinct terminal colours |
| Output.ColoredLineShape | src/output.rs:146-181 | the line is bracketed by set-colour and reset exactly when the colour is not None; with None it equals the plain line |
| Output.LineTextWrittenOnce | src/output.rs:122-181 | plain and coloured lines write the message followed by "\r\n" exactly once |
| Output.PrintLine | src/output.rs:122-131 | appends the plain line to stdout; stderr is unchanged |
| Output.EPrintLine | src/output.rs:134-143 | appends the plain line to stderr; stdout is unchanged |
| Output.PrintLineColored | src/output.rs:146-162 | appends the coloured line to stdout; stderr is unchanged |
| Output.EPrintLineColored | src/output.rs:165-181 | appends the coloured line to stderr; stdout is unchanged |
| Output.Output.WriteLog | src/output.rs:76-81 | appends what the log channel emits to stdout; stderr is unchanged |
| Output.Output.WriteELog | src/output.rs:85-90 | appends what the elog channel emits to stderr; stdout is unchanged |
| Output.Output.WriteInfo | src/output.rs:94-99 | appends what the info channel emits to stdout; stderr is unchanged |
| Output.Output.WriteEInfo | src/output.rs:103-108 | appends what the einfo channel emits to stderr; stdout is unchanged |
| Output.Output.ForwardStdoutLine | src/output.rs:111-113 | appends the forwarded line to stdout; stderr is unchanged |
| Output.Output.ForwardStderrLine | src/output.rs:116-118 | appends the forwarded line to stderr; stdout is unchanged |
| Output.SilentSuppressesSupervisorOnly | src/output.rs:76-118 | a write emits nothing exactly when silent is set and the channel is log, elog, info or einfo |
| Output.ForwardedLinesPlain | src/output.rs:110-118 | forwarded child lines are the plain line, never coloured, silent or not |
| Output.SupervisorLineColors | src/output.rs:76-108 | log and elog use the log colour; info and einfo use the info colour |
| Output.EmittedOneLine | src/output.rs:76-118 | a write that is not suppressed adds exactly one line of text, the message followed by "\r\n" |
| Process.ProcessManager.Spawn | src/supervisor.rs:35 | records a spawn call with the running state before it; a child runs afterwards when it succeeds |
| Process.ProcessManager.Restart | src/supervisor.rs:61 | records a restart call; a child runs afterwards when it succeeds |
| Process.ProcessManager.Shutdown | src/supervisor.rs:55 | records a shutdown call; no child runs afterwards when it succeeds |
| Process.ProcessManager.Wait | src/supervisor.rs:85-86 | records a wait call; no child runs afterwards when the child's exit was collected |
| Supervision.Supervisor.constructor | src/supervisor.rs:17-31 | the supervisor keeps the manager, the signal handler, the hotkey listener (by its key), the stop-on-child-exit flag and the log colour it is given |
| Supervision.Start | src/supervisor.rs:35-46 | the initial spawn is the one call made; a failed spawn returns its error; with a listener, a refused raw mode returns the terminal's error; raw mode is on and the banner is the one line printed exactly when the spawn succeeded, a listener is present and raw mode was accepted |
| Supervision.Step | src/supervisor.rs:49-109 | one iteration makes at most one manager call, only appends to the calls and lines, never prints the banner, and leaves raw mode as it was |
| Supervision.RunSpec | src/supervisor.rs:33-113 | the calls of a run extend the manager's earlier calls, and the first call of the run is spawn |
| Supervision.StepCallOrderly | src/supervisor.rs:58-85 | the call an iteration makes is a spawn only while no child runs, and a restart or wait only while one does |
| Supervision.Supervisor.Run | src/supervisor.rs:33-113 | the manager's running state and call trace, the lines on stdout and stderr, and the returned value are exactly those `RunSpec` gives for the arrivals |
| Supervision.InitialSpawnFirst | src/supervisor.rs:35 | the first call is spawn; if it fails, run returns its error with no line printed and no arrival handled |
| Supervision.HotkeyBannerAfterSpawn | src/supervisor.rs:37-47 | raw mode is switched on exactly when a listener is present, the initial spawn succeeded and the terminal accepted raw mode; the banner is printed exactly then, as the first line, and never again |
| Supervision.TerminateShutsDown | src/supervisor.rs:53-57 | a termination signal prints its notice, calls shutdown and ends the run with Ok or with shutdown's error |
| Supervision.ReturnedIgnoresLater | src/supervisor.rs:48-112 | once run has returned, later arrivals change nothing |
| Supervision.RestartSignalLikeHotkey | src/supervisor.rs:58-82 | a restart signal and a hotkey press make the same call: restart when a child runs, spawn when none does; the loop goes on exactly when that call succeeds, with a child running |
| Supervision.NoListenerNoHotkey | src/supervisor.rs:70-75 | without a listener the run is that of the arrivals with every hotkey completion removed |
| Supervision.IdleArrivals | src/supervisor.rs:49-85 | an exhausted stream, an unclassified signal, a closed hotkey channel, and a child exit while no child runs all leave the state unchanged |
| Supervision.ChildExitHandling | src/supervisor.rs:85-107 | a child exit makes one wait call; on a clean exit the run ends with Ok under stop-on-child-exit and otherwise goes on with no further call; a wait error ends the run with Ok |
| Supervision.LoopDisciplined | src/supervisor.rs:58-85 | every iteration keeps the discipline: spawn only while no child runs; restart and wait only while one does |
| Supervision.SpawnOnlyWithoutChild | src/supervisor.rs:33-85 | on a manager with no child, the whole run keeps that discipline |
| Supervision.LoopExtends | src/supervisor.rs:48-110 | the loop only appends calls and lines, never prints the banner, leaves raw mode alone, and does not change a result once run has returned |
| Supervision.StopOnChildExitRun | src/supervisor.rs:85-92 | with stop-on-child-exit, a child exiting by itself gives one spawn, one wait, and Ok |
| Supervision.ThreeRestartSignals | src/supervisor.rs:58-61 | three SIGUSR1 signals while the child runs give three restarts, and the loop goes on |

## Left out

- Process manager: `src/process.rs` is a stub in which every method fails. It has no `is_running` and no `wait`, which `src/supervisor.rs` calls at lines 60, 77 and 85. The model's manager is therefore an assumption, kept to the smallest one `run` needs; process groups, the grace period and force-kill are not modelled.
- Restart debounce: the command line has a debounce interval, but `src/supervisor.rs` never reads it and contains no gate, so the model has none either.
- Concurrency: `tokio::select!`, `tokio::spawn`, the mpsc channel and the signal stream become given sequences. There is no interleaving. When several branches are ready, which one completes is part of the given arrivals.
- `select!` cancellation: the `wait` future of a branch that did not complete is dropped. The model records a wait call only when its branch completes.
- The `select!` panic when every branch is disabled is not modelled. The arrivals simply run out, and the run is then `StillWaiting`.
- Order of effects: the model records the lines printed and the manager calls, each in their own order. It does not record how the two interleave.
- Output plumbing: the `OUTPUT_LOCK` mutex, the ANSI escape bytes `crossterm::execute!` writes, and `flush` are not modelled. Writes are token appends.
- Terminal state: raw mode is one flag in the supervisor's state. The `TerminalCleanup` drop guard that switches it off is not modelled.
- `HotkeyListener::new` enables raw mode itself (`src/hotkey.rs:34`). There are no `enable_raw_mode` or `hotkey` methods on the listener, although `src/supervisor.rs:40` and `src/supervisor.rs:44` call them. The model follows `supervisor.rs`: raw mode is switched on after the initial spawn, and the terminal's answer is a parameter of `Run`.
- Hotkey reader: the constructor runs the background reader over the whole given event stream at once. `Next` then returns `None` on an empty queue, because by then the reader has finished and the sender is dropped. A `Next` that waits for a press still to come is not modelled.
- Hotkey events: the key event's kind and state fields are ignored, as the source's patterns ignore them. `nix::signal::kill` is counted, not performed.
- Silent mode: `src/supervisor.rs` prints its lines through the `sprintln_colored!` and `seprintln_colored!` macros, not through `Output`. Silent mode therefore does not suppress them, in the model as in the code.
- `src/cli.rs` and `src/main.rs` are not part of this model. Their calls to `ProcessManager::new` and `Supervisor::new` do not match the arities in `src/process.rs:9` and `src/supervisor.rs:17-23`; the model follows `supervisor.rs`.
- Case folding: Rust's `to_uppercase` and `to_lowercase` are Unicode-aware. The model folds ASCII letters only, so it describes ASCII input. For example, Rust accepts "ſigusr1", with U+017F, and the model does not.
- Signals are an enumerated datatype, not platform signal numbers.
- A child's exit status is carried as its display string.
- Signals.ParseCaseInsensitive: only acceptance and the signal are the same for a name and its upper-case form. The rejection message echoes the input as given, so the two error values differ.
- `SignalHandler::new` errors: the `anyhow` context texts ("Invalid restart signal: <name>", "Failed to create signal handler") are represented by the two `HandlerError` variants, which keep the name and the cause; the texts themselves are not rendered.
- Arrivals are taken as given and may include sequences the program cannot produce: a signal outside the registered set (SIGHUP arriving under a SIGUSR1 handler is treated as a restart signal), or a signal after the stream has ended. The supervisor's `signalHandler` field is kept, as `Supervisor::new` stores it, but `Run` does not read it. Every property holds for all arrival sequences, so it holds for the ones the program can produce.
