/**
 * Signal handling of the supervisor: the restart-signal name parser, the set of
 * signals the handler registers, and the classification of a received signal
 * into a termination or a restart event. Signals are an enumeration, not the
 * platform's signal numbers.
 */
module Signals {
  import opened Wrappers
  import opened Ascii

  /** The signals the handler can see; `SigOther` stands for any other platform signal. */
  datatype Signal = SigInt | SigTerm | SigQuit | SigUsr1 | SigUsr2 | SigHup | SigOther(number: int)

  /** `SignalEvent`: what the supervisor is told about a received signal. */
  datatype SignalEvent = Terminate(name: string) | Restart(name: string)

  /** The registered set of signals; the live OS stream is not modelled. */
  datatype SignalHandler = SignalHandler(registered: set<Signal>)

  /** Why `SignalHandler::new` failed. */
  datatype HandlerError =
    | InvalidRestartSignal(name: string, cause: string)
    | RegistrationFailed(cause: string)

  /** The conventional "SIG..." name of each signal the supervisor knows by name. */
  function CanonicalName(sig: Signal): string
  {
    match sig
    case SigInt => "SIGINT"
    case SigTerm => "SIGTERM"
    case SigQuit => "SIGQUIT"
    case SigUsr1 => "SIGUSR1"
    case SigUsr2 => "SIGUSR2"
    case SigHup => "SIGHUP"
    case SigOther(_) => ""
  }

  /** Signals that end the supervisor. */
  predicate IsTermination(sig: Signal)
  {
    sig == SigInt || sig == SigTerm || sig == SigQuit
  }

  /** Signals that may be configured as the restart signal. */
  predicate IsRestartCandidate(sig: Signal)
  {
    sig == SigUsr1 || sig == SigUsr2 || sig == SigHup
  }

  const UnsupportedPrefix := "Unsupported signal: "

  /** `parse_signal_name`: case-insensitive lookup of the restart signal. */
  function ParseSignalName(name: string): (r: Result<Signal, string>)
    ensures r.Ok? ==> IsRestartCandidate(r.value) && !IsTermination(r.value)
    ensures r.Err? ==> r.error == UnsupportedPrefix + name + ". Supported: SIGUSR1, SIGUSR2, SIGHUP"
  {
    match ToUpper(name)
    case "SIGUSR1" => Ok(SigUsr1)
    case "USR1" => Ok(SigUsr1)
    case "SIGUSR2" => Ok(SigUsr2)
    case "USR2" => Ok(SigUsr2)
    case "SIGHUP" => Ok(SigHup)
    case "HUP" => Ok(SigHup)
    case _ => Err(UnsupportedPrefix + name + ". Supported: SIGUSR1, SIGUSR2, SIGHUP")
  }

  /**
   * `SignalHandler::new`: parse the restart signal, then register the three
   * termination signals and it. `registration` is the OS's answer to the
   * registration (`None` when it succeeds).
   */
  function NewSignalHandler(restartSignalName: string, registration: Option<string>): (r: Result<SignalHandler, HandlerError>)
    ensures ParseSignalName(restartSignalName).Err? ==>
      r == Err(InvalidRestartSignal(restartSignalName, ParseSignalName(restartSignalName).error))
    ensures r.Ok? <==> ParseSignalName(restartSignalName).Ok? && registration.None?
    ensures r.Ok? ==> r.value.registered == {SigInt, SigTerm, SigQuit, ParseSignalName(restartSignalName).value}
  {
    match ParseSignalName(restartSignalName)
    case Err(cause) => Err(InvalidRestartSignal(restartSignalName, cause))
    case Ok(restart) =>
      match registration
      case Some(cause) => Err(RegistrationFailed(cause))
      case None => Ok(SignalHandler({SigInt, SigTerm, SigQuit, restart}))
  }

  /**
   * `SignalHandler::next` after the stream produced `received`
   * (`None` when the stream is exhausted).
   */
  function Next(received: Option<Signal>): (r: Option<SignalEvent>)
    ensures r.None? <==> received.None? || received.value.SigOther?
    ensures r.Some? ==> r.value.name == CanonicalName(received.value)
    ensures r.Some? ==> (r.value.Terminate? <==> IsTermination(received.value))
    ensures r.Some? ==> (r.value.Restart? <==> IsRestartCandidate(received.value))
  {
    match received
    case None => None
    case Some(sig) =>
      match sig
      case SigInt => Some(Terminate("SIGINT"))
      case SigTerm => Some(Terminate("SIGTERM"))
      case SigQuit => Some(Terminate("SIGQUIT"))
      case SigUsr1 => Some(Restart("SIGUSR1"))
      case SigUsr2 => Some(Restart("SIGUSR2"))
      case SigHup => Some(Restart("SIGHUP"))
      case SigOther(_) => None
  }

  // ---------------------------------------------------------------------------
  // Properties of parsing

  /** The accepted names are exactly the six spellings, in any letter case. */
  lemma ParseAcceptsExactly(name: string)
    ensures ParseSignalName(name) == Ok(SigUsr1) <==>
      EqualsIgnoringCase(name, "SIGUSR1") || EqualsIgnoringCase(name, "USR1")
    ensures ParseSignalName(name) == Ok(SigUsr2) <==>
      EqualsIgnoringCase(name, "SIGUSR2") || EqualsIgnoringCase(name, "USR2")
    ensures ParseSignalName(name) == Ok(SigHup) <==>
      EqualsIgnoringCase(name, "SIGHUP") || EqualsIgnoringCase(name, "HUP")
    ensures ParseSignalName(name).Err? <==>
      !(EqualsIgnoringCase(name, "SIGUSR1") || EqualsIgnoringCase(name, "USR1") ||
        EqualsIgnoringCase(name, "SIGUSR2") || EqualsIgnoringCase(name, "USR2") ||
        EqualsIgnoringCase(name, "SIGHUP") || EqualsIgnoringCase(name, "HUP"))
  {
    SpellingMatches(name, "SIGUSR1");
    SpellingMatches(name, "USR1");
    SpellingMatches(name, "SIGUSR2");
    SpellingMatches(name, "USR2");
    SpellingMatches(name, "SIGHUP");
    SpellingMatches(name, "HUP");
    ParseByUpper(name);
  }

  /** What `ParseSignalName` does, stated on the upper-cased input. */
  lemma ParseByUpper(name: string)
    ensures ParseSignalName(name) == Ok(SigUsr1) <==> ToUpper(name) == "SIGUSR1" || ToUpper(name) == "USR1"
    ensures ParseSignalName(name) == Ok(SigUsr2) <==> ToUpper(name) == "SIGUSR2" || ToUpper(name) == "USR2"
    ensures ParseSignalName(name) == Ok(SigHup) <==> ToUpper(name) == "SIGHUP" || ToUpper(name) == "HUP"
    ensures ParseSignalName(name).Ok? <==> ToUpper(name) in {"SIGUSR1", "USR1", "SIGUSR2", "USR2", "SIGHUP", "HUP"}
  {
  }

  /** One accepted spelling: upper-casing `name` gives `t` iff `name` is `t` in some letter case. */
  lemma SpellingMatches(name: string, t: string)
    requires t in {"SIGUSR1", "USR1", "SIGUSR2", "USR2", "SIGHUP", "HUP"}
    ensures ToUpper(name) == t <==> EqualsIgnoringCase(name, t)
  {
    UpperFixed(t);
    ToUpperMatches(name, t);
  }

  /** A word made of capital letters and digits is its own upper-case form. */
  lemma UpperFixed(t: string)
    requires forall i :: 0 <= i < |t| ==> 'A' <= t[i] <= 'Z' || '0' <= t[i] <= '9'
    ensures ToUpper(t) == t
  {
  }

  /** Every rejection message starts with "Unsupported signal: " and echoes the input. */
  lemma RejectionMessage(name: string)
    requires ParseSignalName(name).Err?
    ensures var msg := ParseSignalName(name).error;
      |msg| >= |UnsupportedPrefix| + |name| &&
      msg[..|UnsupportedPrefix|] == UnsupportedPrefix &&
      msg[|UnsupportedPrefix|..|UnsupportedPrefix| + |name|] == name
  {
  }

  /** Parsing a name gives the same signal as parsing its upper-case form. */
  lemma ParseCaseInsensitive(name: string)
    ensures ParseSignalName(ToUpper(name)).Ok? == ParseSignalName(name).Ok?
    ensures ParseSignalName(name).Ok? ==> ParseSignalName(ToUpper(name)).value == ParseSignalName(name).value
  {
    ToUpperIdempotent(name);
  }

  // ---------------------------------------------------------------------------
  // Properties of classification

  /** The terminating signals, and only they, become `Terminate` with their canonical name. */
  lemma TerminateClassification(sig: Signal)
    ensures Next(Some(sig)).Some? && Next(Some(sig)).value.Terminate? <==> IsTermination(sig)
    ensures IsTermination(sig) ==> Next(Some(sig)) == Some(Terminate(CanonicalName(sig)))
  {
  }

  /** The restart candidates, and only they, become `Restart` with their canonical name. */
  lemma RestartClassification(sig: Signal)
    ensures Next(Some(sig)).Some? && Next(Some(sig)).value.Restart? <==> IsRestartCandidate(sig)
    ensures IsRestartCandidate(sig) ==> Next(Some(sig)) == Some(Restart(CanonicalName(sig)))
  {
  }

  /** Unknown signals and the end of the stream produce no event. */
  lemma NoEventClassification(received: Option<Signal>)
    ensures Next(received).None? <==> received.None? || received.value.SigOther?
  {
  }

  /** Every signal the handler registers produces an event; only the restart signal restarts. */
  lemma RegisteredSignalsClassified(name: string, sig: Signal)
    requires NewSignalHandler(name, None).Ok?
    requires sig in NewSignalHandler(name, None).value.registered
    ensures Next(Some(sig)).Some?
    ensures Next(Some(sig)).value.Restart? <==> Ok(sig) == ParseSignalName(name)
    ensures Next(Some(sig)).value.name == CanonicalName(sig)
  {
  }

  /** The handler registers four distinct signals: the restart signal is never a termination signal. */
  lemma RegisteredSetHasFour(name: string)
    requires NewSignalHandler(name, None).Ok?
    ensures |NewSignalHandler(name, None).value.registered| == 4
  {
    var restart := ParseSignalName(name).value;
    assert {SigInt, SigTerm, SigQuit, restart} == {SigInt, SigTerm, SigQuit} + {restart};
    assert restart !in {SigInt, SigTerm, SigQuit};
  }

  /** The name that `u` denotes once the optional "SIG" prefix is supplied. */
  function WithSigPrefix(u: string): string
  {
    if |u| >= 3 && u[..3] == "SIG" then u else "SIG" + u
  }

  lemma PrefixedName(short: string, full: string)
    requires short in {"USR1", "USR2", "HUP"} && full == "SIG" + short
    ensures WithSigPrefix(short) == full
  {
    assert short[0] != 'S' && short[..3][0] == short[0];
  }

  /**
   * Round trip: classifying the parsed restart signal gives `Restart` carrying
   * the accepted name, upper-cased and with the "SIG" prefix (so "usr1" gives
   * Restart("SIGUSR1")).
   */
  lemma ParseThenClassify(name: string)
    requires ParseSignalName(name).Ok?
    ensures Next(Some(ParseSignalName(name).value)) == Some(Restart(WithSigPrefix(ToUpper(name))))
  {
    var u := ToUpper(name);
    ParseByUpper(name);
    if u == "USR1" {
      PrefixedName("USR1", "SIGUSR1");
    } else if u == "USR2" {
      PrefixedName("USR2", "SIGUSR2");
    } else if u == "HUP" {
      PrefixedName("HUP", "SIGHUP");
    } else if u == "SIGUSR1" {
      assert WithSigPrefix(u) == "SIGUSR1";
    } else if u == "SIGUSR2" {
      assert WithSigPrefix(u) == "SIGUSR2";
    } else {
      assert WithSigPrefix(u) == "SIGHUP";
    }
  }
}
