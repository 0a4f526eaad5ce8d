/**
 * Terminal output: the colour parser, the mapping to terminal colours, the four
 * line printers and the `Output` value that routes supervisor and child lines
 * to them. A stream is modelled as the sequence of tokens written to it: a
 * colour change, a piece of text, or a colour reset.
 */
module Output {
  import opened Ascii
  import W = Wrappers

  /** `LogColor`: the colour configured for supervisor messages. */
  datatype LogColor = Yellow | Red | Green | Blue | Cyan | Magenta | White | None

  /** The terminal colours the program uses. */
  datatype Color = Yellow | Red | Green | Blue | Cyan | Magenta | White

  /** What a print routine writes to a stream. */
  datatype Token = SetForegroundColor(color: Color) | Text(text: string) | ResetColor

  /** The process's standard output and standard error, as written so far. */
  class Console {
    var stdout: seq<Token>
    var stderr: seq<Token>

    constructor ()
      ensures stdout == [] && stderr == []
    {
      stdout := [];
      stderr := [];
    }
  }

  /** The lower-case command-line name of each colour. */
  function ColorName(c: LogColor): string
  {
    match c
    case Yellow => "yellow"
    case Red => "red"
    case Green => "green"
    case Blue => "blue"
    case Cyan => "cyan"
    case Magenta => "magenta"
    case White => "white"
    case None => "none"
  }

  /** The lower-case name of each terminal colour. */
  function TerminalColorName(c: Color): string
  {
    match c
    case Yellow => "yellow"
    case Red => "red"
    case Green => "green"
    case Blue => "blue"
    case Cyan => "cyan"
    case Magenta => "magenta"
    case White => "white"
  }

  const InvalidColorPrefix := "Invalid color '"
  const SupportedColors := ". Supported: yellow, red, green, blue, cyan, magenta, white, none"

  /** `LogColor::from_str`: case-insensitive colour lookup. */
  function FromStr(s: string): (r: W.Result<LogColor, string>)
    ensures r.Err? ==>
              r.error == InvalidColorPrefix + s + "'" + SupportedColors
  {
    match ToLower(s)
    case "yellow" => W.Ok(LogColor.Yellow)
    case "red" => W.Ok(LogColor.Red)
    case "green" => W.Ok(LogColor.Green)
    case "blue" => W.Ok(LogColor.Blue)
    case "cyan" => W.Ok(LogColor.Cyan)
    case "magenta" => W.Ok(LogColor.Magenta)
    case "white" => W.Ok(LogColor.White)
    case "none" => W.Ok(LogColor.None)
    case _ => W.Err(InvalidColorPrefix + s + "'" + SupportedColors)
  }

  /** `LogColor::to_crossterm_color`. */
  function ToCrosstermColor(c: LogColor): (r: W.Option<Color>)
    ensures r.None? <==> c == LogColor.None
    ensures r.Some? ==> TerminalColorName(r.value) == ColorName(c)
  {
    match c
    case Yellow => W.Some(Color.Yellow)
    case Red => W.Some(Color.Red)
    case Green => W.Some(Color.Green)
    case Blue => W.Some(Color.Blue)
    case Cyan => W.Some(Color.Cyan)
    case Magenta => W.Some(Color.Magenta)
    case White => W.Some(Color.White)
    case None => W.None
  }

  /** What `print_line` and `eprint_line` write: the message and "\r\n". */
  function PlainLine(msg: string): seq<Token>
  {
    [Text(msg + "\r\n")]
  }

  /** What `print_line_colored` and `eprint_line_colored` write. */
  function ColoredLine(msg: string, color: LogColor): seq<Token>
  {
    match ToCrosstermColor(color)
    case Some(c) => [SetForegroundColor(c)] + PlainLine(msg) + [ResetColor]
    case None => PlainLine(msg)
  }

  /** The texts written, in order. */
  function Texts(ts: seq<Token>): seq<string>
  {
    if ts == [] then []
    else (if ts[0].Text? then [ts[0].text] else []) + Texts(ts[1..])
  }

  /** No colour change occurs among the tokens. */
  predicate Uncolored(ts: seq<Token>)
  {
    forall i :: 0 <= i < |ts| ==> !ts[i].SetForegroundColor?
  }

  // ---------------------------------------------------------------------------
  // Print routines

  /** `print_line`. */
  method PrintLine(io: Console, msg: string)
    modifies io
    ensures io.stdout == old(io.stdout) + PlainLine(msg)
    ensures io.stderr == old(io.stderr)
  {
    io.stdout := io.stdout + [Text(msg + "\r\n")];
  }

  /** `eprint_line`. */
  method EPrintLine(io: Console, msg: string)
    modifies io
    ensures io.stderr == old(io.stderr) + PlainLine(msg)
    ensures io.stdout == old(io.stdout)
  {
    io.stderr := io.stderr + [Text(msg + "\r\n")];
  }

  /** `print_line_colored`: colour on, the line, colour off. */
  method PrintLineColored(io: Console, msg: string, color: LogColor)
    modifies io
    ensures io.stdout == old(io.stdout) + ColoredLine(msg, color)
    ensures io.stderr == old(io.stderr)
  {
    var c := ToCrosstermColor(color);
    if c.Some? {
      io.stdout := io.stdout + [SetForegroundColor(c.value)];
    }
    io.stdout := io.stdout + [Text(msg + "\r\n")];
    if ToCrosstermColor(color).Some? {
      io.stdout := io.stdout + [ResetColor];
    }
  }

  /** `eprint_line_colored`: colour on, the line, colour off, on standard error. */
  method EPrintLineColored(io: Console, msg: string, color: LogColor)
    modifies io
    ensures io.stderr == old(io.stderr) + ColoredLine(msg, color)
    ensures io.stdout == old(io.stdout)
  {
    var c := ToCrosstermColor(color);
    if c.Some? {
      io.stderr := io.stderr + [SetForegroundColor(c.value)];
    }
    io.stderr := io.stderr + [Text(msg + "\r\n")];
    if ToCrosstermColor(color).Some? {
      io.stderr := io.stderr + [ResetColor];
    }
  }

  // ---------------------------------------------------------------------------
  // The Output value

  /** The six ways of writing a line. */
  datatype Channel = Log | ELog | Info | EInfo | ForwardStdout | ForwardStderr

  /** Lines of the supervisor itself, as opposed to lines forwarded from the child. */
  predicate IsSupervisorChannel(ch: Channel)
  {
    ch == Log || ch == ELog || ch == Info || ch == EInfo
  }

  /** The channel writes to standard error. */
  predicate ToStderr(ch: Channel)
  {
    ch == ELog || ch == EInfo || ch == ForwardStderr
  }

  /** `Output`: the two configured colours and the silent flag. */
  datatype Output = Output(logColor: LogColor, infoColor: LogColor, silent: bool)
  {
    /** The tokens one write on `ch` appends to its stream. */
    function Emitted(ch: Channel, msg: string): seq<Token>
    {
      if IsSupervisorChannel(ch) && silent then []
      else match ch
        case Log => ColoredLine(msg, logColor)
        case ELog => ColoredLine(msg, logColor)
        case Info => ColoredLine(msg, infoColor)
        case EInfo => ColoredLine(msg, infoColor)
        case ForwardStdout => PlainLine(msg)
        case ForwardStderr => PlainLine(msg)
    }

    /** `Output::log`. */
    method WriteLog(io: Console, msg: string)
      modifies io
      ensures io.stdout == old(io.stdout) + Emitted(Log, msg)
      ensures io.stderr == old(io.stderr)
    {
      if silent {
        return;
      }
      PrintLineColored(io, msg, logColor);
    }

    /** `Output::elog`. */
    method WriteELog(io: Console, msg: string)
      modifies io
      ensures io.stderr == old(io.stderr) + Emitted(ELog, msg)
      ensures io.stdout == old(io.stdout)
    {
      if silent {
        return;
      }
      EPrintLineColored(io, msg, logColor);
    }

    /** `Output::info`. */
    method WriteInfo(io: Console, msg: string)
      modifies io
      ensures io.stdout == old(io.stdout) + Emitted(Info, msg)
      ensures io.stderr == old(io.stderr)
    {
      if silent {
        return;
      }
      PrintLineColored(io, msg, infoColor);
    }

    /** `Output::einfo`. */
    method WriteEInfo(io: Console, msg: string)
      modifies io
      ensures io.stderr == old(io.stderr) + Emitted(EInfo, msg)
      ensures io.stdout == old(io.stdout)
    {
      if silent {
        return;
      }
      EPrintLineColored(io, msg, infoColor);
    }

    /** `Output::forward_stdout`. */
    method ForwardStdoutLine(io: Console, line: string)
      modifies io
      ensures io.stdout == old(io.stdout) + Emitted(ForwardStdout, line)
      ensures io.stderr == old(io.stderr)
    {
      PrintLine(io, line);
    }

    /** `Output::forward_stderr`. */
    method ForwardStderrLine(io: Console, line: string)
      modifies io
      ensures io.stderr == old(io.stderr) + Emitted(ForwardStderr, line)
      ensures io.stdout == old(io.stdout)
    {
      EPrintLine(io, line);
    }
  }

  // ---------------------------------------------------------------------------
  // Properties of colour parsing

  /** A colour name has no upper-case letters. */
  lemma ColorNameIsLower(c: LogColor)
    ensures ToLower(ColorName(c)) == ColorName(c)
  {
  }

  /** `from_str` accepts a string exactly when it is a colour name in some letter case. */
  lemma FromStrAccepts(s: string, c: LogColor)
    ensures FromStr(s) == W.Ok(c) <==> EqualsIgnoringCase(s, ColorName(c))
  {
    FromStrByLower(s, c);
    ColorNameIsLower(c);
    ToLowerMatches(s, ColorName(c));
  }

  /** What `from_str` does, stated on the lower-cased input. */
  lemma FromStrByLower(s: string, c: LogColor)
    ensures FromStr(s) == W.Ok(c) <==> ToLower(s) == ColorName(c)
  {
    var l := ToLower(s);
    match c
    case Yellow => assert FromStr(s) == W.Ok(c) <==> l == "yellow";
    case Red => assert FromStr(s) == W.Ok(c) <==> l == "red";
    case Green => assert FromStr(s) == W.Ok(c) <==> l == "green";
    case Blue => assert FromStr(s) == W.Ok(c) <==> l == "blue";
    case Cyan => assert FromStr(s) == W.Ok(c) <==> l == "cyan";
    case Magenta => assert FromStr(s) == W.Ok(c) <==> l == "magenta";
    case White => assert FromStr(s) == W.Ok(c) <==> l == "white";
    case None => assert FromStr(s) == W.Ok(c) <==> l == "none";
  }

  /** Every other string is rejected, with a message that starts "Invalid color '<s>'". */
  lemma FromStrRejects(s: string)
    ensures FromStr(s).Err? <==> forall c: LogColor :: !EqualsIgnoringCase(s, ColorName(c))
    ensures FromStr(s).Err? ==>
              var msg := FromStr(s).error;
              var quoted := InvalidColorPrefix + s + "'";
              |msg| > |quoted| && msg[..|quoted|] == quoted
  {
    forall c: LogColor ensures FromStr(s) == W.Ok(c) <==> EqualsIgnoringCase(s, ColorName(c)) {
      FromStrAccepts(s, c);
    }
    if FromStr(s).Ok? {
      assert EqualsIgnoringCase(s, ColorName(FromStr(s).value));
    } else {
      var quoted := InvalidColorPrefix + s + "'";
      assert FromStr(s).error == quoted + SupportedColors;
    }
  }

  /** Round trip: parsing the name of a colour gives that colour. */
  lemma FromStrOfName(c: LogColor)
    ensures FromStr(ColorName(c)) == W.Ok(c)
  {
    ColorNameIsLower(c);
  }

  /** `to_crossterm_color` gives no colour exactly for `None`, and distinct colours otherwise. */
  lemma CrosstermColorInjective(c: LogColor, d: LogColor)
    ensures ToCrosstermColor(c).None? <==> c == LogColor.None
    ensures c != d ==> ToCrosstermColor(c) != ToCrosstermColor(d)
  {
  }

  // ---------------------------------------------------------------------------
  // Properties of the line printers

  /**
   * A coloured line is the plain line bracketed by a colour change and a reset
   * if and only if the colour is not `None`; with `None` it is the plain line.
   */
  lemma ColoredLineShape(msg: string, color: LogColor)
    ensures color == LogColor.None ==> ColoredLine(msg, color) == PlainLine(msg)
    ensures color != LogColor.None <==> |ColoredLine(msg, color)| == 3
    ensures color != LogColor.None ==>
              ColoredLine(msg, color)[0] == SetForegroundColor(ToCrosstermColor(color).value) &&
              ColoredLine(msg, color)[1..2] == PlainLine(msg) &&
              ColoredLine(msg, color)[2] == ResetColor
  {
  }

  /** Every printed line carries the message followed by "\r\n", written once. */
  lemma {:induction false} LineTextWrittenOnce(msg: string, color: LogColor)
    ensures Texts(PlainLine(msg)) == [msg + "\r\n"]
    ensures Texts(ColoredLine(msg, color)) == [msg + "\r\n"]
  {
    var p := PlainLine(msg);
    assert Texts(p) == [msg + "\r\n"] + Texts(p[1..]);
    assert p[1..] == [];
    if color != LogColor.None {
      var t := ColoredLine(msg, color);
      assert t[1..][1..] == [ResetColor];
      assert t[1..][1..][1..] == [];
      assert Texts(t[1..][1..]) == [] + Texts(t[1..][1..][1..]);
      assert Texts(t[1..]) == [msg + "\r\n"] + Texts(t[1..][1..]);
      assert Texts(t) == [] + Texts(t[1..]);
    }
  }

  // ---------------------------------------------------------------------------
  // Properties of the Output value

  /** Silent mode suppresses the supervisor channels, and only them. */
  lemma SilentSuppressesSupervisorOnly(o: Output, ch: Channel, msg: string)
    ensures o.Emitted(ch, msg) == [] <==> o.silent && IsSupervisorChannel(ch)
  {
  }

  /** Forwarded child lines are printed verbatim and never coloured, silent or not. */
  lemma ForwardedLinesPlain(o: Output, ch: Channel, msg: string)
    requires !IsSupervisorChannel(ch)
    ensures o.Emitted(ch, msg) == PlainLine(msg)
    ensures Uncolored(o.Emitted(ch, msg))
  {
  }

  /** `log`/`elog` use the log colour and `info`/`einfo` the info colour. */
  lemma SupervisorLineColors(o: Output, ch: Channel, msg: string)
    requires IsSupervisorChannel(ch) && !o.silent
    ensures var color := if ch == Log || ch == ELog then o.logColor else o.infoColor;
            o.Emitted(ch, msg) == ColoredLine(msg, color)
  {
  }

  /** Whatever the channel, a write that is not suppressed adds exactly one line of text. */
  lemma EmittedOneLine(o: Output, ch: Channel, msg: string)
    ensures o.Emitted(ch, msg) != [] ==> Texts(o.Emitted(ch, msg)) == [msg + "\r\n"]
  {
    LineTextWrittenOnce(msg, o.logColor);
    LineTextWrittenOnce(msg, o.infoColor);
  }
}
