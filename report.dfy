/** The plain-text (non-terminal) branch of the `report` module: errors and
    statuses written to standard error as lines. The stream is a buffer of
    the writes made to it, one entry per `writeln!`. */
module Report {
  import opened Wrappers
  import opened Text
  import opened Errors
  import Chains

  // ---------------------------------------------------------------------
  // Line formats

  /** The index of the first `c` in `s`, or `|s|` when there is none. */
  function IndexOf(s: string, c: char): (i: nat)
    ensures i <= |s|
    ensures i < |s| ==> s[i] == c
    ensures forall j :: 0 <= j < i ==> s[j] != c
  {
    if s == [] then 0
    else if s[0] == c then 0
    else 1 + IndexOf(s[1..], c)
  }

  /** `format_line` without colour: `title: msg` and a newline. */
  function FormatLine(title: string, msg: string): string
  {
    title + ": " + msg + "\n"
  }

  /** Reading a written line back: the title is everything up to the first
      colon, which must be followed by a space; the line ends in a newline. */
  function ParseLine(line: string): (r: Option<(string, string)>)
  {
    var i := IndexOf(line, ':');
    if i + 2 <= |line| && line[i + 1] == ' ' && line[|line| - 1] == '\n' && i + 2 <= |line| - 1
    then Some((line[..i], line[i + 2..|line| - 1]))
    else None
  }

  /** A line whose title has no colon reads back as its title and message:
      distinct (title, message) pairs never print the same line. */
  lemma LineRoundTrip(title: string, msg: string)
    requires ':' !in title
    ensures ParseLine(FormatLine(title, msg)) == Some((title, msg))
  {
    var line := FormatLine(title, msg);
    var n := |title|;
    assert line[n] == ':' && line[n + 1] == ' ';
    assert forall j :: 0 <= j < n ==> line[j] == title[j];
    assert IndexOf(line, ':') == n;
    assert line[..n] == title;
    assert line[n + 2..|line| - 1] == msg;
  }

  /** `format_status` without colour: the title right-justified in twelve
      columns (never cut), a space, the message and a newline. */
  function FormatStatus(title: string, msg: string): (line: string)
    ensures var w := Max(|title|, 12);
      |line| == w + |msg| + 2
      && line[w - |title|..w] == title
      && (forall i :: 0 <= i < w - |title| ==> line[i] == ' ')
      && line[w..] == " " + msg + "\n"
  {
    PadLeft(title, 12) + " " + msg + "\n"
  }

  /** A title of twelve columns or more is written as it is. */
  lemma LongStatusUncut(title: string, msg: string)
    requires |title| >= 12
    ensures FormatStatus(title, msg) == title + " " + msg + "\n"
  {
    var line := FormatStatus(title, msg);
    assert line[..|title|] == title;
    assert line == line[..|title|] + line[|title|..];
  }

  // ---------------------------------------------------------------------
  // `str::lines`

  /** The piece before a line break, with the `\r` of a `\r\n` pair removed. */
  function LinePiece(s: string, n: nat): (p: string)
    requires n <= |s|
    requires forall j :: 0 <= j < n ==> s[j] != '\n'
    ensures '\n' !in p
    ensures p == s[..n] || (n < |s| && n > 0 && s[n - 1] == '\r' && p == s[..n - 1])
  {
    var p := if n < |s| && n > 0 && s[n - 1] == '\r' then s[..n - 1] else s[..n];
    assert forall j :: 0 <= j < |p| ==> p[j] == s[j];
    p
  }

  /** `str::lines`: split on `\n`, a `\r\n` counting as one break; a final
      break ends the last line rather than starting an empty one. */
  function Lines(s: string): (r: seq<string>)
    decreases |s|
    ensures r == [] <==> s == ""
    ensures forall i :: 0 <= i < |r| ==> '\n' !in r[i]
  {
    if s == "" then []
    else
      var n := IndexOf(s, '\n');
      var rest := if n < |s| then Lines(s[n + 1..]) else [];
      var r := [LinePiece(s, n)] + rest;
      assert forall i :: 1 <= i < |r| ==> r[i] == rest[i - 1];
      r
  }

  /** A non-empty text without a line break is one line. */
  lemma OneLine(m: string)
    requires m != "" && '\n' !in m
    ensures Lines(m) == [m]
  {
    assert IndexOf(m, '\n') == |m|;
    assert m[..|m|] == m;
  }

  /** Whatever precedes the last break, the last line is what follows it. */
  lemma {:induction false} LastLineAfterBreak(h: string, m: string)
    requires m != "" && '\n' !in m
    ensures var r := Lines(h + "\n" + m); |r| > 0 && r[|r| - 1] == m
    decreases |h|
  {
    var s := h + "\n" + m;
    var n := IndexOf(s, '\n');
    if n == |h| {
      assert s[n + 1..] == m;
      OneLine(m);
    } else {
      assert n < |h| by {
        assert s[|h|] == '\n';
      }
      assert s[n + 1..] == h[n + 1..] + "\n" + m;
      LastLineAfterBreak(h[n + 1..], m);
    }
  }

  /** A final line break only ends the last line: it adds no empty line, so
      `"a\n"` has the one line `"a"`. */
  lemma OneLineEnded(m: string)
    requires m != "" && '\n' !in m && m[|m| - 1] != '\r'
    ensures Lines(m + "\n") == [m]
  {
    var t := m + "\n";
    assert IndexOf(t, '\n') == |m| by {
      assert forall j :: 0 <= j < |m| ==> t[j] == m[j];
    }
    assert t[..|m|] == m;
    assert t[|m| + 1..] == "";
  }

  /** Whatever precedes the last break, the last line of a text that ends in
      a break is the one the break ends. */
  lemma {:induction false} LastLineBeforeFinalBreak(h: string, m: string)
    requires m != "" && '\n' !in m && m[|m| - 1] != '\r'
    ensures var r := Lines(h + "\n" + m + "\n"); |r| > 0 && r[|r| - 1] == m
    decreases |h|
  {
    var s := h + "\n" + m + "\n";
    var n := IndexOf(s, '\n');
    if n == |h| {
      assert s[n + 1..] == m + "\n";
      OneLineEnded(m);
    } else {
      assert n < |h| by {
        assert s[|h|] == '\n';
      }
      assert s[n + 1..] == h[n + 1..] + "\n" + m + "\n";
      LastLineBeforeFinalBreak(h[n + 1..], m);
    }
  }

  /** The newest of a stack of single-line help messages is the last line of
      their joined text. */
  lemma LastOfJoined(msgs: seq<string>)
    requires |msgs| > 0
    requires forall i :: 0 <= i < |msgs| ==> '\n' !in msgs[i]
    requires msgs[|msgs| - 1] != ""
    ensures var r := Lines(JoinLines(msgs)); |r| > 0 && r[|r| - 1] == msgs[|msgs| - 1]
  {
    if |msgs| == 1 {
      OneLine(msgs[0]);
    } else {
      LastLineAfterBreak(JoinLines(msgs[..|msgs| - 1]), msgs[|msgs| - 1]);
    }
  }

  // ---------------------------------------------------------------------
  // What each report writes

  /** The writes a report makes, and whether it panicked after them. */
  datatype Printed = Printed(writes: seq<string>, panicked: bool)

  /** `format_error_title`. */
  function TitleLine(display: string): string
  {
    FormatLine("error", display)
  }

  /** `format_error_causes`: one `cause` line for each link after the first. */
  function CauseLines(view: seq<Link>): (r: seq<string>)
    ensures |view| > 0 ==> |r| == |view| - 1
    ensures |view| == 0 ==> r == []
    ensures forall i :: 0 <= i < |r| ==> r[i] == FormatLine("cause", LinkDisplay(view[i + 1]))
  {
    if |view| == 0 then [] else LinkLines(view[1..])
  }

  /** A `cause` line per link, in order. */
  function LinkLines(links: seq<Link>): (r: seq<string>)
    decreases |links|
    ensures |r| == |links|
    ensures forall i :: 0 <= i < |r| ==> r[i] == FormatLine("cause", LinkDisplay(links[i]))
  {
    if links == [] then []
    else LinkLines(links[..|links| - 1]) + [FormatLine("cause", LinkDisplay(links[|links| - 1]))]
  }

  /** `format_error_help`: a blank line and the last line of the help; no
      help writes nothing; help without a line panics. */
  function QuietHelp(help: Option<string>): Printed
  {
    match help
    case None => Printed([], false)
    case Some(h) =>
      var ls := Lines(h);
      if ls == [] then Printed([], true) else Printed(["\n" + ls[|ls| - 1] + "\n"], false)
  }

  /** `format_error_help_all`: a blank line and the whole help. */
  function FullHelp(help: Option<string>): seq<string>
  {
    match help
    case None => []
    case Some(h) => ["\n" + h + "\n"]
  }

  /** `err`. */
  function ErrReport(e: ErrorValue): Printed
  {
    var help := QuietHelp(HelpText(e.help));
    Printed([TitleLine(ErrorDisplay(e))] + help.writes, help.panicked)
  }

  /** `err_full`. */
  function ErrFullReport(e: ErrorValue): seq<string>
  {
    [TitleLine(ErrorDisplay(e))] + CauseLines(ChainView(e.inner)) + FullHelp(HelpText(e.help))
  }

  /** `anyhow_err`. */
  function AnyhowErrReport(a: Anyhow): seq<string>
  {
    [TitleLine(AnyhowDisplay(a))]
  }

  /** `anyhow_err_full`. */
  function AnyhowErrFullReport(a: Anyhow): seq<string>
  {
    [TitleLine(AnyhowDisplay(a))] + CauseLines(ChainView(a))
  }

  // ---------------------------------------------------------------------
  // Properties of the reports

  /** Without help, `err` writes exactly the title line of the error's own
      message and does not panic. */
  lemma ErrWithoutHelp(e: ErrorValue)
    requires e.help == None
    ensures ErrReport(e) == Printed(["error: " + AnyhowDisplay(e.inner) + "\n"], false)
  {
    assert "error" + ": " == "error: ";
  }

  /** `err` panics exactly when the help is the empty string. */
  lemma ErrPanicsOnEmptyHelp(e: ErrorValue)
    ensures ErrReport(e).panicked <==> HelpText(e.help) == Some("")
  {
  }

  /** With help, `err` writes the title and then a blank line and the last
      line of the help: two writes. */
  lemma ErrShowsLastHelpLine(e: ErrorValue)
    requires e.help.Some? && e.help.value.text != ""
    ensures var ls := Lines(e.help.value.text);
      |ls| > 0 && !ErrReport(e).panicked
      && ErrReport(e).writes == [TitleLine(ErrorDisplay(e)), "\n" + ls[|ls| - 1] + "\n"]
  {
  }

  /** With stacked single-line help, the quiet report's help line is the
      newest message. */
  lemma ErrShowsNewestHelp(e: ErrorValue, msgs: seq<string>)
    requires e.help == None && |msgs| > 0
    requires forall i :: 0 <= i < |msgs| ==> '\n' !in msgs[i]
    requires msgs[|msgs| - 1] != ""
    ensures var p := ErrReport(AddHelps(e, msgs));
      !p.panicked && |p.writes| == 2 && p.writes[1] == "\n" + msgs[|msgs| - 1] + "\n"
  {
    AddHelpsJoin(e, msgs);
    LastOfJoined(msgs);
  }

  /** The title is the `Display` of the error, which already carries the
      help: a report of an error with help repeats the help in its title. */
  lemma TitleRepeatsHelp(e: ErrorValue)
    requires e.help.Some?
    ensures ErrReport(e).writes[0] == "error: " + AnyhowDisplay(e.inner) + "\n\n" + e.help.value.text + "\n"
    ensures ErrFullReport(e)[0] == ErrReport(e).writes[0]
  {
  }

  /** `err_full` writes one line per link of the chain, then the help block;
      the cause lines follow the chain from its second link on. */
  lemma ErrFullShape(e: ErrorValue)
    requires |e.inner.layers| > 0
    ensures var r := ErrFullReport(e); var view := ChainView(e.inner);
      |r| == |view| + (if e.help.Some? then 1 else 0)
      && r[0] == TitleLine(ErrorDisplay(e))
      && (forall i :: 1 <= i < |view| ==> r[i] == "cause: " + LinkDisplay(view[i]) + "\n")
      && (e.help.Some? ==> r[|r| - 1] == "\n" + e.help.value.text + "\n")
  {
    var r := ErrFullReport(e);
    var view := ChainView(e.inner);
    var causes := CauseLines(view);
    var tail := FullHelp(HelpText(e.help));
    assert r == [TitleLine(ErrorDisplay(e))] + causes + tail;
    assert |causes| == |view| - 1;
    assert e.help.Some? ==> tail == ["\n" + e.help.value.text + "\n"];
    forall i | 1 <= i < |view|
      ensures r[i] == "cause: " + LinkDisplay(view[i]) + "\n"
    {
      assert r[i] == causes[i - 1];
    }
  }

  /** The anyhow reports are the narrate reports of the same chain with the
      help taken away: they never print help. */
  lemma AnyhowReportsHaveNoHelp(e: ErrorValue)
    ensures AnyhowErrReport(e.inner) == ErrReport(e.(help := None)).writes
    ensures AnyhowErrFullReport(e.inner) == ErrFullReport(e.(help := None))
  {
  }

  /** Only the full anyhow report prints causes: the quiet one is one line,
      the full one a line per link. */
  lemma AnyhowFullAddsCauses(a: Anyhow)
    requires |a.layers| > 0
    ensures |AnyhowErrReport(a)| == 1
    ensures |AnyhowErrFullReport(a)| == |ChainView(a)|
    ensures AnyhowErrFullReport(a)[..1] == AnyhowErrReport(a)
  {
  }

  // ---------------------------------------------------------------------
  // The stream and the report procedures

  /** Standard error, as the sequence of writes made to it. */
  class Stderr {
    var writes: seq<string>

    constructor ()
      ensures writes == []
    {
      writes := [];
    }

    /** One `write!`/`writeln!` of already formatted text. */
    method Write(text: string)
      modifies this
      ensures writes == old(writes) + [text]
    {
      writes := writes + [text];
    }
  }

  /** `format_error_causes`. */
  method FormatErrorCauses(a: Anyhow, f: Stderr)
    modifies f
    ensures f.writes == old(f.writes) + CauseLines(ChainView(a))
  {
    WriteCauses(ChainView(a), f);
  }

  /** The loop of `format_error_causes` over the links `chain()` yields:
      skip the first, then a `cause` line for each one after it. */
  method WriteCauses(view: seq<Link>, f: Stderr)
    modifies f
    ensures f.writes == old(f.writes) + CauseLines(view)
  {
    ghost var causes := if view == [] then [] else view[1..];
    ghost var start := f.writes;
    var chain := new Chains.Chain.Over(view);
    var _ := chain.Next();
    ghost var k := 0;
    while true
      invariant chain.Valid() && 0 <= k <= |causes|
      invariant chain.Remaining() == causes[k..]
      invariant f.writes == start + LinkLines(causes[..k])
      decreases |chain.Remaining()|
    {
      var cause := chain.Next();
      if cause.None? {
        break;
      }
      LinkLinesStep(causes, k);
      f.Write(FormatLine("cause", LinkDisplay(cause.value)));
      k := k + 1;
    }
    CauseLinesSkipFirst(view, causes, k);
  }

  /** One more link of `links` adds its `cause` line. */
  lemma LinkLinesStep(links: seq<Link>, k: nat)
    requires k < |links|
    ensures LinkLines(links[..k + 1]) == LinkLines(links[..k]) + [FormatLine("cause", LinkDisplay(links[k]))]
  {
    assert links[..k + 1][..k] == links[..k];
  }

  /** Once every link after the first has its line, those are the cause lines. */
  lemma CauseLinesSkipFirst(view: seq<Link>, causes: seq<Link>, k: nat)
    requires causes == (if view == [] then [] else view[1..])
    requires k <= |causes| && causes[k..] == []
    ensures LinkLines(causes[..k]) == CauseLines(view)
  {
    assert causes[..k] == causes;
  }

  /** `err`: returns whether the help lookup panicked. */
  method Err(err: Errors.Error, f: Stderr) returns (panicked: bool)
    modifies f
    ensures f.writes == old(f.writes) + ErrReport(err.Value()).writes
    ensures panicked == ErrReport(err.Value()).panicked
  {
    f.Write(TitleLine(err.Display()));
    panicked := false;
    match err.Help() {
      case None =>
      case Some(help) =>
        var ls := Lines(help);
        if ls == [] {
          panicked := true;
        } else {
          f.Write("\n" + ls[|ls| - 1] + "\n");
        }
    }
  }

  /** `err_full`. */
  method ErrFull(err: Errors.Error, f: Stderr)
    modifies f
    ensures f.writes == old(f.writes) + ErrFullReport(err.Value())
  {
    ghost var v := err.Value();
    ghost var before := f.writes;
    var title := TitleLine(err.Display());
    var help := err.Help();
    assert help == HelpText(v.help);
    ghost var causes := CauseLines(ChainView(v.inner));
    ghost var tail := FullHelp(help);
    f.Write(title);
    FormatErrorCauses(err.inner, f);
    assert f.writes == before + ([title] + causes);
    match help {
      case None =>
      case Some(h) =>
        f.Write("\n" + h + "\n");
    }
    assert f.writes == before + ([title] + causes + tail);
  }

  /** `anyhow_err`. */
  method AnyhowErr(a: Anyhow, f: Stderr)
    modifies f
    ensures f.writes == old(f.writes) + AnyhowErrReport(a)
  {
    f.Write(TitleLine(AnyhowDisplay(a)));
  }

  /** `anyhow_err_full`. */
  method AnyhowErrFull(a: Anyhow, f: Stderr)
    modifies f
    ensures f.writes == old(f.writes) + AnyhowErrFullReport(a)
  {
    f.Write(TitleLine(AnyhowDisplay(a)));
    FormatErrorCauses(a, f);
  }

  /** `status`. */
  method Status(title: string, msg: string, f: Stderr)
    modifies f
    ensures f.writes == old(f.writes) + [FormatStatus(title, msg)]
  {
    f.Write(FormatStatus(title, msg));
  }
}
