/** The behaviour the repository's integration tests and examples pin down,
    stated over the model. Test doubles: `ErrorStub` is a foreign error with
    no source; `TestError::Stub(ErrorStub)` is a foreign error whose source is
    an `ErrorStub`. */
module Scenarios {
  import opened Wrappers
  import opened Closures
  import opened Errors
  import opened Wrap
  import opened ExitCodes
  import opened Report
  import Chains
  import Cli

  const Stub: Link := Foreign("ErrorStub", "ErrorStub", None)
  const TestErrorStub: Link := Foreign("TestError", "TestError: ErrorStub", Some(Stub))

  function Displays(links: seq<Link>): (r: seq<string>)
    ensures |r| == |links|
    ensures forall i :: 0 <= i < |r| ==> r[i] == LinkDisplay(links[i])
  {
    seq(|links|, i requires 0 <= i < |links| => LinkDisplay(links[i]))
  }

  /** `error_from!({ 0 }).wrap(1).wrap(2).wrap(3)`. */
  method Digits() returns (e: Error)
    ensures fresh(e) && e.Valid()
    ensures e.inner.layers == [Message("3"), Message("2"), Message("1"), Message("0")]
    ensures e.help == None
  {
    e := new Error.FromAnyhow(Anyhow([Message("0")]));
    e.Wrap(Message("1"));
    e.Wrap(Message("2"));
    e.Wrap(Message("3"));
  }

  /** Forward iteration: outermost first, then nothing from either end. */
  method Iter() returns (yielded: seq<string>, front: Option<Link>, back: Option<Link>)
    ensures yielded == ["3", "2", "1", "0"]
    ensures front == None && back == None
  {
    var e := Digits();
    var chain := e.Chain();
    var links := Chains.Collect(chain);
    yielded := Displays(links);
    front := chain.Next();
    back := chain.NextBack();
  }

  /** `chain().rev()`: innermost first. */
  method IterRev() returns (yielded: seq<string>, front: Option<Link>, back: Option<Link>)
    ensures yielded == ["0", "1", "2", "3"]
    ensures front == None && back == None
  {
    var e := Digits();
    var chain := e.Chain();
    var links := Chains.CollectBack(chain);
    yielded := Displays(links);
    front := chain.Next();
    back := chain.NextBack();
  }

  /** Alternating ends: `len` and `size_hint` fall by one per step and no
      link is yielded twice. */
  method Len() returns (lens: seq<nat>, hints: seq<(nat, Option<nat>)>, yielded: seq<string>, last: Option<Link>)
    ensures lens == [4, 3, 2, 1, 0]
    ensures hints == [(4, Some(4)), (3, Some(3)), (2, Some(2)), (1, Some(1)), (0, Some(0))]
    ensures yielded == ["3", "0", "2", "1"]
    ensures last == None
  {
    var e := Digits();
    var chain := e.Chain();
    assert chain.Remaining() == [Message("3"), Message("2"), Message("1"), Message("0")];
    lens, hints, yielded := [chain.Len()], [chain.SizeHint()], [];
    var l := chain.Next();
    yielded := yielded + [LinkDisplay(l.value)];
    lens, hints := lens + [chain.Len()], hints + [chain.SizeHint()];
    l := chain.NextBack();
    yielded := yielded + [LinkDisplay(l.value)];
    lens, hints := lens + [chain.Len()], hints + [chain.SizeHint()];
    l := chain.Next();
    yielded := yielded + [LinkDisplay(l.value)];
    lens, hints := lens + [chain.Len()], hints + [chain.SizeHint()];
    l := chain.NextBack();
    yielded := yielded + [LinkDisplay(l.value)];
    lens, hints := lens + [chain.Len()], hints + [chain.SizeHint()];
    last := chain.Next();
  }

  /** `Chain::default()` yields nothing. */
  method Default() returns (r: Option<Link>)
    ensures r == None
  {
    var chain := new Chains.Chain<Link>.Default();
    r := chain.Next();
  }

  /** A clone yields the whole sequence, and using it up leaves the original
      where it was. */
  method Clone() returns (yielded: seq<string>, original: seq<string>)
    ensures yielded == ["3", "2", "1", "0"]
    ensures original == yielded
  {
    var e := Digits();
    var chain := e.Chain();
    var copy := chain.Clone();
    var links := Chains.Collect(copy);
    yielded := Displays(links);
    var rest := Chains.Collect(chain);
    original := Displays(rest);
  }

  /** The chain of `Error::new(TestError::Stub(ErrorStub)).wrap("context")`
      runs through the cause's source; the root cause is the stub. */
  method NestedChain() returns (yielded: seq<string>, root: string)
    ensures yielded == ["context", "TestError: ErrorStub", "ErrorStub"]
    ensures root == "ErrorStub"
  {
    var e := new Error.New(TestErrorStub);
    e.Wrap(Message("context"));
    var chain := e.Chain();
    var links := Chains.Collect(chain);
    yielded := Displays(links);
    root := LinkDisplay(e.RootCause());
  }

  /** `is` after a wrap finds the context's type and the original's; a type
      the error never had is not found. */
  method IsAfterWrapScenario() returns (cli: bool, stub: bool, other: bool)
    ensures cli && stub && !other
  {
    var e := new Error.New(Stub);
    other := e.Is(CliErrorKind);
    e.Wrap(CliErr(Cli.Temporary));
    cli := e.Is(CliErrorKind);
    stub := e.Is(ForeignKind("ErrorStub"));
  }

  /** `add_help` twice, and `add_help_with` twice. */
  method HelpTwice() returns (once: Option<string>, twice: Option<string>, lazy: Option<string>, calls: nat)
    ensures once == Some("first help")
    ensures twice == Some("first help\nsecond help")
    ensures lazy == twice && calls == 2
  {
    var e := new Error.New(Stub);
    e.AddHelp("first help");
    once := e.Help();
    e.AddHelp("second help");
    twice := e.Help();
    assert "first help" + "\n" + "second help" == "first help\nsecond help";
    var g := new Error.New(Stub);
    var f1 := new Thunk("first help");
    var f2 := new Thunk("second help");
    g.AddHelpWith(f1);
    g.AddHelpWith(f2);
    lazy := g.Help();
    calls := f1.calls + f2.calls;
  }

  /** The `CliError` output table: every variant's message and exit code. */
  lemma CliOutputs()
    ensures Cli.Display(Cli.Config) == "invalid configuration" && Cli.ExitCode(Cli.Config) == Cli.CONFIG
    ensures Cli.Display(Cli.CreateFile("path")) == "cannot create file: path" && Cli.ExitCode(Cli.CreateFile("path")) == Cli.CANTCREAT
    ensures Cli.Display(Cli.InputData) == "invalid input data" && Cli.ExitCode(Cli.InputData) == Cli.DATAERR
    ensures Cli.Display(Cli.InputFileNotFound("path")) == "file not found: path" && Cli.ExitCode(Cli.InputFileNotFound("path")) == Cli.NOINPUT
    ensures Cli.Display(Cli.NoUser("username")) == "user not found: username" && Cli.ExitCode(Cli.NoUser("username")) == Cli.NOUSER
    ensures Cli.Display(Cli.NoHost("hostname")) == "host not found: hostname" && Cli.ExitCode(Cli.NoHost("hostname")) == Cli.NOHOST
    ensures Cli.Display(Cli.OperationPermission("operation")) == "no permission for operation: operation"
      && Cli.ExitCode(Cli.OperationPermission("operation")) == Cli.NOPERM
    ensures Cli.Display(Cli.OsErr) == "operating system error" && Cli.ExitCode(Cli.OsErr) == Cli.OSERR
    ensures Cli.Display(Cli.OsFileNotFound("path")) == "system file not found: path" && Cli.ExitCode(Cli.OsFileNotFound("path")) == Cli.OSFILE
    ensures Cli.Display(Cli.ReadFile("path")) == "cannot read file: path" && Cli.ExitCode(Cli.ReadFile("path")) == Cli.IOERR
    ensures Cli.Display(Cli.ResourceNotFound("resource")) == "resource not found: resource"
      && Cli.ExitCode(Cli.ResourceNotFound("resource")) == Cli.DATAERR
    ensures Cli.Display(Cli.Protocol) == "protocol not possible" && Cli.ExitCode(Cli.Protocol) == Cli.PROTOCOL
    ensures Cli.Display(Cli.Temporary) == "temporary failure" && Cli.ExitCode(Cli.Temporary) == Cli.TEMPFAIL
    ensures Cli.Display(Cli.Usage) == "incorrect usage" && Cli.ExitCode(Cli.Usage) == Cli.USAGE
    ensures Cli.Display(Cli.WriteFile("path")) == "cannot write to file: path" && Cli.ExitCode(Cli.WriteFile("path")) == Cli.IOERR
  {
  }

  /** `wrap(|| context)` on a failing call: the error displays as the
      context, has the context's type and no help, and the closure ran once. */
  method LazyContext(cause: Link, context: Link) returns (display: string, isContext: bool, help: Option<string>, calls: nat)
    ensures display == LinkDisplay(context) && isContext && help == None && calls == 1
  {
    var f := new Thunk(context);
    var r: Result<(), Cause> := Err(StdCause(cause));
    var r' := WrapWith(r, f);
    assert r'.error == WrapValue(FromCause(cause), context);
    WrapDisplay(FromCause(cause), context);
    display := ErrorDisplay(r'.error);
    isContext := IsKind(r'.error.inner, KindOf(context));
    help := HelpText(r'.error.help);
    calls := f.calls;
  }

  /** The exit-code suite: plain errors give SOFTWARE; `CliError::Config`
      gives CONFIG as the cause, as the context, wrapped by a stub, through
      anyhow or through narrate. */
  lemma ExitCodeSuite()
    ensures AnyhowExitCode(Anyhow([Message("err msg")])) == Cli.SOFTWARE
    ensures ErrorExitCode(FromCause(Message("err msg"))) == Cli.SOFTWARE
    ensures AnyhowExitCode(Anyhow([CliErr(Cli.Config)])) == Cli.CONFIG
    ensures ErrorExitCode(FromCause(CliErr(Cli.Config))) == Cli.CONFIG
    ensures AnyhowExitCode(Anyhow([Stub, CliErr(Cli.Config)])) == Cli.CONFIG
    ensures ErrorExitCode(WrapValue(FromCause(CliErr(Cli.Config)), Stub)) == Cli.CONFIG
    ensures ErrorExitCode(ResultWrap<()>(Err(StdCause(CliErr(Cli.Config))), Stub).error) == Cli.CONFIG
    ensures ErrorExitCode(ResultWrap<()>(Err(StdCause(Stub)), CliErr(Cli.Config)).error) == Cli.CONFIG
    ensures AnyhowExitCode(Anyhow([CliErr(Cli.Config), Stub])) == Cli.CONFIG
  {
    OutermostCliWins(Anyhow([Stub, CliErr(Cli.Config)]), 1);
    OutermostCliWins(WrapValue(FromCause(CliErr(Cli.Config)), Stub).inner, 1);
  }

  /** A failed file creation wrapped lazily with `CreateFile` and given help:
      CANTCREAT, exactly that help, one call of the closure. */
  method WrapHelpFunction(path: string, ioText: string, help: string) returns (code: int, text: Option<string>, calls: nat)
    ensures code == Cli.CANTCREAT && text == Some(help) && calls == 1
  {
    var f := new Thunk(CliErr(Cli.CreateFile(path)));
    var r: Result<(), Cause> := Err(StdCause(Foreign("io::Error", ioText, None)));
    var r' := WrapHelpWith(r, f, help);
    assert r'.error.inner == WrapValue(FromCause(r.error.link), CliErr(Cli.CreateFile(path))).inner;
    CliContextDecides(FromCause(r.error.link), Cli.CreateFile(path));
    code := ErrorExitCode(r'.error);
    text := HelpText(r'.error.help);
    calls := f.calls;
  }

  /** On success, the lazy forms return the value and never run the closure. */
  method OkNeverForces(v: int) returns (results: seq<Result<int, ErrorValue>>, calls: nat)
    ensures results == [Ok(v), Ok(v), Ok(v), Ok(v)] && calls == 0
  {
    var f := new Thunk(Message("unused"));
    var g := new Thunk("unused");
    var ok: Result<int, Cause> := Ok(v);
    var r1 := WrapWith(ok, f);
    var r2 := WrapHelpWith(ok, f, "help");
    var r3 := WrapHelpOwnedWith(ok, f, "help");
    var r4 := AddHelpWith(ok, g);
    results := [r1, r2, r3, r4];
    calls := f.calls + g.calls;
  }

  /** The configuration example, for any parse message, file context and
      help: `config_error()` makes the parse error with `error_from!` and
      wraps it with the file context; `main` then wraps it with
      `CliError::Config` and adds the help. */
  function ConfigMain(parse: string, file: string, help: string): Result<(), ErrorValue>
  {
    var configError := WrapValue(ErrorValue(Anyhow([Message(parse)]), None), Message(file));
    ResultAddHelp(Lift(ResultWrap(Lift<()>(Err(configError)), CliErr(Cli.Config))), help)
  }

  /** The error is the configuration error over the two earlier links, with
      the help as given, and it exits with CONFIG. */
  lemma InvalidConfigError(parse: string, file: string, help: string)
    ensures ConfigMain(parse, file, help).Err?
    ensures ChainView(ConfigMain(parse, file, help).error.inner)
      == [CliErr(Cli.Config), Message(file), Message(parse)]
    ensures ConfigMain(parse, file, help).error.help == Some(Static(help))
    ensures ErrorExitCode(ConfigMain(parse, file, help).error) == Cli.CONFIG
  {
    var e := ConfigMain(parse, file, help).error;
    assert e.inner.layers == [CliErr(Cli.Config), Message(file), Message(parse)];
    assert ChainView(e.inner) == e.inner.layers;
    OutermostCliWins(e.inner, 0);
  }

  /** `err_full` of it. As written, the title carries the help and the help
      block repeats it. */
  lemma InvalidConfigReport(parse: string, file: string, help: string)
    ensures ConfigMain(parse, file, help).Err?
    ensures ErrFullReport(ConfigMain(parse, file, help).error) == [
        "error: invalid configuration\n\n" + help + "\n",
        "cause: " + file + "\n",
        "cause: " + parse + "\n",
        "\n" + help + "\n"]
  {
    InvalidConfigError(parse, file, help);
    var e := ConfigMain(parse, file, help).error;
    assert e.inner.layers == [CliErr(Cli.Config), Message(file), Message(parse)];
    ErrFullShape(e);
    var r := ErrFullReport(e);
    assert |r| == 4;
    ConfigTitle(e, help);
    assert r[0] == TitleLine(ErrorDisplay(e));
    assert r[1] == "cause: " + file + "\n";
    assert r[2] == "cause: " + parse + "\n";
  }

  /** The title of an error whose outermost layer is `CliError::Config`. */
  lemma ConfigTitle(e: ErrorValue, help: string)
    requires |e.inner.layers| > 0 && e.inner.layers[0] == CliErr(Cli.Config)
    requires e.help == Some(Static(help))
    ensures TitleLine(ErrorDisplay(e)) == "error: invalid configuration\n\n" + help + "\n"
  {
    assert AnyhowDisplay(e.inner) == "invalid configuration";
    assert ErrorDisplay(e) == "invalid configuration" + "\n\n" + help;
    assert "error" + ": " + "invalid configuration" + "\n\n" == "error: invalid configuration\n\n";
  }

  /** The stacked-help example: `inner_fn` bails, `outer_fn` adds help,
      `main` wraps and adds more help. */
  function MultiHelpMain(): Result<(), ErrorValue>
  {
    var innerFn: Result<(), ErrorValue> := Err(ErrorValue(Anyhow([Message("inner error")]), None));
    var outerFn := ResultAddHelp(Lift(innerFn), "inner help");
    ResultAddHelp(Lift(ResultWrap(Lift(outerFn), Message("outer error"))), "outer help")
  }

  /** Help given inside comes first; the chain is the outer context and
      the bailed message. */
  lemma MultiHelpMessage()
    ensures MultiHelpMain().Err?
    ensures HelpText(MultiHelpMain().error.help) == Some("inner help\nouter help")
    ensures ChainView(MultiHelpMain().error.inner) == [Message("outer error"), Message("inner error")]
  {
    var e := MultiHelpMain().error;
    assert e.inner.layers == [Message("outer error"), Message("inner error")];
    assert HelpText(e.help) == Some("inner help" + "\n" + "outer help");
    assert "inner help" + "\n" + "outer help" == "inner help\nouter help";
    assert ChainView(e.inner) == e.inner.layers;
  }

  /** As written, the error's `Display` (the report title) already holds
      both help lines. */
  lemma MultiHelpDisplay()
    ensures MultiHelpMain().Err?
    ensures ErrorDisplay(MultiHelpMain().error) == "outer error\n\ninner help\nouter help"
  {
    MultiHelpMessage();
  }

  /** The anyhow report example: `bail!("inner error").context(OsErr)`
      reported in full, with exit code OSERR. */
  lemma AnyhowReportExample()
    ensures var a := Anyhow([CliErr(Cli.OsErr), Message("inner error")]);
      AnyhowErrFullReport(a) == ["error: operating system error\n", "cause: inner error\n"]
      && AnyhowExitCode(a) == Cli.OSERR
  {
    var a := Anyhow([CliErr(Cli.OsErr), Message("inner error")]);
    assert ChainView(a) == a.layers;
    assert "error" + ": " + "operating system error" + "\n" == "error: operating system error\n";
    assert "cause" + ": " + "inner error" + "\n" == "cause: inner error\n";
  }

  /** The status test: `hi` right-justified in twelve columns. */
  lemma StatusHiWorld()
    ensures FormatStatus("hi", "world") == "          hi world\n"
  {
    var line := FormatStatus("hi", "world");
    assert line[..10] == "          ";
    assert line == line[..10] + line[10..];
  }
}
