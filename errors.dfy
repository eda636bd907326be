/** The `Error` container: a type-erased cause chain (the wrapped
    `anyhow::Error`) plus an optional help message.

    The chain is modelled without type erasure: every link is a value of the
    closed datatype `Link`, and the "type" of a link, which `is` and
    `downcast_ref` compare against, is its `Kind`. */
module Errors {
  import opened Wrappers
  import opened Text
  import opened Closures
  import Cli
  import Chains

  /** `HelpMsg`: help text that is either a `&'static str` or an owned `String`. */
  datatype HelpMsg = Owned(text: string) | Static(text: string)

  /** One value in a cause chain. */
  datatype Link =
      /** An ad-hoc message: a string context, or what `anyhow!`/`error_from!` make of text. */
    | Message(text: string)
    | CliErr(cli: Cli.CliError)
      /** A narrate `Error` placed into another error as a cause or context. */
    | Nested(error: ErrorValue)
      /** Any other error type, named by `kind`, with its display text and its `source()`. */
    | Foreign(kind: string, text: string, source: Option<Link>)

  /** The wrapped `anyhow::Error`: its context layers, outermost first, and
      last the root object the error was created from. */
  datatype Anyhow = Anyhow(layers: seq<Link>)

  /** The value of a narrate `Error`: fields `inner` and `help`, nothing else. */
  datatype ErrorValue = ErrorValue(inner: Anyhow, help: Option<HelpMsg>)

  /** The Rust type of a link, as `TypeId` would tell them apart. */
  datatype Kind = MessageKind | CliErrorKind | ErrorKind | ForeignKind(name: string)

  function KindOf(l: Link): Kind
  {
    match l
    case Message(_) => MessageKind
    case CliErr(_) => CliErrorKind
    case Nested(_) => ErrorKind
    case Foreign(k, _, _) => ForeignKind(k)
  }

  // ---------------------------------------------------------------------
  // Display

  function LinkDisplay(l: Link): string
    decreases l
  {
    match l
    case Message(t) => t
    case CliErr(c) => Cli.Display(c)
    case Nested(e) => ErrorDisplay(e)
    case Foreign(_, t, _) => t
  }

  /** anyhow's `Display`: the outermost layer only. */
  function AnyhowDisplay(a: Anyhow): string
    decreases a
  {
    if |a.layers| == 0 then "" else LinkDisplay(a.layers[0])
  }

  /** `impl Display for Error`, with `format_error_with_help` inlined: the
      inner display, then a blank line and the help when there is help. */
  function ErrorDisplay(e: ErrorValue): string
    decreases e
  {
    match e.help
    case None => AnyhowDisplay(e.inner)
    case Some(h) => AnyhowDisplay(e.inner) + "\n\n" + h.text
  }

  // ---------------------------------------------------------------------
  // Chain view, root cause, type queries

  /** A link followed by its `source()` chain. */
  function SourceChain(l: Link): (r: seq<Link>)
    decreases l
    ensures |r| >= 1 && r[0] == l
  {
    [l] + (if l.Foreign? && l.source.Some? then SourceChain(l.source.value) else [])
  }

  predicate HasSource(l: Link)
  {
    l.Foreign? && l.source.Some?
  }

  /** What `chain()` yields: every layer, outermost first, and after the root
      object the rest of its `source()` chain. */
  function ChainView(a: Anyhow): (r: seq<Link>)
    ensures |a.layers| == 0 <==> r == []
    ensures |r| >= |a.layers| && r[..|a.layers|] == a.layers
  {
    if |a.layers| == 0 then []
    else a.layers[..|a.layers| - 1] + SourceChain(a.layers[|a.layers| - 1])
  }

  /** The end of a link's source chain. */
  function Deepest(l: Link): (r: Link)
    decreases l
    ensures r == SourceChain(l)[|SourceChain(l)| - 1]
    ensures !HasSource(r)
  {
    if HasSource(l) then Deepest(l.source.value) else l
  }

  /** The index of the outermost layer of the given kind, as `downcast_ref`
      finds it: context layers first, outermost first, then the root object. */
  function FindKind(layers: seq<Link>, k: Kind): (r: Option<nat>)
    ensures r.Some? ==> r.value < |layers| && KindOf(layers[r.value]) == k
    ensures r.Some? ==> forall j :: 0 <= j < r.value ==> KindOf(layers[j]) != k
    ensures r.None? ==> forall j :: 0 <= j < |layers| ==> KindOf(layers[j]) != k
  {
    if layers == [] then None
    else if KindOf(layers[0]) == k then Some(0)
    else match FindKind(layers[1..], k)
      case None => None
      case Some(i) => Some(i + 1)
  }

  /** `is::<T>()`. */
  function IsKind(a: Anyhow, k: Kind): bool
  {
    FindKind(a.layers, k).Some?
  }

  // ---------------------------------------------------------------------
  // Help

  function HelpText(h: Option<HelpMsg>): Option<string>
  {
    match h
    case None => None
    case Some(m) => Some(m.text)
  }

  /** The help-append rule: the old text, a newline, the new text; or just the
      new text when there was none. */
  function Appended(prior: Option<string>, msg: string): string
  {
    match prior
    case None => msg
    case Some(p) => p + "\n" + msg
  }

  /** Adding static help: the first message is kept borrowed; appending to
      anything makes an owned string. */
  function MergeStatic(h: Option<HelpMsg>, msg: string): (r: Option<HelpMsg>)
    ensures HelpText(r) == Some(Appended(HelpText(h), msg))
    ensures h.None? ==> r == Some(Static(msg))
    ensures h.Some? ==> r.Some? && r.value.Owned?
  {
    match h
    case Some(Owned(s)) => Some(Owned(s + "\n" + msg))
    case Some(Static(s)) => Some(Owned(s + "\n" + msg))
    case None => Some(Static(msg))
  }

  /** Adding owned help: always an owned string. */
  function MergeOwned(h: Option<HelpMsg>, msg: string): (r: Option<HelpMsg>)
    ensures HelpText(r) == Some(Appended(HelpText(h), msg))
    ensures r.Some? && r.value.Owned?
  {
    match HelpText(h)
    case Some(s) => Some(Owned(s + "\n" + msg))
    case None => Some(Owned(msg))
  }

  // ---------------------------------------------------------------------
  // Operations on error values

  /** `Error::new` / `From<E>`: one link, no help. */
  function FromCause(cause: Link): ErrorValue
  {
    ErrorValue(Anyhow([cause]), None)
  }

  /** `wrap`: the context becomes the outermost link; the help is kept. */
  function WrapValue(e: ErrorValue, context: Link): ErrorValue
  {
    ErrorValue(Anyhow([context] + e.inner.layers), e.help)
  }

  /** `add_help`. */
  function AddHelpValue(e: ErrorValue, msg: string): ErrorValue
  {
    e.(help := MergeStatic(e.help, msg))
  }

  /** `add_help_with`, after the closure has produced `msg`. */
  function AddHelpOwnedValue(e: ErrorValue, msg: string): ErrorValue
  {
    e.(help := MergeOwned(e.help, msg))
  }

  /** `e.wrap(c1).wrap(c2)...`, first context first. */
  function Wraps(e: ErrorValue, contexts: seq<Link>): ErrorValue
    decreases |contexts|
  {
    if contexts == [] then e
    else WrapValue(Wraps(e, contexts[..|contexts| - 1]), contexts[|contexts| - 1])
  }

  /** `e.add_help(m1); e.add_help(m2); ...`, first message first. */
  function AddHelps(e: ErrorValue, msgs: seq<string>): ErrorValue
    decreases |msgs|
  {
    if msgs == [] then e
    else AddHelpValue(AddHelps(e, msgs[..|msgs| - 1]), msgs[|msgs| - 1])
  }

  // ---------------------------------------------------------------------
  // Properties

  /** A fresh error displays exactly as its cause, carries no help, and its
      chain is the cause's own source chain. */
  lemma FromCauseTransparent(cause: Link)
    ensures ErrorDisplay(FromCause(cause)) == LinkDisplay(cause)
    ensures FromCause(cause).help == None
    ensures ChainView(FromCause(cause).inner) == SourceChain(cause)
  {
  }

  /** Wrapping puts the context first and leaves the old chain behind it. */
  lemma WrapChain(e: ErrorValue, context: Link)
    requires |e.inner.layers| > 0
    ensures ChainView(WrapValue(e, context).inner) == [context] + ChainView(e.inner)
    ensures |ChainView(WrapValue(e, context).inner)| == |ChainView(e.inner)| + 1
  {
    var l := e.inner.layers;
    var l' := [context] + l;
    assert l'[..|l'| - 1] == [context] + l[..|l| - 1];
    assert l'[|l'| - 1] == l[|l| - 1];
  }

  /** Without help, a wrapped error displays as its context. */
  lemma WrapDisplay(e: ErrorValue, context: Link)
    requires e.help == None
    ensures ErrorDisplay(WrapValue(e, context)) == LinkDisplay(context)
  {
  }

  /** The display of an error equals the display of its chain exactly when
      it has no help: help always shows, after a blank line. */
  lemma DisplayShowsHelp(e: ErrorValue)
    ensures e.help.None? <==> ErrorDisplay(e) == AnyhowDisplay(e.inner)
    ensures e.help.Some? ==> ErrorDisplay(e) == AnyhowDisplay(e.inner) + "\n\n" + e.help.value.text
  {
    if e.help.Some? {
      assert |ErrorDisplay(e)| > |AnyhowDisplay(e.inner)|;
    }
  }

  /** Wrapping never changes the root cause. */
  lemma WrapRootCause(e: ErrorValue, context: Link)
    requires |e.inner.layers| > 0
    ensures Last(ChainView(WrapValue(e, context).inner)) == Last(ChainView(e.inner))
  {
    WrapChain(e, context);
  }

  function Last<T>(s: seq<T>): T
    requires |s| > 0
  {
    s[|s| - 1]
  }

  /** After any sequence of wraps the chain is the contexts, last-added
      first, followed by the original chain: one link per wrap. */
  lemma {:induction false} WrapsChain(e: ErrorValue, contexts: seq<Link>)
    requires |e.inner.layers| > 0
    ensures |Wraps(e, contexts).inner.layers| > 0
    ensures ChainView(Wraps(e, contexts).inner) == Reverse(contexts) + ChainView(e.inner)
    ensures Wraps(e, contexts).help == e.help
  {
    if contexts != [] {
      var init := contexts[..|contexts| - 1];
      var c := contexts[|contexts| - 1];
      WrapsChain(e, init);
      WrapChain(Wraps(e, init), c);
      assert Reverse(contexts) == [c] + Reverse(init) by {
        ReverseBack(contexts);
      }
    }
  }

  lemma {:induction false} ReverseBack<T>(s: seq<T>)
    requires |s| > 0
    ensures Reverse(s) == [s[|s| - 1]] + Reverse(s[..|s| - 1])
  {
    if |s| > 1 {
      ReverseBack(s[1..]);
      assert s[1..][..|s| - 2] == s[..|s| - 1][1..];
    }
  }

  /** `is` after a wrap: the new context or anything the error already was. */
  lemma IsAfterWrap(e: ErrorValue, context: Link, k: Kind)
    ensures IsKind(WrapValue(e, context).inner, k) <==> KindOf(context) == k || IsKind(e.inner, k)
  {
    var l' := [context] + e.inner.layers;
    if IsKind(e.inner, k) {
      var i := FindKind(e.inner.layers, k).value;
      assert KindOf(l'[i + 1]) == k;
    }
    if IsKind(WrapValue(e, context).inner, k) && KindOf(context) != k {
      var i := FindKind(l', k).value;
      assert KindOf(e.inner.layers[i - 1]) == k;
    }
  }

  /** The identity of every earlier link survives any number of wraps. */
  lemma {:induction false} IsSurvivesWraps(e: ErrorValue, contexts: seq<Link>, k: Kind)
    requires IsKind(e.inner, k)
    ensures IsKind(Wraps(e, contexts).inner, k)
  {
    if contexts != [] {
      IsSurvivesWraps(e, contexts[..|contexts| - 1], k);
      IsAfterWrap(Wraps(e, contexts[..|contexts| - 1]), contexts[|contexts| - 1], k);
    }
  }

  /** `is` sees every layer, and, when the root object has no source, every
      link `chain()` yields. */
  lemma IsMatchesChain(a: Anyhow, k: Kind)
    requires |a.layers| > 0 && !HasSource(a.layers[|a.layers| - 1])
    ensures IsKind(a, k) <==> exists i :: 0 <= i < |ChainView(a)| && KindOf(ChainView(a)[i]) == k
  {
    assert ChainView(a) == a.layers;
  }

  /** Help added N times is the N messages joined by newlines, in call order. */
  lemma {:induction false} AddHelpsJoin(e: ErrorValue, msgs: seq<string>)
    requires e.help == None && |msgs| > 0
    ensures HelpText(AddHelps(e, msgs).help) == Some(JoinLines(msgs))
    ensures AddHelps(e, msgs).inner == e.inner
  {
    if |msgs| > 1 {
      AddHelpsJoin(e, msgs[..|msgs| - 1]);
      assert msgs[..|msgs| - 1][..|msgs| - 2] == msgs[..|msgs| - 2];
    } else {
      assert msgs[..0] == [];
    }
  }

  /** Help added before a wrap stays first; help added after comes last. */
  lemma InnerHelpFirst(e: ErrorValue, inner: string, context: Link, outer: string)
    requires e.help == None
    ensures HelpText(AddHelpValue(WrapValue(AddHelpValue(e, inner), context), outer).help)
      == Some(inner + "\n" + outer)
  {
  }

  // ---------------------------------------------------------------------
  // The object

  /** A narrate `Error`. Methods that consume `self` and return a new error
      in the source (`wrap`, the `ext_context_help` family) update this
      object in place: the consumed value is unreachable afterwards, so no
      caller can tell the difference. */
  class Error {
    var inner: Anyhow
    var help: Option<HelpMsg>

    /** An anyhow error always holds at least its root object. */
    ghost predicate Valid()
      reads this
    {
      |inner.layers| > 0
    }

    function Value(): ErrorValue
      reads this
    {
      ErrorValue(inner, help)
    }

    /** `Error::new` and `From<E>`. */
    constructor New(cause: Link)
      ensures Valid() && Value() == FromCause(cause)
    {
      inner := Anyhow([cause]);
      help := None;
    }

    /** `Error::from_anyhow`. */
    constructor FromAnyhow(a: Anyhow)
      requires |a.layers| > 0
      ensures Valid() && Value() == ErrorValue(a, None)
    {
      inner := a;
      help := None;
    }

    method Wrap(context: Link)
      requires Valid()
      modifies this
      ensures Valid() && Value() == WrapValue(old(Value()), context)
    {
      inner := Anyhow([context] + inner.layers);
    }

    /** `help()`: the stored text, whichever way it is held. */
    function Help(): (r: Option<string>)
      reads this
      ensures r.Some? <==> help.Some?
      ensures help.Some? ==> r.value == help.value.text
    {
      match help
      case None => None
      case Some(Owned(s)) => Some(s)
      case Some(Static(s)) => Some(s)
    }

    method SetHelpOwned(msg: string)
      requires Valid()
      modifies this
      ensures Valid()
      ensures inner == old(inner) && help == Some(Owned(msg))
    {
      help := Some(Owned(msg));
    }

    method SetHelpStatic(msg: string)
      requires Valid()
      modifies this
      ensures Valid()
      ensures inner == old(inner) && help == Some(Static(msg))
    {
      help := Some(Static(msg));
    }

    method AddHelp(msg: string)
      requires Valid()
      modifies this
      ensures Valid()
      ensures Value() == AddHelpValue(old(Value()), msg)
    {
      help := MergeStatic(help, msg);
    }

    /** `add_help_with`: the closure is called exactly once. */
    method AddHelpWith(f: Thunk<string>)
      requires Valid()
      modifies this, f
      ensures Valid()
      ensures f.calls == old(f.calls) + 1
      ensures Value() == AddHelpOwnedValue(old(Value()), f.value)
    {
      var msg := f.Call();
      help := MergeOwned(help, msg);
    }

    /** `ext_context_help` on an `Error`: wrap, then append the static help
        in place (push onto an owned string, copy a static one into a new
        owned string, or set it when there was none). */
    method ExtContextHelp(context: Link, msg: string)
      requires Valid()
      modifies this
      ensures Valid() && Value() == AddHelpValue(WrapValue(old(Value()), context), msg)
    {
      Wrap(context);
      match help
      case Some(Owned(s)) =>
        help := Some(Owned(s + "\n" + msg));
      case Some(Static(s)) =>
        SetHelpOwned(s + "\n" + msg);
      case None =>
        SetHelpStatic(msg);
    }

    /** `ext_context_help_owned` on an `Error`. */
    method ExtContextHelpOwned(context: Link, msg: string)
      requires Valid()
      modifies this
      ensures Valid() && Value() == AddHelpOwnedValue(WrapValue(old(Value()), context), msg)
    {
      Wrap(context);
      match Help()
      case Some(s) =>
        SetHelpOwned(s + "\n" + msg);
      case None =>
        SetHelpOwned(msg);
    }

    /** `is::<T>()`: some layer is of the kind. */
    function Is(k: Kind): (b: bool)
      reads this
      ensures b <==> exists i :: 0 <= i < |inner.layers| && KindOf(inner.layers[i]) == k
    {
      IsKind(inner, k)
    }

    /** `root_cause()`: the last link `chain()` would yield. */
    function RootCause(): (r: Link)
      reads this
      requires Valid()
      ensures r == Last(ChainView(inner))
    {
      Deepest(inner.layers[|inner.layers| - 1])
    }

    function Display(): string
      reads this
    {
      ErrorDisplay(Value())
    }

    /** `chain()`: a fresh iterator over every link, outermost first. */
    method Chain() returns (c: Chains.Chain<Link>)
      ensures fresh(c) && c.Valid() && c.Remaining() == ChainView(inner)
    {
      c := new Chains.Chain.Over(ChainView(inner));
    }
  }
}
