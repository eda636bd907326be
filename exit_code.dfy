/** Exit-code resolution: look for a `CliError` among an error's layers and
    use its code; failing that, resolve an embedded narrate `Error`; failing
    that, SOFTWARE. */
module ExitCodes {
  import opened Wrappers
  import opened Errors
  import Cli

  /** `ExitCode for anyhow::Error`. The `CliError` lookup runs first, over
      every layer (outermost first), and only then the lookup for an
      embedded `Error`. */
  function AnyhowExitCode(a: Anyhow): (code: int)
    decreases a
    ensures code == Cli.SOFTWARE || exists c :: Cli.ExitCode(c) == code
    ensures Cli.USAGE <= code <= Cli.CONFIG && code != Cli.UNAVAILABLE
  {
    match FindKind(a.layers, CliErrorKind)
    case Some(i) => Cli.ExitCode(a.layers[i].cli)
    case None =>
      match FindKind(a.layers, ErrorKind)
      case Some(j) => ErrorExitCode(a.layers[j].error)
      case None => Cli.SOFTWARE
  }

  /** `ExitCode for Error`: the code of its inner chain; help plays no part. */
  function ErrorExitCode(e: ErrorValue): (code: int)
    decreases e
    ensures code == Cli.SOFTWARE || exists c :: Cli.ExitCode(c) == code
    ensures Cli.USAGE <= code <= Cli.CONFIG && code != Cli.UNAVAILABLE
  {
    AnyhowExitCode(e.inner)
  }

  /** The default `ExitCode::exit_code`, for a type that does not override it. */
  function DefaultExitCode(): (code: int)
    ensures code == Cli.SOFTWARE
    ensures forall c :: Cli.ExitCode(c) != code
  {
    Cli.SOFTWARE
  }

  predicate NoCliLayer(a: Anyhow)
  {
    forall i :: 0 <= i < |a.layers| ==> !a.layers[i].CliErr?
  }

  /** The outermost `CliError` layer decides, whatever else the chain holds. */
  lemma OutermostCliWins(a: Anyhow, i: nat)
    requires i < |a.layers| && a.layers[i].CliErr?
    requires forall j :: 0 <= j < i ==> !a.layers[j].CliErr?
    ensures AnyhowExitCode(a) == Cli.ExitCode(a.layers[i].cli)
  {
    assert KindOf(a.layers[i]) == CliErrorKind;
  }

  /** Without a `CliError` layer, the outermost embedded `Error` decides. */
  lemma NestedErrorResolves(a: Anyhow, j: nat)
    requires NoCliLayer(a)
    requires j < |a.layers| && a.layers[j].Nested?
    requires forall k :: 0 <= k < j ==> !a.layers[k].Nested?
    ensures AnyhowExitCode(a) == ErrorExitCode(a.layers[j].error)
  {
    assert KindOf(a.layers[j]) == ErrorKind;
  }

  /** With neither, the code is SOFTWARE. */
  lemma NoCliNoNestedIsSoftware(a: Anyhow)
    requires forall i :: 0 <= i < |a.layers| ==> a.layers[i].Message? || a.layers[i].Foreign?
    ensures AnyhowExitCode(a) == Cli.SOFTWARE
  {
  }

  /** A `CliError` reached only through the root object's `source()` is not
      a layer, so it is not found. */
  lemma SourceOnlyCliIsSoftware(kind: string, text: string, c: Cli.CliError)
    ensures var e := FromCause(Foreign(kind, text, Some(CliErr(c))));
      CliErr(c) in ChainView(e.inner) && ErrorExitCode(e) == Cli.SOFTWARE
  {
    var e := FromCause(Foreign(kind, text, Some(CliErr(c))));
    assert ChainView(e.inner)[1] == CliErr(c);
  }

  /** A `CliError` used as the wrapping context gives its own code. */
  lemma CliContextDecides(e: ErrorValue, c: Cli.CliError)
    ensures ErrorExitCode(WrapValue(e, CliErr(c))) == Cli.ExitCode(c)
  {
  }

  /** A `CliError` used as the cause gives its own code under any number of
      non-`CliError` contexts. */
  lemma CliCauseDecides(c: Cli.CliError, contexts: seq<Link>)
    requires forall i :: 0 <= i < |contexts| ==> !contexts[i].CliErr?
    ensures ErrorExitCode(Wraps(FromCause(CliErr(c)), contexts)) == Cli.ExitCode(c)
  {
    var e := FromCause(CliErr(c));
    assert e.inner.layers[0].CliErr?;
    WrapsKeepCliCode(e, contexts);
  }

  /** Contexts that are not `CliError`s keep the code of a chain that has a
      `CliError` layer, however deep the wrapping. */
  lemma {:induction false} WrapsKeepCliCode(e: ErrorValue, contexts: seq<Link>)
    requires !NoCliLayer(e.inner)
    requires forall i :: 0 <= i < |contexts| ==> !contexts[i].CliErr?
    ensures ErrorExitCode(Wraps(e, contexts)) == ErrorExitCode(e)
    ensures !NoCliLayer(Wraps(e, contexts).inner)
  {
    if contexts != [] {
      var init := contexts[..|contexts| - 1];
      WrapsKeepCliCode(e, init);
      WrapKeepsCliCode(Wraps(e, init), contexts[|contexts| - 1]);
    }
  }

  /** One context that is not a `CliError` keeps the code. */
  lemma WrapKeepsCliCode(w: ErrorValue, c: Link)
    requires !NoCliLayer(w.inner) && !c.CliErr?
    ensures ErrorExitCode(WrapValue(w, c)) == ErrorExitCode(w)
    ensures !NoCliLayer(WrapValue(w, c).inner)
  {
    var k :| 0 <= k < |w.inner.layers| && w.inner.layers[k].CliErr?;
    assert KindOf(w.inner.layers[k]) == CliErrorKind;
    var i := FindKind(w.inner.layers, CliErrorKind).value;
    var w' := WrapValue(w, c);
    assert w'.inner.layers[i + 1] == w.inner.layers[i];
    OutermostCliWins(w'.inner, i + 1);
  }

  /** A `CliError` layer beats every embedded `Error`, even the outermost
      one sitting further out, which would decide the code were the
      `CliError` and the layers after it not there. */
  lemma CliBeatsNested(a: Anyhow, j: nat, i: nat)
    requires j < i < |a.layers| && a.layers[j].Nested? && a.layers[i].CliErr?
    requires forall k :: 0 <= k < j ==> !a.layers[k].Nested?
    requires forall k :: 0 <= k < i ==> !a.layers[k].CliErr?
    ensures AnyhowExitCode(a) == Cli.ExitCode(a.layers[i].cli)
    ensures AnyhowExitCode(Anyhow(a.layers[..i])) == ErrorExitCode(a.layers[j].error)
  {
    OutermostCliWins(a, i);
    var p := Anyhow(a.layers[..i]);
    assert NoCliLayer(p);
    NestedErrorResolves(p, j);
  }

  /** A narrate `Error` used as the context of another error, with a
      `CliError` inside it, gives that code to a chain with no `CliError` of
      its own. */
  lemma NestedCliFound(c: Cli.CliError, root: string)
    ensures ErrorExitCode(WrapValue(FromCause(Message(root)), Nested(FromCause(CliErr(c)))))
      == Cli.ExitCode(c)
  {
    var a := WrapValue(FromCause(Message(root)), Nested(FromCause(CliErr(c)))).inner;
    NestedErrorResolves(a, 0);
    OutermostCliWins(FromCause(CliErr(c)).inner, 0);
  }
}
