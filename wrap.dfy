/** `ErrorWrap` for `Result`: combinators that pass `Ok` through untouched and,
    on `Err`, convert the cause into a narrate `Error`, wrap it with a context
    and/or give it help. */
module Wrap {
  import opened Wrappers
  import opened Closures
  import opened Errors

  /** The error of a `Result` these combinators accept: any standard error
      (which becomes the root of a fresh `Error`) or a narrate `Error`. */
  datatype Cause = StdCause(link: Link) | ErrorCause(error: ErrorValue)

  /** The `Error::from(self)` step; a narrate `Error` is already one. */
  function IntoError(cause: Cause): (e: ErrorValue)
    ensures cause.StdCause? ==> e.help == None && ChainView(e.inner) == SourceChain(cause.link)
    ensures cause.ErrorCause? ==> e == cause.error
  {
    match cause
    case StdCause(l) => FromCause(l)
    case ErrorCause(e) => e
  }

  /** `ext_context`: convert, then make the context the outermost link. */
  function ExtContext(cause: Cause, context: Link): (e: ErrorValue)
    ensures e.inner.layers == [context] + IntoError(cause).inner.layers
    ensures e.help == IntoError(cause).help
  {
    WrapValue(IntoError(cause), context)
  }

  /** `ext_context_help`: as `ext_context`, then the help. A standard error
      gets exactly the given help; a narrate `Error` appends it after what it had. */
  function ExtContextHelp(cause: Cause, context: Link, msg: string): (e: ErrorValue)
    ensures e.inner.layers == [context] + IntoError(cause).inner.layers
    ensures HelpText(e.help) == Some(Appended(HelpText(IntoError(cause).help), msg))
    ensures cause.StdCause? ==> e.help == Some(Static(msg))
  {
    match cause
    case StdCause(l) => WrapValue(FromCause(l), context).(help := Some(Static(msg)))
    case ErrorCause(err) => AddHelpValue(WrapValue(err, context), msg)
  }

  /** `ext_context_help_owned`. */
  function ExtContextHelpOwned(cause: Cause, context: Link, msg: string): (e: ErrorValue)
    ensures e.inner.layers == [context] + IntoError(cause).inner.layers
    ensures HelpText(e.help) == Some(Appended(HelpText(IntoError(cause).help), msg))
    ensures cause.StdCause? ==> e.help == Some(Owned(msg))
  {
    match cause
    case StdCause(l) => WrapValue(FromCause(l), context).(help := Some(Owned(msg)))
    case ErrorCause(err) => AddHelpOwnedValue(WrapValue(err, context), msg)
  }

  /** A `Result<T, Error>` used where a `Result<T, E>` is expected. */
  function Lift<T>(r: Result<T, ErrorValue>): Result<T, Cause>
  {
    match r
    case Ok(v) => Ok(v)
    case Err(e) => Err(ErrorCause(e))
  }

  // ---- eager forms: the context (and help) are values already

  /** `wrap(context)`. */
  function ResultWrap<T>(r: Result<T, Cause>, context: Link): (r': Result<T, ErrorValue>)
    ensures r.Ok? ==> r' == Ok(r.value)
    ensures r.Err? ==> r'.Err? && r'.error == ExtContext(r.error, context)
  {
    match r
    case Ok(v) => Ok(v)
    case Err(e) => Err(ExtContext(e, context))
  }

  /** `wrap_help(f, help)` once `f` has produced `context`. */
  function ResultWrapHelp<T>(r: Result<T, Cause>, context: Link, msg: string): (r': Result<T, ErrorValue>)
    ensures r.Ok? ==> r' == Ok(r.value)
    ensures r.Err? ==> r'.Err? && r'.error == ExtContextHelp(r.error, context, msg)
  {
    match r
    case Ok(v) => Ok(v)
    case Err(e) => Err(ExtContextHelp(e, context, msg))
  }

  /** `wrap_help_owned(f, help)` once `f` has produced `context`. */
  function ResultWrapHelpOwned<T>(r: Result<T, Cause>, context: Link, msg: string): (r': Result<T, ErrorValue>)
    ensures r.Ok? ==> r' == Ok(r.value)
    ensures r.Err? ==> r'.Err? && r'.error == ExtContextHelpOwned(r.error, context, msg)
  {
    match r
    case Ok(v) => Ok(v)
    case Err(e) => Err(ExtContextHelpOwned(e, context, msg))
  }

  /** `add_help(help)`: converts and appends help; adds no link. */
  function ResultAddHelp<T>(r: Result<T, Cause>, msg: string): (r': Result<T, ErrorValue>)
    ensures r.Ok? ==> r' == Ok(r.value)
    ensures r.Err? ==> r'.Err? && r'.error.inner == IntoError(r.error).inner
    ensures r.Err? ==> HelpText(r'.error.help) == Some(Appended(HelpText(IntoError(r.error).help), msg))
  {
    match r
    case Ok(v) => Ok(v)
    case Err(e) => Err(AddHelpValue(IntoError(e), msg))
  }

  /** `add_help_with(f)` once `f` has produced `msg`. */
  function ResultAddHelpOwned<T>(r: Result<T, Cause>, msg: string): (r': Result<T, ErrorValue>)
    ensures r.Ok? ==> r' == Ok(r.value)
    ensures r.Err? ==> r'.Err? && r'.error.inner == IntoError(r.error).inner
    ensures r.Err? ==> HelpText(r'.error.help) == Some(Appended(HelpText(IntoError(r.error).help), msg))
  {
    match r
    case Ok(v) => Ok(v)
    case Err(e) => Err(AddHelpOwnedValue(IntoError(e), msg))
  }

  // ---- lazy forms: the closure runs once on `Err` and never on `Ok`

  /** `wrap_with(f)`. */
  method WrapWith<T>(r: Result<T, Cause>, f: Thunk<Link>) returns (r': Result<T, ErrorValue>)
    modifies f
    ensures f.calls == old(f.calls) + (if r.Err? then 1 else 0)
    ensures r' == ResultWrap(r, f.value)
  {
    match r
    case Ok(v) =>
      r' := Ok(v);
    case Err(e) =>
      var context := f.Call();
      r' := Err(ExtContext(e, context));
  }

  /** `wrap_help(f, help)`. */
  method WrapHelpWith<T>(r: Result<T, Cause>, f: Thunk<Link>, msg: string) returns (r': Result<T, ErrorValue>)
    modifies f
    ensures f.calls == old(f.calls) + (if r.Err? then 1 else 0)
    ensures r' == ResultWrapHelp(r, f.value, msg)
  {
    match r
    case Ok(v) =>
      r' := Ok(v);
    case Err(e) =>
      var context := f.Call();
      r' := Err(ExtContextHelp(e, context, msg));
  }

  /** `wrap_help_owned(f, help)`. */
  method WrapHelpOwnedWith<T>(r: Result<T, Cause>, f: Thunk<Link>, msg: string) returns (r': Result<T, ErrorValue>)
    modifies f
    ensures f.calls == old(f.calls) + (if r.Err? then 1 else 0)
    ensures r' == ResultWrapHelpOwned(r, f.value, msg)
  {
    match r
    case Ok(v) =>
      r' := Ok(v);
    case Err(e) =>
      var context := f.Call();
      r' := Err(ExtContextHelpOwned(e, context, msg));
  }

  /** `add_help_with(f)`. */
  method AddHelpWith<T>(r: Result<T, Cause>, f: Thunk<string>) returns (r': Result<T, ErrorValue>)
    modifies f
    ensures f.calls == old(f.calls) + (if r.Err? then 1 else 0)
    ensures r' == ResultAddHelpOwned(r, f.value)
  {
    match r
    case Ok(v) =>
      r' := Ok(v);
    case Err(e) =>
      var msg := f.Call();
      r' := Err(AddHelpOwnedValue(IntoError(e), msg));
  }

  // ---- properties

  /** Help given at an inner call comes first, help given further out last,
      with a context in between. */
  lemma HelpAcrossLayers<T>(r: Result<T, Cause>, inner: string, context: Link, outer: string)
    requires r.Err? && IntoError(r.error).help == None
    ensures var r' := ResultAddHelp(Lift(ResultWrap(Lift(ResultAddHelp(r, inner)), context)), outer);
      r'.Err? && HelpText(r'.error.help) == Some(inner + "\n" + outer)
      && r'.error.inner.layers == [context] + IntoError(r.error).inner.layers
  {
  }

  /** On a narrate `Error`, `wrap_help` is `wrap` followed by `add_help`. */
  lemma ContextHelpIsWrapThenAddHelp<T>(r: Result<T, ErrorValue>, context: Link, msg: string)
    ensures ResultWrapHelp(Lift(r), context, msg)
      == ResultAddHelp(Lift(ResultWrap(Lift(r), context)), msg)
  {
  }
}
