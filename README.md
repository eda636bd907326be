# narrate: error composition, in Dafny

This project models the error-composition core of `narrate`, a Rust library for
command-line programs. The model covers these parts:

- **`CliError`** (module `Cli`). The fifteen standard command-line errors, each
  with its display message and its `sysexits.h` exit code (USAGE 64 … CONFIG 78).
  SOFTWARE (70) is the code used when nothing more specific is known.
- **`Error`** (module `Errors`). A narrate error is the wrapped `anyhow::Error`
  plus an optional help message that is either `Static` or `Owned`.
  - The anyhow error is a datatype `Anyhow(layers)`: its context layers, outermost
    first, and last the root object it was created from.
  - `chain()` yields the layers and then the root's `source()` chain (`ChainView`).
  - Type erasure is replaced by the closed datatype `Link`, whose "type" is its
    `Kind`. A `Link` is one of: a message, a `CliError`, a nested narrate `Error`,
    or a foreign error with an optional source.
  - The class `Errors.Error` holds the two fields and updates them in place. Pure
    functions on the value `ErrorValue` specify its methods.
- **`ErrorWrap` for `Result`** (module `Wrap`). Eager combinators are functions;
  lazy ones are methods whose closure is a `Thunk` with a call counter. `Ok` passes
  through and never forces the closure. `Err` is converted, wrapped and/or given help.
- **`Chain`** (module `Chains`). A double-ended, exact-size cursor over the links,
  with front and back indices.
- **Exit codes** (module `ExitCodes`). Use the outermost `CliError` layer if there
  is one. Otherwise use the outermost embedded narrate `Error`, resolved
  recursively. Otherwise SOFTWARE.
- **Plain-text reports** (module `Report`). Standard error is a class holding the
  sequence of writes. `err`, `err_full`, `anyhow_err`, `anyhow_err_full` and
  `status` are methods proved equal to pure report functions. Lemmas give those
  functions their meaning.
- **Scenarios** (module `Scenarios`). The behaviour the integration tests and
  examples pin down, stated over the model.

Where the code and its documentation disagree, the model follows the code:

- `Display` for `Error` (src/error/mod.rs:63-70, 81-88) appends a blank line and
  the help. The reports use this display as the title (src/report.rs:102, 186).
  So a report of an error with help shows the help in the title and then again
  after it. `Report.TitleRepeatsHelp` and `Scenarios.InvalidConfigReport` state
  the output as written.
- For the same reason, tests/integration/wrap.rs:23-37 expects an error carrying
  help to display as its context alone, which `Display` as written does not do.
  `Errors.DisplayShowsHelp` states what it does.
- The `ErrorWrap` impl in src/error/wrap.rs has the shape `wrap(f)`, `wrap_help`,
  `wrap_help_owned`. This differs from the trait declared in src/lib.rs:166-189,
  which has `wrap`, `wrap_with`, `add_help`, `add_help_with`. Both sets are
  modelled, once each, over the same conversion and help-merge rule.
- `is` and `downcast_ref` look at anyhow's layers, and the exit-code lookup does
  too. A `CliError` reached only through a root object's `source()` is therefore
  not found (`ExitCodes.SourceOnlyCliIsSoftware`). When the root has no source,
  every link the chain yields is a layer, and `is` matches "some link has the
  type" (`Errors.IsMatchesChain`).
- `set_help`, called at src/error/wrap.rs:69 and 103, is taken to be
  `set_help_static`.

## Model

| member | source | states |
|---|---|---|
| Cli.Payload | src/lib.rs:202-249 | a variant has a field exactly when it is one of the path or name variants |
| Cli.ExitCode | src/error/cli.rs:89-108 | the code table is total; every code lies in 64..78 and is neither UNAVAILABLE nor SOFTWARE |
| Cli.DisplayFollowsTemplate | src/error/cli.rs:40-75 | every message is its variant's fixed text followed by the field; a fixed text followed by a field ends in ": " |
| Cli.Display | src/error/cli.rs:40-75 | no contract of its own; `Cli.DisplayFollowsTemplate` and `Scenarios.CliOutputs` give every variant's message |
| Cli.StructuralEquality | src/lib.rs:202 | two errors are equal exactly when variant and field are equal |
| Cli.ExitCodeIgnoresPayload | src/error/cli.rs:93-107 | the code depends on the variant only, never on the field |
| Cli.SharedExitCodes | src/error/cli.rs:96-103 | two variants share a code exactly when they are the same variant, InputData and ResourceNotFound, or ReadFile and WriteFile |
| Cli.FifteenVariants | src/lib.rs:204-249 | fifteen variants: five carry a path, four a name, six nothing |
| Chains.Chain.Default | src/lib.rs:65-70 | a default chain is valid and has nothing left to yield |
| Chains.Chain.Over | src/lib.rs:65-70 | a chain over a sequence has all of it left, front to back |
| Chains.Chain.Copy | src/lib.rs:65 | a copy has exactly what the original has left |
| Chains.Chain.Next | src/error/chain.rs:8-10 | yields the outermost remaining link and drops it from the front; None once nothing is left |
| Chains.Chain.NextBack | src/error/chain.rs:18-20 | yields the innermost remaining link and drops it from the back; None once nothing is left |
| Chains.Chain.Len | src/error/chain.rs:24-26 | the number of links left; zero exactly when nothing is left |
| Chains.Chain.SizeHint | src/error/chain.rs:12-14 | both bounds equal the number of links left |
| Chains.Chain.Clone | src/lib.rs:65-70 | a fresh chain with the same links left; the original is untouched |
| Chains.Collect | src/error/chain.rs:8-10 | iterating forward to exhaustion yields every remaining link in order |
| Chains.CollectBack | src/error/chain.rs:18-20 | iterating backward to exhaustion yields the remaining links reversed |
| Errors.ChainView | src/lib.rs:46-64 | the chain is empty exactly when there are no layers, and it starts with the layers |
| Errors.Deepest | tests/integration/error.rs:109-117 | the deepest link is the last of its source chain and has no source |
| Errors.LinkDisplay | src/error/mod.rs:63-70 | no contract of its own; a link displays as its text, its CliError message, or its nested error's display; `Errors.FromCauseTransparent` uses it |
| Errors.AnyhowDisplay | src/error/mod.rs:66 | no contract of its own; the outermost layer's display, as `Errors.WrapDisplay` states |
| Errors.ErrorDisplay | src/error/mod.rs:63-88 | no contract of its own; `Errors.DisplayShowsHelp` states it is the inner display, plus a blank line and the help when there is help |
| Errors.FromCause | src/error/mod.rs:45-55 | no contract of its own; `Errors.FromCauseTransparent` states it has no help, displays as the cause and keeps the source chain |
| Errors.WrapValue | tests/integration/error.rs:20-24 | no contract of its own; `Errors.WrapChain`, `Errors.WrapDisplay` and `Errors.WrapRootCause` state the new chain, display and root cause |
| Errors.AddHelpValue | tests/integration/error.rs:125-143 | no contract of its own; `Errors.AddHelpsJoin` states that repeated calls join the messages in call order |
| Errors.AddHelpOwnedValue | tests/integration/error.rs:145-163 | no contract of its own; `Errors.MergeOwned` states the new help; `Scenarios.HelpTwice` gives the test's result |
| Errors.FindKind | src/exit_code.rs:4 | finds the outermost layer of a kind: no earlier layer has it, and None only when no layer has it |
| Errors.MergeStatic | src/error/wrap.rs:96-104 | the help text becomes old text, newline, new text (or the new text alone); the first help stays static and any append makes it owned |
| Errors.MergeOwned | src/error/wrap.rs:112-116 | the help text becomes old text, newline, new text (or the new text alone), always owned |
| Errors.FromCauseTransparent | src/error/mod.rs:45-55 | a fresh error displays as its cause, has no help, and its chain is the cause's source chain |
| Errors.DisplayShowsHelp | src/error/mod.rs:63-88 | display equals the chain's display exactly when there is no help; with help it continues with a blank line and the help |
| Errors.WrapChain | tests/integration/error.rs:95-107 | a wrap puts the context first in the chain, in front of the old chain, one link longer |
| Errors.WrapDisplay | tests/integration/error.rs:20-24 | without help, a wrapped error displays as its context |
| Errors.WrapRootCause | tests/integration/error.rs:109-117 | wrapping never changes the root cause |
| Errors.WrapsChain | tests/integration/chain.rs:101-103 | after any number of wraps the chain is the contexts, newest first, then the old chain; help is kept |
| Errors.IsAfterWrap | tests/integration/error.rs:62-67 | after a wrap, `is` holds exactly for the context's type or a type the error already had |
| Errors.IsSurvivesWraps | tests/integration/error.rs:62-67 | a type the error had survives any number of wraps |
| Errors.IsMatchesChain | tests/integration/error.rs:77-81 | when the root has no source, `is` holds exactly when some link of the chain has the type |
| Errors.AddHelpsJoin | tests/integration/error.rs:133-143 | help added N times is the N messages joined by newlines in call order; the chain is unchanged |
| Errors.InnerHelpFirst | examples/multi_help_msg.rs:1-26 | help added before a wrap comes first, help added after comes last |
| Errors.Error.New | src/error/mod.rs:45-55 | a new error holds exactly its cause and no help |
| Errors.Error.FromAnyhow | tests/integration/error.rs:12-18 | an error made from an anyhow error keeps its chain and has no help |
| Errors.Error.Wrap | tests/integration/error.rs:20-24 | the context becomes the outermost layer; help is kept |
| Errors.Error.Help | src/error/mod.rs:26-28 | the stored text whether owned or static; None exactly when there is no help |
| Errors.Error.SetHelpOwned | src/error/mod.rs:30-32 | overwrites any help with the owned message; the chain is unchanged |
| Errors.Error.SetHelpStatic | src/error/mod.rs:34-36 | overwrites any help with the static message; the chain is unchanged |
| Errors.Error.AddHelp | tests/integration/error.rs:125-143 | the help follows the static merge rule; the chain is unchanged |
| Errors.Error.AddHelpWith | tests/integration/error.rs:145-163 | the closure runs once and the help follows the owned merge rule |
| Errors.Error.ExtContextHelp | src/error/wrap.rs:91-106 | wrap, then the static merge: push onto owned help, copy static help into owned, set when none |
| Errors.Error.ExtContextHelpOwned | src/error/wrap.rs:108-118 | wrap, then the owned merge |
| Errors.Error.Is | tests/integration/error.rs:26-36 | true exactly when some layer has the type |
| Errors.Error.RootCause | tests/integration/error.rs:109-117 | the last link the chain yields |
| Errors.Error.Display | src/error/mod.rs:63-70 | no contract of its own; the display of the error's value, described by `Errors.DisplayShowsHelp` |
| Errors.Error.Chain | tests/integration/error.rs:83-93 | a fresh iterator over every layer and the root's sources, outermost first |
| Wrap.IntoError | src/error/mod.rs:45-55 | a standard error becomes an error with its source chain and no help; a narrate error is kept as it is |
| Wrap.ExtContext | src/error/wrap.rs:57-62 | the context is put in front of the converted error's layers; help is kept |
| Wrap.ExtContextHelp | src/error/wrap.rs:64-71 | as ext_context, then the help is the prior help, newline, message; a foreign error gets exactly the static message |
| Wrap.ExtContextHelpOwned | src/error/wrap.rs:73-80 | as ext_context, then the owned help appended; a foreign error gets exactly the owned message |
| Wrap.ResultWrap | src/lib.rs:171-173 | Ok passes through unchanged; Err becomes the converted error with the context in front |
| Wrap.ResultWrapHelp | src/error/wrap.rs:17-23 | Ok passes through; Err becomes the context-and-static-help form |
| Wrap.ResultWrapHelpOwned | src/error/wrap.rs:25-31 | Ok passes through; Err becomes the context-and-owned-help form |
| Wrap.ResultAddHelp | src/lib.rs:182-183 | Ok passes through; Err keeps its chain and its help gains the message last |
| Wrap.ResultAddHelpOwned | src/lib.rs:185-188 | Ok passes through; Err keeps its chain and its owned help gains the message last |
| Wrap.WrapWith | src/error/wrap.rs:9-15 | the closure runs once on Err and never on Ok; the result is the eager wrap with the closure's value |
| Wrap.WrapHelpWith | src/error/wrap.rs:17-23 | the closure runs once on Err and never on Ok; the result is the eager wrap_help |
| Wrap.WrapHelpOwnedWith | src/error/wrap.rs:25-31 | the closure runs once on Err and never on Ok; the result is the eager wrap_help_owned |
| Wrap.AddHelpWith | src/lib.rs:185-188 | the closure runs once on Err and never on Ok; the result is the eager owned add_help |
| Wrap.HelpAcrossLayers | examples/multi_help_msg.rs:14-26 | help added inside, then a wrap, then help added outside: inner help, newline, outer help, with the context in front |
| Wrap.ContextHelpIsWrapThenAddHelp | src/error/wrap.rs:91-106 | on a narrate error, wrap_help equals wrap followed by add_help |
| ExitCodes.AnyhowExitCode | src/exit_code.rs:2-15 | the result is SOFTWARE or some CliError's code, always in 64..78 and never UNAVAILABLE |
| ExitCodes.ErrorExitCode | src/exit_code.rs:17-22 | an error's code is its chain's code: SOFTWARE or some CliError's code |
| ExitCodes.DefaultExitCode | src/lib.rs:194-199 | the default code is SOFTWARE, which no CliError uses |
| ExitCodes.OutermostCliWins | src/exit_code.rs:4-6 | the outermost CliError layer decides the code |
| ExitCodes.NestedErrorResolves | src/exit_code.rs:9-11 | without a CliError layer, the outermost nested error decides, by recursion |
| ExitCodes.NoCliNoNestedIsSoftware | src/exit_code.rs:13 | with neither, the code is SOFTWARE |
| ExitCodes.SourceOnlyCliIsSoftware | src/exit_code.rs:4-6 | a CliError reached only through a source is in the chain but not found |
| ExitCodes.CliContextDecides | tests/integration/exit_code.rs:54-64 | a CliError used as the wrapping context gives its code |
| ExitCodes.CliCauseDecides | tests/integration/exit_code.rs:30-52 | a CliError cause gives its code under any number of other contexts |
| ExitCodes.WrapsKeepCliCode | src/exit_code.rs:2-15 | contexts that are not CliErrors keep the code of a chain that has one |
| ExitCodes.CliBeatsNested | src/exit_code.rs:4-11 | a CliError layer decides even when a nested error sits further out, one that would decide the code of the layers before the CliError |
| ExitCodes.NestedCliFound | src/exit_code.rs:9-11 | a nested error used as a context gives its inner CliError's code |
| Report.LineRoundTrip | src/report.rs:335 | a line is the title, ": ", the message and a newline; read back, it gives the title and message |
| Report.FormatLine | src/report.rs:315-337 | no contract of its own; `Report.LineRoundTrip` states the line reads back as its title and message |
| Report.FormatStatus | src/report.rs:355 | the title right-justified in twelve columns with spaces, a space, the message and a newline |
| Report.LongStatusUncut | src/report.rs:355 | a title of twelve columns or more is not cut |
| Report.Lines | src/report.rs:306-307 | no lines exactly for the empty text; no line contains a break |
| Report.LastOfJoined | src/report.rs:306-309 | the last line of stacked single-line messages is the newest message |
| Report.OneLineEnded | src/report.rs:306-308 | a final line break adds no empty line: `"a\n"` has the one line `"a"` |
| Report.LastLineBeforeFinalBreak | src/report.rs:306-309 | when the help ends in a line break, its last line is the one that break ends |
| Report.CauseLines | src/report.rs:287-289 | one cause line per link after the first, in chain order |
| Report.TitleLine | src/report.rs:268-275 | no contract of its own; an "error" line of the given message, stated in `Report.ErrWithoutHelp` |
| Report.QuietHelp | src/report.rs:302-313 | no contract of its own; `Report.ErrPanicsOnEmptyHelp` and `Report.ErrShowsLastHelpLine` state its panic and its blank line plus last help line |
| Report.FullHelp | src/report.rs:293-300 | no contract of its own; `Report.ErrFullShape` states it writes a blank line and the whole help |
| Report.ErrReport | src/report.rs:99-104 | no contract of its own; `Report.ErrWithoutHelp`, `Report.ErrShowsLastHelpLine` and `Report.TitleRepeatsHelp` give its writes |
| Report.ErrFullReport | src/report.rs:183-189 | no contract of its own; `Report.ErrFullShape` gives its writes |
| Report.AnyhowErrReport | src/report.rs:207-211 | no contract of its own; `Report.AnyhowReportsHaveNoHelp` and `Report.AnyhowFullAddsCauses` give its one line |
| Report.AnyhowErrFullReport | src/report.rs:261-266 | no contract of its own; `Report.AnyhowFullAddsCauses` gives its title and cause lines |
| Report.ErrWithoutHelp | src/report.rs:99-104 | without help, `err` writes only the error's title line and does not panic |
| Report.ErrPanicsOnEmptyHelp | src/report.rs:304-313 | `err` panics exactly when the help is the empty string |
| Report.ErrShowsLastHelpLine | src/report.rs:304-313 | with help, `err` writes the title and then a blank line and the help's last line |
| Report.ErrShowsNewestHelp | src/report.rs:304-313 | with stacked single-line help, the quiet help line is the newest message |
| Report.TitleRepeatsHelp | src/report.rs:102 | as written, the title of an error with help already carries the help |
| Report.ErrFullShape | src/report.rs:183-189 | `err_full` writes the title, a cause line per later link, then the whole help |
| Report.AnyhowReportsHaveNoHelp | src/report.rs:207-211 | the anyhow reports are the narrate reports without help |
| Report.AnyhowFullAddsCauses | src/report.rs:261-266 | the quiet anyhow report is one line; the full one has a line per link and starts with it |
| Report.FormatErrorCauses | src/report.rs:278-291 | writes exactly the cause lines of the chain |
| Report.WriteCauses | src/report.rs:287-289 | the loop over the chain, first link skipped, writes one cause line per later link |
| Report.Err | src/report.rs:99-104 | writes what the quiet report says and panics when it does |
| Report.ErrFull | src/report.rs:183-189 | writes what the full report says |
| Report.AnyhowErr | src/report.rs:207-211 | writes the anyhow title line |
| Report.AnyhowErrFull | src/report.rs:261-266 | writes the anyhow title and cause lines |
| Report.Status | src/report.rs:48-59 | writes one status line |
| Scenarios.Digits | tests/integration/chain.rs:101-103 | the layers are 3, 2, 1, 0 and there is no help |
| Scenarios.Iter | tests/integration/chain.rs:38-48 | yields "3", "2", "1", "0", then None at both ends |
| Scenarios.IterRev | tests/integration/chain.rs:50-60 | yields "0", "1", "2", "3", then None at both ends |
| Scenarios.Len | tests/integration/chain.rs:62-81 | len and size_hint fall 4..0 while the ends alternate, yielding "3", "0", "2", "1" |
| Scenarios.Default | tests/integration/chain.rs:83-87 | a default chain yields nothing |
| Scenarios.Clone | tests/integration/chain.rs:89-99 | a clone yields the whole chain and the original still does too |
| Scenarios.NestedChain | tests/integration/chain.rs:17-29 | the chain runs through the cause's source; the root cause is the stub |
| Scenarios.IsAfterWrapScenario | tests/integration/error.rs:32-67 | `is` does not find a type the error never had; after the wrap it finds both types |
| Scenarios.HelpTwice | tests/integration/error.rs:125-163 | help added twice, eagerly or lazily, is "first help\nsecond help"; each closure runs once |
| Scenarios.CliOutputs | tests/integration/cli_error.rs:42-121 | every variant's message and exit code |
| Scenarios.LazyContext | tests/integration/wrap.rs:7-21 | a lazily wrapped error displays as its context, has its type and no help; the closure ran once |
| Scenarios.ExitCodeSuite | tests/integration/exit_code.rs:6-64 | plain errors give SOFTWARE; a Config error gives CONFIG as the cause or as the context, through narrate's `wrap` or anyhow's `context` |
| Scenarios.WrapHelpFunction | tests/wrap.rs:5-24 | a failed file creation gives CANTCREAT, exactly the given help, and one closure call |
| Scenarios.OkNeverForces | src/error/wrap.rs:9-31 | on Ok, every lazy form returns the value and no closure ever runs |
| Scenarios.InvalidConfigError | examples/invalid_config.rs:3-26 | the chain is Config, the file context, the parse message; the help is as given; the code is CONFIG |
| Scenarios.InvalidConfigReport | examples/invalid_config.rs:3-26 | the full report's four writes, with the help in the title and after the causes |
| Scenarios.MultiHelpMessage | examples/multi_help_msg.rs:1-26 | help "inner help\nouter help" over the chain "outer error", "inner error" |
| Scenarios.MultiHelpDisplay | examples/multi_help_msg.rs:1-26 | as written, the display holds both help lines |
| Scenarios.AnyhowReportExample | examples/anyhow_report.rs:12-36 | the full anyhow report's two lines, and exit code OSERR |
| Scenarios.StatusHiWorld | tests/integration/report.rs:5-13 | "hi" is right-justified in twelve columns before "world" |

## Left out

- Terminal detection and colour (`atty`, `colored`, the `Some(color)` branches of
  the report functions) are foreign calls. Only the plain branch is modelled.
- Locking standard error and the `.expect` on write failures are I/O. The stream is
  a buffer of writes that never fails.
- `TypeId` downcasting, anyhow's narrow-pointer representation, and by-value or
  mutable `downcast` are foreign. A closed `Link` datatype and its `Kind` stand for
  them. `downcast_ref` is the search `FindKind`. One kind, `MessageKind`, covers
  every ad-hoc message: `&str`, `String` and the integers of `error_from!({ 0 })`
  and `.wrap(1)` alike. So in the model `is` finds `String` after `.wrap("ctx")`,
  where Rust's `TypeId` would tell `&str` and `String` apart and find nothing.
- The macros (`error_from!`, `bail!`, `anyhow!`) are thin wrappers and are not
  members of the model. `error_from!(x)` is `Errors.FromCause` with `x` as the
  single root layer. That layer is a `Message` for text or an integer, a `CliErr`
  for a `CliError` (as in `error_from!(CliError::Config)`), a `Foreign` error with
  its source for another standard error, and a `Nested` error for a narrate `Error`.
- The sealed marker traits, including the seal on `Option`, and the
  `Send + Sync + 'static` bounds have no behaviour.
- `Debug` formatting is not modelled. `PathBuf::display` is taken as the path's
  text, with no lossy conversion.
- `&'static str` and `String` are both `string`. Only the `Static`/`Owned` tag
  records which one the help is.
- The default type parameter of `Result<T, E = Error>` is a type alias with no
  behaviour. The model's `Result` always names both types.
- Methods that consume `self` and return a new error (`wrap`, `ext_context_help*`)
  update the `Errors.Error` object in place. The consumed value is unreachable in
  Rust, so nothing observable is lost.
- A narrate `Error` enters another error's layers as a context (`wrap`) or as an
  ad-hoc root (`anyhow!` or `error_from!`, which accept any displayable value).
  Both are `Nested` layers, and the exit-code lookup finds either. The model also
  lets a `Nested` link be a foreign error's `source()`. Rust cannot build that,
  because a narrate `Error` does not implement the standard error trait. No lemma
  relies on such a chain.
- The example programs and src/bin read arguments and call
  `std::process::exit`. Only their error values, reports and exit codes are
  modelled.
- The process-spawning harness in tests/integration/report.rs is I/O. The status
  line it checks is `Scenarios.StatusHiWorld`.
- `Errors.Error.Is`: follows anyhow, which checks layers only. It is weaker than
  "any link of the chain" when the root has a source; `Errors.IsMatchesChain` gives
  the case where the two agree.
