/** The standard command-line failure taxonomy `CliError`: fifteen variants,
    each with a fixed display template and a fixed sysexits.h exit code. */
module Cli {
  import opened Wrappers

  // The sysexits.h codes, under the names the `exitcode` crate gives them.
  const USAGE: int := 64
  const DATAERR: int := 65
  const NOINPUT: int := 66
  const NOUSER: int := 67
  const NOHOST: int := 68
  const UNAVAILABLE: int := 69
  /** Internal software error; also the default body of the `ExitCode` trait. */
  const SOFTWARE: int := 70
  const OSERR: int := 71
  const OSFILE: int := 72
  const CANTCREAT: int := 73
  const IOERR: int := 74
  const TEMPFAIL: int := 75
  const PROTOCOL: int := 76
  const NOPERM: int := 77
  const CONFIG: int := 78

  /** A `PathBuf`, taken as the text `display()` prints. */
  type Path = string

  /** Equality of this datatype is structural, as `#[derive(PartialEq, Eq)]` makes it. */
  datatype CliError =
    | Config
    | CreateFile(path: Path)
    | InputData
    | InputFileNotFound(path: Path)
    | NoUser(user: string)
    | NoHost(host: string)
    | OperationPermission(op: string)
    | OsErr
    | OsFileNotFound(path: Path)
    | ReadFile(path: Path)
    | ResourceNotFound(resource: string)
    | Protocol
    | Temporary
    | Usage
    | WriteFile(path: Path)

  datatype PayloadKind = NoPayload | PathPayload | NamePayload

  /** Position of the variant in the declaration, 0 to 14. */
  function Tag(c: CliError): (t: nat)
    ensures t < 15
  {
    match c
    case Config => 0
    case CreateFile(_) => 1
    case InputData => 2
    case InputFileNotFound(_) => 3
    case NoUser(_) => 4
    case NoHost(_) => 5
    case OperationPermission(_) => 6
    case OsErr => 7
    case OsFileNotFound(_) => 8
    case ReadFile(_) => 9
    case ResourceNotFound(_) => 10
    case Protocol => 11
    case Temporary => 12
    case Usage => 13
    case WriteFile(_) => 14
  }

  function KindOfPayload(c: CliError): PayloadKind
  {
    match c
    case CreateFile(_) => PathPayload
    case InputFileNotFound(_) => PathPayload
    case OsFileNotFound(_) => PathPayload
    case ReadFile(_) => PathPayload
    case WriteFile(_) => PathPayload
    case NoUser(_) => NamePayload
    case NoHost(_) => NamePayload
    case OperationPermission(_) => NamePayload
    case ResourceNotFound(_) => NamePayload
    case _ => NoPayload
  }

  /** The variant's field, if it has one. */
  function Payload(c: CliError): (p: Option<string>)
    ensures p.Some? <==> KindOfPayload(c) != NoPayload
  {
    match c
    case CreateFile(p) => Some(p)
    case InputFileNotFound(p) => Some(p)
    case OsFileNotFound(p) => Some(p)
    case ReadFile(p) => Some(p)
    case WriteFile(p) => Some(p)
    case NoUser(u) => Some(u)
    case NoHost(h) => Some(h)
    case OperationPermission(o) => Some(o)
    case ResourceNotFound(r) => Some(r)
    case _ => None
  }

  /** `impl Display for CliError`. */
  function Display(c: CliError): string
  {
    match c
    case Config => "invalid configuration"
    case CreateFile(file) => "cannot create file: " + file
    case InputData => "invalid input data"
    case InputFileNotFound(file) => "file not found: " + file
    case NoUser(user) => "user not found: " + user
    case NoHost(host) => "host not found: " + host
    case OperationPermission(op) => "no permission for operation: " + op
    case OsErr => "operating system error"
    case OsFileNotFound(file) => "system file not found: " + file
    case ReadFile(file) => "cannot read file: " + file
    case ResourceNotFound(resource) => "resource not found: " + resource
    case Protocol => "protocol not possible"
    case Temporary => "temporary failure"
    case Usage => "incorrect usage"
    case WriteFile(file) => "cannot write to file: " + file
  }

  /** `From<&CliError> for i32`; `exit_code()` and `From<CliError>` both
      delegate to it, so all three are this one function. */
  function ExitCode(c: CliError): (code: int)
    ensures USAGE <= code <= CONFIG
    ensures code != UNAVAILABLE && code != SOFTWARE
  {
    match c
    case Config => CONFIG
    case CreateFile(_) => CANTCREAT
    case InputData => DATAERR
    case ResourceNotFound(_) => DATAERR
    case InputFileNotFound(_) => NOINPUT
    case NoUser(_) => NOUSER
    case NoHost(_) => NOHOST
    case OperationPermission(_) => NOPERM
    case OsErr => OSERR
    case OsFileNotFound(_) => OSFILE
    case ReadFile(_) => IOERR
    case WriteFile(_) => IOERR
    case Protocol => PROTOCOL
    case Temporary => TEMPFAIL
    case Usage => USAGE
  }

  /** The fixed part of each variant's message, indexed by variant position:
      the whole message for a variant without a field, the text before the
      field otherwise. */
  function Template(tag: nat): string
  {
    if tag == 0 then "invalid configuration"
    else if tag == 1 then "cannot create file: "
    else if tag == 2 then "invalid input data"
    else if tag == 3 then "file not found: "
    else if tag == 4 then "user not found: "
    else if tag == 5 then "host not found: "
    else if tag == 6 then "no permission for operation: "
    else if tag == 7 then "operating system error"
    else if tag == 8 then "system file not found: "
    else if tag == 9 then "cannot read file: "
    else if tag == 10 then "resource not found: "
    else if tag == 11 then "protocol not possible"
    else if tag == 12 then "temporary failure"
    else if tag == 13 then "incorrect usage"
    else "cannot write to file: "
  }

  function PayloadText(c: CliError): string
  {
    match Payload(c)
    case Some(p) => p
    case None => ""
  }

  /** Every message is its variant's template followed by the field; a
      template followed by a field ends in ": ". */
  lemma DisplayFollowsTemplate(c: CliError)
    ensures Display(c) == Template(Tag(c)) + PayloadText(c)
    ensures KindOfPayload(c) != NoPayload ==>
      |Template(Tag(c))| >= 2 && Template(Tag(c))[|Template(Tag(c))| - 2..] == ": "
  {
    if KindOfPayload(c) != NoPayload {
      EndsInColon(Template(Tag(c)));
    }
  }

  /** The templates of the variants with a field end in ": ". */
  lemma EndsInColon(s: string)
    requires s in {"cannot create file: ", "file not found: ", "user not found: ",
      "host not found: ", "no permission for operation: ", "system file not found: ",
      "cannot read file: ", "resource not found: ", "cannot write to file: "}
    ensures |s| >= 2 && s[|s| - 2..] == ": "
  {
  }

  /** Two errors are equal exactly when they have the same variant and the same field. */
  lemma StructuralEquality(a: CliError, b: CliError)
    ensures a == b <==> Tag(a) == Tag(b) && Payload(a) == Payload(b)
  {
    if Tag(a) == Tag(b) && Payload(a) == Payload(b) {
      match a
      case CreateFile(_) => assert b.CreateFile?;
      case InputFileNotFound(_) => assert b.InputFileNotFound?;
      case NoUser(_) => assert b.NoUser?;
      case NoHost(_) => assert b.NoHost?;
      case OperationPermission(_) => assert b.OperationPermission?;
      case OsFileNotFound(_) => assert b.OsFileNotFound?;
      case ReadFile(_) => assert b.ReadFile?;
      case ResourceNotFound(_) => assert b.ResourceNotFound?;
      case WriteFile(_) => assert b.WriteFile?;
      case _ =>
    }
  }

  /** The exit code depends on the variant alone, never on its field. */
  lemma ExitCodeIgnoresPayload(a: CliError, b: CliError)
    requires Tag(a) == Tag(b)
    ensures ExitCode(a) == ExitCode(b)
  {
  }

  /** The only variants sharing a code are InputData with ResourceNotFound
      (DATAERR) and ReadFile with WriteFile (IOERR). */
  lemma SharedExitCodes(a: CliError, b: CliError)
    ensures ExitCode(a) == ExitCode(b) <==>
      Tag(a) == Tag(b) || {Tag(a), Tag(b)} == {2, 10} || {Tag(a), Tag(b)} == {9, 14}
  {
    assert ExitCode(InputData) == ExitCode(ResourceNotFound("")) == DATAERR;
    assert ExitCode(ReadFile("")) == ExitCode(WriteFile("")) == IOERR;
  }

  /** One representative of each variant, in declaration order. */
  function Variant(tag: nat): (c: CliError)
    requires tag < 15
    ensures Tag(c) == tag
  {
    [Config, CreateFile(""), InputData, InputFileNotFound(""), NoUser(""), NoHost(""),
     OperationPermission(""), OsErr, OsFileNotFound(""), ReadFile(""), ResourceNotFound(""),
     Protocol, Temporary, Usage, WriteFile("")][tag]
  }

  /** There are exactly fifteen variants: five carry a path, four a name, six nothing. */
  lemma FifteenVariants()
    ensures forall t :: 0 <= t < 15 ==> Tag(Variant(t)) == t
    ensures forall c :: KindOfPayload(c) == PathPayload <==> Tag(c) in {1, 3, 8, 9, 14}
    ensures forall c :: KindOfPayload(c) == NamePayload <==> Tag(c) in {4, 5, 6, 10}
  {
  }
}
