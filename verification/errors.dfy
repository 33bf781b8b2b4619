/** The error taxonomy of errors.go: nine enumerated errors, each a
    (wire code, HTTP status, message) triple held by a package-level
    singleton, plus the generic and custom constructors, `WithMessage`,
    `Error()` and the `errors.As` lookup the response wrapper performs.

    The nine singletons are shared pointers whose message `WithMessage`
    overwrites, so their current messages are explicit state here: a
    `Registry`, threaded through every operation that can change it. */
module Errors {
  import opened Optional
  import opened Strconv

  /** The success code `OK` carried by every successful reply. */
  const OK: int := 0

  /** The wire code of every error built by `NewCustomError`. */
  const CustomCode: int := 40007

  /** The nine enumerated errors, one per `ErrXxx` singleton. */
  datatype Kind =
    | Unauthorized
    | PermissionDenied
    | FileNotExists
    | InvalidArguments
    | SpaceFull
    | FileNameConflict
    | FileVersionNotExists
    | UserNotExists
    | InternalError

  /** `Error`: a wire code, the HTTP status to send it with, and a message. */
  datatype Error = Error(code: int, statusCode: int, message: string)

  function WireCode(k: Kind): int {
    match k
    case Unauthorized => 40002
    case PermissionDenied => 40003
    case FileNotExists => 40004
    case InvalidArguments => 40005
    case SpaceFull => 40006
    case FileNameConflict => 40008
    case FileVersionNotExists => 40009
    case UserNotExists => 40010
    case InternalError => 50001
  }

  function HttpStatus(k: Kind): int {
    match k
    case Unauthorized => 401
    case InternalError => 500
    case _ => 403
  }

  function DefaultMessage(k: Kind): string {
    match k
    case Unauthorized => "unauthorized"
    case PermissionDenied => "permission denied"
    case FileNotExists => "file not exists"
    case InvalidArguments => "invalid arguments"
    case SpaceFull => "space full"
    case FileNameConflict => "filename conflict"
    case FileVersionNotExists => "file version not exists"
    case UserNotExists => "user not exists"
    case InternalError => "internal error"
  }

  /** Which enumerated error a client should read a wire code as, if any. */
  function KindOfCode(code: int): (r: Option<Kind>)
    ensures r.Some? ==> WireCode(r.value) == code
    ensures r.None? ==> forall k: Kind :: WireCode(k) != code
  {
    match code
    case 40002 => Some(Unauthorized)
    case 40003 => Some(PermissionDenied)
    case 40004 => Some(FileNotExists)
    case 40005 => Some(InvalidArguments)
    case 40006 => Some(SpaceFull)
    case 40008 => Some(FileNameConflict)
    case 40009 => Some(FileVersionNotExists)
    case 40010 => Some(UserNotExists)
    case 50001 => Some(InternalError)
    case _ => None
  }

  /** The current message of each of the nine singletons. */
  datatype Registry = Registry(
    unauthorized: string,
    permissionDenied: string,
    fileNotExists: string,
    invalidArguments: string,
    spaceFull: string,
    fileNameConflict: string,
    fileVersionNotExists: string,
    userNotExists: string,
    internalError: string)
  {
    /** The message singleton `k` currently holds. */
    function Get(k: Kind): string {
      match k
      case Unauthorized => unauthorized
      case PermissionDenied => permissionDenied
      case FileNotExists => fileNotExists
      case InvalidArguments => invalidArguments
      case SpaceFull => spaceFull
      case FileNameConflict => fileNameConflict
      case FileVersionNotExists => fileVersionNotExists
      case UserNotExists => userNotExists
      case InternalError => internalError
    }

    /** The registry after singleton `k`'s message is overwritten. */
    function Set(k: Kind, msg: string): (r: Registry)
      ensures r.Get(k) == msg
      ensures forall j: Kind :: j != k ==> r.Get(j) == Get(j)
    {
      match k
      case Unauthorized => this.(unauthorized := msg)
      case PermissionDenied => this.(permissionDenied := msg)
      case FileNotExists => this.(fileNotExists := msg)
      case InvalidArguments => this.(invalidArguments := msg)
      case SpaceFull => this.(spaceFull := msg)
      case FileNameConflict => this.(fileNameConflict := msg)
      case FileVersionNotExists => this.(fileVersionNotExists := msg)
      case UserNotExists => this.(userNotExists := msg)
      case InternalError => this.(internalError := msg)
    }
  }

  /** The messages the singletons are declared with. */
  const InitialRegistry: Registry := Registry(
    "unauthorized", "permission denied", "file not exists", "invalid arguments", "space full",
    "filename conflict", "file version not exists", "user not exists", "internal error")

  /** The value the singleton `ErrXxx` currently points at. */
  function Singleton(reg: Registry, k: Kind): (e: Error)
    ensures KindOfCode(e.code) == Some(k)
    ensures e.statusCode == HttpStatus(k)
    ensures e.message == reg.Get(k)
  {
    Error(WireCode(k), HttpStatus(k), reg.Get(k))
  }

  /** `NewError(code)`: the given code, no HTTP status, no message. */
  function NewError(code: int): (e: Error)
    ensures e.code == code && e.statusCode == 0 && e.message == ""
    ensures forall reg: Registry, k: Kind :: e != Singleton(reg, k)
  {
    Error(code, 0, "")
  }

  /** `NewCustomError(message)`: the custom wire code, no HTTP status. */
  function NewCustomError(message: string): (e: Error)
    ensures e.code == CustomCode
    ensures KindOfCode(e.code).None? && e.code != OK
    ensures e.statusCode == 0 && e.message == message
  {
    Error(CustomCode, 0, message)
  }

  /** The two values a call of `WithMessage` leaves behind: the receiver it
      wrote to and the clone it returned. */
  datatype Mutation = Mutation(receiver: Error, returned: Error)

  /** `err.WithMessage(msg)` as written: the clone is taken BEFORE the
      receiver's message is overwritten, so the returned value carries the
      previous message and the receiver carries `msg`. */
  function WithMessage(recv: Error, msg: string): (m: Mutation)
    ensures m.returned.code == recv.code && m.receiver.code == recv.code
    ensures m.returned.statusCode == recv.statusCode && m.receiver.statusCode == recv.statusCode
    ensures m.returned.message == recv.message && m.receiver.message == msg
  {
    var clone := recv;
    Mutation(recv.(message := msg), clone)
  }

  /** `ErrXxx.WithMessage(msg)` on the shared singleton of kind `k`, as
      written: the registry afterwards and the returned error. */
  function WithMessageOn(reg: Registry, k: Kind, msg: string): (r: (Registry, Error))
    ensures r.1.code == WireCode(k) && r.1.statusCode == HttpStatus(k)
    ensures r.1.message == reg.Get(k)
    ensures r.0.Get(k) == msg
    ensures forall j: Kind :: j != k ==> r.0.Get(j) == reg.Get(j)
  {
    var m := WithMessage(Singleton(reg, k), msg);
    (reg.Set(k, m.receiver.message), m.returned)
  }

  /** The derived-message operation as its doc comment describes it: a new
      value with the singleton's code and status and the message `msg`; the
      singleton is left as it was. */
  function Derive(reg: Registry, k: Kind, msg: string): (r: (Registry, Error))
    ensures r.0 == reg
    ensures KindOfCode(r.1.code) == Some(k) && r.1.statusCode == HttpStatus(k)
    ensures r.1.message == msg
  {
    (reg, Singleton(reg, k).(message := msg))
  }

  /** Which of the two definitions a model run uses. */
  datatype Policy = AsWritten | Corrected

  /** `ErrXxx.WithMessage(msg)` under either definition: both give `k`'s
      code and status; corrected, the error carries `msg` and no singleton
      changes; as written, it carries the previous message and only `k`'s
      singleton now holds `msg`. */
  function DeriveBy(p: Policy, reg: Registry, k: Kind, msg: string): (r: (Registry, Error))
    ensures r.1.code == WireCode(k) && r.1.statusCode == HttpStatus(k)
    ensures p.Corrected? ==> r.0 == reg && r.1.message == msg
    ensures p.AsWritten? ==> r.1.message == reg.Get(k) && r.0.Get(k) == msg
    ensures p.AsWritten? ==> forall j: Kind :: j != k ==> r.0.Get(j) == reg.Get(j)
  {
    match p
    case AsWritten => WithMessageOn(reg, k, msg)
    case Corrected => Derive(reg, k, msg)
  }

  /** `err.Error()`: "code:<decimal code> message:<message>". The code and
      the message can be read back out of the text, whatever the message
      contains. */
  function Render(e: Error): (s: string)
    ensures ParseRendered(s) == Some((e.code, e.message))
  {
    RenderedTextParses(e.code, e.message);
    "code:" + FormatInt(e.code) + " message:" + e.message
  }

  /** Position of the first space in `s`, or `|s|` when there is none. */
  function IndexOfSpace(s: string): (i: nat)
    ensures i <= |s|
    ensures i < |s| ==> s[i] == ' '
    ensures forall j :: 0 <= j < i ==> s[j] != ' '
  {
    if |s| == 0 || s[0] == ' ' then 0 else 1 + IndexOfSpace(s[1..])
  }

  /** Reads the code and message back out of an `Error()` text. */
  function ParseRendered(s: string): (r: Option<(int, string)>)
  {
    if |s| < 5 || s[..5] != "code:" then None
    else
      var rest := s[5..];
      var i := IndexOfSpace(rest);
      if i + 9 <= |rest| && rest[i..i + 9] == " message:" && ParseDecimal(rest[..i]).Some? then
        Some((ParseDecimal(rest[..i]).value, rest[i + 9..]))
      else None
  }

  /** `errors.As(err, &e)` for `e *Error`, over an error chain: the first
      `*Error` found while unwrapping, resolved against the singletons'
      current messages when it is one of them. */
  datatype GoError =
    | Named(kind: Kind)                       // one of the `ErrXxx` pointers
    | Owned(err: Error)                       // any other `*Error`
    | Wrapped(context: string, inner: GoError) // an error that wraps `inner`
    | Foreign(text: string)                   // any other error type

  /** The error at the bottom of a wrap chain. */
  function Root(e: GoError): (r: GoError)
    ensures !r.Wrapped?
  {
    match e
    case Wrapped(_, inner) => Root(inner)
    case _ => e
  }

  function As(reg: Registry, e: GoError): (r: Option<Error>)
    ensures r.None? <==> Root(e).Foreign?
    ensures Root(e).Named? ==> r == Some(Singleton(reg, Root(e).kind))
    ensures Root(e).Owned? ==> r == Some(Root(e).err)
  {
    match e
    case Named(k) => Some(Singleton(reg, k))
    case Owned(x) => Some(x)
    case Wrapped(_, inner) => As(reg, inner)
    case Foreign(_) => None
  }

  /** The wire codes of the nine kinds are pairwise distinct. */
  lemma WireCodesDistinct(a: Kind, b: Kind)
    ensures WireCode(a) == WireCode(b) <==> a == b
  {
    assert KindOfCode(WireCode(a)) == Some(a);
  }

  /** No enumerated code is `OK` or the custom code 40007. */
  lemma WireCodesReserved(k: Kind)
    ensures WireCode(k) != OK && WireCode(k) != CustomCode
    ensures 40002 <= WireCode(k) <= 50001
  {
  }

  /** 401 belongs to Unauthorized alone, 500 to InternalError alone, and
      every other kind is sent with 403. */
  lemma StatusClasses(k: Kind)
    ensures HttpStatus(k) == 401 <==> k == Unauthorized
    ensures HttpStatus(k) == 500 <==> k == InternalError
    ensures HttpStatus(k) == 403 <==> k != Unauthorized && k != InternalError
  {
  }

  /** A client can recover the kind from the wire code. */
  lemma KindOfCodeRoundTrip(k: Kind)
    ensures KindOfCode(WireCode(k)) == Some(k)
  {
  }

  /** Until `WithMessage` is first called, each singleton holds exactly the
      declared (code, status, message) triple. */
  lemma InitialSingletons(k: Kind)
    ensures Singleton(InitialRegistry, k) == Error(WireCode(k), HttpStatus(k), DefaultMessage(k))
  {
  }

  /** The defect of `WithMessage` as written: a call returns the message of
      the PREVIOUS call on the same singleton (the declared message for the
      first call), and this call's `msg` surfaces only in the next one. */
  lemma WithMessageLagsOneCall(reg: Registry, k: Kind, m1: string, m2: string)
    ensures var (reg1, e1) := WithMessageOn(reg, k, m1);
            var (reg2, e2) := WithMessageOn(reg1, k, m2);
            e1.message == reg.Get(k) && e2.message == m1 && reg2.Get(k) == m2
  {
  }

  /** A concrete input that shows it: the first `ErrInvalidArguments
      .WithMessage("unexpected EOF")` returns "invalid arguments". */
  lemma WithMessageFirstCallExample()
    ensures var (reg1, e1) := WithMessageOn(InitialRegistry, InvalidArguments, "unexpected EOF");
            e1.message == "invalid arguments" && e1.message != "unexpected EOF"
            && reg1.Get(InvalidArguments) == "unexpected EOF"
  {
  }

  /** The corrected operation, called twice, never looks at earlier calls. */
  lemma DeriveIsStateless(reg: Registry, k: Kind, m1: string, m2: string)
    ensures var (reg1, e1) := Derive(reg, k, m1);
            var (reg2, e2) := Derive(reg1, k, m2);
            e1.message == m1 && e2.message == m2 && reg2 == reg
  {
  }

  lemma RenderedTextParses(code: int, message: string)
    ensures ParseRendered("code:" + FormatInt(code) + " message:" + message) == Some((code, message))
  {
    var s := "code:" + FormatInt(code) + " message:" + message;
    var d := FormatInt(code);
    var rest := s[5..];
    assert rest == d + " message:" + message;
    assert rest[|d|] == ' ';
    assert IndexOfSpace(rest) == |d|;
    assert rest[..|d|] == d;
    assert rest[|d|..|d| + 9] == " message:";
    assert rest[|d| + 9..] == message;
    FormatParseRoundTrip(code);
  }
}
