/** The upload route (server.go:126-153): a multipart "file" part is opened
    as a stream, merged with the sibling form fields into the update
    arguments, handed to the edit provider, and closed by a deferred call
    once the provider returns. The stream's life is recorded as a trace of
    events and checked against a small state machine. */
module Upload {
  import opened Optional
  import opened Strconv
  import opened Errors
  import opened Structs
  import opened Context
  import opened Providers
  import opened Requests

  /** The upload stream: never opened, open, or closed some number of times. */
  datatype Stream = Absent | Open | Closed(closes: nat)

  /** What happens to the stream during one request. */
  datatype Event =
    | StreamOpened
    | ProviderCalled(args: UpdateArgs)
    | StreamClosed(closeError: Option<string>)

  /** The legal moves: a stream is opened once, read by the provider only
      while open, and closed after it was opened. `None` is an illegal move. */
  function Next(s: Stream, ev: Event): (r: Option<Stream>)
    ensures r.Some? && ev.ProviderCalled? ==> s.Open? && r.value.Open?
    ensures r.Some? && ev.StreamOpened? ==> s.Absent? && r.value.Open?
    ensures r.Some? && ev.StreamClosed? ==> r.value.Closed? && !s.Absent?
  {
    match (s, ev)
    case (Absent, StreamOpened) => Some(Open)
    case (Open, ProviderCalled(_)) => Some(Open)
    case (Open, StreamClosed(_)) => Some(Closed(1))
    case (Closed(n), StreamClosed(_)) => Some(Closed(n + 1))
    case _ => None
  }

  /** The stream state after a trace, if every move was legal. */
  function Replay(s: Stream, trace: seq<Event>): Option<Stream>
    decreases |trace|
  {
    if |trace| == 0 then Some(s)
    else match Next(s, trace[0])
      case None => None
      case Some(s') => Replay(s', trace[1..])
  }

  /** One run of the upload handler: the singleton messages afterwards, the
      handler's outcome, and what happened to the stream. */
  datatype Run = Run(reg: Registry, outcome: Outcome, trace: seq<Event>)

  /** The update arguments assembled from the form (server.go:145-150). */
  function AssembleArgs(req: Request, part: FilePart): (args: UpdateArgs)
    ensures args.name == PostForm(req, "name") && args.sha1 == PostForm(req, "sha1")
    ensures ParseDecimal(PostForm(req, "size")).Some? ==> args.size == ClampInt64(ParseDecimal(PostForm(req, "size")).value)
    ensures Overflows(PostForm(req, "size")) ==> args.size == Saturated(PostForm(req, "size"))
    ensures Malformed(PostForm(req, "size")) ==> args.size == 0
    ensures ParseBool(PostForm(req, "is_manual")).Some? ==> args.isManual == ParseBool(PostForm(req, "is_manual")).value
    ensures ParseBool(PostForm(req, "is_manual")).None? ==> !args.isManual
    ensures args.content == part.content
  {
    UpdateArgs(
      PostForm(req, "name"),
      ParseInt64(PostForm(req, "size")),
      PostForm(req, "sha1"),
      ParseBoolOrFalse(PostForm(req, "is_manual")),
      part.content)
  }

  /** The upload handler closure. */
  function HandleUpload(p: Policy, reg: Registry, codecs: Codecs, edit: EditProvider, req: Request): (run: Run)
    ensures run.outcome.Panicked? <==> FirstValue(req.headers, TokenKey) == ""
    ensures run.outcome.Panicked? ==> run.reg == reg && run.trace == []
    ensures p.Corrected? && !Opens(req) ==> run.reg == reg
  {
    var fileID := Param(req, "file_id");
    match ParseContext(req.headers, codecs.parseQuery)
    case TokenMissing => Run(reg, Panicked("token is empty"), [])
    case Derived(ctx) =>
      match FormFile(req, "file")
      case Err(reason) =>
        var (reg', e) := DeriveBy(p, reg, InvalidArguments, reason);
        Run(reg', Returned(Null, Some(Owned(e))), [])
      case Ok(part) =>
        match part.openError
        case Some(reason) =>
          var (reg', e) := DeriveBy(p, reg, InternalError, reason);
          Run(reg', Returned(Null, Some(Owned(e))), [])
        case None =>
          var args := AssembleArgs(req, part);
          var answer := edit.updateFile(reg, ctx, fileID, args);
          Run(answer.reg, Returned(answer.data, answer.err),
              [StreamOpened, ProviderCalled(args), StreamClosed(part.closeError)])
  }

  /** Whether the handler gets as far as opening the stream. */
  predicate Opens(req: Request) {
    FirstValue(req.headers, TokenKey) != ""
    && FormFile(req, "file").Ok?
    && FormFile(req, "file").value.openError.None?
  }

  /** Every run is a legal stream life that ends either with no stream or
      with a stream closed exactly once; the stream is opened exactly when
      the provider is called, and it is closed after the provider returns. */
  lemma StreamClosedExactlyOnce(p: Policy, reg: Registry, codecs: Codecs, edit: EditProvider, req: Request)
    ensures var run := HandleUpload(p, reg, codecs, edit, req);
            Replay(Absent, run.trace) == if Opens(req) then Some(Closed(1)) else Some(Absent)
    ensures var run := HandleUpload(p, reg, codecs, edit, req);
            Opens(req) ==> |run.trace| == 3 && run.trace[1].ProviderCalled? && run.trace[2].StreamClosed?
    ensures var run := HandleUpload(p, reg, codecs, edit, req);
            !Opens(req) ==> run.trace == []
  {
    var run := HandleUpload(p, reg, codecs, edit, req);
    if Opens(req) {
      var part := FormFile(req, "file").value;
      assert run.trace == [StreamOpened, ProviderCalled(AssembleArgs(req, part)), StreamClosed(part.closeError)];
      UploadTraceIsLegal(AssembleArgs(req, part), part.closeError);
    }
  }

  lemma UploadTraceIsLegal(args: UpdateArgs, closeError: Option<string>)
    ensures Replay(Absent, [StreamOpened, ProviderCalled(args), StreamClosed(closeError)]) == Some(Closed(1))
  {
    var t := [StreamOpened, ProviderCalled(args), StreamClosed(closeError)];
    assert Next(Absent, StreamOpened) == Some(Open);
    assert Next(Open, ProviderCalled(args)) == Some(Open);
    assert Next(Open, StreamClosed(closeError)) == Some(Closed(1));
    assert t[1..][1..] == [StreamClosed(closeError)];
    assert Replay(Open, t[1..][1..]) == Replay(Closed(1), []);
    assert t[1..][0] == ProviderCalled(args);
    assert Replay(Open, t[1..]) == Replay(Open, t[1..][1..]);
  }

  /** A missing "file" part, or one `c.FormFile` cannot open, fails with
      InvalidArguments and opens nothing. */
  lemma MissingFileIsInvalidArguments(p: Policy, reg: Registry, codecs: Codecs, edit: EditProvider, req: Request)
    requires FirstValue(req.headers, TokenKey) != ""
    requires FormFile(req, "file").Err?
    ensures var run := HandleUpload(p, reg, codecs, edit, req);
            && run.trace == []
            && run.outcome.Returned? && run.outcome.err.Some?
            && As(run.reg, run.outcome.err.value).Some?
            && As(run.reg, run.outcome.err.value).value.code == WireCode(InvalidArguments)
            && As(run.reg, run.outcome.err.value).value.statusCode == 403
  {
  }

  /** A part that `c.FormFile` opened but the handler's own `Open` cannot
      fails with InternalError and opens nothing. */
  lemma OpenFailureIsInternalError(p: Policy, reg: Registry, codecs: Codecs, edit: EditProvider, req: Request)
    requires FirstValue(req.headers, TokenKey) != ""
    requires FormFile(req, "file").Ok? && FormFile(req, "file").value.openError.Some?
    ensures var run := HandleUpload(p, reg, codecs, edit, req);
            && run.trace == []
            && run.outcome.Returned? && run.outcome.err.Some?
            && As(run.reg, run.outcome.err.value).Some?
            && As(run.reg, run.outcome.err.value).value.code == WireCode(InternalError)
            && As(run.reg, run.outcome.err.value).value.statusCode == 500
  {
  }

  /** Once the stream is open, the handler's outcome is exactly the
      provider's answer for the assembled arguments, success or failure,
      and the singletons are as the provider left them: the handler itself
      changes none. */
  lemma ProviderAnswerPassesThrough(p: Policy, reg: Registry, codecs: Codecs, edit: EditProvider, req: Request)
    requires Opens(req)
    ensures var run := HandleUpload(p, reg, codecs, edit, req);
            var ctx := ParseContext(req.headers, codecs.parseQuery).ctx;
            var answer := edit.updateFile(reg, ctx, Param(req, "file_id"), AssembleArgs(req, FormFile(req, "file").value));
            run.outcome == Returned(answer.data, answer.err) && run.reg == answer.reg
  {
  }

  /** A failing close is only logged: it changes neither the outcome nor
      the singletons. */
  lemma CloseErrorIgnored(p: Policy, reg: Registry, codecs: Codecs, edit: EditProvider,
                          req: Request, mp: Multipart, closeError: Option<string>)
    requires req.multipart == Ok(mp) && "file" in mp.files
    ensures var part := mp.files["file"];
            var req' := req.(multipart := Ok(mp.(files := mp.files["file" := part.(closeError := closeError)])));
            HandleUpload(p, reg, codecs, edit, req').outcome == HandleUpload(p, reg, codecs, edit, req).outcome
            && HandleUpload(p, reg, codecs, edit, req').reg == HandleUpload(p, reg, codecs, edit, req).reg
  {
  }

  /** The form a client sends to convey `args`, with the part holding its
      content. */
  function FormFor(args: UpdateArgs): Values {
    map["name" := [args.name], "sha1" := [args.sha1],
        "size" := [FormatInt(args.size)], "is_manual" := [FormatBool(args.isManual)]]
  }

  /** Whatever arguments a client means to send, the provider receives them
      exactly: name and hash verbatim, size through `ParseInt`, the manual
      flag through `ParseBool`, and the part's bytes as the content. */
  lemma UploadFieldsRoundTrip(args: UpdateArgs, req: Request, part: FilePart)
    requires req.multipart.Ok? && req.multipart.value.values == FormFor(args)
    requires part.content == args.content
    ensures AssembleArgs(req, part) == args
  {
    var form := req.multipart.value.values;
    assert PostForm(req, "name") == args.name && PostForm(req, "sha1") == args.sha1 by {
      assert form["name"] == [args.name] && form["sha1"] == [args.sha1];
    }
    assert PostForm(req, "size") == FormatInt(args.size) by {
      assert form["size"] == [FormatInt(args.size)];
    }
    assert PostForm(req, "is_manual") == FormatBool(args.isManual) by {
      assert form["is_manual"] == [FormatBool(args.isManual)];
    }
    ParseInt64RoundTrip(args.size);
    ParseBoolRoundTrip(args.isManual);
  }
}
