/** Request dispatch (server.go): each registered route's handler closure,
    the response wrapper `wrapHandlerFunc` that turns a closure's outcome into
    an HTTP status and a `Reply`, and one request served end to end. The
    singleton messages are threaded through, since three closures call
    `WithMessage` (server.go:132, 136, 161, 202). */
module Gateway {
  import opened Optional
  import opened Strconv
  import opened Errors
  import opened Structs
  import opened Context
  import opened Providers
  import opened Routes
  import opened Requests
  import opened Upload

  /** How a request ends: the status and envelope the wrapper passes to
      `c.JSON`, the router's 404 for a route that was never registered, or a
      handler that crashed without writing a reply. The status is the one
      the wrapper asks for, not always the one on the wire: the writer sends
      200 for a status of 0 (`WireStatus`), and after a failed `BindJSON`
      the router has already written 400. */
  datatype Response = Replied(status: int, body: Reply) | NotFound | Crashed(reason: string)

  /** `wrapHandlerFunc`: success becomes 200 with code `OK` and the data; a
      failure is looked up with `errors.As` and sent with that error's
      status, code and message and no data. As written, a failure that is
      no `*Error` leaves `respErr` nil and the next line dereferences it;
      the corrected wrapper answers it as `ErrInternalError` instead. */
  function Wrap(p: Policy, reg: Registry, out: Outcome): (r: Response)
    ensures out.Panicked? ==> r == Crashed(out.reason)
    ensures out.Returned? && out.err.None? ==> r == Replied(200, Reply(OK, "", out.data))
    ensures out.Returned? && out.err.Some? && !Root(out.err.value).Foreign? ==>
              var e := As(reg, out.err.value).value;
              r == Replied(e.statusCode, Reply(e.code, e.message, Null))
    ensures out.Returned? && out.err.Some? && Root(out.err.value).Foreign? ==>
              if p.AsWritten? then r.Crashed?
              else r == Replied(500, Reply(WireCode(InternalError), reg.Get(InternalError), Null))
    ensures r.Replied? ==> out.Returned?
  {
    match out
    case Panicked(reason) => Crashed(reason)
    case Returned(data, None) => Replied(200, Reply(OK, "", data))
    case Returned(_, Some(err)) =>
      match As(reg, err)
      case Some(e) => Replied(e.statusCode, Reply(e.code, e.message, Null))
      case None =>
        match p
        case AsWritten => Crashed("invalid memory address or nil pointer dereference")
        case Corrected =>
          var e := Singleton(reg, InternalError);
          Replied(e.statusCode, Reply(e.code, e.message, Null))
  }

  /** The status line the router's response writer actually sends: it
      ignores a status that is not positive and keeps its default 200. */
  function WireStatus(status: int): (s: int)
    ensures status > 0 ==> s == status
    ensures status <= 0 ==> s == 200
  {
    if status > 0 then status else 200
  }

  /** The reply of a provider call without a result: `&Empty{}` on success,
      the provider's error unchanged otherwise. */
  function Acknowledge(err: Option<GoError>): (out: Outcome)
    ensures err.None? ==> out == Returned(EmptyObject, None)
    ensures err.Some? ==> out == Returned(Null, err)
  {
    match err
    case None => Returned(EmptyObject, None)
    case Some(e) => Returned(Null, Some(e))
  }

  /** The rename closure: context first, then the JSON body. */
  function HandleRename(p: Policy, reg: Registry, codecs: Codecs, edit: EditProvider, req: Request): (r: (Registry, Outcome))
    ensures r.1.Panicked? <==> FirstValue(req.headers, TokenKey) == ""
    ensures r.1.Panicked? ==> r.0 == reg
    ensures !r.1.Panicked? && codecs.bindRename(req.body).Err? ==>
              var (reg', e) := DeriveBy(p, reg, InvalidArguments, codecs.bindRename(req.body).reason);
              r == (reg', Returned(Null, Some(Owned(e))))
  {
    match ParseContext(req.headers, codecs.parseQuery)
    case TokenMissing => (reg, Panicked("token is empty"))
    case Derived(ctx) =>
      match codecs.bindRename(req.body)
      case Err(reason) =>
        var (reg', e) := DeriveBy(p, reg, InvalidArguments, reason);
        (reg', Returned(Null, Some(Owned(e))))
      case Ok(args) =>
        var ack := edit.renameFile(reg, ctx, Param(req, "file_id"), args);
        (ack.reg, Acknowledge(ack.err))
  }

  /** The notify closure: the JSON body first, then the context. */
  function HandleNotify(p: Policy, reg: Registry, codecs: Codecs, notify: NotifyProvider, req: Request): (r: (Registry, Outcome))
    ensures r.1.Panicked? <==> codecs.bindNotify(req.body).Ok? && FirstValue(req.headers, TokenKey) == ""
    ensures r.1.Panicked? ==> r.0 == reg
    ensures codecs.bindNotify(req.body).Err? ==>
              var (reg', e) := DeriveBy(p, reg, InvalidArguments, codecs.bindNotify(req.body).reason);
              r == (reg', Returned(Null, Some(Owned(e))))
  {
    match codecs.bindNotify(req.body)
    case Err(reason) =>
      var (reg', e) := DeriveBy(p, reg, InvalidArguments, reason);
      (reg', Returned(Null, Some(Owned(e))))
    case Ok(args) =>
      match ParseContext(req.headers, codecs.parseQuery)
      case TokenMissing => (reg, Panicked("token is empty"))
      case Derived(ctx) =>
        var ack := notify.onNotify(reg, ctx, args);
        (ack.reg, Acknowledge(ack.err))
  }

  /** Whether a closure only derives the context and returns one provider
      call's answer, with no body or form to read. */
  predicate IsPlainCall(e: Endpoint) {
    e !in {UpdateFile, RenameFile, OnNotify}
  }

  /** The provider call a plain closure makes once it has a context, with
      its path and query parameters read: ids verbatim, offset and limit
      through `Atoi`, the version through `Atoi` and `int32(...)`. */
  function PlainAnswer(cfg: Config, e: Endpoint, req: Request, reg: Registry, ctx: UserContext): Answer
    requires IsPlainCall(e) && PresenceOf(cfg).Has(CapabilityOf(e))
  {
    var fileID := Param(req, "file_id");
    match e
    case GetFile => cfg.preview.value.getFile(reg, ctx, fileID)
    case GetFileDownload => cfg.preview.value.getFileDownload(reg, ctx, fileID)
    case GetFilePermission => cfg.preview.value.getFilePermission(reg, ctx, fileID)
    case GetUsers => cfg.user.value.getUsers(reg, ctx, QueryArray(req, "user_ids"))
    case GetFileWatermark => cfg.watermark.value.getFileWatermark(reg, ctx, fileID)
    case GetFileVersions =>
      cfg.version.value.getFileVersions(reg, ctx, fileID, ParseInt64(Query(req, "offset")), ParseInt64(Query(req, "limit")))
    case GetFileVersion =>
      cfg.version.value.getFileVersion(reg, ctx, fileID, NarrowInt32(ParseInt64(Param(req, "version"))))
    case GetFileVersionDownload =>
      cfg.version.value.getFileVersionDownload(reg, ctx, fileID, NarrowInt32(ParseInt64(Param(req, "version"))))
  }

  /** A plain closure: derive the context (panicking without a token), then
      return the provider call's answer as it is. */
  function PlainClosure(cfg: Config, e: Endpoint, req: Request, reg: Registry, d: Derivation): (r: (Registry, Outcome))
    requires IsPlainCall(e) && PresenceOf(cfg).Has(CapabilityOf(e))
    ensures d.TokenMissing? <==> r.1.Panicked?
    ensures d.TokenMissing? ==> r.0 == reg
    ensures d.Derived? ==>
              var answer := PlainAnswer(cfg, e, req, reg, d.ctx);
              r == (answer.reg, Returned(answer.data, answer.err))
  {
    match d
    case TokenMissing => (reg, Panicked("token is empty"))
    case Derived(ctx) =>
      var answer := PlainAnswer(cfg, e, req, reg, ctx);
      (answer.reg, Returned(answer.data, answer.err))
  }

  /** Whether the closure for `e` gets as far as calling its provider: it
      needs a token, and upload, rename and notify also need their file
      part or body. */
  predicate ReachesProvider(codecs: Codecs, e: Endpoint, req: Request) {
    match e
    case UpdateFile => Opens(req)
    case RenameFile => FirstValue(req.headers, TokenKey) != "" && codecs.bindRename(req.body).Ok?
    case OnNotify => FirstValue(req.headers, TokenKey) != "" && codecs.bindNotify(req.body).Ok?
    case _ => FirstValue(req.headers, TokenKey) != ""
  }

  /** The closure registered for endpoint `e`, which only exists when the
      endpoint's provider is non-nil. */
  function Handle(cfg: Config, p: Policy, reg: Registry, codecs: Codecs, e: Endpoint, req: Request): (r: (Registry, Outcome))
    requires PresenceOf(cfg).Has(CapabilityOf(e))
    ensures r.1.Panicked? ==> r.0 == reg && !ReachesProvider(codecs, e, req)
    ensures p.Corrected? && !ReachesProvider(codecs, e, req) ==> r.0 == reg
    ensures IsPlainCall(e) && !ReachesProvider(codecs, e, req) ==> r.0 == reg
  {
    match e
    case UpdateFile =>
      var run := HandleUpload(p, reg, codecs, cfg.edit.value, req);
      (run.reg, run.outcome)
    case RenameFile => HandleRename(p, reg, codecs, cfg.edit.value, req)
    case OnNotify => HandleNotify(p, reg, codecs, cfg.notify.value, req)
    case _ => PlainClosure(cfg, e, req, reg, ParseContext(req.headers, codecs.parseQuery))
  }

  /** A server as `NewServer` leaves it. */
  predicate WellFormed(srv: Server) {
    srv.config.preview.Some? && srv.routes == RegisterRoutes(PresenceOf(srv.config))
  }

  /** One request matched by the router to endpoint `e`: the router's 404
      when that route was never registered, otherwise the closure's
      outcome wrapped into a response, read against the singleton messages
      as the closure left them. */
  function Serve(srv: Server, p: Policy, reg: Registry, codecs: Codecs, e: Endpoint, req: Request): (r: (Registry, Response))
    requires WellFormed(srv)
    ensures r.1.NotFound? <==> !PresenceOf(srv.config).Has(CapabilityOf(e))
    ensures r.1.NotFound? ==> r.0 == reg
  {
    if e !in srv.routes then (reg, NotFound)
    else
      var (reg', out) := Handle(srv.config, p, reg, codecs, e, req);
      (reg', Wrap(p, reg', out))
  }

  /** Every server `NewServer` returns is well formed. */
  lemma StartedServerWellFormed(config: Config)
    requires NewServer(config).Started?
    ensures WellFormed(NewServer(config).server)
  {
  }

  /** A provider failure classified as enumerated error `k` reaches the
      client with `k`'s status and wire code, the singleton's current
      message, and a `data` key that is null. */
  lemma ClassifiedFailureReply(p: Policy, reg: Registry, data: Payload, err: GoError, k: Kind)
    requires Root(err) == Named(k)
    ensures var r := Wrap(p, reg, Returned(data, Some(err)));
            && r == Replied(HttpStatus(k), Reply(WireCode(k), reg.Get(k), Null))
            && KindOfCode(r.body.code) == Some(k)
            && WireStatus(r.status) == HttpStatus(k)
            && EncodeReply(r.body)[|EncodeReply(r.body)| - 1] == ("data", JNull)
  {
  }

  /** An error from `NewCustomError(m)` carries code 40007 and `m`, but its
      HTTP status is 0, so the client receives status 200. */
  lemma CustomFailureReply(p: Policy, reg: Registry, data: Payload, m: string)
    ensures var r := Wrap(p, reg, Returned(data, Some(Owned(NewCustomError(m)))));
            r == Replied(0, Reply(CustomCode, m, Null)) && WireStatus(r.status) == 200
  {
  }

  /** As written, a failure that is not an `*Error` anywhere in its chain
      produces no envelope at all: the wrapper crashes. */
  lemma ForeignFailureCrashes(reg: Registry, data: Payload, err: GoError)
    requires Root(err).Foreign?
    ensures Wrap(AsWritten, reg, Returned(data, Some(err))).Crashed?
  {
  }

  /** The corrected wrapper crashes only when the closure itself panicked:
      every returned failure gets an envelope, and one that is no `*Error`
      is answered as an internal error with status 500 and code 50001. */
  lemma CorrectedWrapAlwaysReplies(reg: Registry, out: Outcome)
    ensures Wrap(Corrected, reg, out).Crashed? <==> out.Panicked?
    ensures out.Returned? && out.err.Some? && Root(out.err.value).Foreign? ==>
              var r := Wrap(Corrected, reg, out);
              r.Replied? && r.status == 500 && KindOfCode(r.body.code) == Some(InternalError)
  {
  }

  /** Without a token, every route except notify panics before any provider
      method runs, whatever the providers are, and changes no singleton. */
  lemma TokenRequired(cfg: Config, p: Policy, reg: Registry, codecs: Codecs, e: Endpoint, req: Request)
    requires PresenceOf(cfg).Has(CapabilityOf(e))
    requires FirstValue(req.headers, TokenKey) == ""
    requires e != OnNotify || codecs.bindNotify(req.body).Ok?
    ensures var (reg', out) := Handle(cfg, p, reg, codecs, e, req);
            out.Panicked? && reg' == reg
  {
    match e
    case UpdateFile =>
    case RenameFile =>
    case OnNotify =>
    case _ =>
      assert ParseContext(req.headers, codecs.parseQuery).TokenMissing?;
  }

  /** Notify reads its body first: without a token, a malformed body is
      answered with InvalidArguments, derived from the decoder's error. */
  lemma NotifyBodyBeforeToken(cfg: Config, p: Policy, reg: Registry, codecs: Codecs, req: Request)
    requires cfg.notify.Some?
    requires FirstValue(req.headers, TokenKey) == ""
    requires codecs.bindNotify(req.body).Err?
    ensures var (reg', out) := Handle(cfg, p, reg, codecs, OnNotify, req);
            var failure := DeriveBy(p, reg, InvalidArguments, codecs.bindNotify(req.body).reason);
            && reg' == failure.0 && out == Returned(Null, Some(Owned(failure.1)))
            && KindOfCode(failure.1.code) == Some(InvalidArguments)
  {
  }

  /** Rename reads the context first, notify the body first: with no token
      and a malformed body, rename crashes while notify's wrapper answers
      with status 403 and code 40005. */
  lemma BindOrderDiffers(srv: Server, p: Policy, reg: Registry, codecs: Codecs, req: Request)
    requires WellFormed(srv)
    requires srv.config.edit.Some? && srv.config.notify.Some?
    requires FirstValue(req.headers, TokenKey) == ""
    requires codecs.bindRename(req.body).Err? && codecs.bindNotify(req.body).Err?
    ensures Serve(srv, p, reg, codecs, RenameFile, req).1.Crashed?
    ensures var r := Serve(srv, p, reg, codecs, OnNotify, req).1;
            r.Replied? && r.status == 403 && r.body.code == WireCode(InvalidArguments) && r.body.data == Null
  {
    var presence := PresenceOf(srv.config);
    assert RenameFile in srv.routes && OnNotify in srv.routes by {
      assert presence.Has(Edit) && presence.Has(Notify);
    }
    var (reg1, out1) := Handle(srv.config, p, reg, codecs, RenameFile, req);
    assert out1.Panicked?;
    var (regN, e) := DeriveBy(p, reg, InvalidArguments, codecs.bindNotify(req.body).reason);
    assert Handle(srv.config, p, reg, codecs, OnNotify, req) == (regN, Returned(Null, Some(Owned(e))));
    assert e.statusCode == 403 && e.code == WireCode(InvalidArguments) by {
      assert KindOfCode(e.code) == Some(InvalidArguments);
    }
  }

  /** Success of any route is status 200, code `OK`, no message, and the
      provider's data; rename and notify answer with the `Empty` marker,
      which the wire shows as `{}`, never as null. */
  lemma SuccessReply(p: Policy, reg: Registry, data: Payload)
    ensures Wrap(p, reg, Returned(data, None)) == Replied(200, Reply(OK, "", data))
    ensures Wrap(p, reg, Acknowledge(None)) == Replied(200, Reply(OK, "", EmptyObject))
    ensures EncodeReply(Reply(OK, "", EmptyObject)) == [("code", JInt(OK)), ("data", JEmptyObject)]
  {
  }

  /** With a token, every plain route returns exactly what its provider
      call answers, and the singletons are as the provider left them: the
      closure itself changes none. */
  lemma PlainRouteAnswers(cfg: Config, p: Policy, reg: Registry, codecs: Codecs, e: Endpoint, req: Request)
    requires IsPlainCall(e) && PresenceOf(cfg).Has(CapabilityOf(e))
    requires FirstValue(req.headers, TokenKey) != ""
    ensures var ctx := ParseContext(req.headers, codecs.parseQuery).ctx;
            var answer := PlainAnswer(cfg, e, req, reg, ctx);
            Handle(cfg, p, reg, codecs, e, req) == (answer.reg, Returned(answer.data, answer.err))
  {
  }

  /** Rename and notify, once their body binds and a token is present,
      answer `&Empty{}` or the provider's error as it is, and the singletons
      are as the provider left them; each needs only its own provider. */
  lemma AcknowledgedRoutesAnswer(cfg: Config, p: Policy, reg: Registry, codecs: Codecs, req: Request)
    requires FirstValue(req.headers, TokenKey) != ""
    ensures var ctx := ParseContext(req.headers, codecs.parseQuery).ctx;
            cfg.edit.Some? && codecs.bindRename(req.body).Ok? ==>
              var ack := cfg.edit.value.renameFile(reg, ctx, Param(req, "file_id"), codecs.bindRename(req.body).value);
              Handle(cfg, p, reg, codecs, RenameFile, req) == (ack.reg, Acknowledge(ack.err))
    ensures var ctx := ParseContext(req.headers, codecs.parseQuery).ctx;
            cfg.notify.Some? && codecs.bindNotify(req.body).Ok? ==>
              var ack := cfg.notify.value.onNotify(reg, ctx, codecs.bindNotify(req.body).value);
              Handle(cfg, p, reg, codecs, OnNotify, req) == (ack.reg, Acknowledge(ack.err))
  {
  }

  /** The ways `Atoi` can read a parameter: the text a client formats for
      `n` gives `n`; any other well-formed number ("+5", "007", "-0",
      "9223372036854775808") gives its value clamped to 64 bits; text that
      is malformed without overflowing gives 0; digits that overflow before
      the text ends give the bound for their sign. */
  predicate AtoiReads(s: string, n: Int64) {
    || s == FormatInt(n)
    || (ParseDecimal(s).Some? && n == ClampInt64(ParseDecimal(s).value))
    || (Malformed(s) && n == 0)
    || (Overflows(s) && n == Saturated(s))
  }

  /** The cases of `AtoiReads` cover every text: whatever a client sends,
      what `Atoi` makes of it is one of them. */
  lemma AtoiReadsTotal(s: string)
    ensures AtoiReads(s, ParseInt64(s))
  {
  }

  lemma AtoiReadsValue(s: string, n: Int64)
    requires AtoiReads(s, n)
    ensures ParseInt64(s) == n
  {
    if s == FormatInt(n) {
      ParseInt64RoundTrip(n);
    }
  }

  /** The version list call receives the offset and limit as `Atoi` reads
      them: unchanged when well formed, 0 when malformed, and saturated when
      their digits overflow. */
  lemma VersionListParameters(cfg: Config, req: Request, reg: Registry, ctx: UserContext, offset: Int64, limit: Int64)
    requires cfg.version.Some?
    requires AtoiReads(Query(req, "offset"), offset) && AtoiReads(Query(req, "limit"), limit)
    ensures PlainAnswer(cfg, GetFileVersions, req, reg, ctx)
              == cfg.version.value.getFileVersions(reg, ctx, Param(req, "file_id"), offset, limit)
  {
    AtoiReadsValue(Query(req, "offset"), offset);
    AtoiReadsValue(Query(req, "limit"), limit);
    VersionListCall(cfg, req, reg, ctx);
  }

  /** For every request, the version list call receives `Atoi` of the
      offset and limit query values. */
  lemma VersionListCall(cfg: Config, req: Request, reg: Registry, ctx: UserContext)
    requires cfg.version.Some?
    ensures PlainAnswer(cfg, GetFileVersions, req, reg, ctx)
              == cfg.version.value.getFileVersions(reg, ctx, Param(req, "file_id"),
                                                   ParseInt64(Query(req, "offset")), ParseInt64(Query(req, "limit")))
  {
  }

  /** For every request, both version calls receive `int32` of `Atoi` of
      the version path parameter. */
  lemma VersionCall(cfg: Config, req: Request, reg: Registry, ctx: UserContext)
    requires cfg.version.Some?
    ensures PlainAnswer(cfg, GetFileVersion, req, reg, ctx)
              == cfg.version.value.getFileVersion(reg, ctx, Param(req, "file_id"),
                                                  NarrowInt32(ParseInt64(Param(req, "version"))))
    ensures PlainAnswer(cfg, GetFileVersionDownload, req, reg, ctx)
              == cfg.version.value.getFileVersionDownload(reg, ctx, Param(req, "file_id"),
                                                          NarrowInt32(ParseInt64(Param(req, "version"))))
  {
  }

  /** Both version calls receive `int32` of the version as `Atoi` reads
      it: a 32-bit number unchanged, a wider one wrapped, a malformed one
      as 0, and one whose digits overflow as `int32` of the bound (-1 for
      the upper one). */
  lemma VersionParameter(cfg: Config, req: Request, reg: Registry, ctx: UserContext, n: Int64)
    requires cfg.version.Some?
    requires AtoiReads(Param(req, "version"), n)
    ensures PlainAnswer(cfg, GetFileVersion, req, reg, ctx)
              == cfg.version.value.getFileVersion(reg, ctx, Param(req, "file_id"), NarrowInt32(n))
    ensures PlainAnswer(cfg, GetFileVersionDownload, req, reg, ctx)
              == cfg.version.value.getFileVersionDownload(reg, ctx, Param(req, "file_id"), NarrowInt32(n))
    ensures Overflows(Param(req, "version")) && !(0 < |Param(req, "version")| && Param(req, "version")[0] == '-') ==>
              NarrowInt32(n) == -1
  {
    AtoiReadsValue(Param(req, "version"), n);
    VersionCall(cfg, req, reg, ctx);
  }

  /** A plain closure reads only the path parameters and the query: the
      headers beyond the context, the body and the form do not reach its
      provider. */
  lemma PlainAnswerReadsPathAndQuery(cfg: Config, e: Endpoint, req1: Request, req2: Request, reg: Registry, ctx: UserContext)
    requires IsPlainCall(e) && PresenceOf(cfg).Has(CapabilityOf(e))
    requires req1.params == req2.params && req1.query == req2.query
    ensures PlainAnswer(cfg, e, req1, reg, ctx) == PlainAnswer(cfg, e, req2, reg, ctx)
  {
  }

  /** As written, one request's error text leaks into another's reply: an
      upload whose "file" part `c.FormFile` cannot deliver (the body is no
      multipart form, the part is missing, or it cannot be opened) is
      answered with the singleton's previous message, and a later request whose provider fails with
      `ErrInvalidArguments` (and touches no singleton) is answered with the
      upload's error text. */
  lemma MessageLeaksAcrossRequests(srv: Server, reg: Registry, codecs: Codecs, upload: Request, get: Request)
    requires WellFormed(srv) && srv.config.edit.Some?
    requires FirstValue(upload.headers, TokenKey) != "" && FormFile(upload, "file").Err?
    requires FirstValue(get.headers, TokenKey) != ""
    requires var reg1 := WithMessageOn(reg, InvalidArguments, FormFile(upload, "file").reason).0;
             var ctx := ParseContext(get.headers, codecs.parseQuery).ctx;
             var answer := srv.config.preview.value.getFile(reg1, ctx, Param(get, "file_id"));
             answer.reg == reg1 && answer.err == Some(Named(InvalidArguments))
    ensures var (reg1, r1) := Serve(srv, AsWritten, reg, codecs, UpdateFile, upload);
            var (reg2, r2) := Serve(srv, AsWritten, reg1, codecs, GetFile, get);
            && r1 == Replied(403, Reply(WireCode(InvalidArguments), reg.Get(InvalidArguments), Null))
            && r2 == Replied(403, Reply(WireCode(InvalidArguments), FormFile(upload, "file").reason, Null))
  {
    var presence := PresenceOf(srv.config);
    assert UpdateFile in srv.routes && GetFile in srv.routes by {
      assert presence.Has(Edit) && presence.Has(Preview);
    }
    var (reg1, e1) := WithMessageOn(reg, InvalidArguments, FormFile(upload, "file").reason);
    assert Handle(srv.config, AsWritten, reg, codecs, UpdateFile, upload) == (reg1, Returned(Null, Some(Owned(e1))));
    PlainRouteAnswers(srv.config, AsWritten, reg1, codecs, GetFile, get);
  }

  /** The same leak through a provider: one that answers
      `ErrFileNotExists.WithMessage(m)` is replied to with the singleton's
      previous message, and leaves `m` behind in the singleton. */
  lemma ProviderWithMessageLeaks(srv: Server, reg: Registry, codecs: Codecs, req: Request, m: string)
    requires WellFormed(srv)
    requires FirstValue(req.headers, TokenKey) != ""
    requires var ctx := ParseContext(req.headers, codecs.parseQuery).ctx;
             var (reg1, e) := WithMessageOn(reg, FileNotExists, m);
             srv.config.preview.value.getFile(reg, ctx, Param(req, "file_id")) == Answer(reg1, Null, Some(Owned(e)))
    ensures var (reg1, r) := Serve(srv, AsWritten, reg, codecs, GetFile, req);
            && r == Replied(403, Reply(WireCode(FileNotExists), reg.Get(FileNotExists), Null))
            && reg1.Get(FileNotExists) == m
  {
    assert GetFile in srv.routes by {
      assert PresenceOf(srv.config).Has(Preview);
    }
    PlainRouteAnswers(srv.config, AsWritten, reg, codecs, GetFile, req);
  }

  /** With the corrected derivation no closure changes a singleton itself:
      a request that never reaches its provider leaves them as they were,
      and the upload's reply carries its own error text. */
  lemma CorrectedServeIsStateless(srv: Server, reg: Registry, codecs: Codecs, e: Endpoint, req: Request)
    requires WellFormed(srv)
    ensures !ReachesProvider(codecs, e, req) ==> Serve(srv, Corrected, reg, codecs, e, req).0 == reg
    ensures e == UpdateFile && srv.config.edit.Some? && FirstValue(req.headers, TokenKey) != ""
              && FormFile(req, "file").Err? ==>
            Serve(srv, Corrected, reg, codecs, e, req).1
              == Replied(403, Reply(WireCode(InvalidArguments), FormFile(req, "file").reason, Null))
  {
  }

  /** The example of a missing file: GetFile failing with `ErrFileNotExists`
      on a fresh process is 403 with body `{"code":40004,"message":"file
      not exists","data":null}`. */
  lemma FileNotExistsExample(srv: Server, codecs: Codecs, req: Request)
    requires WellFormed(srv)
    requires FirstValue(req.headers, TokenKey) != ""
    requires var ctx := ParseContext(req.headers, codecs.parseQuery).ctx;
             var answer := srv.config.preview.value.getFile(InitialRegistry, ctx, Param(req, "file_id"));
             answer.reg == InitialRegistry && answer.err == Some(Named(FileNotExists))
    ensures var r := Serve(srv, AsWritten, InitialRegistry, codecs, GetFile, req).1;
            && r == Replied(403, Reply(40004, "file not exists", Null))
            && EncodeReply(r.body) == [("code", JInt(40004)), ("message", JString("file not exists")), ("data", JNull)]
  {
    assert GetFile in srv.routes by {
      assert PresenceOf(srv.config).Has(Preview);
    }
    PlainRouteAnswers(srv.config, AsWritten, InitialRegistry, codecs, GetFile, req);
    InitialSingletons(FileNotExists);
  }
}
