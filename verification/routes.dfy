/** Route registration (`registerRoutes` and `NewServer` in server.go): which
    (method, path) routes exist is decided once, at startup, by which
    provider slots are non-nil. Route matching itself belongs to the router
    and is not modelled: a route is identified by its endpoint. */
module Routes {
  import opened Optional
  import opened Providers

  datatype Method = GET | POST | PUT

  /** One handler closure of `registerRoutes` each. */
  datatype Endpoint =
    | GetFile
    | GetFileDownload
    | GetFilePermission
    | GetUsers
    | GetFileWatermark
    | UpdateFile
    | RenameFile
    | GetFileVersions
    | GetFileVersion
    | GetFileVersionDownload
    | OnNotify

  /** A route as registered on the router: method and path pattern. */
  datatype Route = Route(verb: Method, path: string)

  function RouteOf(e: Endpoint): Route {
    match e
    case GetFile => Route(GET, "/v3/3rd/files/:file_id")
    case GetFileDownload => Route(GET, "/v3/3rd/files/:file_id/download")
    case GetFilePermission => Route(GET, "/v3/3rd/files/:file_id/permission")
    case GetUsers => Route(GET, "/v3/3rd/users")
    case GetFileWatermark => Route(GET, "/v3/3rd/files/:file_id/watermark")
    case UpdateFile => Route(POST, "/v3/3rd/files/:file_id/upload")
    case RenameFile => Route(PUT, "/v3/3rd/files/:file_id/name")
    case GetFileVersions => Route(GET, "/v3/3rd/files/:file_id/versions")
    case GetFileVersion => Route(GET, "/v3/3rd/files/:file_id/versions/:version")
    case GetFileVersionDownload => Route(GET, "/v3/3rd/files/:file_id/versions/:version/download")
    case OnNotify => Route(POST, "/v3/3rd/notify")
  }

  /** The provider whose method an endpoint calls. */
  function CapabilityOf(e: Endpoint): Capability {
    match e
    case GetFile | GetFileDownload | GetFilePermission => Preview
    case GetUsers => User
    case GetFileWatermark => Watermark
    case UpdateFile | RenameFile => Edit
    case GetFileVersions | GetFileVersion | GetFileVersionDownload => Version
    case OnNotify => Notify
  }

  /** How many routes each present provider contributes. */
  function RoutesPer(p: Presence, c: Capability, n: nat): nat {
    if p.Has(c) then n else 0
  }

  /** The endpoints of one capability, in registration order. */
  function GroupOf(c: Capability): (g: seq<Endpoint>)
    ensures forall e: Endpoint :: e in g <==> CapabilityOf(e) == c
    ensures Distinct(g)
  {
    match c
    case Preview => [GetFile, GetFileDownload, GetFilePermission]
    case User => [GetUsers]
    case Watermark => [GetFileWatermark]
    case Edit => [UpdateFile, RenameFile]
    case Version => [GetFileVersions, GetFileVersion, GetFileVersionDownload]
    case Notify => [OnNotify]
  }

  /** Whether `registerRoutes` registers a capability's group: the preview
      group always, every other group only for a non-nil provider. */
  predicate Registers(p: Presence, c: Capability) {
    c == Preview || p.Has(c)
  }

  /** What `registerRoutes` registers for one capability. */
  function Registered(p: Presence, c: Capability): (g: seq<Endpoint>)
    ensures forall e: Endpoint :: e in g <==> CapabilityOf(e) == c && Registers(p, c)
    ensures Distinct(g)
  {
    if Registers(p, c) then GroupOf(c) else []
  }

  predicate Distinct(s: seq<Endpoint>) {
    forall i, j :: 0 <= i < j < |s| ==> s[i] != s[j]
  }

  lemma DistinctConcat(a: seq<Endpoint>, b: seq<Endpoint>)
    requires Distinct(a) && Distinct(b)
    requires forall e :: e in a ==> e !in b
    ensures Distinct(a + b)
  {
    var s := a + b;
    forall i, j | 0 <= i < j < |s| ensures s[i] != s[j] {
      if i < |a| && j >= |a| {
        assert s[i] in a && s[j] in b;
      }
    }
  }

  /** `registerRoutes`: the endpoints registered, in registration order. */
  function RegisterRoutes(p: Presence): (regs: seq<Endpoint>)
    ensures forall e: Endpoint :: e in regs <==> Registers(p, CapabilityOf(e))
    ensures Distinct(regs)
    ensures |regs| == 3 + RoutesPer(p, User, 1) + RoutesPer(p, Watermark, 1) + RoutesPer(p, Edit, 2)
                        + RoutesPer(p, Version, 3) + RoutesPer(p, Notify, 1)
  {
    var g1 := Registered(p, Preview);
    var g2 := g1 + Registered(p, User);
    DistinctConcat(g1, Registered(p, User));
    var g3 := g2 + Registered(p, Watermark);
    DistinctConcat(g2, Registered(p, Watermark));
    var g4 := g3 + Registered(p, Edit);
    DistinctConcat(g3, Registered(p, Edit));
    var g5 := g4 + Registered(p, Version);
    DistinctConcat(g4, Registered(p, Version));
    DistinctConcat(g5, Registered(p, Notify));
    g5 + Registered(p, Notify)
  }

  /** The (method, path) pairs a list of registrations occupies. */
  function RouteSet(regs: seq<Endpoint>): set<Route> {
    set e | e in regs :: RouteOf(e)
  }

  /** No two endpoints share a (method, path) pair. */
  lemma RouteOfInjective(a: Endpoint, b: Endpoint)
    ensures RouteOf(a) == RouteOf(b) <==> a == b
  {
  }

  lemma {:induction false} RouteSetSize(regs: seq<Endpoint>)
    requires Distinct(regs)
    ensures |RouteSet(regs)| == |regs|
    decreases |regs|
  {
    if |regs| > 0 {
      var rest := regs[1..];
      RouteSetSize(rest);
      assert RouteSet(regs) == {RouteOf(regs[0])} + RouteSet(rest) by {
        assert forall e :: e in regs <==> e == regs[0] || e in rest;
      }
      assert RouteOf(regs[0]) !in RouteSet(rest) by {
        forall e | e in rest ensures RouteOf(e) != RouteOf(regs[0]) {
          RouteOfInjective(e, regs[0]);
        }
      }
    }
  }

  /** The registered routes are pairwise distinct, so there are exactly
      3 plus one per present user, watermark and notify provider, two for an
      edit provider and three for a version provider. */
  lemma RouteCount(p: Presence)
    ensures |RouteSet(RegisterRoutes(p))| ==
              3 + RoutesPer(p, User, 1) + RoutesPer(p, Watermark, 1) + RoutesPer(p, Edit, 2)
                + RoutesPer(p, Version, 3) + RoutesPer(p, Notify, 1)
  {
    RouteSetSize(RegisterRoutes(p));
  }

  /** Where routes are registered: the engine itself, or a group under the
      configured prefix. */
  datatype Router = Engine | Group(prefix: string)

  /** `Server` after `NewServer`: its configuration (logger defaulted), its
      root router and the endpoints registered under that root. */
  datatype Server = Server(config: Config, root: Router, routes: seq<Endpoint>)

  /** `NewServer` either returns a server or panics before registering
      anything. */
  datatype Startup = Started(server: Server) | StartPanicked(reason: string)

  function NewServer(config: Config): (r: Startup)
    ensures r.StartPanicked? <==> config.preview.None?
    ensures r.Started? ==> r.server.config == config.(logger := r.server.config.logger)
    ensures r.Started? ==> PresenceOf(r.server.config) == PresenceOf(config)
    ensures r.Started? ==> r.server.config.prefix == config.prefix
    ensures r.Started? && config.logger.Some? ==> r.server.config.logger == config.logger
    ensures r.Started? && config.logger.None? ==> r.server.config.logger == Some(NoopLogger)
    ensures r.Started? ==> (r.server.root == Engine <==> config.prefix == "")
    ensures r.Started? && config.prefix != "" ==> r.server.root == Group(config.prefix)
    ensures r.Started? ==> r.server.routes == RegisterRoutes(PresenceOf(config))
  {
    if config.preview.None? then StartPanicked("PreviewProvider must not nil")
    else
      var cfg := if config.logger.None? then config.(logger := Some(NoopLogger)) else config;
      var root := if cfg.prefix == "" then Engine else Group(cfg.prefix);
      Started(Server(cfg, root, RegisterRoutes(PresenceOf(cfg))))
  }

  /** Once started, an endpoint's route exists exactly when its provider is
      non-nil, for every combination of the five optional providers. */
  lemma RouteExistsIffProviderPresent(config: Config, e: Endpoint)
    requires NewServer(config).Started?
    ensures e in NewServer(config).server.routes <==> PresenceOf(config).Has(CapabilityOf(e))
  {
  }

  /** The routes depend on nothing but the presence of the providers. */
  lemma RoutesDependOnPresenceOnly(c1: Config, c2: Config)
    requires NewServer(c1).Started? && NewServer(c2).Started?
    requires PresenceOf(c1) == PresenceOf(c2)
    ensures NewServer(c1).server.routes == NewServer(c2).server.routes
  {
  }
}
