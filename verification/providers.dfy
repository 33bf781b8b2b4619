/** The capability contracts of interface.go as records of functions, and the
    gateway's `Config` (structs.go): six provider slots that may each be nil,
    the route prefix and the logging sink. Provider behaviour is whatever the
    embedder supplies, so every provider method is a function parameter. */
module Providers {
  import opened Optional
  import opened Strconv
  import opened Errors
  import opened Structs
  import opened Context

  /** What a provider method returns: its result and its `error`, and the
      singleton messages as the method leaves them. A provider may itself
      answer `ErrXxx.WithMessage(...)`, which rewrites a singleton, so every
      provider method receives the current messages and returns them. */
  datatype Answer = Answer(reg: Registry, data: Payload, err: Option<GoError>)

  /** What a provider method without a result returns. */
  datatype Ack = Ack(reg: Registry, err: Option<GoError>)

  datatype PreviewProvider = PreviewProvider(
    getFile: (Registry, UserContext, string) -> Answer,
    getFileDownload: (Registry, UserContext, string) -> Answer,
    getFilePermission: (Registry, UserContext, string) -> Answer)

  datatype UserProvider = UserProvider(
    getUsers: (Registry, UserContext, seq<string>) -> Answer)

  datatype WatermarkProvider = WatermarkProvider(
    getFileWatermark: (Registry, UserContext, string) -> Answer)

  datatype EditProvider = EditProvider(
    updateFile: (Registry, UserContext, string, UpdateArgs) -> Answer,
    renameFile: (Registry, UserContext, string, RenameArgs) -> Ack)

  datatype VersionProvider = VersionProvider(
    getFileVersions: (Registry, UserContext, string, Int64, Int64) -> Answer,
    getFileVersion: (Registry, UserContext, string, Int32) -> Answer,
    getFileVersionDownload: (Registry, UserContext, string, Int32) -> Answer)

  datatype NotifyProvider = NotifyProvider(
    onNotify: (Registry, UserContext, NotifyArgs) -> Ack)

  /** The logging sink: the embedder's, or the built-in no-op one. */
  datatype Logger = NoopLogger | EmbedderLogger(name: string)

  /** `Config`: `None` is a nil interface value. */
  datatype Config = Config(
    preview: Option<PreviewProvider>,
    user: Option<UserProvider>,
    watermark: Option<WatermarkProvider>,
    edit: Option<EditProvider>,
    version: Option<VersionProvider>,
    prefix: string,
    logger: Option<Logger>,
    notify: Option<NotifyProvider>)

  /** The six capability contracts. */
  datatype Capability = Preview | User | Watermark | Edit | Version | Notify

  /** Which provider slots of a `Config` are non-nil. */
  datatype Presence = Presence(
    preview: bool, user: bool, watermark: bool, edit: bool, version: bool, notify: bool)
  {
    predicate Has(c: Capability) {
      match c
      case Preview => preview
      case User => user
      case Watermark => watermark
      case Edit => edit
      case Version => version
      case Notify => notify
    }
  }

  function PresenceOf(c: Config): (p: Presence)
    ensures p.Has(Preview) <==> c.preview.Some?
    ensures p.Has(User) <==> c.user.Some?
    ensures p.Has(Watermark) <==> c.watermark.Some?
    ensures p.Has(Edit) <==> c.edit.Some?
    ensures p.Has(Version) <==> c.version.Some?
    ensures p.Has(Notify) <==> c.notify.Some?
  {
    Presence(c.preview.Some?, c.user.Some?, c.watermark.Some?,
             c.edit.Some?, c.version.Some?, c.notify.Some?)
  }
}
