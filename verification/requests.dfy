/** What a handler closure reads from the router's request context, taken as
    the router's outputs: path parameters, query values, the multipart form,
    and the JSON body as bound by the router's decoder. The decoders and the
    query-string parser are parameters (`Codecs`). */
module Requests {
  import opened Optional
  import opened Errors
  import opened Structs
  import opened Context

  /** One file part of a multipart body: its bytes, and how each use of it
      turns out (`Some` is the error text). `c.FormFile` opens the part once
      itself, to check it, and closes it again; the handler then opens it a
      second time for the provider and closes that stream when done. */
  datatype FilePart = FilePart(
    content: seq<bv8>,
    checkOpenError: Option<string>,
    openError: Option<string>,
    closeError: Option<string>)

  /** A parsed multipart body: the form values and the file parts. */
  datatype Multipart = Multipart(values: Values, files: map<string, FilePart>)

  datatype Request = Request(
    headers: Header,
    params: map<string, string>,
    query: Values,
    body: string,
    multipart: Result<Multipart>)

  /** The foreign parsers: `url.ParseQuery` and the JSON binding of a body
      into the rename and notify argument records. */
  datatype Codecs = Codecs(
    parseQuery: string -> Option<Values>,
    bindRename: string -> Result<RenameArgs>,
    bindNotify: string -> Result<NotifyArgs>)

  /** What a handler closure ends with: `(data, err)`, or a panic. */
  datatype Outcome = Returned(data: Payload, err: Option<GoError>) | Panicked(reason: string)

  /** `c.Param(name)`: empty when the route has no such parameter. */
  function Param(req: Request, name: string): string {
    if name in req.params then req.params[name] else ""
  }

  /** `c.Query(name)`: the first value, or empty. */
  function Query(req: Request, name: string): string {
    if name in req.query && |req.query[name]| > 0 then req.query[name][0] else ""
  }

  /** `c.QueryArray(name)`: every value, in order. */
  function QueryArray(req: Request, name: string): seq<string> {
    if name in req.query then req.query[name] else []
  }

  /** `c.PostForm(name)`: the first form value, or empty. The model keeps
      only multipart form values, so it answers empty whenever the
      multipart parse failed; the upload handler reads the form only after
      `c.FormFile` succeeded, when the body was multipart. */
  function PostForm(req: Request, name: string): string {
    match req.multipart
    case Ok(mp) => if name in mp.values && |mp.values[name]| > 0 then mp.values[name][0] else ""
    case Err(_) => ""
  }

  /** The text of `http.ErrMissingFile`. */
  const MissingFile: string := "http: no such file"

  /** `c.FormFile(name)`: the part; or the multipart parse error,
      `http.ErrMissingFile`, or the error of its own opening of the part. */
  function FormFile(req: Request, name: string): (r: Result<FilePart>)
    ensures r.Ok? <==> && req.multipart.Ok? && name in req.multipart.value.files
                       && req.multipart.value.files[name].checkOpenError.None?
    ensures r.Ok? ==> r.value == req.multipart.value.files[name]
    ensures req.multipart.Err? ==> r == Err(req.multipart.reason)
    ensures req.multipart.Ok? && name !in req.multipart.value.files ==> r == Err(MissingFile)
  {
    match req.multipart
    case Err(reason) => Err(reason)
    case Ok(mp) =>
      if name !in mp.files then Err(MissingFile)
      else match mp.files[name].checkOpenError
        case Some(reason) => Err(reason)
        case None => Ok(mp.files[name])
  }
}
