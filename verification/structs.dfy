/** The data shapes of structs.go the gateway itself builds or reads: the
    reply envelope and its JSON field layout, the `Empty` marker, and the
    argument records of the upload and rename operations. Provider payloads
    (file metadata, download descriptors, ...) are opaque here. */
module Structs {
  import opened Optional
  import opened Strconv

  /** The `Data` of a reply: Go's `nil`, the `&Empty{}` marker, or a
      provider result, kept as the JSON text its encoder produces. */
  datatype Payload = Null | EmptyObject | ProviderData(json: string)

  /** `Reply`: the envelope every route answers with. */
  datatype Reply = Reply(code: int, message: string, data: Payload)

  /** A JSON value as far as the envelope needs to tell them apart. */
  datatype Json = JInt(i: int) | JString(s: string) | JNull | JEmptyObject | JEncoded(text: string)

  function PayloadJson(p: Payload): (j: Json)
    ensures j.JNull? <==> p.Null?
  {
    match p
    case Null => JNull
    case EmptyObject => JEmptyObject
    case ProviderData(t) => JEncoded(t)
  }

  /** The object fields the JSON encoder emits for a `Reply`, in order:
      `code` always, `message` only when non-empty (omitempty), `data`
      always, as `null` when the data is nil. */
  function EncodeReply(r: Reply): (fields: seq<(string, Json)>)
    ensures 2 <= |fields| <= 3
    ensures fields[0] == ("code", JInt(r.code))
    ensures fields[|fields| - 1] == ("data", PayloadJson(r.data))
    ensures |fields| == 3 <==> r.message != ""
    ensures |fields| == 3 ==> fields[1] == ("message", JString(r.message))
  {
    [("code", JInt(r.code))]
    + (if r.message == "" then [] else [("message", JString(r.message))])
    + [("data", PayloadJson(r.data))]
  }

  function JsonPayload(j: Json): Option<Payload> {
    match j
    case JNull => Some(Null)
    case JEmptyObject => Some(EmptyObject)
    case JEncoded(t) => Some(ProviderData(t))
    case _ => None
  }

  /** How a client reads a reply's fields back: a missing `message` is the
      empty message. */
  function DecodeReply(fields: seq<(string, Json)>): (r: Option<Reply>)
    ensures r.Some? ==> 2 <= |fields| <= 3
  {
    if |fields| < 2 || |fields| > 3 then None
    else
      var (ck, cv) := fields[0];
      var (dk, dv) := fields[|fields| - 1];
      if ck != "code" || !cv.JInt? || dk != "data" || JsonPayload(dv).None? then None
      else if |fields| == 2 then Some(Reply(cv.i, "", JsonPayload(dv).value))
      else
        var (mk, mv) := fields[1];
        if mk == "message" && mv.JString? && mv.s != "" then
          Some(Reply(cv.i, mv.s, JsonPayload(dv).value))
        else None
  }

  /** Every reply is read back as itself: omitting an empty message loses
      nothing. */
  lemma ReplyRoundTrip(r: Reply)
    ensures DecodeReply(EncodeReply(r)) == Some(r)
  {
  }

  /** The `data` key is present in every reply, and is `null` exactly when
      the data is nil, as in an error reply. */
  lemma ReplyAlwaysCarriesData(r: Reply)
    ensures exists i :: 0 <= i < |EncodeReply(r)| && EncodeReply(r)[i].0 == "data"
    ensures EncodeReply(r)[|EncodeReply(r)| - 1].1 == JNull <==> r.data == Null
  {
    var f := EncodeReply(r);
    assert f[|f| - 1].0 == "data";
  }

  /** `UpdateFilePhaseArgs`; `Content` is the opened part's bytes. */
  datatype UpdateArgs = UpdateArgs(
    name: string,
    size: Int64,
    sha1: string,
    isManual: bool,
    content: seq<bv8>)

  /** `RenameFileArgs`: only the new name. */
  datatype RenameArgs = RenameArgs(name: string)

  /** `NotifyArgs`, opaque: its JSON document as bound from the body. */
  datatype NotifyArgs = NotifyArgs(document: string)
}
