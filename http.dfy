/** The remote LCCS-WS server, seen from the client: the requests the client
    sends and the replies it may get. The HTTP transport itself is not modelled;
    the server is an oracle that answers each request. */
module Http {
  import opened Values

  /** A file attached to a multipart upload: the name it is sent under, the
      local path it is read from, and its media type. */
  datatype Upload = Upload(fileName: string, localPath: string, mediaType: string)

  datatype Request =
    | GetRequest(url: string, params: Option<Json>)
    | PostRequest(url: string, form: map<string, Json>, files: map<string, Upload>)

  /** The body of a reply as the JSON decoder sees it. */
  datatype Body = Parsed(json: Json) | Unparsable(reason: string)

  /** Every way a request can end. `Unreachable` is a transport failure
      (`httpx.RequestError`): no connection, DNS, TLS. `Refused` is a reply whose
      status is not a success, on which `raise_for_status` raises. `Delivered`
      is a successful reply; its header names are lower case, as the transport's
      case-insensitive header lookup sees them. */
  datatype Reply =
    | Unreachable(reason: string)
    | Refused(status: int)
    | Delivered(headers: map<string, string>, content: seq<byte>, body: Body)

  /** The server answers every request; what it answers may differ from one call to the next. */
  type Server = Request -> Reply
}
