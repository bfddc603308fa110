/** The request helpers and the name lookup of `lccs/utils.py`: how a GET reply
    is turned into a JSON document, a downloaded file or an error, how a POST
    reply is turned into a JSON document, how a class id is found by name, and
    the access-token header rule. */
module Utils {
  import opened Values
  import opened Http

  const OctetStream: string := "application/octet-stream"
  const UnknownFile: string := "unknown_file"
  const FileNameKey: string := "filename="

  /** `headers.get(name, default)`. */
  function Header(headers: map<string, string>, name: string, default: string): string {
    if name in headers then headers[name] else default
  }

  /** The lower-cased content type of a reply; a reply without one has the empty content type. */
  function ContentType(headers: map<string, string>): (r: string)
    ensures "content-type" !in headers ==> r == ""
    ensures "content-type" in headers ==> r == Lower(headers["content-type"])
    ensures forall i :: 0 <= i < |r| ==> !('A' <= r[i] <= 'Z')
  {
    Lower(Header(headers, "content-type", ""))
  }

  /** The only two content types decoded as JSON (compared exactly, after lower-casing). */
  predicate IsJsonType(contentType: string) {
    contentType == "application/json" || contentType == "application/geo+json"
  }

  /** The text a `.+` group matches: everything up to the first newline. */
  function LineOf(s: string): (r: string)
    ensures |r| <= |s| && r == s[..|r|]
    ensures forall i :: 0 <= i < |r| ==> r[i] != '\n'
    ensures |r| == |s| || s[|r|] == '\n'
  {
    if s == [] || s[0] == '\n' then [] else [s[0]] + LineOf(s[1..])
  }

  /** The pattern `filename=(.+)` matches at index `i` of `s`. */
  predicate FileNameMatchAt(s: string, i: int) {
    0 <= i && i + |FileNameKey| < |s| && s[i..i + |FileNameKey|] == FileNameKey && s[i + |FileNameKey|] != '\n'
  }

  /** The first match of `filename=(.+)` at or after index `i`, scanning left to right. */
  function FileNameFrom(s: string, i: nat): (r: Option<string>)
    requires i <= |s|
    ensures r.None? <==> forall j :: i <= j ==> !FileNameMatchAt(s, j)
    ensures r.Some? ==> exists j :: i <= j && FileNameMatchAt(s, j) && r.value == LineOf(s[j + |FileNameKey|..])
                                    && forall k :: i <= k < j ==> !FileNameMatchAt(s, k)
    decreases |s| - i
  {
    if FileNameMatchAt(s, i) then Some(LineOf(s[i + |FileNameKey|..]))
    else if i == |s| then None
    else FileNameFrom(s, i + 1)
  }

  /** `re.findall('filename=(.+)', disposition)[0]`, or `None` where `findall` finds nothing. */
  function FileName(disposition: string): (r: Option<string>)
    ensures r.None? <==> forall j :: !FileNameMatchAt(disposition, j)
    ensures r.Some? ==> exists j :: FileNameMatchAt(disposition, j) && r.value == LineOf(disposition[j + |FileNameKey|..])
                                    && forall k :: 0 <= k < j ==> !FileNameMatchAt(disposition, k)
  {
    FileNameFrom(disposition, 0)
  }

  /** The name a binary download is saved under: `unknown_file` when the reply
      has no (or an empty) `Content-Disposition`, otherwise the first
      `filename=` match, and `None` when there is none (`[0]` of an empty list). */
  function DownloadName(headers: map<string, string>): (r: Option<string>)
    ensures "content-disposition" !in headers || headers["content-disposition"] == "" ==> r == Some(UnknownFile)
    ensures "content-disposition" in headers && headers["content-disposition"] != "" ==> r == FileName(headers["content-disposition"])
  {
    if "content-disposition" !in headers || headers["content-disposition"] == "" then Some(UnknownFile)
    else FileName(headers["content-disposition"])
  }

  function InvalidJson(url: string, detail: string): string {
    "Invalid JSON response from " + url + ": " + detail
  }

  lemma JsonTypesAreNotBinary(contentType: string)
    requires IsJsonType(contentType)
    ensures !Contains(contentType, OctetStream)
  {
  }

  /** `Utils._get` on a successful reply: a binary download takes precedence; then
      only the two JSON content types are decoded; any other content type raises
      `ValueError`, which `_get` re-raises as "Invalid JSON response from {url}". */
  function Dispatch(url: string, headers: map<string, string>, content: seq<byte>, body: Body): (r: Result<Value>)
    ensures r.Ok? && r.value.File? <==> Contains(ContentType(headers), OctetStream) && DownloadName(headers).Some?
    ensures r.Ok? && r.value.File? ==> r.value == File(DownloadName(headers).value, content)
    ensures forall j :: r == Ok(Doc(j)) <==> IsJsonType(ContentType(headers)) && body == Parsed(j)
    ensures r == Err(IndexError) <==> Contains(ContentType(headers), OctetStream) && DownloadName(headers).None?
    ensures !Contains(ContentType(headers), OctetStream) && !IsJsonType(ContentType(headers)) ==>
              r == Err(ValueError(InvalidJson(url, "HTTP response is not JSON: Content-Type: " + ContentType(headers))))
    ensures IsJsonType(ContentType(headers)) && body.Unparsable? ==> r == Err(ValueError(InvalidJson(url, body.reason)))
  {
    var contentType := ContentType(headers);
    if Contains(contentType, OctetStream) then
      match DownloadName(headers)
      case None => Err(IndexError)
      case Some(name) => Ok(File(name, content))
    else if !IsJsonType(contentType) then
      Err(ValueError(InvalidJson(url, "HTTP response is not JSON: Content-Type: " + contentType)))
    else
      match body
      case Parsed(j) => Ok(Doc(j))
      case Unparsable(reason) => Err(ValueError(InvalidJson(url, reason)))
  }

  /** `Utils._get(url, params=params)`: a transport failure becomes a `ValueError`
      naming the URL, an unsuccessful status raises `HttpStatusError`, and a
      delivered reply is dispatched on its content type. */
  function Get(server: Server, url: string, params: Option<Json>): (r: Result<Value>)
    ensures server(GetRequest(url, params)).Unreachable? ==>
              r == Err(ValueError("An error occurred while requesting " + url + ": " + server(GetRequest(url, params)).reason))
    ensures server(GetRequest(url, params)).Refused? ==> r == Err(HttpStatusError(server(GetRequest(url, params)).status))
    ensures r.Ok? ==> server(GetRequest(url, params)).Delivered?
    ensures server(GetRequest(url, params)).Delivered? ==>
              r == Dispatch(url, server(GetRequest(url, params)).headers, server(GetRequest(url, params)).content,
                            server(GetRequest(url, params)).body)
  {
    match server(GetRequest(url, params))
    case Unreachable(reason) => Err(ValueError("An error occurred while requesting " + url + ": " + reason))
    case Refused(status) => Err(HttpStatusError(status))
    case Delivered(headers, content, body) => Dispatch(url, headers, content, body)
  }

  /** Only the lower-cased content type matters: two replies that differ only in
      the letter case of their content type give the same result. */
  lemma DispatchIgnoresCase(url: string, h1: map<string, string>, h2: map<string, string>, content: seq<byte>, body: Body)
    requires h1 - {"content-type"} == h2 - {"content-type"}
    requires ContentType(h1) == ContentType(h2)
    ensures Dispatch(url, h1, content, body) == Dispatch(url, h2, content, body)
  {
    assert DownloadName(h1) == DownloadName(h2) by {
      var key := "content-disposition";
      assert key != "content-type" by { assert key[8] != "content-type"[8]; }
      assert (key in h1) == (key in h1 - {"content-type"}) == (key in h2);
      if key in h1 {
        assert h1[key] == (h1 - {"content-type"})[key] == h2[key];
      }
    }
  }

  /** `Utils._post(url, data=form, files=files)`: no content-type check; a body
      that does not decode raises the decoder's `ValueError` unchanged. */
  function Post(server: Server, url: string, form: map<string, Json>, files: map<string, Upload>): (r: Result<Json>)
    ensures server(PostRequest(url, form, files)).Unreachable? ==>
              r == Err(ValueError("An error occurred while sending POST request to " + url + ": " + server(PostRequest(url, form, files)).reason))
    ensures server(PostRequest(url, form, files)).Refused? ==> r == Err(HttpStatusError(server(PostRequest(url, form, files)).status))
    ensures forall j :: r == Ok(j) <==> server(PostRequest(url, form, files)).Delivered? && server(PostRequest(url, form, files)).body == Parsed(j)
    ensures server(PostRequest(url, form, files)).Delivered? && server(PostRequest(url, form, files)).body.Unparsable? ==>
              r == Err(ValueError(server(PostRequest(url, form, files)).body.reason))
  {
    match server(PostRequest(url, form, files))
    case Unreachable(reason) => Err(ValueError("An error occurred while sending POST request to " + url + ": " + reason))
    case Refused(status) => Err(HttpStatusError(status))
    case Delivered(_, _, body) =>
      match body
      case Parsed(j) => Ok(j)
      case Unparsable(reason) => Err(ValueError(reason))
  }

  /** The class's `name` can be read and is not `name`. */
  predicate NamedOtherThan(c: Json, name: string) {
    Subscript(c, "name").Ok? && Subscript(c, "name").value != JStr(name)
  }

  /** `Utils.get_id_by_name`: the `id` of the first class whose `name` equals
      `name`. Reading `name` of a class before the match, or `id` of the match,
      may raise; when no class matches it raises `ValueError`. */
  function GetIdByName(name: string, classes: seq<Json>): (r: Result<Json>)
    ensures r.Ok? ==> exists i :: 0 <= i < |classes| && Subscript(classes[i], "name") == Ok(JStr(name)) && r == Subscript(classes[i], "id")
    decreases |classes|
  {
    if classes == [] then Err(ValueError("Class with name '" + name + "' not found"))
    else
      match Subscript(classes[0], "name")
      case Err(e) => Err(e)
      case Ok(n) => if n == JStr(name) then Subscript(classes[0], "id") else GetIdByName(name, classes[1..])
  }

  /** The first match wins, whatever follows it. */
  lemma {:induction false} GetIdByNameFirstMatch(name: string, before: seq<Json>, c: Json, after: seq<Json>)
    requires forall i :: 0 <= i < |before| ==> NamedOtherThan(before[i], name)
    requires Subscript(c, "name") == Ok(JStr(name))
    ensures GetIdByName(name, before + [c] + after) == Subscript(c, "id")
  {
    if before != [] {
      assert (before + [c] + after)[1..] == before[1..] + [c] + after;
      GetIdByNameFirstMatch(name, before[1..], c, after);
    }
  }

  /** The lookup raises "not found" exactly when every class has a readable
      name and none of them is `name`. */
  lemma {:induction false} GetIdByNameNotFound(name: string, classes: seq<Json>)
    ensures GetIdByName(name, classes) == Err(ValueError("Class with name '" + name + "' not found"))
            <==> forall i :: 0 <= i < |classes| ==> NamedOtherThan(classes[i], name)
    decreases |classes|
  {
    if classes != [] {
      GetIdByNameNotFound(name, classes[1..]);
      if Subscript(classes[0], "name").Ok? && Subscript(classes[0], "name").value == JStr(name) {
        assert !NamedOtherThan(classes[0], name);
        assert Subscript(classes[0], "id").Err? ==> Subscript(classes[0], "id").error != ValueError("Class with name '" + name + "' not found");
      }
      assert forall i :: 1 <= i < |classes| ==> classes[1..][i - 1] == classes[i];
    }
  }

  /** The request headers of the token-carrying transport (the other side of
      the unresolved merge in `lccs/utils.py`): none without a token, otherwise
      exactly the `x-api-key` header carrying it. */
  function TokenHeaders(accessToken: Option<string>): (r: map<string, string>)
    ensures accessToken.None? <==> r == map[]
    ensures accessToken.Some? ==> r.Keys == {"x-api-key"} && r["x-api-key"] == accessToken.value
  {
    match accessToken
    case None => map[]
    case Some(token) => var headers := map["x-api-key" := token]; assert "x-api-key" in headers; headers
  }
}
