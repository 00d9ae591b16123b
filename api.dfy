/**
 * The request layer of the client (src/lib/api.ts): the stored session token, the header
 * rules every request follows, the shape of each endpoint's request, how each reply is
 * turned into a value or an error, and the MIME-type classifier.
 *
 * The network is a parameter: every operation receives the server's `Reply` and returns the
 * `Request` it sent, so what is sent and what is done with the answer can both be stated.
 */
module Api {
  import opened Common

  const BaseUrl: string := "http://localhost:8080"

  // ----- records exchanged with the server -----

  /** A browser File: only its name and size matter here. */
  datatype FileHandle = FileHandle(name: string, size: nat)

  /** One element of the upload reply; an absent `deduplicated` is false. */
  datatype FileUploadResponse =
    FileUploadResponse(message: string, filename: string, size: int, hash: string, deduplicated: bool)

  datatype FileInfo =
    FileInfo(id: int, filename: string, sizeBytes: int, mimeType: string, createdAt: string,
             downloadCount: Option<int>)

  datatype Pagination = Pagination(currentPage: int, totalPages: int, totalFiles: int)

  datatype FileListResponse = FileListResponse(files: seq<FileInfo>, pagination: Pagination)

  /** The JSON body of a successful upload: an array, or a single object. */
  datatype UploadBody = Many(items: seq<FileUploadResponse>) | One(item: FileUploadResponse)

  /** A property value of a JavaScript object used as query parameters. */
  datatype ParamValue = Undefined | Null | Str(s: string) | Num(n: int)

  /** The search parameters object, with its keys in the order the filter panel creates them. */
  datatype SearchParams = SearchParams(
    filename: ParamValue, mimeType: ParamValue,
    minSizeBytes: ParamValue, maxSizeBytes: ParamValue,
    startDate: ParamValue, endDate: ParamValue)

  /** Object.entries of a search parameters object. */
  function Entries(p: SearchParams): (es: seq<(string, ParamValue)>)
    ensures |es| == 6
  {
    [("filename", p.filename), ("mime_type", p.mimeType),
     ("min_size_bytes", p.minSizeBytes), ("max_size_bytes", p.maxSizeBytes),
     ("start_date", p.startDate), ("end_date", p.endDate)]
  }

  // ----- headers -----

  type Headers = map<string, string>

  /** JavaScript truthiness of the stored token: null and "" are both falsy. */
  predicate TokenTruthy(token: Option<string>)
  {
    token.Some? && token.value != ""
  }

  /** The headers apiRequest starts from. */
  function DefaultHeaders(token: Option<string>): (h: Headers)
    ensures "Content-Type" in h && h["Content-Type"] == "application/json"
    ensures "Authorization" in h <==> TokenTruthy(token)
    ensures "Authorization" in h ==> h["Authorization"] == "Bearer " + token.value
    ensures h.Keys <= {"Content-Type", "Authorization"}
  {
    var base := map["Content-Type" := "application/json"];
    if TokenTruthy(token) then base["Authorization" := "Bearer " + token.value] else base
  }

  /** Object spread `{...defaults, ...caller}`: the caller's entries win key by key. */
  function MergeHeaders(defaults: Headers, caller: Headers): (h: Headers)
    ensures h.Keys == defaults.Keys + caller.Keys
    ensures forall k :: k in caller ==> h[k] == caller[k]
    ensures forall k :: k in defaults && k !in caller ==> h[k] == defaults[k]
  {
    defaults + caller
  }

  /** The headers apiRequest sends, as written. */
  function RequestHeaders(token: Option<string>, caller: Headers): Headers
  {
    MergeHeaders(DefaultHeaders(token), caller)
  }

  lemma AuthorizationIffToken(token: Option<string>, caller: Headers)
    requires "Authorization" !in caller
    ensures "Authorization" in RequestHeaders(token, caller) <==> TokenTruthy(token)
    ensures TokenTruthy(token) ==> RequestHeaders(token, caller)["Authorization"] == "Bearer " + token.value
  {
  }

  /** An empty caller header object leaves the JSON content type in place. */
  lemma EmptyCallerKeepsJsonContentType(token: Option<string>)
    ensures RequestHeaders(token, map[]) == DefaultHeaders(token)
    ensures RequestHeaders(token, map[])["Content-Type"] == "application/json"
  {
  }

  /** The body a request carries: none, or a multipart form with one "file" part per file. */
  datatype Body = NoBody | Multipart(files: seq<FileHandle>)

  /**
   * The headers sent with a request, corrected so that a multipart body carries no
   * Content-Type of the client's own (the browser then supplies multipart/form-data with
   * its boundary). For a request without a body this is exactly RequestHeaders.
   */
  function RequestHeadersFor(token: Option<string>, caller: Headers, body: Body): (h: Headers)
    ensures body.NoBody? ==> h == RequestHeaders(token, caller)
    ensures body.Multipart? && "Content-Type" !in caller ==> "Content-Type" !in h
    ensures forall k :: k in caller ==> k in h && h[k] == caller[k]
    ensures "Authorization" !in caller ==> ("Authorization" in h <==> TokenTruthy(token))
  {
    if body.Multipart? then MergeHeaders(DefaultHeaders(token) - {"Content-Type"}, caller)
    else RequestHeaders(token, caller)
  }

  /** As written, the upload request (caller headers `{}`) is labelled as JSON. */
  lemma UploadContentTypeAsWritten(token: Option<string>, files: seq<FileHandle>)
    ensures "Content-Type" in RequestHeaders(token, map[])
    ensures RequestHeaders(token, map[])["Content-Type"] == "application/json"
    ensures "Content-Type" !in RequestHeadersFor(token, map[], Multipart(files))
  {
  }

  // ----- requests -----

  /** Where a request goes: a literal path, or a path with URLSearchParams entries. */
  datatype Target = Path(path: string) | Query(path: string, params: seq<(string, string)>)

  datatype Request = Request(verb: string, base: string, target: Target, headers: Headers, body: Body)

  /** The endpoint `files.list` requests. */
  function ListEndpoint(page: int, pageSize: int): (path: string)
    ensures StartsWith(path, "/files?page=")
  {
    "/files?page=" + IntToString(page) + "&pageSize=" + IntToString(pageSize)
  }

  /** Both numbers can be read back from the list endpoint. */
  lemma ListEndpointDetermined(p1: int, s1: int, p2: int, s2: int)
    requires ListEndpoint(p1, s1) == ListEndpoint(p2, s2)
    requires p1 >= 0 && p2 >= 0
    ensures p1 == p2 && s1 == s2
  {
    var a, b := IntToString(p1), IntToString(p2);
    var r1, r2 := "pageSize=" + IntToString(s1), "pageSize=" + IntToString(s2);
    ListEndpointTail(p1, s1);
    ListEndpointTail(p2, s2);
    DigitsThenAmpersand(a, b, r1, r2);
    IntToStringInjective(p1, p2);
    var t := a + "&" + r1;
    assert t[|a| + 1..] == r1;
    assert (a + "&" + r2)[|a| + 1..] == r2;
    assert r1[9..] == IntToString(s1) && r2[9..] == IntToString(s2);
    IntToStringInjective(s1, s2);
  }

  lemma ListEndpointTail(page: int, pageSize: int)
    ensures ListEndpoint(page, pageSize)[12..] ==
            IntToString(page) + "&" + ("pageSize=" + IntToString(pageSize))
  {
    var prefix := "/files?page=";
    var t := IntToString(page) + "&" + ("pageSize=" + IntToString(pageSize));
    assert ListEndpoint(page, pageSize) == prefix + t;
    assert (prefix + t)[|prefix|..] == t;
  }

  /** With the source's defaults (page 1, page size 20). */
  lemma ListEndpointDefaults()
    ensures ListEndpoint(1, 20) == "/files?page=1&pageSize=20"
  {
    assert IntToString(1) == "1";
    assert IntToString(20) == "20";
  }

  /** Two digit strings each followed by '&' in the same string are equal. */
  lemma DigitsThenAmpersand(a: string, b: string, ra: string, rb: string)
    requires forall i :: 0 <= i < |a| ==> IsDigit(a[i])
    requires forall i :: 0 <= i < |b| ==> IsDigit(b[i])
    requires a + "&" + ra == b + "&" + rb
    ensures a == b
  {
    AmpIndexAfterDigits(a, ra);
    AmpIndexAfterDigits(b, rb);
    var s := a + "&" + ra;
    assert a == s[..|a|] == b;
  }

  /** The position of the first '&' in a string (its length when there is none). */
  function AmpIndex(s: string): nat
  {
    if s == [] || s[0] == '&' then 0 else 1 + AmpIndex(s[1..])
  }

  lemma {:induction false} AmpIndexAfterDigits(a: string, r: string)
    requires forall i :: 0 <= i < |a| ==> IsDigit(a[i])
    ensures AmpIndex(a + "&" + r) == |a|
    decreases |a|
  {
    if a != [] {
      assert (a + "&" + r)[1..] == a[1..] + "&" + r;
      AmpIndexAfterDigits(a[1..], r);
    }
  }

  /** The endpoint `files.delete` requests. */
  function DeleteEndpoint(fileId: int): (path: string)
    ensures StartsWith(path, "/files/")
    ensures |path| > 14 && path[|path| - 7..] == "/delete"
  {
    "/files/" + IntToString(fileId) + "/delete"
  }

  lemma DeleteEndpointExample()
    ensures DeleteEndpoint(42) == "/files/42/delete"
  {
    assert IntToString(42) == "42";
  }

  /** Whether the search builder sends a value: not undefined, not null, not "". */
  predicate Sent(v: ParamValue)
  {
    v != Undefined && v != Null && v != Str("")
  }

  /** value.toString() for the values that are sent. */
  function Stringify(v: ParamValue): string
    requires v.Str? || v.Num?
  {
    match v
    case Str(s) => s
    case Num(n) => IntToString(n)
  }

  /** The query entries the search request carries: the sent entries, in entry order. */
  function SearchQuery(entries: seq<(string, ParamValue)>): (q: seq<(string, string)>)
    ensures |q| <= |entries|
    decreases |entries|
  {
    if entries == [] then []
    else
      var e := entries[|entries| - 1];
      SearchQuery(entries[..|entries| - 1]) + (if Sent(e.1) then [(e.0, Stringify(e.1))] else [])
  }

  /**
   * The forEach loop of `files.search` appending to a URLSearchParams.
   */
  method BuildSearchQuery(entries: seq<(string, ParamValue)>) returns (q: seq<(string, string)>)
    ensures q == SearchQuery(entries)
  {
    q := [];
    var i := 0;
    while i < |entries|
      invariant 0 <= i <= |entries|
      invariant q == SearchQuery(entries[..i])
    {
      var (key, value) := entries[i];
      assert entries[..i + 1][..i] == entries[..i];
      if value != Undefined && value != Null && value != Str("") {
        q := q + [(key, Stringify(value))];
      }
      i := i + 1;
    }
    assert entries[..i] == entries;
  }

  /** Every sent entry is in the query, stringified, and nothing else is. */
  lemma {:induction false} SearchQueryExact(entries: seq<(string, ParamValue)>)
    ensures forall i :: 0 <= i < |entries| && Sent(entries[i].1) ==>
              (entries[i].0, Stringify(entries[i].1)) in SearchQuery(entries)
    ensures forall p :: p in SearchQuery(entries) ==>
              exists i :: 0 <= i < |entries| && Sent(entries[i].1) && p == (entries[i].0, Stringify(entries[i].1))
    decreases |entries|
  {
    if entries != [] {
      var init := entries[..|entries| - 1];
      SearchQueryExact(init);
      forall i | 0 <= i < |init| ensures init[i] == entries[i] { }
    }
  }

  /** When no entry is sent the query is empty, and conversely. */
  lemma {:induction false} SearchQueryEmpty(entries: seq<(string, ParamValue)>)
    ensures SearchQuery(entries) == [] <==> forall i :: 0 <= i < |entries| ==> !Sent(entries[i].1)
    decreases |entries|
  {
    if entries != [] {
      var init := entries[..|entries| - 1];
      SearchQueryEmpty(init);
      forall i | 0 <= i < |init| ensures init[i] == entries[i] { }
    }
  }

  /** The number 0 is sent (only undefined, null and "" are dropped). */
  lemma ZeroIsSent()
    ensures SearchQuery([("min_size_bytes", Num(0)), ("filename", Str(""))]) == [("min_size_bytes", "0")]
  {
    var es := [("min_size_bytes", Num(0)), ("filename", Str(""))];
    assert es[..1] == [("min_size_bytes", Num(0))];
    assert es[..1][..0] == [];
  }

  // ----- replies -----

  /** What the server (or the transport) answered. */
  datatype Reply<T> = Response(status: int, text: string, json: T) | TransportFailure(message: string)

  /** Response.ok */
  predicate IsOk(status: int)
  {
    200 <= status <= 299
  }

  predicate IsAuthFailure<T>(reply: Reply<T>)
  {
    reply.Response? && reply.status == 401
  }

  const AuthRequiredMessage: string := "Authentication required"

  /** `error || fallback` for a response body text. */
  function ErrorText(body: string, fallback: string): (m: string)
    ensures body != "" ==> m == body
    ensures body == "" ==> m == fallback
  {
    if body != "" then body else fallback
  }

  /** How an endpoint words the error of a non-ok response. */
  datatype ErrorPolicy = BodyOr(fallback: string) | Fixed(message: string)

  /** The error message an endpoint throws for a reply, if it throws. */
  function Interpret<T>(reply: Reply<T>, policy: ErrorPolicy): (r: Result<T, string>)
    ensures r.Ok? <==> reply.Response? && IsOk(reply.status)
    ensures r.Ok? ==> r.value == reply.json
    ensures IsAuthFailure(reply) ==> r == Err(AuthRequiredMessage)
    ensures reply.TransportFailure? ==> r == Err(reply.message)
    ensures r.Err? && reply.Response? && !IsAuthFailure(reply) ==>
              r.error == (match policy
                          case BodyOr(fallback) => ErrorText(reply.text, fallback)
                          case Fixed(message) => message)
  {
    match reply
    case TransportFailure(message) => Err(message)
    case Response(status, text, json) =>
      if status == 401 then Err(AuthRequiredMessage)
      else if !IsOk(status) then
        Err(match policy
                case BodyOr(fallback) => ErrorText(text, fallback)
                case Fixed(message) => message)
      else Ok(json)
  }

  /** Every error a reply produces is non-empty, given a non-empty transport message and policy. */
  lemma InterpretErrorNonEmpty<T>(reply: Reply<T>, policy: ErrorPolicy)
    requires reply.TransportFailure? ==> reply.message != ""
    requires policy.BodyOr? ==> policy.fallback != ""
    requires policy.Fixed? ==> policy.message != ""
    ensures Interpret(reply, policy).Err? ==> Interpret(reply, policy).error != ""
  {
  }

  /** `Array.isArray(result) ? result : [result]` */
  function NormalizeUploadBody(body: UploadBody): (rs: seq<FileUploadResponse>)
    ensures body.Many? ==> rs == body.items
    ensures body.One? ==> rs == [body.item]
    ensures body.One? ==> |rs| == 1
  {
    match body
    case Many(items) => items
    case One(item) => [item]
  }

  function UploadOutcome(reply: Reply<UploadBody>): (r: Result<seq<FileUploadResponse>, string>)
    ensures r.Ok? <==> reply.Response? && IsOk(reply.status)
    ensures r.Ok? ==> r.value == NormalizeUploadBody(reply.json)
    ensures reply.Response? && !IsOk(reply.status) && reply.status != 401 ==>
              r == Err(ErrorText(reply.text, "Upload failed"))
  {
    match Interpret(reply, BodyOr("Upload failed"))
    case Ok(body) => Ok(NormalizeUploadBody(body))
    case Err(e) => Err(e)
  }

  function ListOutcome(reply: Reply<FileListResponse>): (r: Result<FileListResponse, string>)
    ensures reply.Response? && !IsOk(reply.status) && reply.status != 401 ==>
              r == Err("Failed to fetch files")
  {
    Interpret(reply, Fixed("Failed to fetch files"))
  }

  function SearchOutcome(reply: Reply<FileListResponse>): (r: Result<FileListResponse, string>)
    ensures reply.Response? && !IsOk(reply.status) && reply.status != 401 ==>
              r == Err("Search failed")
  {
    Interpret(reply, Fixed("Search failed"))
  }

  function DeleteOutcome(reply: Reply<()>): (r: Result<(), string>)
    ensures reply.Response? && !IsOk(reply.status) && reply.status != 401 ==>
              r == Err(ErrorText(reply.text, "Delete failed"))
  {
    Interpret(reply, BodyOr("Delete failed"))
  }

  // ----- MIME classification -----

  /** getFileTypeFromMime: ordered first-match rules. */
  function FileTypeFromMime(mimeType: string): (t: string)
    ensures t in {"image", "video", "audio", "document", "archive", "code"}
  {
    if StartsWith(mimeType, "image/") then "image"
    else if StartsWith(mimeType, "video/") then "video"
    else if StartsWith(mimeType, "audio/") then "audio"
    else if Contains(mimeType, "pdf") || Contains(mimeType, "document") || Contains(mimeType, "text") then "document"
    else if Contains(mimeType, "zip") || Contains(mimeType, "rar") || Contains(mimeType, "tar") then "archive"
    else if Contains(mimeType, "javascript") || Contains(mimeType, "json") || Contains(mimeType, "xml") then "code"
    else "document"
  }

  predicate HasMediaPrefix(m: string)
  {
    StartsWith(m, "image/") || StartsWith(m, "video/") || StartsWith(m, "audio/")
  }

  predicate DocumentWord(m: string)
  {
    Contains(m, "pdf") || Contains(m, "document") || Contains(m, "text")
  }

  predicate ArchiveWord(m: string)
  {
    Contains(m, "zip") || Contains(m, "rar") || Contains(m, "tar")
  }

  predicate CodeWord(m: string)
  {
    Contains(m, "javascript") || Contains(m, "json") || Contains(m, "xml")
  }

  /** Each class is chosen exactly when its rule is the first one that matches. */
  lemma FileTypeRules(m: string)
    ensures FileTypeFromMime(m) == "image" <==> StartsWith(m, "image/")
    ensures FileTypeFromMime(m) == "video" <==> StartsWith(m, "video/")
    ensures FileTypeFromMime(m) == "audio" <==> StartsWith(m, "audio/")
    ensures FileTypeFromMime(m) == "archive" <==> !HasMediaPrefix(m) && !DocumentWord(m) && ArchiveWord(m)
    ensures FileTypeFromMime(m) == "code" <==> !HasMediaPrefix(m) && !DocumentWord(m) && !ArchiveWord(m) && CodeWord(m)
    ensures FileTypeFromMime(m) == "document" <==>
              !HasMediaPrefix(m) && (DocumentWord(m) || (!ArchiveWord(m) && !CodeWord(m)))
  {
    PrefixesExclusive(m);
  }

  /** A string starts with at most one of the three media prefixes. */
  lemma PrefixesExclusive(m: string)
    ensures !(StartsWith(m, "image/") && StartsWith(m, "video/"))
    ensures !(StartsWith(m, "image/") && StartsWith(m, "audio/"))
    ensures !(StartsWith(m, "video/") && StartsWith(m, "audio/"))
  {
    if StartsWith(m, "image/") { assert m[0] == 'i'; }
    if StartsWith(m, "video/") { assert m[0] == 'v'; }
    if StartsWith(m, "audio/") { assert m[0] == 'a'; }
  }

  /** The text rule comes before the code rule. */
  lemma TextJavascriptIsDocument()
    ensures FileTypeFromMime("text/javascript") == "document"
  {
    var m := "text/javascript";
    NotStartsWith(m, "image/", 0);
    NotStartsWith(m, "video/", 0);
    NotStartsWith(m, "audio/", 0);
    assert MatchAt(m, "text", 0);
  }

  lemma ImagePngIsImage()
    ensures FileTypeFromMime("image/png") == "image"
  {
  }

  /** An "application/…" type has none of the media prefixes. */
  lemma ApplicationNotMedia(m: string)
    requires StartsWith(m, "application/")
    ensures !HasMediaPrefix(m)
  {
    assert m[0] == 'a' && m[1] == 'p';
    NotStartsWith(m, "image/", 0);
    NotStartsWith(m, "video/", 0);
    NotStartsWith(m, "audio/", 1);
  }

  lemma ApplicationJsonIsCode()
    ensures FileTypeFromMime("application/json") == "code"
  {
    var m := "application/json";
    ApplicationNotMedia(m);
    NoneOf3(m, "pdf", 2, "document", 0, "text", 1);
    NoneOf3(m, "zip", 0, "rar", 0, "tar", 2);
    assert MatchAt(m, "json", 12);
  }

  lemma ApplicationZipIsArchive()
    ensures FileTypeFromMime("application/zip") == "archive"
  {
    var m := "application/zip";
    ApplicationNotMedia(m);
    NoneOf3(m, "pdf", 2, "document", 0, "text", 1);
    assert MatchAt(m, "zip", 12);
  }

  /** "font/woff2" matches none of the rules. */
  lemma FontMatchesNoRule()
    ensures var m := "font/woff2"; !HasMediaPrefix(m) && !DocumentWord(m) && !ArchiveWord(m)
  {
    var m := "font/woff2";
    NotStartsWith(m, "image/", 0);
    NotStartsWith(m, "video/", 0);
    NotStartsWith(m, "audio/", 0);
    NoneOf3(m, "pdf", 0, "document", 0, "text", 1);
    NoneOf3(m, "zip", 0, "rar", 0, "tar", 1);
  }

  /** A type no rule names falls back to document. */
  lemma UnknownTypeIsDocument()
    ensures FileTypeFromMime("font/woff2") == "document"
  {
    var m := "font/woff2";
    FontMatchesNoRule();
    NoneOf3(m, "javascript", 0, "json", 0, "xml", 0);
  }

  lemma NoneOf3(s: string, a: string, ka: nat, b: string, kb: nat, c: string, kc: nat)
    requires ka < |a| && a[ka] !in s
    requires kb < |b| && b[kb] !in s
    requires kc < |c| && c[kc] !in s
    ensures !Contains(s, a) && !Contains(s, b) && !Contains(s, c)
  {
    NotContainsMissingChar(s, a, ka);
    NotContainsMissingChar(s, b, kb);
    NotContainsMissingChar(s, c, kc);
  }

  // ----- token store and the request wrapper -----

  /** The session token (kept in localStorage under "auth_token" by the source). */
  class ApiClient {
    var token: Option<string>

    constructor (stored: Option<string>)
      ensures token == stored
    {
      token := stored;
    }

    method GetAuthToken() returns (t: Option<string>)
      ensures t == token
    {
      t := token;
    }

    method SetAuthToken(t: string)
      modifies this
      ensures token == Some(t)
    {
      token := Some(t);
    }

    method RemoveAuthToken()
      modifies this
      ensures token == None
    {
      token := None;
    }

    method IsAuthenticated() returns (b: bool)
      ensures b <==> token.Some?
    {
      b := token != None;
    }

    /**
     * apiRequest: sends with the defaults merged under the caller's headers, whatever the
     * body; a 401 reply removes the token (the redirect to /login is left out). The thrown
     * "Authentication required" is part of Interpret.
     */
    method ApiRequest<T>(verb: string, target: Target, caller: Headers, body: Body, reply: Reply<T>)
      returns (sent: Request)
      modifies this
      ensures sent == Request(verb, BaseUrl, target, RequestHeaders(old(token), caller), body)
      ensures token == if IsAuthFailure(reply) then None else old(token)
    {
      var t := GetAuthToken();
      sent := Request(verb, BaseUrl, target, MergeHeaders(DefaultHeaders(t), caller), body);
      if reply.Response? && reply.status == 401 {
        RemoveAuthToken();
      }
    }

    /**
     * files.upload: one multipart request with one part per file, in order. The caller's
     * `{}` keeps the JSON Content-Type (see UploadContentTypeAsWritten).
     */
    method Upload(files: seq<FileHandle>, reply: Reply<UploadBody>)
      returns (sent: Request, r: Result<seq<FileUploadResponse>, string>)
      modifies this
      ensures sent == Request("POST", BaseUrl, Path("/upload"),
                              RequestHeaders(old(token), map[]), Multipart(files))
      ensures sent.headers["Content-Type"] == "application/json"
      ensures token == if IsAuthFailure(reply) then None else old(token)
      ensures r == UploadOutcome(reply)
    {
      EmptyCallerKeepsJsonContentType(token);
      sent := ApiRequest("POST", Path("/upload"), map[], Multipart(files), reply);
      r := UploadOutcome(reply);
    }

    /** files.list; the source's defaults are page 1 and page size 20. */
    method List(page: int, pageSize: int, reply: Reply<FileListResponse>)
      returns (sent: Request, r: Result<FileListResponse, string>)
      modifies this
      ensures sent == Request("GET", BaseUrl, Path(ListEndpoint(page, pageSize)),
                              RequestHeaders(old(token), map[]), NoBody)
      ensures token == if IsAuthFailure(reply) then None else old(token)
      ensures r == ListOutcome(reply)
    {
      sent := ApiRequest("GET", Path(ListEndpoint(page, pageSize)), map[], NoBody, reply);
      r := ListOutcome(reply);
    }

    /** files.search: only the sent entries go into the query. */
    method Search(params: SearchParams, reply: Reply<FileListResponse>)
      returns (sent: Request, r: Result<FileListResponse, string>)
      modifies this
      ensures sent == Request("GET", BaseUrl, Query("/search", SearchQuery(Entries(params))),
                              RequestHeaders(old(token), map[]), NoBody)
      ensures token == if IsAuthFailure(reply) then None else old(token)
      ensures r == SearchOutcome(reply)
    {
      var q := BuildSearchQuery(Entries(params));
      sent := ApiRequest("GET", Query("/search", q), map[], NoBody, reply);
      r := SearchOutcome(reply);
    }

    /** files.delete */
    method Delete(fileId: int, reply: Reply<()>)
      returns (sent: Request, r: Result<(), string>)
      modifies this
      ensures sent == Request("DELETE", BaseUrl, Path(DeleteEndpoint(fileId)),
                              RequestHeaders(old(token), map[]), NoBody)
      ensures token == if IsAuthFailure(reply) then None else old(token)
      ensures r == DeleteOutcome(reply)
    {
      sent := ApiRequest("DELETE", Path(DeleteEndpoint(fileId)), map[], NoBody, reply);
      r := DeleteOutcome(reply);
    }
  }

  /** After a set the token reads back and the session is authenticated; after a remove it is not. */
  method TokenScenario(t: string) returns (read: Option<string>, afterSet: bool, afterRemove: bool)
    ensures read == Some(t) && afterSet && !afterRemove
  {
    var client := new ApiClient(None);
    client.SetAuthToken(t);
    read := client.GetAuthToken();
    afterSet := client.IsAuthenticated();
    client.RemoveAuthToken();
    afterRemove := client.IsAuthenticated();
  }

  /** A 401 on any request logs the session out. */
  method UnauthorizedScenario(t: string, fileId: int, text: string) returns (outcome: Result<(), string>, afterwards: bool)
    ensures outcome == Err(AuthRequiredMessage) && !afterwards
  {
    var client := new ApiClient(Some(t));
    var sent;
    sent, outcome := client.Delete(fileId, Response(401, text, ()));
    afterwards := client.IsAuthenticated();
  }
}
