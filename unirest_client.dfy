/**
  The logic of `UnirestClient` that does not touch the network: composing a request over the base
  request, choosing the HTTP call from the request's method and multipart fields, building the
  multipart field map, and the header and cookie maps of a text response. Requests are the JSON
  objects the REST `Request` class reads from and writes to.
 */
module UnirestClient {
  import opened Wrappers
  import opened Json
  import Text
  import opened AbstractClient

  // ---------------------------------------------------------------------------------------------
  // mergeRequest

  /** `mergeRequest(newRequest)`: the target is a default request, or the client's base request when
      there is one; `ignoreBaseHeaders` drops the target's headers; then the new request is merged over it.
      It composes exactly as the shared client composition does, over the REST default request. */
  method MergeRequest(client: Client, newRequest: Option<Obj>) returns (r: Result<Obj>)
    requires client.kind == Unirest
    ensures r == RequestMerge(client.baseRequest, newRequest, Some(DefaultRequest(Unirest)))
  {
    if newRequest.None? {
      return Err(NullRequest);
    }
    var source := newRequest.value;
    var target := DefaultRequest(Unirest);
    if client.baseRequest.Some? {
      target := client.baseRequest.value;
    }
    var ignore := IgnoresBaseHeaders(source);
    if ignore.Err? {
      return Err(ignore.error);
    }
    if ignore.value {
      target := Remove(target, HeadersKey);
    }
    var merged := DataUtil.DeepMerge(Some(source), Some(target));
    return Ok(merged.value);
  }

  /** Without a base request, every key the new request leaves out takes its default (`headers` {},
      `ignoreBaseHeaders` false, `verifySsl` false), and the new request's own scalars win. */
  lemma MergeOverDefaults(newRequest: Obj, k: string)
    requires UniqueKeys(newRequest) && !Has(newRequest, IgnoreBaseHeadersKey)
    ensures var r := RequestMerge(None, Some(newRequest), Some(DefaultRequest(Unirest)));
      r.Ok? &&
      (k !in Keys(newRequest) ==> Get(r.value, k) == Get(DefaultRequest(Unirest), k)) &&
      (k !in Keys(newRequest) && k == "verifySsl" ==> Get(r.value, k) == Some(JBool(false))) &&
      (k in Keys(newRequest) && !Get(newRequest, k).value.JArr? && !Get(newRequest, k).value.JObj? ==>
        Get(r.value, k) == Get(newRequest, k))
  {
    RequestMergeKeys(None, newRequest, DefaultRequest(Unirest), k);
    if k !in Keys(newRequest) && k == HeadersKey {
      DataUtil.MergeGet(newRequest, DefaultRequest(Unirest), k);
    }
  }

  // ---------------------------------------------------------------------------------------------
  // The HTTP call chosen by resolve

  /** `org.autong.enums.HttpMethod`. */
  datatype HttpMethod = GET | HEAD | POST | PUT | PATCH | DELETE | OPTIONS | TRACE

  function MethodName(m: HttpMethod): string {
    match m
    case GET => "GET"
    case HEAD => "HEAD"
    case POST => "POST"
    case PUT => "PUT"
    case PATCH => "PATCH"
    case DELETE => "DELETE"
    case OPTIONS => "OPTIONS"
    case TRACE => "TRACE"
  }

  /** The constant whose name is exactly `name`, if any. */
  function MethodNamed(name: string): (r: Option<HttpMethod>)
    ensures r.Some? ==> MethodName(r.value) == name
  {
    if name == "GET" then Some(GET)
    else if name == "HEAD" then Some(HEAD)
    else if name == "POST" then Some(POST)
    else if name == "PUT" then Some(PUT)
    else if name == "PATCH" then Some(PATCH)
    else if name == "DELETE" then Some(DELETE)
    else if name == "OPTIONS" then Some(OPTIONS)
    else if name == "TRACE" then Some(TRACE)
    else None
  }

  /** The `method` field as Gson reads it: the constant with that exact name; a missing, null or
      unknown name reads as null. */
  function MethodOf(request: Obj): (r: Option<HttpMethod>) {
    match Get(request, "method")
    case Some(JStr(name)) => MethodNamed(name)
    case _ => None
  }

  /** The method written under `method` is the method read back, and a method read back was written
      under its own name. */
  lemma MethodRoundTrip(request: Obj, m: HttpMethod)
    ensures Get(request, "method") == Some(JStr(MethodName(m))) ==> MethodOf(request) == Some(m)
    ensures MethodOf(request).Some? ==> Get(request, "method") == Some(JStr(MethodName(MethodOf(request).value)))
  {
    match m
    case GET => assert MethodNamed(MethodName(GET)) == Some(GET);
    case HEAD => assert MethodNamed(MethodName(HEAD)) == Some(HEAD);
    case POST => assert MethodNamed(MethodName(POST)) == Some(POST);
    case PUT => assert MethodNamed(MethodName(PUT)) == Some(PUT);
    case PATCH => assert MethodNamed(MethodName(PATCH)) == Some(PATCH);
    case DELETE => assert MethodNamed(MethodName(DELETE)) == Some(DELETE);
    case OPTIONS => assert MethodNamed(MethodName(OPTIONS)) == Some(OPTIONS);
    case TRACE => assert MethodNamed(MethodName(TRACE)) == Some(TRACE);
  }

  /** The multipart path accepts POST, PUT and PATCH. */
  predicate MultipartVerb(m: HttpMethod) {
    m == POST || m == PUT || m == PATCH
  }

  /** The plain path accepts GET, POST, PUT, PATCH and DELETE. */
  predicate PlainVerb(m: HttpMethod) {
    m == GET || m == POST || m == PUT || m == PATCH || m == DELETE
  }

  /** `multiPart` as Gson reads it: an object, or null. */
  function MultiPartOf(request: Obj): Option<Obj> {
    match Get(request, "multiPart")
    case Some(JObj(m)) => Some(m)
    case _ => None
  }

  /** A multipart field: a file for each path of an array value, the text of any other value. */
  datatype Part = FilePart(path: string) | TextPart(text: string)

  /** A request the client hands to Unirest: the multipart builder or a plain request. */
  datatype Call =
    | MultipartCall(verb: HttpMethod, fields: map<string, Part>)
    | PlainCall(verb: HttpMethod)

  function InvalidMethod(m: HttpMethod): Exception {
    Exception(UnirestConfig, "Invalid method type " + MethodName(m))
  }

  /** `switch` on a null enum. */
  const NullMethod := Exception(NullPointer, "switch on null HttpMethod")

  /** `resolve` up to the network call: a request with a `multiPart` object takes the multipart path
      (its headers must exist, since `Content-Type` is removed from them; its fields are built; only
      POST, PUT and PATCH are accepted); any other request accepts GET, POST, PUT, PATCH and DELETE. */
  function Route(request: Obj): Result<Call> {
    if MultiPartOf(request).Some? then
      match Get(request, HeadersKey)
      case None => Err(Exception(NullPointer, "headers is null"))
      case Some(JNull) => Err(Exception(NullPointer, "headers is null"))
      case _ =>
        var fields :- MultiPartBody(MultiPartOf(request).value);
        match MethodOf(request)
        case None => Err(NullMethod)
        case Some(m) =>
          if MultipartVerb(m) then Ok(MultipartCall(m, fields)) else Err(InvalidMethod(m))
    else
      match MethodOf(request)
      case None => Err(NullMethod)
      case Some(m) =>
        if PlainVerb(m) then Ok(PlainCall(m)) else Err(InvalidMethod(m))
  }

  /** Which methods each path accepts, and that a `multiPart` object always selects the multipart path. */
  lemma RouteRules(request: Obj)
    ensures MultiPartOf(request).Some? && Route(request).Ok? ==>
      Route(request).value.MultipartCall? && MultipartVerb(Route(request).value.verb)
    ensures MultiPartOf(request).None? && Route(request).Ok? ==>
      Route(request).value.PlainCall? && PlainVerb(Route(request).value.verb)
    ensures MultiPartOf(request).None? && MethodOf(request).Some? ==>
      (Route(request).Ok? <==> PlainVerb(MethodOf(request).value))
    ensures MultiPartOf(request).None? && MethodOf(request).None? ==> Route(request) == Err(NullMethod)
    ensures MultiPartOf(request).None? && Route(request).Err? && MethodOf(request).Some? ==>
      Route(request).error == InvalidMethod(MethodOf(request).value)
    ensures MultiPartOf(request).Some? && Route(request).Ok? ==>
      Route(request).value.fields == MultiPartBody(MultiPartOf(request).value).value
  {
  }

  /** On the multipart path, once headers exist and the fields build, the method alone decides. */
  lemma {:induction false} MultipartMethods(request: Obj)
    requires MultiPartOf(request).Some? && MethodOf(request).Some?
    requires Get(request, HeadersKey).Some? && Get(request, HeadersKey) != Some(JNull)
    requires MultiPartBody(MultiPartOf(request).value).Ok?
    ensures var m := MethodOf(request).value;
      Route(request) ==
        if MultipartVerb(m) then Ok(MultipartCall(m, MultiPartBody(MultiPartOf(request).value).value))
        else Err(InvalidMethod(m))
  {
  }

  // ---------------------------------------------------------------------------------------------
  // buildMultiPartBody

  /** The inner loop over an array value from element `j` on: each path replaces the key's file. */
  function FilesFrom(key: string, elems: seq<Json>, j: nat, acc: map<string, Part>): Result<map<string, Part>>
    requires j <= |elems|
    decreases |elems| - j
  {
    if j == |elems| then Ok(acc)
    else
      var path :- AsString(elems[j]);
      FilesFrom(key, elems, j + 1, acc[key := FilePart(path)])
  }

  /** The outer loop over the multipart members from index `i` on. */
  function PartsFrom(fields: Obj, i: nat, acc: map<string, Part>): Result<map<string, Part>>
    requires i <= |fields|
    decreases |fields| - i
  {
    if i == |fields| then Ok(acc)
    else
      var m := fields[i];
      if m.value.JArr? then
        var acc' :- FilesFrom(m.key, m.value.elems, 0, acc);
        PartsFrom(fields, i + 1, acc')
      else
        var text :- AsString(m.value);
        PartsFrom(fields, i + 1, acc[m.key := TextPart(text)])
  }

  function MultiPartBody(fields: Obj): Result<map<string, Part>> {
    PartsFrom(fields, 0, map[])
  }

  /** `buildMultiPartBody`: a map filled member by member, with a nested loop over array values. */
  method BuildMultiPartBody(fields: Obj) returns (r: Result<map<string, Part>>)
    ensures r == MultiPartBody(fields)
  {
    var parts: map<string, Part> := map[];
    var i := 0;
    while i < |fields|
      invariant i <= |fields|
      invariant PartsFrom(fields, i, parts) == MultiPartBody(fields)
    {
      var m := fields[i];
      if m.value.JArr? {
        var elems := m.value.elems;
        var j := 0;
        while j < |elems|
          invariant j <= |elems|
          invariant FilesFrom(m.key, elems, j, parts).Ok? ==>
            PartsFrom(fields, i + 1, FilesFrom(m.key, elems, j, parts).value) == MultiPartBody(fields)
          invariant FilesFrom(m.key, elems, j, parts).Err? ==> FilesFrom(m.key, elems, j, parts) == MultiPartBody(fields)
        {
          var path := AsString(elems[j]);
          if path.Err? {
            return Err(path.error);
          }
          parts := parts[m.key := FilePart(path.value)];
          j := j + 1;
        }
      } else {
        var text := AsString(m.value);
        if text.Err? {
          return Err(text.error);
        }
        parts := parts[m.key := TextPart(text.value)];
      }
      i := i + 1;
    }
    return Ok(parts);
  }

  /** An array value leaves the key holding its last path, and no key at all when it is empty. */
  lemma {:induction false} FilesFromLast(key: string, elems: seq<Json>, j: nat, acc: map<string, Part>)
    requires j <= |elems| && FilesFrom(key, elems, j, acc).Ok?
    ensures j == |elems| ==> FilesFrom(key, elems, j, acc).value == acc
    ensures j < |elems| ==>
      AsString(elems[|elems| - 1]).Ok? &&
      FilesFrom(key, elems, j, acc).value == acc[key := FilePart(AsString(elems[|elems| - 1]).value)]
    decreases |elems| - j
  {
    if j < |elems| {
      var path := AsString(elems[j]).value;
      FilesFromLast(key, elems, j + 1, acc[key := FilePart(path)]);
      if j + 1 < |elems| {
        assert acc[key := FilePart(path)][key := FilePart(AsString(elems[|elems| - 1]).value)]
          == acc[key := FilePart(AsString(elems[|elems| - 1]).value)];
      }
    }
  }

  /** Members after `i` whose key is not `k` leave `k` as it was. */
  lemma {:induction false} PartsFromOther(fields: Obj, i: nat, acc: map<string, Part>, k: string)
    requires i <= |fields| && PartsFrom(fields, i, acc).Ok?
    requires forall t :: i <= t < |fields| ==> fields[t].key != k
    ensures var r := PartsFrom(fields, i, acc).value;
      (k in r <==> k in acc) && (k in acc ==> r[k] == acc[k])
    decreases |fields| - i
  {
    if i < |fields| {
      var m := fields[i];
      if m.value.JArr? {
        var acc' := FilesFrom(m.key, m.value.elems, 0, acc).value;
        FilesFromLast(m.key, m.value.elems, 0, acc);
        PartsFromOther(fields, i + 1, acc', k);
      } else {
        PartsFromOther(fields, i + 1, acc[m.key := TextPart(AsString(m.value).value)], k);
      }
    }
  }

  /** The field of the member at `j`, when its key is unique among the members from `i` on. */
  lemma {:induction false} PartsFromGet(fields: Obj, i: nat, acc: map<string, Part>, j: nat)
    requires UniqueKeys(fields) && i <= j < |fields| && PartsFrom(fields, i, acc).Ok?
    ensures var r := PartsFrom(fields, i, acc).value; var v := fields[j].value; var k := fields[j].key;
      (v.JArr? && |v.elems| == 0 ==> (k in r <==> k in acc) && (k in acc ==> r[k] == acc[k])) &&
      (v.JArr? && |v.elems| > 0 ==>
        AsString(v.elems[|v.elems| - 1]).Ok? && k in r && r[k] == FilePart(AsString(v.elems[|v.elems| - 1]).value)) &&
      (!v.JArr? ==> AsString(v).Ok? && k in r && r[k] == TextPart(AsString(v).value))
    decreases |fields| - i
  {
    var m := fields[i];
    var acc' := if m.value.JArr? then FilesFrom(m.key, m.value.elems, 0, acc).value
      else acc[m.key := TextPart(AsString(m.value).value)];
    assert PartsFrom(fields, i, acc) == PartsFrom(fields, i + 1, acc');
    if m.value.JArr? {
      FilesFromLast(m.key, m.value.elems, 0, acc);
    }
    if j == i {
      PartsFromOther(fields, i + 1, acc', m.key);
    } else {
      PartsFromGet(fields, i + 1, acc', j);
    }
  }

  /** `buildMultiPartBody` on a JsonObject: a scalar member becomes its text, an array member its last
      file path, an empty array no field; and every field comes from a member. */
  lemma MultiPartFields(fields: Obj, j: nat, k: string)
    requires UniqueKeys(fields) && j < |fields| && MultiPartBody(fields).Ok?
    ensures var r := MultiPartBody(fields).value; var v := fields[j].value;
      (v.JArr? && |v.elems| == 0 ==> fields[j].key !in r) &&
      (v.JArr? && |v.elems| > 0 ==>
        fields[j].key in r && AsString(v.elems[|v.elems| - 1]).Ok? &&
        r[fields[j].key] == FilePart(AsString(v.elems[|v.elems| - 1]).value)) &&
      (!v.JArr? ==> fields[j].key in r && AsString(v).Ok? && r[fields[j].key] == TextPart(AsString(v).value))
    ensures k in MultiPartBody(fields).value ==> k in Keys(fields)
  {
    PartsFromGet(fields, 0, map[], j);
    if k !in Keys(fields) {
      PartsFromOther(fields, 0, map[], k);
    }
  }

  // ---------------------------------------------------------------------------------------------
  // buildTextResponse

  /** A header or cookie: name and value. */
  datatype Pair = Pair(name: string, value: string)

  /** What the Unirest response reports: status, headers in order, the body as pretty-printed JSON
      (or the original text when it did not parse) and the cookies. */
  datatype RawResponse = RawResponse(
    status: int,
    statusText: string,
    headers: seq<Pair>,
    body: Option<string>,
    parsingErrorBody: Option<string>,
    cookies: Option<seq<Pair>>)

  /** The client's `Response` as `buildTextResponse` fills it. */
  datatype TextResponse = TextResponse(
    request: Obj,
    statusCode: int,
    statusLine: string,
    contentType: string,
    headers: map<string, string>,
    body: Option<string>,
    cookies: Option<map<string, string>>)

  /** `put` of every pair in order into `m`. */
  function PutAll(m: map<string, string>, ps: seq<Pair>): map<string, string> {
    if ps == [] then m
    else PutAll(m, ps[..|ps| - 1])[ps[|ps| - 1].name := ps[|ps| - 1].value]
  }

  /** The value of the last pair named `k`. */
  function LastValue(ps: seq<Pair>, k: string): (r: Option<string>)
    ensures r.Some? ==> exists i :: 0 <= i < |ps| && ps[i] == Pair(k, r.value)
    ensures r.None? ==> forall i :: 0 <= i < |ps| ==> ps[i].name != k
  {
    if ps == [] then None
    else if ps[|ps| - 1].name == k then Some(ps[|ps| - 1].value)
    else LastValue(ps[..|ps| - 1], k)
  }

  /** After putting the pairs, a key holds its last pair's value, or its old value when no pair names it. */
  lemma {:induction false} PutAllGet(m: map<string, string>, ps: seq<Pair>, k: string)
    ensures LastValue(ps, k).Some? ==> k in PutAll(m, ps) && PutAll(m, ps)[k] == LastValue(ps, k).value
    ensures LastValue(ps, k).None? ==> (k in PutAll(m, ps) <==> k in m) && (k in m ==> PutAll(m, ps)[k] == m[k])
  {
    if ps != [] {
      PutAllGet(m, ps[..|ps| - 1], k);
    }
  }

  /** `getFirst(name)` of Unirest's headers: the first header whose name matches ignoring case, or "". */
  function FirstValue(ps: seq<Pair>, name: string): (r: string)
    ensures (forall i :: 0 <= i < |ps| ==> !Text.EqualsIgnoreCase(ps[i].name, name)) ==> r == ""
    ensures forall i ::
      (0 <= i < |ps| && Text.EqualsIgnoreCase(ps[i].name, name) &&
       forall j :: 0 <= j < i ==> !Text.EqualsIgnoreCase(ps[j].name, name)) ==> r == ps[i].value
  {
    if ps == [] then ""
    else if Text.EqualsIgnoreCase(ps[0].name, name) then ps[0].value
    else FirstValue(ps[1..], name)
  }

  /** The headers map of the response: the response headers, then the cookies put into the same map. */
  function ResponseHeaders(raw: RawResponse): map<string, string> {
    PutAll(PutAll(map[], raw.headers), if raw.cookies.Some? then raw.cookies.value else [])
  }

  /** A name carried by a cookie shows the last such cookie's value; otherwise the last header's; and the
      map holds nothing else. */
  lemma ResponseHeaderValue(raw: RawResponse, k: string)
    ensures var cookies := if raw.cookies.Some? then raw.cookies.value else [];
      var r := ResponseHeaders(raw);
      (LastValue(cookies, k).Some? ==> k in r && r[k] == LastValue(cookies, k).value) &&
      (LastValue(cookies, k).None? && LastValue(raw.headers, k).Some? ==> k in r && r[k] == LastValue(raw.headers, k).value) &&
      (LastValue(cookies, k).None? && LastValue(raw.headers, k).None? ==> k !in r)
  {
    var cookies := if raw.cookies.Some? then raw.cookies.value else [];
    PutAllGet(map[], raw.headers, k);
    PutAllGet(PutAll(map[], raw.headers), cookies, k);
  }

  /** The `forEach` that puts each pair, in order, into a `HashMap`. */
  method PutPairs(m: map<string, string>, ps: seq<Pair>) returns (r: map<string, string>)
    ensures r == PutAll(m, ps)
  {
    r := m;
    var i := 0;
    while i < |ps|
      invariant i <= |ps|
      invariant r == PutAll(m, ps[..i])
    {
      assert ps[..i + 1][..i] == ps[..i];
      r := r[ps[i].name := ps[i].value];
      i := i + 1;
    }
    assert ps[..i] == ps;
  }

  /** `buildTextResponse` as written: the headers map is filled from the response headers and is then
      attached to the response; the cookies are put into that same map, so the `cookies` map attached is
      always empty. */
  method BuildTextResponse(request: Obj, raw: RawResponse) returns (response: TextResponse)
    ensures response.request == request && response.statusCode == raw.status && response.statusLine == raw.statusText
    ensures response.contentType == FirstValue(raw.headers, "Content-Type")
    ensures response.headers == ResponseHeaders(raw)
    ensures response.body == if raw.body.Some? then raw.body else raw.parsingErrorBody
    ensures raw.cookies.Some? <==> response.cookies == Some(map[])
    ensures raw.cookies.None? <==> response.cookies.None?
  {
    response := TextResponse(request, raw.status, raw.statusText, FirstValue(raw.headers, "Content-Type"),
      map[], None, None);
    var headers := PutPairs(map[], raw.headers);
    response := response.(headers := headers);
    if raw.body.Some? {
      response := response.(body := raw.body);
    } else if raw.parsingErrorBody.Some? {
      response := response.(body := raw.parsingErrorBody);
    }
    if raw.cookies.Some? {
      var cookies: map<string, string> := map[];
      headers := PutPairs(headers, raw.cookies.value);
      response := response.(headers := headers, cookies := Some(cookies));
    }
  }

  /** One cookie and no header: the cookie shows up as a header, and no cookie reaches the cookies map. */
  lemma CookieLandsInHeaders()
    ensures var raw := RawResponse(200, "OK", [], None, None, Some([Pair("session", "abc")]));
      "session" in ResponseHeaders(raw) && ResponseHeaders(raw)["session"] == "abc" &&
      LastValue(raw.headers, "session").None?
  {
    var raw := RawResponse(200, "OK", [], None, None, Some([Pair("session", "abc")]));
    PutAllGet(PutAll(map[], raw.headers), raw.cookies.value, "session");
  }

  /** `buildTextResponse` as evidently intended: the headers map holds the response headers, and the
      cookies map, when the response has cookies, holds the cookies. */
  method BuildTextResponseIntended(request: Obj, raw: RawResponse) returns (response: TextResponse)
    ensures response.request == request && response.statusCode == raw.status && response.statusLine == raw.statusText
    ensures response.contentType == FirstValue(raw.headers, "Content-Type")
    ensures response.headers == PutAll(map[], raw.headers)
    ensures response.body == if raw.body.Some? then raw.body else raw.parsingErrorBody
    ensures response.cookies == if raw.cookies.Some? then Some(PutAll(map[], raw.cookies.value)) else None
  {
    response := TextResponse(request, raw.status, raw.statusText, FirstValue(raw.headers, "Content-Type"),
      map[], None, None);
    var headers := PutPairs(map[], raw.headers);
    response := response.(headers := headers);
    if raw.body.Some? {
      response := response.(body := raw.body);
    } else if raw.parsingErrorBody.Some? {
      response := response.(body := raw.parsingErrorBody);
    }
    if raw.cookies.Some? {
      var cookies := PutPairs(map[], raw.cookies.value);
      response := response.(cookies := Some(cookies));
    }
  }

  /** In the intended maps a name is a header exactly when some response header carries it, with the last
      such value, and a cookie exactly when some cookie carries it, with the last such value. */
  lemma IntendedMaps(raw: RawResponse, k: string)
    requires raw.cookies.Some?
    ensures var headers := PutAll(map[], raw.headers);
      (k in headers <==> LastValue(raw.headers, k).Some?) &&
      (k in headers ==> headers[k] == LastValue(raw.headers, k).value)
    ensures var cookies := PutAll(map[], raw.cookies.value);
      (k in cookies <==> LastValue(raw.cookies.value, k).Some?) &&
      (k in cookies ==> cookies[k] == LastValue(raw.cookies.value, k).value)
  {
    PutAllGet(map[], raw.headers, k);
    PutAllGet(map[], raw.cookies.value, k);
  }
}
