/** The HTTP client helper `apiFetch`: URL assembly, the Content-Type default,
    the classification of a response into an error, an empty result or parsed
    JSON, and `safeErrorMessage`. The network call and `JSON.parse` are not
    executed here: the network's answer is an input, and a response body
    carries its text together with what `JSON.parse` makes of it. */
module ApiClient {
  import opened Js

  // ---------------------------------------------------------------------
  // URL construction

  predicate StartsWith(s: string, prefix: string) {
    |prefix| <= |s| && s[..|prefix|] == prefix
  }

  predicate EndsWithSlash(s: string) {
    s != [] && s[|s| - 1] == '/'
  }

  /** `baseUrl.replace(/\/$/, "")`: one trailing slash, if any, is removed. */
  function StripTrailingSlash(b: string): (r: string)
    ensures EndsWithSlash(b) ==> r + "/" == b
    ensures !EndsWithSlash(b) ==> r == b
  {
    if EndsWithSlash(b) then b[..|b| - 1] else b
  }

  /** The URL `apiFetch` requests for `path`. */
  function BuildUrl(baseUrl: string, path: string): (url: string)
    ensures StartsWith(path, "http") ==> url == path
    ensures !StartsWith(path, "http") ==>
      url == StripTrailingSlash(baseUrl) + "/" + (if StartsWith(path, "/") then path[1..] else path)
  {
    var base := StripTrailingSlash(baseUrl);
    var normalizedPath := if StartsWith(path, "/") then path else "/" + path;
    if StartsWith(path, "http") then path else base + normalizedPath
  }

  /** A relative path gives the same URL with or without its leading slash. */
  lemma LeadingSlashIrrelevant(baseUrl: string, path: string)
    requires !StartsWith(path, "http") && !StartsWith(path, "/")
    ensures BuildUrl(baseUrl, "/" + path) == BuildUrl(baseUrl, path)
  {
    var p := "/" + path;
    assert StartsWith(p, "/");
    assert p[1..] == path;
    assert p[0] == '/';
  }

  /** A base URL gives the same URLs with or without one trailing slash. */
  lemma TrailingSlashIrrelevant(baseUrl: string, path: string)
    requires !EndsWithSlash(baseUrl)
    ensures BuildUrl(baseUrl + "/", path) == BuildUrl(baseUrl, path)
  {
    assert (baseUrl + "/")[..|baseUrl|] == baseUrl;
  }

  /** The URL of a relative path extends the base URL and ends with the path. */
  lemma RelativeUrlShape(baseUrl: string, path: string)
    requires !StartsWith(path, "http")
    ensures var url := BuildUrl(baseUrl, path);
            var base := StripTrailingSlash(baseUrl);
            StartsWith(url, base) && url[|base|] == '/'
            && url[|url| - |path|..] == path
  {
    var url := BuildUrl(baseUrl, path);
    var base := StripTrailingSlash(baseUrl);
    var rest := if StartsWith(path, "/") then path[1..] else path;
    assert url == base + "/" + rest;
    assert url[..|base|] == base;
    if StartsWith(path, "/") {
      assert "/" + rest == path;
    }
    assert url[|url| - |path|..] == path;
  }

  // ---------------------------------------------------------------------
  // Headers

  const ContentType := "Content-Type"
  const ApplicationJson := "application/json"

  /** The header list after `append(name, value)`; names compare without regard to ASCII case. */
  function Appended(entries: map<string, string>, name: string, value: string): (r: map<string, string>)
    ensures r.Keys == entries.Keys + {AsciiLower(name)}
    ensures forall k :: k in entries && k != AsciiLower(name) ==> r[k] == entries[k]
    ensures r[AsciiLower(name)] == if AsciiLower(name) in entries then entries[AsciiLower(name)] + ", " + value else value
  {
    var key := AsciiLower(name);
    if key in entries then entries[key := entries[key] + ", " + value] else entries[key := value]
  }

  /** The header list `new Headers(init)` builds from an object's entries, in order. */
  function InitEntries(init: seq<(string, string)>): (r: map<string, string>)
    ensures forall i :: 0 <= i < |init| ==> AsciiLower(init[i].0) in r
  {
    if init == [] then map[]
    else Appended(InitEntries(init[..|init| - 1]), init[|init| - 1].0, init[|init| - 1].1)
  }

  /** Exactly the names of `init` are present, lower-cased. */
  lemma {:induction false} InitEntriesNames(init: seq<(string, string)>)
    ensures forall i :: 0 <= i < |init| ==> AsciiLower(init[i].0) in InitEntries(init)
    ensures forall k :: k in InitEntries(init) ==> exists i :: 0 <= i < |init| && AsciiLower(init[i].0) == k
  {
    if init != [] {
      var front := init[..|init| - 1];
      InitEntriesNames(front);
      forall k | k in InitEntries(init)
        ensures exists i :: 0 <= i < |init| && AsciiLower(init[i].0) == k
      {
        if k in InitEntries(front) {
          var i :| 0 <= i < |front| && AsciiLower(front[i].0) == k;
          assert init[i] == front[i];
        } else {
          assert AsciiLower(init[|init| - 1].0) == k;
        }
      }
    }
  }

  /** `options.body` is truthy: present and not the empty string. */
  predicate HasBody(body: Option<string>) {
    body.Some? && body.value != ""
  }

  /** The header list after the Content-Type rule: JSON is assumed only for
      a request that has a body and no Content-Type of its own. */
  function WithJsonDefault(entries: map<string, string>, body: Option<string>): (r: map<string, string>)
    ensures AsciiLower(ContentType) in r <==> AsciiLower(ContentType) in entries || HasBody(body)
    ensures forall k :: k in entries ==> k in r && r[k] == entries[k]
    ensures forall k :: k in r && k !in entries ==> k == AsciiLower(ContentType) && r[k] == ApplicationJson
  {
    if AsciiLower(ContentType) !in entries && HasBody(body)
    then entries[AsciiLower(ContentType) := ApplicationJson]
    else entries
  }

  /** The request's `Headers` object, which `apiFetch` updates in place. */
  class Headers {
    /** Header values, keyed by lower-cased name. */
    var entries: map<string, string>

    constructor (init: seq<(string, string)>)
      ensures entries == InitEntries(init)
    {
      entries := map[];
      new;
      var i := 0;
      while i < |init|
        invariant 0 <= i <= |init|
        invariant entries == InitEntries(init[..i])
        modifies this
      {
        assert init[..i + 1][..i] == init[..i];
        Append(init[i].0, init[i].1);
        i := i + 1;
      }
      assert init[..|init|] == init;
    }

    /** `headers.has(name)` */
    function Has(name: string): bool
      reads this
    {
      AsciiLower(name) in entries
    }

    /** `headers.append(name, value)` */
    method Append(name: string, value: string)
      modifies this
      ensures entries == Appended(old(entries), name, value)
    {
      var key := AsciiLower(name);
      if key in entries {
        entries := entries[key := entries[key] + ", " + value];
      } else {
        entries := entries[key := value];
      }
    }

    /** `headers.set(name, value)` */
    method Set(name: string, value: string)
      modifies this
      ensures entries == old(entries)[AsciiLower(name) := value]
    {
      entries := entries[AsciiLower(name) := value];
    }
  }

  // ---------------------------------------------------------------------
  // Responses

  /** A response body: its text, and what `JSON.parse` makes of it (`None`: it throws). */
  datatype Body = Body(text: string, parsed: Option<Json>)

  /** What `fetch` did: it threw, or it answered with a status and a body. */
  datatype Network = NetworkError | Response(status: int, body: Body)

  /** How `apiFetch` ends. */
  datatype FetchResult =
    | Rethrown                  // the network error propagates
    | Failed(message: string)   // `throw new Error(message)` for a non-ok status
    | NoContent                 // resolves to null
    | Value(json: Json)         // resolves to the parsed body
    | ParseFailed               // the body was not JSON: the parse error propagates

  /** `response.ok` */
  predicate IsOk(status: int) {
    200 <= status <= 299
  }

  function StatusMessage(status: int): string {
    "Request failed with status " + IntToString(status)
  }

  /** `safeErrorMessage(rawBody, status)`: the value it returns (not always a
      string at run time: a truthy `message` or `error` field is passed on as it is). */
  function SafeErrorMessage(body: Body, status: int): (r: Json)
    ensures body.text == "" ==> r == JStr(StatusMessage(status))
    ensures body.text != "" && body.parsed.Some? && body.parsed.value.JStr? ==> r == body.parsed.value
    ensures body.text != "" && body.parsed.Some? && !body.parsed.value.JStr? ==>
      var message := Get(body.parsed.value, "message");
      var error := Get(body.parsed.value, "error");
      if Truthy(message) then r == message.value
      else if Truthy(error) then r == error.value
      else r == JStr(StatusMessage(status) + ". Body: " + body.text)
    ensures body.text != "" && body.parsed.None? ==> r == JStr(StatusMessage(status) + ". Body: " + body.text)
  {
    if body.text == "" then JStr(StatusMessage(status))
    else
      var fallback := JStr(StatusMessage(status) + ". Body: " + body.text);
      match body.parsed
      case None => fallback
      case Some(data) =>
        if data.JStr? then data
        else
          var message := Get(data, "message");
          var error := Get(data, "error");
          if Truthy(message) then message.value
          else if Truthy(error) then error.value
          else fallback
  }

  /** A server error object's `message` beats its `error`, and both beat the status line. */
  lemma ServerMessageWins(text: string, status: int, message: string, error: Json)
    requires text != "" && message != ""
    ensures SafeErrorMessage(Body(text, Some(JObj(map["message" := JStr(message), "error" := error]))), status)
            == JStr(message)
  {
  }

  /** What `apiFetch` resolves to, or throws, once `fetch` has settled. */
  function Classify(network: Network): (r: FetchResult)
    ensures network.NetworkError? <==> r.Rethrown?
    ensures r.Failed? <==> network.Response? && !IsOk(network.status)
    ensures r.Failed? ==> r.message == JsString(SafeErrorMessage(network.body, network.status))
    ensures r.NoContent? <==> network.Response? && IsOk(network.status)
                              && (network.status == 204 || Trim(network.body.text) == "")
    ensures r.Value? ==> network.Response? && IsOk(network.status) && network.status != 204
                         && Trim(network.body.text) != "" && network.body.parsed == Some(r.json)
    ensures r.ParseFailed? <==> network.Response? && IsOk(network.status) && network.status != 204
                                && Trim(network.body.text) != "" && network.body.parsed.None?
  {
    match network
    case NetworkError => Rethrown
    case Response(status, body) =>
      if !IsOk(status) then Failed(JsString(SafeErrorMessage(body, status)))
      else if status == 204 || Trim(body.text) == "" then NoContent
      else if body.parsed.None? then ParseFailed
      else Value(body.parsed.value)
  }

  /** `apiFetch(path, options)`: builds the URL and the headers, then
      classifies what the network answered. */
  method ApiFetch(baseUrl: string, path: string, init: seq<(string, string)>, body: Option<string>, network: Network)
    returns (url: string, headers: Headers, result: FetchResult)
    ensures fresh(headers)
    ensures headers.entries == WithJsonDefault(InitEntries(init), body)
    ensures url == BuildUrl(baseUrl, path)
    ensures result == Classify(network)
  {
    headers := new Headers(init);
    if !headers.Has(ContentType) && HasBody(body) {
      headers.Set(ContentType, ApplicationJson);
    }
    var base := StripTrailingSlash(baseUrl);
    var normalizedPath := if StartsWith(path, "/") then path else "/" + path;
    url := if StartsWith(path, "http") then path else base + normalizedPath;
    match network {
      case NetworkError =>
        result := Rethrown;
      case Response(status, responseBody) =>
        if !IsOk(status) {
          var message := SafeErrorMessage(responseBody, status);
          result := Failed(JsString(message));
        } else if status == 204 || Trim(responseBody.text) == "" {
          result := NoContent;
        } else if responseBody.parsed.None? {
          result := ParseFailed;
        } else {
          result := Value(responseBody.parsed.value);
        }
    }
  }
}
