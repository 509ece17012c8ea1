/**
  The client of src/lazyests/client.py: a requests-like API that runs every
  request as a `fetch` inside a Chromium page.

  The browser is not modelled; it is an oracle.  `launchSucceeds(n)` says
  whether the n-th browser launch works, `replyAt(n)` is the DevTools reply
  to the n-th `Runtime.evaluate`, `landing(u)` is the URL a page shows after
  `page.get(u)` (the site's redirects included), and a `GuiSession` says
  what the login window shows at each poll.  Every visible action of the client on the
  browser is appended to `trace`, so the contracts say what is done to the
  browser, in which order, and what comes back.
*/
module Clients {
  import opened Wrappers
  import opened JsonValues
  import opened Strings
  import opened Urls
  import Cache
  import Responses

  /** The URL of a freshly launched page. */
  const BlankPage: string := "about:blank"

  // ---------------------------------------------------------------------
  // URL resolution and the query string
  // ---------------------------------------------------------------------

  /** The stored base URL: trailing slashes stripped, absent when the argument is falsy. */
  function NormalizeBase(base: Option<string>): (r: Option<string>)
    ensures r.Some? <==> base.Some? && base.value != ""
    ensures r.Some? ==> r.value == StripTrailing(base.value, '/')
  {
    if base.None? || base.value == "" then None else Some(StripTrailing(base.value, '/'))
  }

  /** `endpoint.startswith(("http://", "https://"))`. */
  predicate IsAbsolute(endpoint: string)
  {
    "http://" <= endpoint || "https://" <= endpoint
  }

  /**
    `_resolve_url`: absolute endpoints pass through; otherwise, with a
    non-empty base, the base and the endpoint are joined by exactly one '/'.
    `urljoin(base + "/", path)` is modelled as plain concatenation.
  */
  function ResolveUrl(base: Option<string>, endpoint: string): string
  {
    if IsAbsolute(endpoint) then endpoint
    else if base.Some? && base.value != "" then base.value + "/" + StripLeading(endpoint, '/')
    else endpoint
  }

  /** Without a usable base, or for an absolute endpoint, the endpoint is the URL. */
  lemma ResolveWithoutBase(rawBase: Option<string>, endpoint: string)
    requires rawBase.None? || StripTrailing(rawBase.value, '/') == "" || IsAbsolute(endpoint)
    ensures ResolveUrl(NormalizeBase(rawBase), endpoint) == endpoint
  {
  }

  /**
    A relative endpoint is joined to the base with exactly one slash: the
    base without its trailing slashes, '/', and the endpoint without its
    leading slashes, so neither side of the joint is another '/'.
  */
  lemma ResolveJoinsWithOneSlash(rawBase: string, endpoint: string)
    requires !IsAbsolute(endpoint)
    requires StripTrailing(rawBase, '/') != ""
    ensures var b := StripTrailing(rawBase, '/');
            var t := StripLeading(endpoint, '/');
            && ResolveUrl(NormalizeBase(Some(rawBase)), endpoint) == b + "/" + t
            && b[|b| - 1] != '/' && (t == [] || t[0] != '/')
  {
    assert NormalizeBase(Some(rawBase)) == Some(StripTrailing(rawBase, '/'));
  }

  /** The query append of `request`: `?` or `&` and the encoded parameters, when there are any. */
  function AppendQuery(url: string, params: Option<Items>, urlencode: Items -> string): string
  {
    if params.None? || params.value == [] then url
    else url + [if '?' in url then '&' else '?'] + urlencode(params.value)
  }

  /** The first occurrence of `c` in `a + b`. */
  lemma {:induction false} IndexOfAppend(a: string, b: string, c: char)
    ensures IndexOf(a + b, c) == (if c in a then IndexOf(a, c) else if c in b then |a| + IndexOf(b, c) else -1)
  {
    if a == [] {
      assert a + b == b;
    } else if a[0] != c {
      assert (a + b)[1..] == a[1..] + b;
      IndexOfAppend(a[1..], b, c);
      assert c in a <==> c in a[1..] by {
        assert a == [a[0]] + a[1..];
      }
    }
  }

  /**
    The URL is kept as a prefix, the separator is '&' exactly when the URL
    already has a query, and the first '?' of the result is where the query
    string starts: the URL's own '?' or the one just appended.
  */
  lemma QueryAppendedAfterSeparator(url: string, params: Option<Items>, urlencode: Items -> string)
    ensures params.None? || params.value == [] ==> AppendQuery(url, params, urlencode) == url
    ensures params.Some? && params.value != [] ==>
      var q := urlencode(params.value);
      var r := AppendQuery(url, params, urlencode);
      && |r| == |url| + 1 + |q| && r[..|url|] == url && r[|url| + 1..] == q
      && (r[|url|] == '&' <==> '?' in url)
      && (r[|url|] == '?' <==> '?' !in url)
      && IndexOf(r, '?') == (if '?' in url then IndexOf(url, '?') else |url|)
  {
    if params.Some? && params.value != [] {
      var q := urlencode(params.value);
      var sep := [if '?' in url then '&' else '?'];
      var r := AppendQuery(url, params, urlencode);
      assert r == url + (sep + q);
      assert r[..|url|] == url;
      assert r[|url| + 1..] == q;
      IndexOfAppend(url, sep + q, '?');
      assert (sep + q)[0] == sep[0];
    }
  }

  // ---------------------------------------------------------------------
  // CORS navigation
  // ---------------------------------------------------------------------

  /**
    The origin `_ensure_cors_context` navigates to before fetching `url`
    from a page at `currentUrl`, when it navigates at all.
  */
  function CorsTarget(autoNavigate: bool, url: string, currentUrl: string): Option<string>
  {
    if !autoNavigate then None
    else
      var target := Netloc(url);
      if target == "" || target == Netloc(currentUrl) then None
      else Some(Origin(if Scheme(url) == "" then "https" else Scheme(url), target))
  }

  /**
    Navigation happens exactly when enabled and the URL names another host;
    the origin visited has the URL's host and scheme ("https" when it has
    none), so checking again from there does not navigate a second time.
  */
  lemma CorsNavigatesAtMostOnce(autoNavigate: bool, url: string, currentUrl: string)
    ensures CorsTarget(autoNavigate, url, currentUrl).Some? <==>
            autoNavigate && Netloc(url) != "" && Netloc(url) != Netloc(currentUrl)
    ensures CorsTarget(autoNavigate, url, currentUrl).Some? ==>
            var origin := CorsTarget(autoNavigate, url, currentUrl).value;
            && Netloc(origin) == Netloc(url)
            && Scheme(origin) == (if Scheme(url) == "" then "https" else Scheme(url))
            && CorsTarget(autoNavigate, url, origin).None?
  {
    if CorsTarget(autoNavigate, url, currentUrl).Some? {
      var scheme := if Scheme(url) == "" then "https" else Scheme(url);
      if Scheme(url) == "" {
        assert IsScheme("https");
        assert Lower("https") == "https";
      }
      OriginRoundTrip(scheme, Netloc(url));
    }
  }

  // ---------------------------------------------------------------------
  // Fetch options
  // ---------------------------------------------------------------------

  /** The library functions the client calls, as given functions. */
  datatype Codecs = Codecs(
    sha256: string -> string,     // hashlib.sha256(text.encode()).hexdigest()
    dumps: Items -> string,       // json.dumps of a dict, members in the given order
    urlencode: Items -> string,   // urlencode(params)
    formEncode: Items -> string)  // urlencode(data, doseq=True)

  /** A caller's headers dict; `request` may add a field to it in place. */
  class HeaderDict {
    var entries: seq<(string, string)>

    constructor (entries: seq<(string, string)>)
      ensures this.entries == entries
    {
      this.entries := entries;
    }
  }

  /** `name in headers`, compared case-sensitively as the dict does. */
  predicate HasHeader(h: seq<(string, string)>, name: string)
  {
    exists i :: 0 <= i < |h| && h[i].0 == name
  }

  /** The fetch options: method, the headers dict actually sent, and the body. */
  datatype FetchOptions = FetchOptions(verb: string, headers: HeaderDict, body: Option<string>)

  /** The Content-Type implied by the body: JSON wins over form data. */
  function ContentTypeFor(data: Option<Items>, jsonData: Option<Items>): Option<string>
  {
    if jsonData.Some? then Some("application/json")
    else if data.Some? then Some("application/x-www-form-urlencoded")
    else None
  }

  /** The request body: the JSON text, else the form encoding, else none. */
  function BodyFor(codecs: Codecs, data: Option<Items>, jsonData: Option<Items>): Option<string>
  {
    if jsonData.Some? then Some(codecs.dumps(jsonData.value))
    else if data.Some? then Some(codecs.formEncode(data.value))
    else None
  }

  /** The headers with the implied Content-Type added at the end unless the caller set one. */
  function WithDefaultContentType(h: seq<(string, string)>, contentType: Option<string>): seq<(string, string)>
  {
    if contentType.Some? && !HasHeader(h, "Content-Type") then h + [("Content-Type", contentType.value)] else h
  }

  /**
    The caller's headers are never dropped or reordered, a Content-Type the
    caller set is never overridden, and after the call a Content-Type is
    present exactly when the caller set one or there is a body; the form
    data is ignored whenever JSON is given.
  */
  lemma ContentTypeRules(h: seq<(string, string)>, codecs: Codecs, data: Option<Items>, jsonData: Option<Items>)
    ensures var r := WithDefaultContentType(h, ContentTypeFor(data, jsonData));
            && h <= r && |r| <= |h| + 1
            && (HasHeader(h, "Content-Type") ==> r == h)
            && (HasHeader(r, "Content-Type") <==> HasHeader(h, "Content-Type") || data.Some? || jsonData.Some?)
            && (!HasHeader(h, "Content-Type") && jsonData.Some? ==> r[|h|] == ("Content-Type", "application/json"))
            && (!HasHeader(h, "Content-Type") && jsonData.None? && data.Some? ==>
                  r[|h|] == ("Content-Type", "application/x-www-form-urlencoded"))
    ensures jsonData.Some? ==> BodyFor(codecs, data, jsonData) == BodyFor(codecs, None, jsonData)
    ensures BodyFor(codecs, data, jsonData).None? <==> ContentTypeFor(data, jsonData).None?
  {
    var r := WithDefaultContentType(h, ContentTypeFor(data, jsonData));
    if !HasHeader(h, "Content-Type") && ContentTypeFor(data, jsonData).Some? {
      assert r[|h|].0 == "Content-Type";
    }
  }

  /**
    The option building of `request`.  `headers or {}` keeps the caller's
    dict when it is non-empty, so the added Content-Type lands in the
    caller's own dict; an absent or empty dict is replaced by a fresh one.
  */
  method BuildOptions(verb: string, headers: HeaderDict?, data: Option<Items>, jsonData: Option<Items>, codecs: Codecs)
    returns (opts: FetchOptions)
    modifies headers
    ensures opts.verb == Upper(verb)
    ensures opts.body == BodyFor(codecs, data, jsonData)
    ensures opts.headers.entries ==
            WithDefaultContentType(if headers == null then [] else old(headers.entries), ContentTypeFor(data, jsonData))
    ensures headers != null && old(headers.entries) != [] ==> opts.headers == headers
    ensures headers == null || old(headers.entries) == [] ==> fresh(opts.headers)
    ensures headers != null && old(headers.entries) == [] ==> headers.entries == old(headers.entries)
  {
    var h: HeaderDict;
    if headers != null && headers.entries != [] {
      h := headers;
    } else {
      h := new HeaderDict([]);
    }
    var body: Option<string> := None;
    if jsonData.Some? {
      body := Some(codecs.dumps(jsonData.value));
      if !HasHeader(h.entries, "Content-Type") {
        h.entries := h.entries + [("Content-Type", "application/json")];
      }
    } else if data.Some? {
      body := Some(codecs.formEncode(data.value));
      if !HasHeader(h.entries, "Content-Type") {
        h.entries := h.entries + [("Content-Type", "application/x-www-form-urlencoded")];
      }
    }
    opts := FetchOptions(Upper(verb), h, body);
  }

  // ---------------------------------------------------------------------
  // Result classification
  // ---------------------------------------------------------------------

  /** What a call on the client can raise. */
  datatype ClientError =
    | BrowserInitError                   // no page, or a browser launch failed
    | JsExecutionError                   // the evaluation reported exceptionDetails
    | UnexpectedResultType               // the script resolved to something other than an object
    | RequestTimedOut                    // the fetch was aborted by the timeout
    | FetchFailed(message: Json)         // the fetch rejected for another reason
    | InvalidStructure(keys: seq<string>) // an object lacking one of the seven response fields
    | MalformedReply                     // a lookup on a non-dict or an `in` on a non-container

  /** The fields every fetch record must have (`_validate_fetch_response`). */
  const FetchRequiredKeys: set<string> := {"status", "statusText", "url", "headers", "text", "redirected", "type"}

  /** `_validate_fetch_response`: the value itself when it is a dict holding every required field. */
  function ValidateFetchResponse(data: Json): (r: Option<Json>)
    ensures r.Some? <==> data.JObject? && FetchRequiredKeys <= KeySet(data.fields)
    ensures r.Some? ==> r.value == data
  {
    if data.JObject? && FetchRequiredKeys <= KeySet(data.fields) then Some(data) else None
  }

  /** The client's and the cache's validators accept exactly the same records. */
  lemma ValidatorsAgree(data: Json)
    ensures ValidateFetchResponse(data) == Cache.ValidateData(data)
  {
    assert FetchRequiredKeys == Cache.RequiredKeys;
  }

  /** `cdp_res.get("result", {}).get("value")`; a non-dict "result" has no `.get`. */
  function ResultValue(cdp: Items): Result<Json, ClientError>
  {
    match Get(cdp, "result")
    case None => Ok(JNull)
    case Some(JObject(fs)) => Ok(GetOr(fs, "value", JNull))
    case Some(_) => Err(MalformedReply)
  }

  /** `"AbortError" in err_msg` for each kind of value Python's `in` accepts. */
  function AbortIn(message: Json): Result<bool, ClientError>
  {
    match message
    case JStr(s) => Ok(IsSubstring("AbortError", s))
    case JObject(fs) => Ok(HasKey(fs, "AbortError"))
    case JArray(xs) => Ok(JStr("AbortError") in xs)
    case _ => Err(MalformedReply)
  }

  /** `Response(record)` with the AttributeError of a non-dict record or non-dict headers. */
  function FromRecord(record: Json): Result<Responses.Response, ClientError>
  {
    if record.JObject? then
      match Responses.NewResponse(record.fields)
      case Some(resp) => Ok(resp)
      case None => Err(MalformedReply)
    else Err(MalformedReply)
  }

  /** The classification at the end of `_exec_fetch` of the DevTools reply. */
  function Classify(cdp: Items): Result<Responses.Response, ClientError>
  {
    if HasKey(cdp, "exceptionDetails") then Err(JsExecutionError)
    else match ResultValue(cdp)
      case Err(e) => Err(e)
      case Ok(value) =>
        if !value.JObject? then Err(UnexpectedResultType)
        else if HasKey(value.fields, "error") then
          var message := GetOr(value.fields, "error", JNull);
          match AbortIn(message)
          case Err(e) => Err(e)
          case Ok(aborted) => if aborted then Err(RequestTimedOut) else Err(FetchFailed(message))
        else if ValidateFetchResponse(value).None? then Err(InvalidStructure(Keys(value.fields)))
        else FromRecord(value)
  }

  /**
    Each outcome of the classification, both ways: an exception report wins;
    a non-object result is a type error; an "error" field is a timeout when
    it mentions AbortError and otherwise a fetch failure carrying that very
    message; an object without one of the seven fields is a structural
    error listing its keys in order; a malformed reply comes from a
    non-dict "result", an "error" value that `in` rejects, or a complete
    record whose headers are not a dict; only an error-free, complete record
    with dict headers becomes a response, built from exactly that record;
    and the classification never reports a launch failure.
  */
  lemma ClassifyOutcomes(cdp: Items)
    ensures Classify(cdp) == Err(JsExecutionError) <==> HasKey(cdp, "exceptionDetails")
    ensures var v := ResultValue(cdp);
            Classify(cdp) == Err(UnexpectedResultType) <==>
            !HasKey(cdp, "exceptionDetails") && v.Ok? && !v.value.JObject?
    ensures var v := ResultValue(cdp);
            Classify(cdp) == Err(RequestTimedOut) <==>
            && !HasKey(cdp, "exceptionDetails") && v.Ok? && v.value.JObject?
            && HasKey(v.value.fields, "error") && AbortIn(GetOr(v.value.fields, "error", JNull)) == Ok(true)
    ensures var v := ResultValue(cdp);
            Classify(cdp).Err? && Classify(cdp).error.InvalidStructure? <==>
            && !HasKey(cdp, "exceptionDetails") && v.Ok? && v.value.JObject?
            && !HasKey(v.value.fields, "error") && !(FetchRequiredKeys <= KeySet(v.value.fields))
    ensures var v := ResultValue(cdp);
            Classify(cdp).Ok? <==>
            && !HasKey(cdp, "exceptionDetails") && v.Ok? && v.value.JObject?
            && !HasKey(v.value.fields, "error") && FetchRequiredKeys <= KeySet(v.value.fields)
            && Responses.NewResponse(v.value.fields).Some?
    ensures Classify(cdp).Ok? ==> Classify(cdp) == FromRecord(ResultValue(cdp).value)
    ensures var v := ResultValue(cdp);
            Classify(cdp).Err? && Classify(cdp).error.FetchFailed? <==>
            && !HasKey(cdp, "exceptionDetails") && v.Ok? && v.value.JObject?
            && HasKey(v.value.fields, "error") && AbortIn(GetOr(v.value.fields, "error", JNull)) == Ok(false)
    ensures Classify(cdp).Err? && Classify(cdp).error.FetchFailed? ==>
            Classify(cdp).error.message == GetOr(ResultValue(cdp).value.fields, "error", JNull)
    ensures var v := ResultValue(cdp);
            Classify(cdp) == Err(MalformedReply) <==>
            && !HasKey(cdp, "exceptionDetails")
            && (|| v.Err?
                || (&& v.value.JObject? && HasKey(v.value.fields, "error")
                    && AbortIn(GetOr(v.value.fields, "error", JNull)).Err?)
                || (&& v.value.JObject? && !HasKey(v.value.fields, "error")
                    && FetchRequiredKeys <= KeySet(v.value.fields)
                    && Responses.NewResponse(v.value.fields).None?))
    ensures Classify(cdp).Err? && Classify(cdp).error.InvalidStructure? ==>
            Classify(cdp).error.keys == Keys(ResultValue(cdp).value.fields)
    ensures Classify(cdp) != Err(BrowserInitError)
  {
  }

  /** The promise resolving to `{error: "AbortError: ..."}` is reported as a timeout. */
  lemma AbortErrorIsTimeout()
    ensures Classify([("result", JObject([("value", JObject([("error", JStr("AbortError: signal is aborted"))]))]))])
            == Err(RequestTimedOut)
  {
    var message := JStr("AbortError: signal is aborted");
    var value := JObject([("error", message)]);
    var cdp := [("result", JObject([("value", value)]))];
    assert "AbortError" <= message.s;
    assert Get(cdp, "result") == Some(JObject([("value", value)]));
    assert ResultValue(cdp) == Ok(value);
    assert value.fields[0].0 == "error";
    assert HasKey(value.fields, "error");
  }

  /** A validated record is a non-empty dict, so the `if cached_data:` guard never rejects one. */
  lemma ValidRecordIsTruthy(j: Json)
    requires Cache.ValidateData(j).Some?
    ensures Truthy(Cache.ValidateData(j).value)
  {
    assert "status" in KeySet(j.fields);
  }

  /**
    A fetched response stored with a TTL is read back, before it expires,
    as a record that passes the guard and rebuilds the very same response.
  */
  lemma FetchedResponseReplays(cdp: Items, t: Cache.Table, key: string, ttl: int, now: int, later: int)
    requires Classify(cdp).Ok?
    requires later < now + ttl
    ensures var resp := Classify(cdp).value;
            var got := Cache.Lookup(Cache.Store(t, key, JObject(resp.rawData), ttl, now), key, later).result;
            got.Some? && Truthy(got.value) && FromRecord(got.value) == Ok(resp)
  {
    ClassifyOutcomes(cdp);
    var resp := Classify(cdp).value;
    var fs := ResultValue(cdp).value.fields;
    assert resp.rawData == fs;
    ValidatorsAgree(ResultValue(cdp).value);
    Cache.SetThenGet(t, key, JObject(fs), ttl, now, later);
    ValidRecordIsTruthy(JObject(fs));
  }

  // ---------------------------------------------------------------------
  // Cookie sanitisation
  // ---------------------------------------------------------------------

  /** The cookie attributes that survive the hand-off. */
  const AllowedCookieKeys: set<string> :=
    {"name", "value", "domain", "path", "expires", "size", "httpOnly", "secure", "sameSite", "priority"}

  /** The dict comprehension keeping only the allowed attributes, in order. */
  function KeepAllowed(c: Items): Items
  {
    if c == [] then []
    else (if c[0].0 in AllowedCookieKeys then [c[0]] else []) + KeepAllowed(c[1..])
  }

  /** The comprehension keeps exactly the items with an allowed key. */
  lemma {:induction false} KeepAllowedMembers(c: Items)
    ensures forall x :: x in KeepAllowed(c) <==> x in c && x.0 in AllowedCookieKeys
    ensures |KeepAllowed(c)| <= |c|
  {
    if c != [] {
      KeepAllowedMembers(c[1..]);
      assert c == [c[0]] + c[1..];
    }
  }

  /** Filtering keeps, for an allowed key, the first value stored under it. */
  lemma {:induction false} KeepAllowedGet(c: Items, k: string)
    requires k in AllowedCookieKeys
    ensures Get(KeepAllowed(c), k) == Get(c, k)
  {
    if c != [] {
      KeepAllowedGet(c[1..], k);
      if c[0].0 in AllowedCookieKeys {
        assert KeepAllowed(c) == [c[0]] + KeepAllowed(c[1..]);
      } else {
        assert KeepAllowed(c) == KeepAllowed(c[1..]);
      }
    }
  }

  /** `value <= 0` as Python evaluates it; None where the comparison raises TypeError. */
  function NonPositive(v: Json): Option<bool>
  {
    match v
    case JNum(n) => Some(n <= 0)
    case JBool(b) => Some(!b)
    case _ => None
  }

  /** One cookie of the restore loop: allowed attributes only, `expires` dropped unless positive. */
  function SanitizeCookie(c: Items): Option<Items>
  {
    var clean := KeepAllowed(c);
    match NonPositive(GetOr(clean, "expires", JNum(0)))
    case None => None
    case Some(drop) => Some(if drop then RemoveKey(clean, "expires") else clean)
  }

  /**
    A sanitized cookie holds only allowed attributes taken from the captured
    one, keeps every allowed attribute other than `expires`, and keeps
    `expires` exactly when it is positive; a non-numeric `expires` fails.
  */
  lemma SanitizedCookieFields(c: Items)
    ensures SanitizeCookie(c).None? <==> NonPositive(GetOr(c, "expires", JNum(0))).None?
    ensures SanitizeCookie(c).Some? ==>
            var r := SanitizeCookie(c).value;
            && (forall x :: x in r ==> x in c && x.0 in AllowedCookieKeys)
            && (forall x :: x in c && x.0 in AllowedCookieKeys && x.0 != "expires" ==> x in r)
            && (HasKey(r, "expires") <==> NonPositive(GetOr(c, "expires", JNum(0))) == Some(false))
  {
    KeepAllowedGet(c, "expires");
    KeepAllowedMembers(c);
    var clean := KeepAllowed(c);
    if HasKey(clean, "expires") {
      var v := Get(clean, "expires").value;
      assert ("expires", v) in clean;
    }
  }

  /** A session cookie (expires 0) loses `expires` and every unknown attribute. */
  lemma SessionCookieExample()
    ensures SanitizeCookie([("name", JStr("sid")), ("value", JStr("abc")), ("expires", JNum(0)), ("sourcePort", JNum(443))])
            == Some([("name", JStr("sid")), ("value", JStr("abc"))])
  {
    var c := [("name", JStr("sid")), ("value", JStr("abc")), ("expires", JNum(0)), ("sourcePort", JNum(443))];
    assert KeepAllowed(c[3..]) == [];
    assert KeepAllowed(c[2..]) == [("expires", JNum(0))];
    var clean := [("name", JStr("sid")), ("value", JStr("abc")), ("expires", JNum(0))];
    assert KeepAllowed(c) == clean;
    assert Get(clean, "expires") == Some(JNum(0));
    assert RemoveKey(clean[2..], "expires") == [];
    assert RemoveKey(clean[1..], "expires") == [clean[1]];
    assert RemoveKey(clean, "expires") == [clean[0], clean[1]];
  }

  /** `f` applied to every element in order, or None as soon as one application fails. */
  function TryMap<A, B>(f: A -> Option<B>, xs: seq<A>): Option<seq<B>>
  {
    if xs == [] then Some([])
    else
      match TryMap(f, xs[..|xs| - 1])
      case None => None
      case Some(init) =>
        match f(xs[|xs| - 1])
        case None => None
        case Some(y) => Some(init + [y])
  }

  /** The mapping succeeds exactly when every application does, and then holds their results in order. */
  lemma {:induction false} TryMapPointwise<A, B>(f: A -> Option<B>, xs: seq<A>)
    ensures TryMap(f, xs).Some? <==> forall i :: 0 <= i < |xs| ==> f(xs[i]).Some?
    ensures TryMap(f, xs).Some? ==>
            |TryMap(f, xs).value| == |xs| && forall i :: 0 <= i < |xs| ==> f(xs[i]) == Some(TryMap(f, xs).value[i])
  {
    if xs != [] {
      var init := xs[..|xs| - 1];
      TryMapPointwise(f, init);
      assert forall i :: 0 <= i < |init| ==> init[i] == xs[i];
    }
  }

  /** The whole list of cookies sanitized, or None when one cookie makes the loop raise. */
  function SanitizeAll(cs: seq<Items>): Option<seq<Items>>
  {
    TryMap(SanitizeCookie, cs)
  }

  /** The sanitising loop of `wait_for_login`. */
  method SanitizeCookies(captured: seq<Items>) returns (r: Option<seq<Items>>)
    ensures r == SanitizeAll(captured)
  {
    var acc: seq<Items> := [];
    var i := 0;
    while i < |captured|
      invariant 0 <= i <= |captured|
      invariant TryMap(SanitizeCookie, captured[..i]) == Some(acc)
    {
      var clean := SanitizeCookie(captured[i]);
      if clean.None? {
        TryMapPointwise(SanitizeCookie, captured);
        return None;
      }
      assert captured[..i + 1][..i] == captured[..i];
      acc := acc + [clean.value];
      i := i + 1;
    }
    assert captured[..i] == captured;
    return Some(acc);
  }

  // ---------------------------------------------------------------------
  // The login hand-off
  // ---------------------------------------------------------------------

  /** The page the GUI browser is sent to first: the start URL, else the page left. */
  function GuiTarget(startUrl: Option<string>, originalUrl: string): string
  {
    if startUrl.Some? && startUrl.value != "" then startUrl.value else originalUrl
  }

  /** The origin of `url` when it has both a scheme and a host. */
  function OriginOf(url: string): Option<string>
  {
    if Scheme(url) != "" && Netloc(url) != "" then Some(Origin(Scheme(url), Netloc(url))) else None
  }

  /** Where the headless browser goes before the cookies are restored. */
  function RestoreTarget(startUrl: Option<string>, originalUrl: string, baseUrl: Option<string>): Option<string>
  {
    var fromStart := if startUrl.Some? && startUrl.value != "" then OriginOf(startUrl.value) else None;
    if fromStart.Some? then fromStart
    else if originalUrl != "" && IsSubstring("://", originalUrl) && OriginOf(originalUrl).Some? then OriginOf(originalUrl)
    else if baseUrl.Some? && baseUrl.value != "" then baseUrl
    else None
  }

  /** An origin built from a URL has that URL's scheme and host. */
  lemma OriginOfRoundTrip(url: string)
    requires OriginOf(url).Some?
    ensures Scheme(OriginOf(url).value) == Scheme(url) && Netloc(OriginOf(url).value) == Netloc(url)
  {
    OriginRoundTrip(Scheme(url), Netloc(url));
  }

  /**
    The restore target prefers the start URL's origin, then the original
    page's origin, then the base URL; an origin chosen is the bare
    `scheme://host` of the URL it came from, with no path, query or fragment.
  */
  lemma RestoreTargetPreference(startUrl: Option<string>, originalUrl: string, baseUrl: Option<string>)
    ensures var t := RestoreTarget(startUrl, originalUrl, baseUrl);
            var viaStart := startUrl.Some? && startUrl.value != "" && OriginOf(startUrl.value).Some?;
            var viaOriginal := IsSubstring("://", originalUrl) && OriginOf(originalUrl).Some?;
            && (viaStart ==>
                  && t == OriginOf(startUrl.value)
                  && Scheme(t.value) == Scheme(startUrl.value) && Netloc(t.value) == Netloc(startUrl.value))
            && (!viaStart && viaOriginal ==>
                  && t == OriginOf(originalUrl)
                  && Scheme(t.value) == Scheme(originalUrl) && Netloc(t.value) == Netloc(originalUrl))
            && (!viaStart && !viaOriginal ==> t == (if baseUrl.Some? && baseUrl.value != "" then baseUrl else None))
  {
    if startUrl.Some? && startUrl.value != "" && OriginOf(startUrl.value).Some? {
      OriginOfRoundTrip(startUrl.value);
    } else if IsSubstring("://", originalUrl) && OriginOf(originalUrl).Some? {
      OriginOfRoundTrip(originalUrl);
    }
  }

  /** What the login window shows at each poll (None where reading it raises). */
  datatype GuiSession = GuiSession(
    urlAt: nat -> Option<string>,
    userAgentAt: nat -> Option<string>,
    cookiesAt: nat -> Option<seq<Items>>)

  /** The result of the poll loop: cookies captured, the user agent, polls made, seconds slept. */
  datatype PollOutcome = PollOutcome(cookies: Option<seq<Items>>, userAgent: Option<string>, polls: nat, elapsed: int)

  /** Whether the URL read at poll `k` matches the success pattern. */
  predicate Matched(matches: string -> bool, gui: GuiSession, k: nat)
  {
    gui.urlAt(k).Some? && matches(gui.urlAt(k).value)
  }

  /**
    The poll loop from poll `k` after `elapsed` seconds: stop once past the
    timeout; on a match take the user agent (when readable), wait 3 s and
    take the cookies, stopping if they could be read; otherwise sleep 1 s.
  */
  function PollFrom(matches: string -> bool, timeout: int, gui: GuiSession, k: nat, elapsed: int, ua: Option<string>): PollOutcome
    decreases timeout + 1 - elapsed
  {
    if elapsed > timeout then PollOutcome(None, ua, k, elapsed)
    else if Matched(matches, gui, k) then
      var ua' := if gui.userAgentAt(k).Some? then gui.userAgentAt(k) else ua;
      if gui.cookiesAt(k).Some? then PollOutcome(gui.cookiesAt(k), ua', k + 1, elapsed + 3)
      else PollFrom(matches, timeout, gui, k + 1, elapsed + 4, ua')
    else PollFrom(matches, timeout, gui, k + 1, elapsed + 1, ua)
  }

  /** The `while True` loop of `wait_for_login`. */
  method PollLogin(matches: string -> bool, timeout: int, gui: GuiSession, ua0: Option<string>) returns (o: PollOutcome)
    ensures o == PollFrom(matches, timeout, gui, 0, 0, ua0)
  {
    var k: nat := 0;
    var elapsed := 0;
    var ua := ua0;
    while true
      invariant PollFrom(matches, timeout, gui, k, elapsed, ua) == PollFrom(matches, timeout, gui, 0, 0, ua0)
      decreases timeout + 1 - elapsed
    {
      if elapsed > timeout {
        return PollOutcome(None, ua, k, elapsed);
      }
      var url := gui.urlAt(k);
      if url.Some? && matches(url.value) {
        var agent := gui.userAgentAt(k);
        if agent.Some? {
          ua := agent;
        }
        elapsed := elapsed + 3;
        var cookies := gui.cookiesAt(k);
        if cookies.Some? {
          return PollOutcome(cookies, ua, k + 1, elapsed);
        }
      }
      elapsed := elapsed + 1;
      k := k + 1;
    }
  }

  /**
    Cookies are captured only at a matching poll, as read there, and no
    later than 3 s past the timeout; without a capture the loop ended by
    passing the timeout.  Every poll costs at least one second.
  */
  lemma {:induction false} CapturedOnlyOnMatch(matches: string -> bool, timeout: int, gui: GuiSession, k: nat, elapsed: int, ua: Option<string>)
    ensures var o := PollFrom(matches, timeout, gui, k, elapsed, ua);
            && o.polls >= k && o.elapsed - elapsed >= o.polls - k
            && (o.cookies.Some? ==>
                  o.polls > k && Matched(matches, gui, o.polls - 1)
                  && gui.cookiesAt(o.polls - 1) == o.cookies && o.elapsed <= timeout + 3)
            && (o.cookies.None? ==> o.elapsed > timeout)
    decreases timeout + 1 - elapsed
  {
    if elapsed <= timeout {
      if Matched(matches, gui, k) {
        var ua' := if gui.userAgentAt(k).Some? then gui.userAgentAt(k) else ua;
        if gui.cookiesAt(k).None? {
          CapturedOnlyOnMatch(matches, timeout, gui, k + 1, elapsed + 4, ua');
        }
      } else {
        CapturedOnlyOnMatch(matches, timeout, gui, k + 1, elapsed + 1, ua);
      }
    }
  }

  /** Seconds the loop spends on polls `k` to `j - 1` when none of them captures: 4 at a match, 1 otherwise. */
  function PollCost(matches: string -> bool, gui: GuiSession, k: nat, j: nat): nat
    decreases j - k
  {
    if k >= j then 0
    else (if Matched(matches, gui, k) then 4 else 1) + PollCost(matches, gui, k + 1, j)
  }

  /**
    The first matching poll whose cookies can be read is the one captured,
    when the loop reaches it within the timeout; earlier matches whose
    cookie read failed only cost their 4 s.
  */
  lemma {:induction false} FirstMatchCaptures(matches: string -> bool, timeout: int, gui: GuiSession, k: nat, elapsed: int, ua: Option<string>, j: nat)
    requires k <= j && elapsed + PollCost(matches, gui, k, j) <= timeout
    requires forall i :: k <= i < j ==> !(Matched(matches, gui, i) && gui.cookiesAt(i).Some?)
    requires Matched(matches, gui, j) && gui.cookiesAt(j).Some?
    ensures PollFrom(matches, timeout, gui, k, elapsed, ua).cookies == gui.cookiesAt(j)
    ensures PollFrom(matches, timeout, gui, k, elapsed, ua).polls == j + 1
    ensures PollFrom(matches, timeout, gui, k, elapsed, ua).elapsed == elapsed + PollCost(matches, gui, k, j) + 3
    decreases j - k
  {
    if k < j {
      if Matched(matches, gui, k) {
        var ua' := if gui.userAgentAt(k).Some? then gui.userAgentAt(k) else ua;
        FirstMatchCaptures(matches, timeout, gui, k + 1, elapsed + 4, ua', j);
      } else {
        FirstMatchCaptures(matches, timeout, gui, k + 1, elapsed + 1, ua, j);
      }
    }
  }

  /** If the pattern never matches, the loop polls once a second until the timeout and captures nothing. */
  lemma {:induction false} NeverMatchingTimesOut(matches: string -> bool, timeout: int, gui: GuiSession, k: nat, elapsed: int, ua: Option<string>)
    requires forall i :: k <= i ==> !Matched(matches, gui, i)
    ensures var o := PollFrom(matches, timeout, gui, k, elapsed, ua);
            o.cookies.None? && o.userAgent == ua
            && o.polls == k + (if elapsed > timeout then 0 else timeout + 1 - elapsed)
    decreases timeout + 1 - elapsed
  {
    if elapsed <= timeout {
      NeverMatchingTimesOut(matches, timeout, gui, k + 1, elapsed + 1, ua);
    }
  }

  // ---------------------------------------------------------------------
  // The client
  // ---------------------------------------------------------------------

  /** The browser page, known by its URL. */
  datatype Page = Page(url: string)

  /** The URL of the page, or the empty string when there is none. */
  function UrlOf(page: Option<Page>): string
  {
    if page.Some? then page.value.url else ""
  }

  /** What the client does to the browser, in order. */
  datatype Event =
    | Launched(headless: bool, userAgent: Option<string>)
    | Quit
    | Navigated(url: string)
    | Evaluated(url: string, verb: string, headers: seq<(string, string)>, body: Option<string>, timeoutMs: int)
    | CookiesSet(cookies: seq<Items>)
    | Reloaded

  /** The user agent a launch is configured with: only a non-empty one is set. */
  function LaunchAgent(ua: Option<string>): Option<string>
  {
    if ua.Some? && ua.value != "" then ua else None
  }

  /** The captured cookies sanitized, when there are any and none makes the loop raise. */
  function SanitizeCaptured(cookies: Option<seq<Items>>): Option<seq<Items>>
  {
    if cookies.Some? then SanitizeAll(cookies.value) else None
  }

  /**
    The browser actions of the cookie restore, after a successful headless
    relaunch, given where it navigates and the sanitized cookies.
  */
  function RestoreEvents(cookies: Option<seq<Items>>, target: Option<string>, sanitized: Option<seq<Items>>): seq<Event>
  {
    if cookies.None? || cookies.value == [] then []
    else
      (if target.Some? then [Navigated(target.value)] else [])
      + (if sanitized.Some? then [CookiesSet(sanitized.value), Reloaded] else [])
  }

  /**
    The browser actions of opening the login window: quit the page there
    was, launch with a window, and navigate unless the target is empty or
    about:blank.
  */
  function WindowEvents(hadPage: bool, ua: Option<string>, target: string): seq<Event>
  {
    (if hadPage then [Quit] else []) + [Launched(false, LaunchAgent(ua))]
    + (if target != "" && target != BlankPage then [Navigated(target)] else [])
  }

  /**
    The browser actions of the `finally` of `wait_for_login`: quit the
    window, relaunch headless and, when that worked, restore the cookies.
  */
  function ResumeEvents(up: bool, ua: Option<string>, cookies: Option<seq<Items>>, target: Option<string>): seq<Event>
  {
    [Quit] + (if up then [Launched(true, LaunchAgent(ua))] + RestoreEvents(cookies, target, SanitizeCaptured(cookies)) else [])
  }

  /** The page after the cookie restore: where the restore target led, when there was one to visit. */
  function RestoredPage(current: Option<Page>, cookies: Option<seq<Items>>, target: Option<string>,
                        landing: string -> string): Option<Page>
  {
    if cookies.Some? && cookies.value != [] && target.Some? then Some(Page(landing(target.value))) else current
  }

  /**
    Cookies are put into the headless browser only when the poll captured a
    non-empty list, and what is put there is that list sanitized, cookie by
    cookie.
  */
  lemma CookiesRestoredOnlyAfterCapture(cookies: Option<seq<Items>>, target: Option<string>, cs: seq<Items>)
    requires CookiesSet(cs) in RestoreEvents(cookies, target, SanitizeCaptured(cookies))
    ensures cookies.Some? && cookies.value != []
    ensures SanitizeAll(cookies.value) == Some(cs)
    ensures |cs| == |cookies.value|
    ensures forall i :: 0 <= i < |cs| ==> SanitizeCookie(cookies.value[i]) == Some(cs[i])
  {
    if cookies.Some? {
      TryMapPointwise(SanitizeCookie, cookies.value);
      if cookies.value != [] {
        var nav: seq<Event> := if target.Some? then [Navigated(target.value)] else [];
        assert CookiesSet(cs) !in nav;
      }
    }
  }

  /** The client with its browser, its cache and the trace of what it did. */
  class Client {
    const baseUrl: Option<string>
    const autoNavigateForCors: bool
    const cache: Cache.RequestCache
    const codecs: Codecs
    const launchSucceeds: nat -> bool
    const replyAt: nat -> Items
    const landing: string -> string
    var headless: bool
    var page: Option<Page>
    var userAgent: Option<string>
    var launches: nat
    var evaluations: nat
    var trace: seq<Event>

    /** `__init__`: normalise the base URL, then launch the browser once. */
    constructor (baseUrl: Option<string>, headless: bool, autoNavigateForCors: bool, cache: Cache.RequestCache,
                 codecs: Codecs, launchSucceeds: nat -> bool, replyAt: nat -> Items, landing: string -> string)
      ensures this.baseUrl == NormalizeBase(baseUrl) && this.headless == headless
      ensures this.autoNavigateForCors == autoNavigateForCors && this.cache == cache && this.codecs == codecs
      ensures this.launchSucceeds == launchSucceeds && this.replyAt == replyAt && this.landing == landing
      ensures userAgent == None && launches == 1 && evaluations == 0
      ensures page == (if launchSucceeds(0) then Some(Page(BlankPage)) else None)
      ensures trace == (if launchSucceeds(0) then [Launched(headless, None)] else [])
    {
      this.baseUrl := NormalizeBase(baseUrl);
      this.headless := headless;
      this.autoNavigateForCors := autoNavigateForCors;
      this.cache := cache;
      this.codecs := codecs;
      this.launchSucceeds := launchSucceeds;
      this.replyAt := replyAt;
      this.landing := landing;
      page := None;
      userAgent := None;
      launches := 0;
      evaluations := 0;
      trace := [];
      new;
      var _ := InitBrowser();
    }

    /** `current_url`: the page's URL, or "" without a page. */
    function CurrentUrl(): string
      reads this
    {
      UrlOf(page)
    }

    /** `_init_browser`: the next launch, configured with the current mode and user agent. */
    method InitBrowser() returns (launched: bool)
      modifies this`page, this`launches, this`trace
      ensures launched == launchSucceeds(old(launches)) && launches == old(launches) + 1
      ensures page == (if launched then Some(Page(BlankPage)) else old(page))
      ensures trace == old(trace) + (if launched then [Launched(headless, LaunchAgent(userAgent))] else [])
    {
      launched := launchSucceeds(launches);
      if launched {
        page := Some(Page(BlankPage));
        trace := trace + [Launched(headless, LaunchAgent(userAgent))];
      }
      launches := launches + 1;
    }

    /** `_restart_browser`: quit any page, switch the mode, launch again. */
    method RestartBrowser(toHeadless: bool) returns (launched: bool)
      modifies this`page, this`launches, this`trace, this`headless
      ensures headless == toHeadless
      ensures launched == launchSucceeds(old(launches)) && launches == old(launches) + 1
      ensures page == (if launched then Some(Page(BlankPage)) else None)
      ensures trace == old(trace) + (if old(page).Some? then [Quit] else [])
                       + (if launched then [Launched(toHeadless, LaunchAgent(userAgent))] else [])
    {
      if page.Some? {
        trace := trace + [Quit];
        page := None;
      }
      headless := toHeadless;
      launched := InitBrowser();
    }

    /** `_ensure_cors_context`: navigate to the target's origin when another host is requested. */
    method EnsureCorsContext(url: string)
      modifies this`page, this`trace
      ensures var target := CorsTarget(autoNavigateForCors, url, UrlOf(old(page)));
              page == (if target.Some? && old(page).Some? then Some(Page(landing(target.value))) else old(page))
      ensures trace == old(trace) + old(CorsEvents(url))
    {
      var target := CorsTarget(autoNavigateForCors, url, CurrentUrl());
      if target.Some? && page.Some? {
        page := Some(Page(landing(target.value)));
        trace := trace + [Navigated(target.value)];
      }
    }

    /** `_exec_fetch`: one evaluation of the fetch script, its reply classified. */
    method ExecFetch(url: string, opts: FetchOptions, timeoutMs: int) returns (r: Result<Responses.Response, ClientError>)
      modifies this`evaluations, this`trace
      ensures page.None? ==> r == Err(BrowserInitError) && evaluations == old(evaluations) && trace == old(trace)
      ensures page.Some? ==> r == Classify(replyAt(old(evaluations))) && evaluations == old(evaluations) + 1
      ensures page.Some? ==> trace == old(trace) + [Evaluated(url, opts.verb, opts.headers.entries, opts.body, timeoutMs)]
    {
      if page.None? {
        return Err(BrowserInitError);
      }
      trace := trace + [Evaluated(url, opts.verb, opts.headers.entries, opts.body, timeoutMs)];
      r := Classify(replyAt(evaluations));
      evaluations := evaluations + 1;
    }

    /** The URL a request goes to. */
    function FullUrl(endpoint: string, params: Option<Items>): string
    {
      AppendQuery(ResolveUrl(baseUrl, endpoint), params, codecs.urlencode)
    }

    /** The cache key of a request: the parameters are already in the URL. */
    function RequestKey(verb: string, url: string, data: Option<Items>, jsonData: Option<Items>): string
    {
      Cache.GenerateKey(codecs.sha256, codecs.dumps, verb, url, None, data, jsonData)
    }

    /**
      The second half of `request` after a cache miss: build the options,
      fetch, and store a successful (2xx) response under `key` when a TTL
      is given.
    */
    method FetchAndStore(url: string, key: string, verb: string, data: Option<Items>, jsonData: Option<Items>,
                         headers: HeaderDict?, timeoutMs: int, cacheTtl: Option<int>, now: int)
      returns (r: Result<Responses.Response, ClientError>)
      modifies this`trace, this`evaluations, cache, headers
      ensures r == (if page.None? then Err(BrowserInitError) else Classify(replyAt(old(evaluations))))
      ensures evaluations == old(evaluations) + (if page.None? then 0 else 1)
      ensures cacheTtl.None? ==> cache.rows == old(cache.rows)
      ensures cacheTtl.Some? ==>
              cache.rows == (if r.Ok? && Responses.Ok(r.value)
                             then Cache.Store(old(cache.rows), key, JObject(r.value.rawData), cacheTtl.value, now)
                             else old(cache.rows))
      ensures var sent := WithDefaultContentType(if headers == null then [] else old(headers.entries), ContentTypeFor(data, jsonData));
              && (headers != null && old(headers.entries) != [] ==> headers.entries == sent)
              && (headers != null && old(headers.entries) == [] ==> headers.entries == [])
              && trace == old(trace) + (if page.None? then [] else [Evaluated(url, Upper(verb), sent, BodyFor(codecs, data, jsonData), timeoutMs)])
    {
      var opts := BuildOptions(verb, headers, data, jsonData, codecs);
      r := ExecFetch(url, opts, timeoutMs);
      if cacheTtl.Some? && r.Ok? && Responses.Ok(r.value) {
        cache.Set(key, JObject(r.value.rawData), cacheTtl.value, now);
      }
    }

    /** The navigation `_ensure_cors_context` makes before a request to `url`. */
    function CorsEvents(url: string): seq<Event>
      reads this
    {
      var target := CorsTarget(autoNavigateForCors, url, CurrentUrl());
      if target.Some? && page.Some? then [Navigated(target.value)] else []
    }

    /**
      `request`: resolve the URL, fix the CORS context, answer from the cache
      when a live valid record exists (with a TTL), otherwise fetch, and store
      a successful (2xx) response when a TTL is given.
    */
    method Request(verb: string, endpoint: string, params: Option<Items>, data: Option<Items>, jsonData: Option<Items>,
                   headers: HeaderDict?, timeoutMs: int, cacheTtl: Option<int>, now: int)
      returns (r: Result<Responses.Response, ClientError>)
      modifies this`page, this`trace, this`evaluations, cache, headers
      ensures var cors := CorsTarget(autoNavigateForCors, FullUrl(endpoint, params), UrlOf(old(page)));
              page == (if cors.Some? && old(page).Some? then Some(Page(landing(cors.value))) else old(page))
      ensures cacheTtl.None? ==> cache.rows == old(cache.rows)
      ensures var lookup := Cache.Lookup(old(cache.rows), RequestKey(verb, FullUrl(endpoint, params), data, jsonData), now);
              cacheTtl.Some? && lookup.result.Some? && Truthy(lookup.result.value) ==>
              && r == FromRecord(lookup.result.value) && cache.rows == lookup.table
              && evaluations == old(evaluations)
              && trace == old(trace) + old(CorsEvents(FullUrl(endpoint, params)))
              && (headers != null ==> headers.entries == old(headers.entries))
      ensures var key := RequestKey(verb, FullUrl(endpoint, params), data, jsonData);
              var lookup := Cache.Lookup(old(cache.rows), key, now);
              !(cacheTtl.Some? && lookup.result.Some? && Truthy(lookup.result.value)) ==>
              && r == (if old(page).None? then Err(BrowserInitError) else Classify(replyAt(old(evaluations))))
              && evaluations == old(evaluations) + (if old(page).None? then 0 else 1)
              && (cacheTtl.Some? ==>
                    cache.rows == (if r.Ok? && Responses.Ok(r.value)
                                   then Cache.Store(lookup.table, key, JObject(r.value.rawData), cacheTtl.value, now)
                                   else lookup.table))
      ensures var lookup := Cache.Lookup(old(cache.rows), RequestKey(verb, FullUrl(endpoint, params), data, jsonData), now);
              var sent := WithDefaultContentType(if headers == null then [] else old(headers.entries), ContentTypeFor(data, jsonData));
              var url := FullUrl(endpoint, params);
              !(cacheTtl.Some? && lookup.result.Some? && Truthy(lookup.result.value)) ==>
              && (headers != null && old(headers.entries) != [] ==> headers.entries == sent)
              && (headers != null && old(headers.entries) == [] ==> headers.entries == [])
              && trace == old(trace) + old(CorsEvents(url))
                          + (if old(page).None? then [] else [Evaluated(url, Upper(verb), sent, BodyFor(codecs, data, jsonData), timeoutMs)])
    {
      var url := FullUrl(endpoint, params);
      EnsureCorsContext(url);
      var key := "";
      if cacheTtl.Some? {
        key := RequestKey(verb, url, data, jsonData);
        var cached := cache.Get(key, now);
        if cached.Some? && Truthy(cached.value) {
          return FromRecord(cached.value);
        }
      }
      r := FetchAndStore(url, key, verb, data, jsonData, headers, timeoutMs, cacheTtl, now);
    }

    /** The first half of `wait_for_login`: relaunch with a window and send it to `target`. */
    method OpenLoginWindow(target: string) returns (up: bool)
      modifies this`page, this`launches, this`trace, this`headless
      ensures !headless && launches == old(launches) + 1 && up == launchSucceeds(old(launches))
      ensures var nav := target != "" && target != BlankPage;
              && page == (if !up then None else if nav then Some(Page(landing(target))) else Some(Page(BlankPage)))
              && trace == old(trace) + (if up then WindowEvents(old(page).Some?, userAgent, target)
                                        else if old(page).Some? then [Quit] else [])
    {
      up := RestartBrowser(false);
      if up && target != "" && target != BlankPage {
        page := Some(Page(landing(target)));
        trace := trace + [Navigated(target)];
      }
    }

    /**
      The `finally` of `wait_for_login`: relaunch headless and, when cookies
      were captured, restore them there.
    */
    method ResumeHeadless(startUrl: Option<string>, originalUrl: string, cookies: Option<seq<Items>>) returns (up: bool)
      requires page.Some?
      modifies this`page, this`launches, this`trace, this`headless
      ensures headless && launches == old(launches) + 1 && up == launchSucceeds(old(launches))
      ensures var target := RestoreTarget(startUrl, originalUrl, baseUrl);
              && page == (if up then RestoredPage(Some(Page(BlankPage)), cookies, target, landing) else None)
              && trace == old(trace) + ResumeEvents(up, userAgent, cookies, target)
    {
      up := RestartBrowser(true);
      if up {
        RestoreCookies(startUrl, originalUrl, cookies);
      }
    }

    /** The cookie restore in the `finally` of `wait_for_login`, on the new headless page. */
    method RestoreCookies(startUrl: Option<string>, originalUrl: string, cookies: Option<seq<Items>>)
      modifies this`page, this`trace
      ensures trace == old(trace) + RestoreEvents(cookies, RestoreTarget(startUrl, originalUrl, baseUrl), SanitizeCaptured(cookies))
      ensures page == RestoredPage(old(page), cookies, RestoreTarget(startUrl, originalUrl, baseUrl), landing)
    {
      if cookies.Some? && cookies.value != [] {
        var target := RestoreTarget(startUrl, originalUrl, baseUrl);
        var events: seq<Event> := [];
        if target.Some? {
          page := Some(Page(landing(target.value)));
          events := [Navigated(target.value)];
        }
        var sanitized := SanitizeCookies(cookies.value);
        if sanitized.Some? {
          events := events + [CookiesSet(sanitized.value), Reloaded];
        }
        trace := trace + events;
      }
    }

    /**
      `wait_for_login`: relaunch with a window, send it to the start page,
      poll until the success pattern matches or the timeout passes, relaunch
      headless with the captured user agent, and restore the captured
      cookies there.  A failed GUI launch raises before the `finally`, so
      the client is then left in window mode without a page.
    */
    method WaitForLogin(matches: string -> bool, timeout: int, startUrl: Option<string>, gui: GuiSession)
      returns (r: Result<(), ClientError>)
      modifies this`page, this`launches, this`trace, this`headless, this`userAgent
      ensures var guiUp := launchSucceeds(old(launches));
              var headlessUp := launchSucceeds(old(launches) + 1);
              && headless == guiUp
              && (r.Ok? <==> guiUp && headlessUp)
              && (r.Err? ==> r.error == BrowserInitError && page.None?)
              && launches == old(launches) + (if guiUp then 2 else 1)
      ensures var o := PollFrom(matches, timeout, gui, 0, 0, old(userAgent));
              userAgent == (if launchSucceeds(old(launches)) then o.userAgent else old(userAgent))
      ensures var o := PollFrom(matches, timeout, gui, 0, 0, old(userAgent));
              r.Ok? ==> page == RestoredPage(Some(Page(BlankPage)), o.cookies, RestoreTarget(startUrl, UrlOf(old(page)), baseUrl), landing)
      ensures !launchSucceeds(old(launches)) ==> trace == old(trace) + (if old(page).Some? then [Quit] else [])
      ensures var o := PollFrom(matches, timeout, gui, 0, 0, old(userAgent));
              launchSucceeds(old(launches)) ==>
              trace == old(trace) + WindowEvents(old(page).Some?, old(userAgent), GuiTarget(startUrl, UrlOf(old(page))))
                       + ResumeEvents(launchSucceeds(old(launches) + 1), o.userAgent, o.cookies,
                                      RestoreTarget(startUrl, UrlOf(old(page)), baseUrl))
    {
      var originalUrl := CurrentUrl();
      var target := GuiTarget(startUrl, originalUrl);
      var guiUp := OpenLoginWindow(target);
      if !guiUp {
        return Err(BrowserInitError);
      }
      var o := PollLogin(matches, timeout, gui, userAgent);
      userAgent := o.userAgent;
      var headlessUp := ResumeHeadless(startUrl, originalUrl, o.cookies);
      if !headlessUp {
        return Err(BrowserInitError);
      }
      r := Ok(());
    }

    /**
      `wait_for_login` with the switch to the window inside the `try`, as
      its steps describe: the `finally` then runs whether or not the window
      opened, so the client always ends in headless mode, and the launch
      error of a window that did not open still propagates.
    */
    method WaitForLoginAlwaysHeadless(matches: string -> bool, timeout: int, startUrl: Option<string>, gui: GuiSession)
      returns (r: Result<(), ClientError>)
      modifies this`page, this`launches, this`trace, this`headless, this`userAgent
      ensures var guiUp := launchSucceeds(old(launches));
              var headlessUp := launchSucceeds(old(launches) + 1);
              && headless
              && launches == old(launches) + 2
              && (r.Ok? <==> guiUp && headlessUp)
              && (r.Err? ==> r.error == BrowserInitError)
              && (!headlessUp ==> page.None?)
      ensures !launchSucceeds(old(launches)) ==>
              && userAgent == old(userAgent)
              && page == (if launchSucceeds(old(launches) + 1) then Some(Page(BlankPage)) else None)
              && trace == old(trace) + (if old(page).Some? then [Quit] else [])
                          + (if launchSucceeds(old(launches) + 1) then [Launched(true, LaunchAgent(old(userAgent)))] else [])
      ensures var o := PollFrom(matches, timeout, gui, 0, 0, old(userAgent));
              launchSucceeds(old(launches)) ==>
              && userAgent == o.userAgent
              && (r.Ok? ==> page == RestoredPage(Some(Page(BlankPage)), o.cookies, RestoreTarget(startUrl, UrlOf(old(page)), baseUrl), landing))
    {
      var originalUrl := CurrentUrl();
      var target := GuiTarget(startUrl, originalUrl);
      var guiUp := OpenLoginWindow(target);
      if !guiUp {
        var _ := RestartBrowser(true);
        return Err(BrowserInitError);
      }
      var o := PollLogin(matches, timeout, gui, userAgent);
      userAgent := o.userAgent;
      var headlessUp := ResumeHeadless(startUrl, originalUrl, o.cookies);
      if !headlessUp {
        return Err(BrowserInitError);
      }
      r := Ok(());
    }
  }
}
