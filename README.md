# lazyests in Dafny

lazyests is a requests-like HTTP client. It sends every request as a
JavaScript `fetch` inside a Chromium page, so that the request carries the
browser's cookies, TLS fingerprint and CORS context. This project models
three parts of it and proves their rules:

- **The response cache** (`RequestCache`, cache.py). It is a keyed table of
  `key -> (value, expires_at)`: `set` inserts or replaces a row, and `get`
  returns a value only while its row is live. `get` deletes an expired row
  during the same lookup, and it returns nothing for a corrupt or incomplete
  record. `clear_expired` and `clear_all` are bulk deletes. `generate_key`
  hashes the string `METHOD|url|params|data|json`, whose bodies are
  serialised with sorted keys.
- **The request pipeline** (`Client`, client.py), step by step:
  - URL resolution and the query append;
  - the navigation to the target origin made for CORS;
  - the fetch options: the method upper-cased, the body and the default
    Content-Type, written into the caller's own headers dict;
  - the classification of the DevTools reply into an error kind or a
    response;
  - the cache flow: a live hit short-circuits the fetch, and a 2xx response
    is stored only when a TTL is given.
- **The login hand-off** (`wait_for_login` and `_restart_browser`). The
  client relaunches the browser with a window and polls the URL until the
  success pattern matches or the timeout passes. It then relaunches the
  headless browser with the captured user agent. Where cookies were
  captured, it sanitises them and restores them on an origin picked in a
  fixed order.
- **`Response`** (response.py): the defaults for missing fields, the
  lower-cased headers, the `ok` range test, the UTF-8 `content`, and
  `raw_data` being the record itself.

## How the pieces are represented

- A Python dict is the sequence of its items in insertion order
  (`JsonValues.Items`). Order matters where two keys collide, as in the
  header lower-casing, where the later key wins.
- JSON values are the `Json` datatype. Numbers are integers.
- The SQLite table is the `rows: map<string, Entry>` field of
  `Cache.RequestCache`. The clock is an explicit integer `now`, in seconds.
  A stored value is either `Decoded(json)` or `Corrupt`; `Corrupt` is a text
  on which `json.loads` fails.
- SHA-256, `json.dumps` and `urlencode` are parameters: the function-typed
  fields of `Clients.Codecs`. The key properties are proved about the
  pre-image string. They assume only that `json.dumps` of a dict is never
  empty and never prints two different item lists the same.
- The browser is an oracle:
  - `launchSucceeds(n)` says whether the n-th launch works;
  - `replyAt(n)` is the reply to the n-th `Runtime.evaluate`;
  - `landing(u)` is the URL the page shows after `page.get(u)`, the site's
    redirects included, which is what `current_url` reads afterwards;
  - a `GuiSession` says what the login window shows at each poll: the URL,
    the user agent and the cookies, each `None` where reading it raises.

  Every action of the client on the browser is appended to `trace`. The
  actions are quit, launch (mode and user agent), navigate, evaluate (URL,
  method, headers, body, timeout), set cookies and reload. The contracts
  therefore state what is done to the browser and in which order.
- `request`, `_exec_fetch` and `wait_for_login` return
  `Result<_, ClientError>`, and each exception the source raises is one
  error kind. `BrowserInitError` covers a missing page and a failed launch.
  `MalformedReply` is the AttributeError or TypeError of a reply with the
  wrong shape.
- The following are methods with loops and invariants, proved against the
  functions that specify them: the poll loop (`Clients.PollLogin` against
  `PollFrom`) and the cookie loop (`Clients.SanitizeCookies` against
  `SanitizeAll`).

The code and a plain reading of its intent disagree in one place (see
"## Findings"). `wait_for_login` calls `_restart_browser(headless=False)`
before its `try`. So when the window launch fails, `BrowserInitError`
escapes without running the `finally`: the client stays in window mode with
no page, and does not return to headless. `Clients.Client.WaitForLogin`
models the code as written and states this: `headless` ends true exactly
when the window launch succeeded. `Clients.Client.WaitForLoginAlwaysHeadless`
models the intended order, with the window launch inside the `try`, and
proves that the client then always ends headless.

## Model

| member | source | states |
|---|---|---|
| Strings.Upper | src/lazyests/cache.py:130 | `method.upper()`: same length, and each character upper-cased |
| Strings.Lower | src/lazyests/response.py:35 | `k.lower()`: same length, and each character lower-cased |
| Strings.StripTrailing | src/lazyests/client.py:62 | the result is a prefix, everything cut is '/', and it does not end in '/' |
| Strings.StripLeading | src/lazyests/client.py:133 | the result is a suffix, everything cut is '/', and it does not start with '/' |
| Urls.SplitScheme | src/lazyests/client.py:153 | the scheme urlparse finds is empty or a valid, lower-case scheme |
| Urls.Scheme | src/lazyests/client.py:147-148 | the scheme of `urlparse(url)`; its form is stated by Urls.SplitScheme |
| Urls.Netloc | src/lazyests/client.py:147-148 | the network location never contains '/', '?' or '#' |
| Urls.OriginRoundTrip | src/lazyests/client.py:153-154 | parsing `scheme://netloc` gives back that scheme and that netloc |
| JsonValues.RemoveKey | src/lazyests/client.py:495-496 | `pop("expires", None)` removes that key and keeps every other item |
| JsonValues.RemoveKeyAppend | src/lazyests/client.py:495-496 | removing a key distributes over concatenation, so the remaining items keep their order |
| KeyOrder.SortByKeySorted | src/lazyests/cache.py:125-127 | `sort_keys`: the items come out strictly ordered by key, as a permutation of the dict |
| KeyOrder.SortIgnoresOrder | src/lazyests/cache.py:125-127 | two dicts sort to the same list exactly when they hold the same items, whatever their insertion order |
| Cache.ValidateData | src/lazyests/cache.py:175-183 | accepts exactly the dicts holding all seven required keys, and returns them unchanged |
| Cache.BodyText | src/lazyests/cache.py:125-127 | `json.dumps(body, sort_keys=True) if body else ""`, with the printer as a parameter; its meaning is stated by Cache.BodyTextIff and Cache.SameContentsSameText |
| Cache.PreImage | src/lazyests/cache.py:130 | the hashed string: the upper-cased method, the URL and the three body texts joined by vertical bars; what it distinguishes is stated by the five Cache.PreImage lemmas below |
| Cache.GenerateKey | src/lazyests/cache.py:104-131 | the digest of the pre-image; Cache.KeyIgnoresCaseAndOrder states which requests share a key |
| Cache.BodyTextIff | src/lazyests/cache.py:125-127 | two bodies serialise equally exactly when they hold the same items; `None` and `{}` both give "" |
| Cache.SameContentsSameText | src/lazyests/cache.py:125-127 | bodies with the same items serialise equally, for any printer |
| Cache.PreImageMethodIff | src/lazyests/cache.py:130 | with all else fixed, two methods give the same pre-image exactly when they agree after upper-casing |
| Cache.PreImageUrlIff | src/lazyests/cache.py:130 | with all else fixed, two URLs give the same pre-image exactly when they are equal |
| Cache.PreImageParamsIff | src/lazyests/cache.py:125-130 | with all else fixed, two params give the same pre-image exactly when they hold the same items |
| Cache.PreImageDataIff | src/lazyests/cache.py:126-130 | the same, for the form body |
| Cache.PreImageJsonIff | src/lazyests/cache.py:127-130 | the same, for the JSON body |
| Cache.KeyIgnoresCaseAndOrder | src/lazyests/cache.py:124-131 | requests that differ only in the method's case and their bodies' key order get the same key, for any digest |
| Cache.ParamsChangePreImage | src/lazyests/cache.py:125-130 | absent and empty params give the same pre-image, and non-empty params a different one |
| Cache.Lookup | src/lazyests/cache.py:133-173 | the value and the new table of one `get`; stated by Cache.LookupReturnsOnlyLiveValidRecords and Cache.LookupDeletesOnlyExpiredRow |
| Cache.Store | src/lazyests/cache.py:185-207 | the table after one `set`; stated by Cache.SetThenGet and Cache.LastWriteWins |
| Cache.WithoutExpired | src/lazyests/cache.py:209-217 | the table after `clear_expired`; stated by Cache.SweepKeepsExactlyLiveRows and Cache.SweepPreservesLookups |
| Cache.LookupReturnsOnlyLiveValidRecords | src/lazyests/cache.py:143-173 | `get` returns a value exactly when the row exists, is live (`now < expires_at`), decodes and validates; the value is the stored one |
| Cache.LookupDeletesOnlyExpiredRow | src/lazyests/cache.py:150-168 | `get` deletes the looked-up row exactly when it has expired, returns nothing then, and leaves every other row alone |
| Cache.SetThenGet | src/lazyests/cache.py:193-205 | after `set(k, v, ttl)` at `now`, a `get(k)` before `now + ttl` returns `v` and changes nothing |
| Cache.LastWriteWins | src/lazyests/cache.py:199-205 | a second `set` on a key replaces the first |
| Cache.NonPositiveTtlNeverReturned | src/lazyests/cache.py:152-166 | a row set with a TTL of zero or less is never returned, and the next read removes it |
| Cache.SweepKeepsExactlyLiveRows | src/lazyests/cache.py:209-215 | `clear_expired` keeps exactly the rows with `expires_at >= now`, unchanged |
| Cache.ExpiryBoundary | src/lazyests/cache.py:209-215 | a row expiring exactly at `now` survives `clear_expired`, yet `get` already treats it as expired and deletes it |
| Cache.SweepPreservesLookups | src/lazyests/cache.py:209-215 | a sweep never changes what `get` returns at the same moment |
| Cache.RequestCache.constructor | src/lazyests/cache.py:39-51 | a cache opened on an existing database holds its rows |
| Cache.RequestCache.Get | src/lazyests/cache.py:133-173 | the result and the new table are those of the lookup, including the deletion of an expired row |
| Cache.RequestCache.Set | src/lazyests/cache.py:185-207 | inserts or replaces the row for the key, set to expire at `now + ttl`; no other row changes |
| Cache.RequestCache.ClearExpired | src/lazyests/cache.py:209-217 | the table loses exactly the rows with `expires_at < now` |
| Cache.RequestCache.ClearAll | src/lazyests/cache.py:219-226 | the table ends empty |
| Responses.NewResponse | src/lazyests/response.py:22-38 | construction succeeds exactly when "headers" is absent or a dict, and the response keeps the record it was built from |
| Responses.LowerHeaders | src/lazyests/response.py:34-36 | the lower-cased header map; stated by Responses.LowerHeadersKeys and Responses.LowerHeadersLastWins |
| Responses.Ok | src/lazyests/response.py:71-77 | the `ok` test on the stored status; stated for a record by Responses.OkFromRecord |
| Responses.Text | src/lazyests/response.py:45-48 | the stored text; what it is for a record is stated by Responses.MissingFieldsDefault |
| Responses.Utf8 | src/lazyests/response.py:54 | `str.encode("utf-8")`; stated by Responses.Utf8Length, Responses.Utf8Ascii and Responses.Utf8Append |
| Responses.Content | src/lazyests/response.py:50-55 | the UTF-8 body, or a failure for a non-string text; stated by Responses.ContentOfRecord |
| Responses.LowerHeadersKeys | src/lazyests/response.py:34-36 | every header name is lower-case, and a name is present exactly when some raw name lower-cases to it |
| Responses.LowerHeadersLastWins | src/lazyests/response.py:34-36 | each raw value is kept under the lower-cased name unless a later raw name collides with it, in which case the later one wins |
| Responses.MissingFieldsDefault | src/lazyests/response.py:30-37 | a missing status, url or text defaults to 0, "" or "", and missing headers to `{}`; present fields are taken as they are |
| Responses.OkFromRecord | src/lazyests/response.py:71-77 | `ok` holds exactly when the record's status is an integer in 200..299, so a record without a status is never ok |
| Responses.EncodeChar | src/lazyests/response.py:54 | one character encodes to 1 to 4 bytes, and to exactly one byte when it is ASCII |
| Responses.Utf8Append | src/lazyests/response.py:51-55 | encoding distributes over concatenation |
| Responses.Utf8Length | src/lazyests/response.py:51-55 | the content has between 1 and 4 bytes per character of text, and exactly one per character when the text is ASCII |
| Responses.Utf8Ascii | src/lazyests/response.py:51-55 | an ASCII text encodes byte for byte to its code points |
| Responses.EncodeCharLead | src/lazyests/response.py:54 | the lead byte of an encoded character says how many bytes the character takes |
| Responses.EncodeCharInjective | src/lazyests/response.py:54 | two characters with the same encoding are the same character |
| Responses.Utf8Injective | src/lazyests/response.py:51-55 | two texts with the same UTF-8 encoding are the same text, so `content` determines `text` |
| Responses.ContentOfRecord | src/lazyests/response.py:50-55 | `content` fails exactly when the record's text is present and not a string; a record without text has an empty body; otherwise the body has 1 to 4 bytes per character of the text |
| Responses.RebuildFromRawData | src/lazyests/response.py:40-43 | a response rebuilt from its `raw_data` is the same response |
| Clients.NormalizeBase | src/lazyests/client.py:62 | the base is stored exactly when it is truthy, with its trailing slashes stripped |
| Clients.ResolveUrl | src/lazyests/client.py:120-135 | `_resolve_url`; stated by Clients.ResolveWithoutBase and Clients.ResolveJoinsWithOneSlash |
| Clients.ResolveWithoutBase | src/lazyests/client.py:129-135 | an absolute endpoint, or any endpoint without a usable base, passes through unchanged |
| Clients.ResolveJoinsWithOneSlash | src/lazyests/client.py:132-133 | a relative endpoint becomes the base without trailing slashes, one '/', and the endpoint without leading slashes, with no '/' on either side of the joint |
| Clients.AppendQuery | src/lazyests/client.py:212-217 | the URL with the encoded params appended; stated by Clients.QueryAppendedAfterSeparator |
| Clients.CorsTarget | src/lazyests/client.py:137-161 | the origin `_ensure_cors_context` navigates to, or none; stated by Clients.CorsNavigatesAtMostOnce |
| Clients.QueryAppendedAfterSeparator | src/lazyests/client.py:214-217 | without params the URL is unchanged; with params the URL stays a prefix, the joiner is '&' exactly when the URL already has a '?', and the encoded params follow |
| Clients.CorsNavigatesAtMostOnce | src/lazyests/client.py:143-158 | navigation happens exactly when enabled, the target host is non-empty and it differs from the current host; the origin has the target's host and scheme ("https" by default), and checking again from it does not navigate |
| Clients.ContentTypeRules | src/lazyests/client.py:235-243 | the caller's headers are kept as a prefix, and a Content-Type they set is never overridden; a Content-Type is present afterwards exactly when one was set or a body exists; JSON beats form data for the type and for the body |
| Clients.BuildOptions | src/lazyests/client.py:229-243 | the method is upper-cased, and the body and headers follow the rules above; a non-empty caller dict is the one sent and gains the Content-Type in place, while an absent or empty one is replaced by a fresh dict |
| Clients.ValidateFetchResponse | src/lazyests/client.py:163-182 | accepts exactly the dicts holding all seven response fields, and returns them unchanged |
| Clients.ValidatorsAgree | src/lazyests/client.py:169-180 | the client's validator and the cache's accept exactly the same records |
| Clients.ResultValue | src/lazyests/client.py:323 | `cdp_res.get("result", {}).get("value")`, with the AttributeError of a non-dict "result"; its outcomes are stated by Clients.ClassifyOutcomes |
| Clients.AbortIn | src/lazyests/client.py:330 | `"AbortError" in err_msg` on a string, dict or list, and the TypeError on anything else; its outcomes are stated by Clients.ClassifyOutcomes |
| Clients.Classify | src/lazyests/client.py:319-342 | the error kind or response for one DevTools reply; stated by Clients.ClassifyOutcomes and Clients.AbortErrorIsTimeout |
| Clients.ClassifyOutcomes | src/lazyests/client.py:319-342 | each outcome of the classification, as an if-and-only-if: exception report; non-object result; AbortError timeout; any other `error`, as a fetch failure carrying that message; structural mismatch, listing the keys in order; a malformed reply (non-dict "result", an `error` that `in` rejects, non-dict headers on a complete record); a response built from exactly the record; never a launch failure |
| Clients.AbortErrorIsTimeout | src/lazyests/client.py:328-331 | the aborted fetch's `{error: "AbortError: ..."}` is classified as a timeout |
| Clients.ValidRecordIsTruthy | src/lazyests/client.py:225-227 | a validated cache record always passes the `if cached_data:` test |
| Clients.FetchedResponseReplays | src/lazyests/client.py:222-256 | a fetched response stored with a TTL is read back before expiry as a record that passes the guard and rebuilds the same response |
| Clients.KeepAllowedMembers | src/lazyests/client.py:479-494 | the comprehension keeps exactly the items whose key is one of the ten allowed |
| Clients.KeepAllowedGet | src/lazyests/client.py:492-495 | filtering does not change what is read under an allowed key |
| Clients.NonPositive | src/lazyests/client.py:495 | `clean_cookie.get("expires", 0) <= 0` on a number or bool, and the TypeError on other values; its effect is stated by Clients.SanitizedCookieFields |
| Clients.SanitizeCookie | src/lazyests/client.py:491-497 | one cookie sanitised, or a failure; stated by Clients.SanitizedCookieFields and Clients.SessionCookieExample |
| Clients.SanitizedCookieFields | src/lazyests/client.py:491-497 | a sanitised cookie holds only allowed attributes of the captured cookie, keeps every allowed one but `expires`, and keeps `expires` exactly when it is positive; a non-numeric `expires` raises |
| Clients.SessionCookieExample | src/lazyests/client.py:492-497 | a session cookie (expires 0) loses `expires` and its unknown attributes |
| Clients.TryMapPointwise | src/lazyests/client.py:491-497 | the append loop succeeds exactly when every cookie sanitises, and then yields their results in order, one per cookie |
| Clients.SanitizeCookies | src/lazyests/client.py:477-497 | the loop's result is the list of sanitised cookies, or a failure when one cookie raises |
| Clients.GuiTarget | src/lazyests/client.py:408-410 | the page the window is sent to: the start URL when truthy, else the page left; its use is stated by Clients.Client.OpenLoginWindow |
| Clients.OriginOfRoundTrip | src/lazyests/client.py:455-457 | an origin built from a URL has that URL's scheme and host |
| Clients.RestoreTarget | src/lazyests/client.py:453-475 | the page the headless browser visits before the cookies are set; stated by Clients.RestoreTargetPreference |
| Clients.RestoreTargetPreference | src/lazyests/client.py:453-469 | the restore target is the bare origin `scheme://host` of the start URL, else that of the original page (when it has "://"), else the truthy base URL, else none; an origin chosen has the scheme and host of the URL it came from |
| Clients.PollFrom | src/lazyests/client.py:414-442 | the outcome of the poll loop from a given poll and time; stated by Clients.CapturedOnlyOnMatch, Clients.FirstMatchCaptures and Clients.NeverMatchingTimesOut |
| Clients.PollLogin | src/lazyests/client.py:414-442 | the poll loop's outcome is `PollFrom` from the first poll at time 0 |
| Clients.CapturedOnlyOnMatch | src/lazyests/client.py:415-442 | cookies are captured only at a matching poll, as read there, and no later than 3 s past the timeout; without a capture the loop ended by passing the timeout; each poll costs at least a second |
| Clients.FirstMatchCaptures | src/lazyests/client.py:415-434 | the first matching poll whose cookies can be read is the one captured, when the loop reaches it within the timeout (earlier matches with unreadable cookies cost 4 s each, other polls 1 s), and the loop stops 3 s after it |
| Clients.NeverMatchingTimesOut | src/lazyests/client.py:415-442 | a pattern that never matches polls once a second until the timeout, captures nothing and keeps the user agent |
| Clients.CookiesRestoredOnlyAfterCapture | src/lazyests/client.py:449-499 | cookies are set in the headless browser only after a non-empty capture, and what is set is that list sanitised cookie by cookie, of the same length and order |
| Clients.LaunchAgent | src/lazyests/client.py:90-91 | the user agent a launch is configured with: only a truthy one is set; its use is stated by Clients.Client.InitBrowser |
| Clients.Client.constructor | src/lazyests/client.py:62-78 | the base URL is normalised, no user agent is set, the browser oracles are kept, and the browser is launched once in the requested mode |
| Clients.Client.CurrentUrl | src/lazyests/client.py:115-118 | the page's URL, or "" without a page; where it is read, as `UrlOf(old(page))`, is stated by Clients.Client.Request and Clients.Client.WaitForLogin |
| Clients.Client.InitBrowser | src/lazyests/client.py:80-99 | the next launch uses the current mode and the user agent (when non-empty); on success there is a fresh page |
| Clients.Client.RestartBrowser | src/lazyests/client.py:514-536 | quits an existing page, switches the mode and launches once; the page is fresh, or absent on failure |
| Clients.Client.EnsureCorsContext | src/lazyests/client.py:137-161 | navigates to the CORS target when there is one and a page exists, after which the page shows where that navigation landed (`landing`); nothing else changes |
| Clients.Client.ExecFetch | src/lazyests/client.py:260-342 | without a page: BrowserInitError and no evaluation; otherwise the next reply is evaluated and classified, and the evaluation is recorded with the URL and options |
| Clients.Client.FetchAndStore | src/lazyests/client.py:229-256 | builds the options, fetches, and stores the record under the key only with a TTL and a 2xx response |
| Clients.Client.Request | src/lazyests/client.py:184-258 | the CORS navigation comes first; with a TTL, a live valid record is returned from the cache with no fetch; otherwise one fetch, and the result is stored exactly when a TTL is given and the status is 2xx; without a TTL the cache is untouched; the trace records what the browser saw |
| Clients.Client.OpenLoginWindow | src/lazyests/client.py:402-410 | relaunches with a window and navigates to the start URL, or the page left, unless it is empty or about:blank; the page then shows where the navigation landed |
| Clients.Client.ResumeHeadless | src/lazyests/client.py:444-512 | always relaunches headless; on success, restores the captured cookies on the restore target |
| Clients.Client.RestoreCookies | src/lazyests/client.py:449-512 | with a non-empty capture, navigates to the restore target when there is one (the page then shows where it landed), then sets the sanitised cookies and reloads |
| Clients.Client.WaitForLogin | src/lazyests/client.py:379-512 | window launch, navigation, poll loop, then headless relaunch with the captured user agent and cookie restore, in that order; it fails with BrowserInitError exactly when a launch fails, and then has no page |
| Clients.Client.WaitForLoginAlwaysHeadless | src/lazyests/client.py:379-512 | `wait_for_login` with the window launch inside the `try`: the client always ends headless, after exactly two launches; it fails with BrowserInitError exactly when a launch fails; with the window up, the poll, the user agent and the restored page are those of Clients.Client.WaitForLogin |

## Left out

- SQLite itself is not modelled: the connection, the WAL and synchronous PRAGMAs, the lock and
  `close` / `__enter__` / `__exit__`. Each operation is one atomic update of the map. An
  `sqlite3.Error` (logged and swallowed by the source) is assumed never to happen.
- `json.loads` failing on a stored text is the `Corrupt` value. `set` stores `Decoded(value)`,
  which assumes `json.loads(json.dumps(value))` gives back `value`.
- Floating point is not modelled: TTLs, timeouts, `timedelta.total_seconds` and the clock are
  integers, and `timeout * 1000` is passed in already as an integer number of milliseconds.
- Cache.BodyText: `sort_keys=True` is modelled for the top-level dict only. Nested dicts are
  printed by the printer parameter as given.
- Clients.ResolveUrl: `urljoin(base + "/", path)` is modelled as concatenation. urljoin's own
  path handling is not modelled: its removal of empty and dot segments (`users//42`, `../x`),
  its resolution against a base that carries a query or fragment (`https://a.com/api?v=1`), a
  relative endpoint with its own scheme (`mailto:x`), and a base whose scheme is not
  hierarchical, for which urljoin returns the endpoint unchanged.
- `urlparse` is modelled only as far as the scheme and the network location. Its stripping of
  leading C0 control characters and spaces, and its removal of tab, CR and LF characters, are
  not modelled. Nor is the ValueError it raises on malformed input inside
  `_ensure_cors_context` and the cookie restore, so it cannot abort them.
- Case mapping (`upper`, `lower`) is ASCII-only; Python maps all of Unicode.
- Browser calls other than launching cannot fail in the model. A failing navigation, `quit`,
  `set.cookies` or `refresh`, and the handlers that catch those failures, are not modelled.
  A failed read of the URL, user agent or cookies during polling is modelled (the `None`s of
  `GuiSession`).
- The JavaScript fetch script is not modelled; only the shape of its result is. Nor is the
  JSON quoting of the URL and options passed to it. The evaluation event records the URL, the
  method, the headers, the body and the timeout instead.
- `landing` is a fixed function of the requested URL: a redirect that depends on cookies, time or
  the page's own scripts, and a navigation the site makes later, are not modelled. A reload
  (`refresh`) is taken to keep the page's URL.
- Every successful launch is taken to open an `about:blank` page (`BlankPage`). A persistent
  browser profile that restores its last session may open another page instead.
- Clients.Client.Request: one `now` is used for both the cache lookup and the store. The source
  reads `time.time()` separately for each, and the store comes after the fetch, so a real store
  can expire slightly later than the model's.
- Wall-clock time is not modelled. The poll loop's clock advances only by its sleeps: 1 s per
  poll, plus 3 s after a match. The 2 s sleep in `_restart_browser` only delays and is left out.
- `re.search` with the success pattern is the abstract predicate `matches`; a pattern that does
  not compile raises in every poll, which is a `matches` that never holds.
- Logging, and the `locals()` check at client.py:437-438, which does nothing.
- Clients.Client.constructor: a BrowserInitError raised by `__init__` is modelled as a client
  with no page, since a Dafny constructor cannot fail. Creating the profile directory and a
  default cache is not modelled; the cache is passed in. The `page_factory` hook is the oracle.
- `Response.json`, `Client.get`, `Client.post` and `Client.close` are thin wrappers and are not
  modelled.
- The memo field `_content` of `Response.content` is not modelled. `Responses.Content`
  recomputes the same bytes, which is what callers can observe.
- Concurrency: the cache is shared across threads in the source; the model is sequential.

## Findings

| source | as written | input that shows it | evidently intended | confidence | as-written member | corrected member |
|---|---|---|---|---|---|---|
| src/lazyests/client.py:402-406 | `_restart_browser(headless=False)` runs before the `try` whose `finally` relaunches headless, so a failed window launch skips the `finally` and leaves the client in window mode with no page | a first launch that fails (`launchSucceeds(launches)` false when `wait_for_login` starts): `headless` ends false | the `finally` always returns the client to headless mode, whether or not the window opened, as steps 5 and 6 of the docstring (client.py:389-390) describe | medium; not executed | Clients.Client.WaitForLogin | Clients.Client.WaitForLoginAlwaysHeadless |
