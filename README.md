# utube: streaming-URL resolution, modelled in Dafny

`app.js` is a small Node.js HTTP server. It turns YouTube pages into streaming-manifest URLs.

- Two extractors each fetch a page and apply a fixed ECMAScript regular expression to its text:
  - `dashUrl` looks for `dashManifestUrl":"…",`;
  - `hlsUrl` looks for `hlsManifestUrl":"….m3u8`.
- `generateStreamingUrl` first tries DASH on the channel's live page. If that rejects, it falls back to HLS on the video URL. Every URL it resolves is appended to the `streams` table.
- `handleRequest` splits the request path on `/` and dispatches on its segments:
  - a path whose fourth `/`-piece is `master.mpd` or `master.m3u8` (e.g. `/x/name/master.mpd`) is a 302 redirect, with a primary and a fallback target built from the third piece; `/live/master.mpd` and `/a/b/c/master.mpd` are not, while `/a/b/master.mpd/x` is;
  - otherwise, a path whose second piece is `generate-url` (`/generate-url`, but also `/generate-url/x`) is the JSON endpoint;
  - anything else gets the HTML form.

The project has four modules:

- `Wrappers` (`wrappers.dfy`): the `Option` type. It stands for `null`, a thrown `TypeError` and a rejected promise alike.
- `Manifest` (`manifest.dfy`): the two patterns and the `[0]` that follows them, as pure functions.
  - Each pattern has a declarative meaning: `DashMatchAt`, `HlsMatchAt`, `FirstDashMatch` and `FirstHlsMatch`. These cover the lookbehind, the lazy `.+?` and greedy `.*`, the fact that `.` does not match the four LineTerminator code points, and leftmost-first reporting.
  - Each pattern also has a step-by-step backtracking matcher: `LazyEnd`/`DashAt`/`DashFrom` for DASH and `LineEnd`/`GreedyEnd`/`HlsAt`/`HlsFrom` for HLS. Their contracts are proved to agree with the declarative meaning.
- `Streams` (`streams.dfy`): the upstream fetches, the `streams` table and `generateStreamingUrl`.
  - The table is a class. Its fields (`rows`, `nextId`) are updated in place by `Insert`.
  - The network is an `Upstream` object. Its `pages` oracle maps a URL to a body, or to `None` when the fetch rejects. Its ghost `requests` log records every URL fetched.
- `Router` (`router.dfy`): `pathname.split("/")` and the precedence of `handleRequest`'s tests.
  - `Dispatch` makes the decision.
  - `Respond`, `Fetches` and `RouteRecorded` say what carrying it out produces.
  - `HandleRequest` carries it out against the table and the upstream.

## Model

| member | source | states |
|---|---|---|
| Manifest.IsLineTerminator | app.js:33 | The four LineTerminator code points: LF, CR, U+2028 and U+2029. `.` matches every other character (ECMA-262 section 12.3). |
| Manifest.DashMatchAt | app.js:33 | Defines a DASH match body[s..e]: `dashManifestUrl":"` ends at s, the run is non-empty and single-line, and `",` starts at e. |
| Manifest.HlsMatchAt | app.js:40 | Defines an HLS match body[s..e]: `hlsManifestUrl":"` ends at s, the run is single-line, and it ends in `.m3u8`. |
| Manifest.FirstDashMatch | app.js:33 | Defines the match `[0]` reports for DASH: the leftmost start, then the shortest run at that start (lazy `.+?`). |
| Manifest.FirstHlsMatch | app.js:40 | Defines the match `[0]` reports for HLS: the leftmost start, then the longest run at that start (greedy `.*`). |
| Manifest.LazyEnd | app.js:33 | Lazy `.+?` after it has consumed part of a line: it returns the first position at or after the current one where `",` follows a single-line run. Returns None exactly when no such position exists before a line terminator. |
| Manifest.DashAt | app.js:33 | At one start position: Some(e) iff the lookbehind holds and body[p..e] is a DASH match; e is the shortest such end. |
| Manifest.DashFrom | app.js:33 | Scanning from p: the first DASH match found has the leftmost start, and the shortest end at that start. None iff there is no match at or after p. |
| Manifest.DashMatch | app.js:30-34 | `match(...)[0]`: Some iff the body holds a DASH match. The result is the text of the first match (leftmost, then shortest), non-empty and on one line. |
| Manifest.DashMatchShape | app.js:33 | A DASH result sits right after `dashManifestUrl":"` and right before `",`. No `",` starts inside it (the quantifier is lazy). |
| Manifest.DashWellFormedField | app.js:33 | `dashManifestUrl":"` + url + `",` + anything yields exactly url, when url is non-empty, single-line and free of `"`. |
| Manifest.DashFieldAt | app.js:33 | Defines a well-formed DASH field at position k: `dashManifestUrl":"` + url + `",`, with url non-empty, single-line and free of `"`. |
| Manifest.DashFieldFirst | app.js:30-34 | A body holding a well-formed DASH field anywhere yields exactly the field's value, provided no DASH match starts before the value. |
| Manifest.QuoteFreeRun | app.js:33 | A run that holds no `"` contains no `",`. |
| Manifest.DashExample | app.js:33 | A concrete page yields its DASH URL without the surrounding quotes. |
| Manifest.DashLazyExample | app.js:33 | With two `",` on one line, the match stops at the first. |
| Manifest.LineEnd | app.js:40 | Where greedy `.*` stops: the first line terminator at or after p, or the end of the body. The run up to it is single-line. |
| Manifest.GreedyEnd | app.js:40 | The give-back of `.*`: it returns the largest end ≤ j + 5 at which `.m3u8` ends. None iff there is none in range. |
| Manifest.ExtensionStaysOnLine | app.js:40 | A run ending in `.m3u8` that starts no later than where `.*` stopped stays on one line. |
| Manifest.SingleLineWithinLine | app.js:40 | A single-line run cannot pass the first line terminator. |
| Manifest.HlsAt | app.js:40 | At one start position: Some(e) iff the lookbehind holds and an HLS match starts there; e is the longest such end. |
| Manifest.HlsFrom | app.js:40 | Scanning from p: the first HLS match found has the leftmost start, and the longest end at that start. None iff there is no match at or after p. |
| Manifest.HlsMatch | app.js:37-41 | `match(...)[0]`: Some iff the body holds an HLS match. The result is the text of the first match (leftmost, then longest), on one line, and ends in `.m3u8`. |
| Manifest.HlsMatchShape | app.js:40 | An HLS result sits right after `hlsManifestUrl":"` and ends in `.m3u8`. No longer single-line run from the same start ends in `.m3u8` (the quantifier is greedy). |
| Manifest.HlsWellFormedField | app.js:40 | `hlsManifestUrl":"` + url, followed by the end of the body or a line terminator, yields exactly url when url ends in `.m3u8` and is single-line. |
| Manifest.HlsFieldAt | app.js:40 | Defines a well-formed HLS field at position k: `hlsManifestUrl":"` + url, with url single-line and ending in `.m3u8`. |
| Manifest.NoLaterExtension | app.js:40 | Defines the condition that stops greedy `.*` at e: no single-line run from k ends in `.m3u8` after e. |
| Manifest.HlsFieldFirst | app.js:37-41 | A body holding a well-formed HLS field anywhere yields exactly the field's value, provided no HLS match starts before the value and no later `.m3u8` ends on its line. |
| Manifest.HlsExample | app.js:40 | A concrete page yields its HLS URL, up to and including `.m3u8`. |
| Manifest.HlsGreedyExample | app.js:40 | The match runs to the last `.m3u8` on the line, and never past the line's end. |
| Manifest.HlsJsonField | app.js:40 | An HLS field as the first member of a one-line JSON object yields the field's value, when the text after the value holds no `8`, so no later `.m3u8` can end on the line. |
| Manifest.HlsJsonExample | app.js:40 | `{"hlsManifestUrl":"https://example.com/i.m3u8","live":1}` yields `https://example.com/i.m3u8`. |
| Streams.Upstream.Fetch | app.js:31-32 | Fetching returns the oracle's body for the URL and appends the URL to the request log. |
| Streams.DashOf | app.js:30-34 | A DASH resolution is non-empty and single-line. |
| Streams.HlsOf | app.js:37-41 | An HLS resolution is single-line and ends in `.m3u8`. |
| Streams.ExtractionFailure | app.js:31-33 | An extractor rejects iff the fetch rejected or the page holds no match. The two causes are indistinguishable. |
| Streams.DashUrl | app.js:30-34 | `dashUrl` performs one fetch of the given URL and yields the DASH resolution of that page. |
| Streams.HlsUrl | app.js:37-41 | `hlsUrl` performs one fetch of the given URL and yields the HLS resolution of that page. |
| Streams.StreamStore.constructor | app.js:16-21 | The table starts empty, with AUTOINCREMENT at 1. |
| Streams.StreamStore.Insert | app.js:44-51 | Appends exactly one row carrying the next id and the three given values. Ids stay positive and strictly increasing. |
| Streams.LiveUrl | app.js:55 | Defines the live page as `https://www.youtube.com/@` + channelName + `/live`. |
| Streams.LiveUrlInjective | app.js:55 | Distinct channel names give distinct live-page URLs. |
| Streams.Resolve | app.js:54-67 | A resolved URL is non-empty and on one line. |
| Streams.ResolveFetches | app.js:54-67 | Fetches one or two URLs: the live page first, then the video URL. It fetches only the live page exactly when DASH succeeded. |
| Streams.Recorded | app.js:58-66 | Records at most one row, and none iff the resolution rejects. Otherwise the row holds the given id, both inputs and the resolved URL. |
| Streams.GenerateStreamingUrl | app.js:54-67 | `generateStreamingUrl` returns Resolve, fetches exactly ResolveFetches, appends exactly Recorded, advances the id by the rows appended, and keeps the table valid. |
| Streams.DashFirst | app.js:58-61 | A live page holding a well-formed DASH field, with no DASH match before it, resolves to that field's URL. Only the live page is fetched, and one row is recorded. |
| Streams.HlsFallback | app.js:62-66 | With no DASH match on the live page, a well-formed HLS field of the video page is used, when no HLS match precedes it and no later `.m3u8` ends on its line. Two fetches happen, and one row is recorded. |
| Streams.BothFail | app.js:62-66 | When neither extractor matches, the resolution rejects after two fetches and records nothing. |
| Streams.ResolvedFromFirstMatch | app.js:54-67 | Every resolved URL is either the first DASH match of the live page, or, when that page has none, the first HLS match of the video page. |
| Streams.RepeatedResolution | app.js:44-45 | Resolving twice appends a second row with the same URL and a larger id. Nothing enforces uniqueness. |
| Router.SplitPath | app.js:94 | The split yields at least one segment, and no segment contains `/`. |
| Router.JoinSplit | app.js:94 | Joining the segments with `/` gives the pathname back. |
| Router.SplitNoSlash | app.js:94 | A pathname without `/` is a single segment. |
| Router.SplitAfterSegment | app.js:94 | A `/` after a slash-free first segment ends that segment. |
| Router.SplitJoin | app.js:94 | Slash-free segments survive joining and splitting unchanged. |
| Router.SplitTwoSegments | app.js:94 | `/x` splits into an empty segment and `x`. |
| Router.ChannelTarget | app.js:100 | Defines the primary redirect target: `https://www.youtube.com/@MinimalGroupOfficial` + the third path segment + `/live`. |
| Router.VideoTarget | app.js:106 | Defines the fallback redirect target: `https://www.youtube.com/watch?v=CsdMnxSENrI` + the third path segment. |
| Router.Given | app.js:128 | Defines JavaScript truthiness of a query value: present and not the empty string. |
| Router.Dispatch | app.js:96-141 | Defines the order of the tests: `master.mpd` in the fourth segment, then `master.m3u8`, then `generate-url` in the second (with or without both values), else the form. A missing segment equals no string. |
| Router.HeaderChar | app.js:98-102 | Defines the characters Node's `writeHead` accepts in a header value: tab, `\x20`-`\x7e` and `\x80`-`\xff`. |
| Router.HeaderSafe | app.js:98-102 | Defines a header value `writeHead` accepts; on any other value it throws `ERR_INVALID_CHAR`. |
| Router.Redirectable | app.js:96-123 | Defines when a 302 goes out: the extractor resolved, and its URL is a legal Location. |
| Router.Respond | app.js:96-151 | Defines each route's answer. A redirect goes to the primary when it is usable, else to the fallback; when neither is usable the server answers 500. Generate answers 200 or 500. |
| Router.Fetches | app.js:96-130 | Defines the URLs each route fetches: the primary, then the fallback only when the primary is not usable; the resolution's fetches; or nothing. |
| Router.RouteRecorded | app.js:124-136 | Defines the rows a route appends: those of the resolution for `generate-url`, and none otherwise. |
| Router.RedirectDash | app.js:96-109 | The `master.mpd` branch: `dashUrl` on the primary target. A rejection or a `writeHead` throw moves to the fallback, and a second failure gives the 500 crash. Response and fetches are Respond and Fetches. |
| Router.RedirectHls | app.js:110-123 | The `master.m3u8` branch: the same as RedirectDash, using `hlsUrl`. |
| Router.AnswerGenerate | app.js:128-136 | Runs `generateStreamingUrl`: 200 with the URL, or 500 `Failed to generate URL`. Its fetches and table rows are those of the resolution. |
| Router.Answer | app.js:96-144 | Each route's branch: the response is Respond, the fetches are Fetches, and the rows appended are RouteRecorded. |
| Router.HandleRequest | app.js:92-145 | The request is answered as Dispatch of the split pathname decides. Response, fetches, appended rows and the id advance are all determined by that route, and the table stays valid. |
| Router.ManifestPathRedirects | app.js:96-124 | `/a/name/master.mpd` (or `.m3u8`) redirects through DASH (or HLS) with targets built from `name`. This takes precedence over `generate-url` and ignores the query. |
| Router.GenerateUrlSegments | app.js:124-140 | Any path with `generate-url` as its second segment and no manifest in its fourth resolves only when both query values are non-empty. Otherwise it answers 400 `Missing parameters` and fetches nothing. |
| Router.GenerateUrlPath | app.js:124-140 | The pathname `/generate-url` itself splits to those segments and behaves as GenerateUrlSegments says. |
| Router.RootServesForm | app.js:141-143 | `/` serves the form and fetches nothing. |
| Router.DashRedirectLocation | app.js:96-109 | A `master.mpd` Location is a non-empty, single-line, header-safe DASH result. It comes from the primary page, or from the fallback page when the primary gives nothing usable. |
| Router.HlsRedirectLocation | app.js:110-123 | A `master.m3u8` Location is a single-line, header-safe URL ending in `.m3u8`. It comes from the primary page, or from the fallback page when the primary gives nothing usable. |
| Router.RedirectFallback | app.js:96-123 | A redirect fetches the fallback iff the primary gives no usable Location, and ends in the 500 crash iff neither does. |
| Router.WideLocationFallsBack | app.js:98-107 | A primary DASH match holding a character above U+00FF makes `writeHead` throw, so the fallback is fetched and answers. |
| Router.Status | app.js:98-143 | Defines the status code of each response: 302 for a redirect, 200 for the URL and the form, the given code for a message, 500 for the crash. |
| Router.OnlyManifestsRedirect | app.js:96-143 | A response has status 302 exactly when it is a redirect, and only the two manifest routes answer with one. |
| Router.FetchBound | app.js:92-145 | Every request fetches at most two URLs, and none exactly for the form and for missing parameters. Only `generate-url` appends rows. |

## Left out

- Network I/O (`node-fetch`, `r.text()`) is replaced by the `pages` oracle. `None` stands for a rejected fetch. An HTTP error status still yields a body, as in the source.
- `Upstream.pages` is fixed for the object's lifetime. A URL fetched twice gets the same body both times, for example when `videoUrl` equals the live URL. RepeatedResolution relies on this. Pages that change between fetches are not modelled.
- Database set-up is left out: opening `data.db`, `CREATE TABLE IF NOT EXISTS`, closing on `SIGINT`, and the logging callbacks.
- The table starts empty. Rows persisted by an earlier run are not modelled.
- `storeStreamData` is asynchronous and not awaited, and an insert error is only logged. The model therefore appends the row synchronously and never lets an insert fail or reach the caller.
- The HTTP server is left out: `createServer`, `listen`, `writeHead` and `end`. A response is a `Response` value.
- The server's top-level `catch` is the single `Crashed` response, which is a 500 whose body is the error's stack.
- Of `writeHead`'s own failures, only the header-value check on the Location is modelled, as `HeaderSafe`. Header names and status codes are constants and cannot fail.
- `url.parse` is not modelled. The pathname and the two query values are inputs. Repeated query keys, which `url.parse` turns into arrays, are not modelled.
- The HTML form text and `JSON.stringify` escaping are left out. `FormPage` and `UrlJson` stand for those bodies.
- Concurrent requests and interleaved upstream answers are not modelled. Each request runs alone.
- JavaScript strings are UTF-16 code units, while the model uses Unicode scalar values. The two regular expressions only test ASCII characters and the four line terminators. Every match boundary is next to an ASCII character. So both views select the same text.
- A general regular-expression engine is not modelled. Only the two fixed patterns are, each through its own matcher.
