/**
 * `handleRequest` (app.js:92-145): the pathname split on `/`, a fixed order of
 * tests on its segments, and what each branch answers.  `Dispatch` is the
 * decision, `Respond` and `Fetches` what carrying it out yields, and
 * `HandleRequest` carries it out against the upstream pages and the table.
 */
module Router {
  import opened Wrappers
  import opened Manifest
  import opened Streams

  /** `pathname.split("/")`: the pieces between slashes, empty ones included. */
  function SplitPath(path: string): (segments: seq<string>)
    decreases |path|
    ensures |segments| >= 1
    ensures forall j :: 0 <= j < |segments| ==> '/' !in segments[j]
  {
    if path == [] then [[]]
    else
      var tail := SplitPath(path[1..]);
      if path[0] == '/' then [[]] + tail
      else [[path[0]] + tail[0]] + tail[1..]
  }

  /** The segments joined back with `/` between them. */
  function JoinPath(segments: seq<string>): string
    requires |segments| >= 1
    decreases |segments|
  {
    if |segments| == 1 then segments[0] else segments[0] + "/" + JoinPath(segments[1..])
  }

  /** Splitting loses nothing: joining the pieces gives the pathname back. */
  lemma {:induction false} JoinSplit(path: string)
    ensures JoinPath(SplitPath(path)) == path
  {
    if path != [] {
      var tail := SplitPath(path[1..]);
      JoinSplit(path[1..]);
      if path[0] == '/' {
        assert SplitPath(path) == [[]] + tail;
        assert ([[]] + tail)[1..] == tail;
      } else {
        var segs := [[path[0]] + tail[0]] + tail[1..];
        assert SplitPath(path) == segs;
        if |tail| == 1 {
          assert path == [path[0]] + path[1..];
        } else {
          assert segs[1..] == tail[1..];
          assert JoinPath(tail) == tail[0] + "/" + JoinPath(tail[1..]);
          assert path == [path[0]] + path[1..];
        }
      }
    }
  }

  /** A pathname without `/` is one segment. */
  lemma {:induction false} SplitNoSlash(segment: string)
    requires '/' !in segment
    ensures SplitPath(segment) == [segment]
  {
    if segment != [] {
      assert '/' !in segment[1..] by {
        forall c | c in segment[1..] ensures c != '/' {
          assert c in segment;
        }
      }
      SplitNoSlash(segment[1..]);
      assert segment == [segment[0]] + segment[1..];
    }
  }

  /** A slash after a slash-free first segment ends that segment. */
  lemma {:induction false} SplitAfterSegment(first: string, rest: string)
    requires '/' !in first
    ensures SplitPath(first + "/" + rest) == [first] + SplitPath(rest)
    decreases |first|
  {
    if first == [] {
      assert first + "/" + rest == ['/'] + rest;
      assert (first + "/" + rest)[1..] == rest;
    } else {
      assert '/' !in first[1..] by {
        forall c | c in first[1..] ensures c != '/' {
          assert c in first;
        }
      }
      SplitAfterSegment(first[1..], rest);
      var path := first + "/" + rest;
      assert path[0] == first[0];
      assert path[1..] == first[1..] + "/" + rest;
      assert first == [first[0]] + first[1..];
    }
  }

  /** Slash-free segments come back unchanged from joining and splitting. */
  lemma {:induction false} SplitJoin(segments: seq<string>)
    requires |segments| >= 1
    requires forall j :: 0 <= j < |segments| ==> '/' !in segments[j]
    ensures SplitPath(JoinPath(segments)) == segments
    decreases |segments|
  {
    if |segments| == 1 {
      SplitNoSlash(segments[0]);
    } else {
      SplitJoin(segments[1..]);
      SplitAfterSegment(segments[0], JoinPath(segments[1..]));
      assert segments == [segments[0]] + segments[1..];
    }
  }

  /** First redirect target: the live page of `@MinimalGroupOfficial` followed by the path's third segment. */
  function ChannelTarget(segment: string): string {
    "https://www.youtube.com/@MinimalGroupOfficial" + segment + "/live"
  }

  /** Second redirect target: the fixed video followed by the path's third segment. */
  function VideoTarget(segment: string): string {
    "https://www.youtube.com/watch?v=CsdMnxSENrI" + segment
  }

  /** The first path segment of the JSON endpoint. */
  const GenerateUrlSegment: string := "generate-url"

  /** The branch `handleRequest` takes. */
  datatype Route =
    | DashRedirect(primary: string, fallback: string)
    | HlsRedirect(primary: string, fallback: string)
    | Generate(videoUrl: string, channelName: string)
    | MissingParameters
    | ServeForm

  /** A query value JavaScript treats as true: present and not the empty string. */
  predicate Given(value: Option<string>) {
    value.Some? && value.value != ""
  }

  /**
   * The tests of `handleRequest` in their order: `pathName[3] === "master.mpd"`,
   * then `"master.m3u8"`, then `pathName[1] === "generate-url"` (with both query
   * values given, or not), else the form.  A missing segment is `undefined` and
   * equals no string.
   */
  function Dispatch(segments: seq<string>, videoUrl: Option<string>, channelName: Option<string>): Route {
    if |segments| > 3 && segments[3] == "master.mpd" then
      DashRedirect(ChannelTarget(segments[2]), VideoTarget(segments[2]))
    else if |segments| > 3 && segments[3] == "master.m3u8" then
      HlsRedirect(ChannelTarget(segments[2]), VideoTarget(segments[2]))
    else if |segments| > 1 && segments[1] == GenerateUrlSegment then
      if Given(videoUrl) && Given(channelName) then Generate(videoUrl.value, channelName.value)
      else MissingParameters
    else
      ServeForm
  }

  /** What the server sends. */
  datatype Response =
    | Found(location: string)                      // 302 with a Location header
    | UrlJson(url: string)                         // 200, {"url": url}
    | MessageJson(status: int, message: string)    // status, {"message": message}
    | FormPage                                     // 200, the HTML form
    | Crashed                                      // 500 with the error's stack, from the server's catch-all

  /** The status code each response is sent with. */
  function Status(response: Response): int {
    match response
    case Found(_) => 302
    case UrlJson(_) => 200
    case MessageJson(status, _) => status
    case FormPage => 200
    case Crashed => 500
  }

  /**
   * A character Node's `writeHead` accepts in a header value: tab, printable
   * ASCII, or U+0080 to U+00FF.
   */
  predicate HeaderChar(c: char) {
    c == '\t' || (' ' <= c <= '~') || ('\U{80}' <= c <= '\U{FF}')
  }

  /** A header value `writeHead` accepts; on any other it throws `ERR_INVALID_CHAR`. */
  predicate HeaderSafe(value: string) {
    forall j :: 0 <= j < |value| ==> HeaderChar(value[j])
  }

  /**
   * An extraction the 302 goes out with: it resolved, and `writeHead` accepts it as
   * the Location.  Otherwise the `await` or the `writeHead` throws.
   */
  predicate Redirectable(location: Option<string>) {
    location.Some? && HeaderSafe(location.value)
  }

  /**
   * The response to a route: a redirect tries the primary target, then on
   * rejection the fallback, and a rejection of the fallback escapes
   * `handleRequest`; generation answers 200 or 500; missing parameters 400.
   */
  function Respond(pages: string -> Option<string>, route: Route): Response {
    match route
    case DashRedirect(primary, fallback) =>
      var first := DashOf(pages(primary));
      if Redirectable(first) then Found(first.value)
      else
        var second := DashOf(pages(fallback));
        if Redirectable(second) then Found(second.value) else Crashed
    case HlsRedirect(primary, fallback) =>
      var first := HlsOf(pages(primary));
      if Redirectable(first) then Found(first.value)
      else
        var second := HlsOf(pages(fallback));
        if Redirectable(second) then Found(second.value) else Crashed
    case Generate(videoUrl, channelName) =>
      var url := Resolve(pages, videoUrl, channelName);
      if url.Some? then UrlJson(url.value) else MessageJson(500, "Failed to generate URL")
    case MissingParameters => MessageJson(400, "Missing parameters")
    case ServeForm => FormPage
  }

  /** The URLs fetched while answering a route, in order. */
  function Fetches(pages: string -> Option<string>, route: Route): seq<string> {
    match route
    case DashRedirect(primary, fallback) =>
      if Redirectable(DashOf(pages(primary))) then [primary] else [primary, fallback]
    case HlsRedirect(primary, fallback) =>
      if Redirectable(HlsOf(pages(primary))) then [primary] else [primary, fallback]
    case Generate(videoUrl, channelName) => ResolveFetches(pages, videoUrl, channelName)
    case MissingParameters => []
    case ServeForm => []
  }

  /**
   * The `master.mpd` branch: `dashUrl` on the primary target and a 302 to it; in
   * the `catch`, the same with the fallback target.
   */
  method RedirectDash(net: Upstream, primary: string, fallback: string) returns (response: Response)
    modifies net
    ensures response == Respond(net.pages, DashRedirect(primary, fallback))
    ensures net.requests == old(net.requests) + Fetches(net.pages, DashRedirect(primary, fallback))
  {
    var first := DashUrl(net, primary);
    if first.Some? && HeaderSafe(first.value) {
      response := Found(first.value);
    } else {
      // the extractor rejected, or `writeHead` threw on the Location: the catch
      // tries the fallback, and a second failure escapes to the server's catch-all
      var second := DashUrl(net, fallback);
      response := if second.Some? && HeaderSafe(second.value) then Found(second.value) else Crashed;
    }
  }

  /**
   * The `master.m3u8` branch: `hlsUrl` on the primary target and a 302 to it; in
   * the `catch`, the same with the fallback target.
   */
  method RedirectHls(net: Upstream, primary: string, fallback: string) returns (response: Response)
    modifies net
    ensures response == Respond(net.pages, HlsRedirect(primary, fallback))
    ensures net.requests == old(net.requests) + Fetches(net.pages, HlsRedirect(primary, fallback))
  {
    var first := HlsUrl(net, primary);
    if first.Some? && HeaderSafe(first.value) {
      response := Found(first.value);
    } else {
      // the extractor rejected, or `writeHead` threw on the Location: the catch
      // tries the fallback, and a second failure escapes to the server's catch-all
      var second := HlsUrl(net, fallback);
      response := if second.Some? && HeaderSafe(second.value) then Found(second.value) else Crashed;
    }
  }

  /** The `generate-url` branch with both query values given: resolve, then 200 with the URL or 500. */
  method AnswerGenerate(store: StreamStore, net: Upstream, videoUrl: string, channelName: string)
    returns (response: Response)
    requires store.Valid()
    modifies store, net
    ensures store.Valid()
    ensures response == Respond(net.pages, Generate(videoUrl, channelName))
    ensures net.requests == old(net.requests) + Fetches(net.pages, Generate(videoUrl, channelName))
    ensures store.rows == old(store.rows) + Recorded(net.pages, videoUrl, channelName, old(store.nextId))
    ensures store.nextId == old(store.nextId) + |Recorded(net.pages, videoUrl, channelName, old(store.nextId))|
  {
    var url := GenerateStreamingUrl(store, net, videoUrl, channelName);
    response := if url.Some? then UrlJson(url.value) else MessageJson(500, "Failed to generate URL");
  }

  /** The rows answering a route appends when the table's next id is `id`. */
  function RouteRecorded(pages: string -> Option<string>, route: Route, id: nat): seq<StreamRow> {
    if route.Generate? then Recorded(pages, route.videoUrl, route.channelName, id) else []
  }

  /** Answers a dispatched route: runs its branch of `handleRequest`. */
  method Answer(store: StreamStore, net: Upstream, route: Route) returns (response: Response)
    requires store.Valid()
    modifies store, net
    ensures store.Valid()
    ensures response == Respond(net.pages, route)
    ensures net.requests == old(net.requests) + Fetches(net.pages, route)
    ensures store.rows == old(store.rows) + RouteRecorded(net.pages, route, old(store.nextId))
    ensures store.nextId == old(store.nextId) + |RouteRecorded(net.pages, route, old(store.nextId))|
  {
    match route {
      case DashRedirect(primary, fallback) =>
        response := RedirectDash(net, primary, fallback);
      case HlsRedirect(primary, fallback) =>
        response := RedirectHls(net, primary, fallback);
      case Generate(video, channel) =>
        response := AnswerGenerate(store, net, video, channel);
      case MissingParameters =>
        response := MessageJson(400, "Missing parameters");
      case ServeForm =>
        response := FormPage;
    }
  }

  /** `handleRequest` for a request with this pathname and these `videoUrl` and `channelName` query values. */
  method HandleRequest(store: StreamStore, net: Upstream, pathname: string,
                       videoUrl: Option<string>, channelName: Option<string>)
    returns (response: Response)
    requires store.Valid()
    modifies store, net
    ensures store.Valid()
    ensures var route := Dispatch(SplitPath(pathname), videoUrl, channelName);
            && response == Respond(net.pages, route)
            && net.requests == old(net.requests) + Fetches(net.pages, route)
            && store.rows == old(store.rows) + RouteRecorded(net.pages, route, old(store.nextId))
            && store.nextId == old(store.nextId) + |RouteRecorded(net.pages, route, old(store.nextId))|
  {
    var route := Dispatch(SplitPath(pathname), videoUrl, channelName);
    response := Answer(store, net, route);
  }

  // ---------------------------------------------------------------------------
  // Properties of dispatch

  /**
   * `/<a>/<name>/master.mpd` redirects through the DASH extractor and
   * `/<a>/<name>/master.m3u8` through the HLS extractor, with targets built from
   * `<name>`; this wins over `generate-url` in the first segment, and the query
   * plays no part.
   */
  lemma ManifestPathRedirects(a: string, name: string, file: string, videoUrl: Option<string>, channelName: Option<string>)
    requires '/' !in a && '/' !in name
    requires file == "master.mpd" || file == "master.m3u8"
    ensures var route := Dispatch(SplitPath("/" + a + "/" + name + "/" + file), videoUrl, channelName);
            && route == (if file == "master.mpd" then DashRedirect(ChannelTarget(name), VideoTarget(name))
                         else HlsRedirect(ChannelTarget(name), VideoTarget(name)))
  {
    var segments := ["", a, name, file];
    assert '/' !in file;
    assert JoinPath(segments) == "/" + a + "/" + name + "/" + file by {
      assert JoinPath(segments[3..]) == file;
      assert JoinPath(segments[2..]) == name + "/" + file;
      assert JoinPath(segments[1..]) == a + "/" + (name + "/" + file);
    }
    SplitJoin(segments);
  }

  /**
   * A path whose second segment is `generate-url` and that names no manifest in
   * its fourth runs the resolution only when both query values are given;
   * otherwise it answers 400 `Missing parameters` without fetching anything.
   */
  lemma GenerateUrlSegments(pages: string -> Option<string>, segments: seq<string>,
                            videoUrl: Option<string>, channelName: Option<string>)
    requires |segments| > 1 && segments[1] == GenerateUrlSegment
    requires |segments| > 3 ==> segments[3] != "master.mpd" && segments[3] != "master.m3u8"
    ensures var route := Dispatch(segments, videoUrl, channelName);
            && (Given(videoUrl) && Given(channelName) ==> route == Generate(videoUrl.value, channelName.value))
            && (!(Given(videoUrl) && Given(channelName)) ==>
                  Respond(pages, route) == MessageJson(400, "Missing parameters") && Fetches(pages, route) == [])
  {
  }

  /** The pathname `/generate-url` itself: the case the HTML form submits to. */
  lemma GenerateUrlPath(pages: string -> Option<string>, videoUrl: Option<string>, channelName: Option<string>)
    ensures var route := Dispatch(SplitPath("/" + GenerateUrlSegment), videoUrl, channelName);
            && (Given(videoUrl) && Given(channelName) ==> route == Generate(videoUrl.value, channelName.value))
            && (!(Given(videoUrl) && Given(channelName)) ==>
                  Respond(pages, route) == MessageJson(400, "Missing parameters") && Fetches(pages, route) == [])
  {
    SplitTwoSegments(GenerateUrlSegment);
    GenerateUrlSegments(pages, ["", GenerateUrlSegment], videoUrl, channelName);
  }

  /** `/x` splits into an empty segment and `x`. */
  lemma SplitTwoSegments(x: string)
    requires '/' !in x
    ensures SplitPath("/" + x) == ["", x]
  {
    assert JoinPath(["", x]) == "/" + x;
    SplitJoin(["", x]);
  }

  /** The root path serves the form, fetching nothing. */
  lemma RootServesForm(pages: string -> Option<string>, videoUrl: Option<string>, channelName: Option<string>)
    ensures var route := Dispatch(SplitPath("/"), videoUrl, channelName);
            Respond(pages, route) == FormPage && Fetches(pages, route) == []
  {
    SplitTwoSegments("");
    assert "/" + "" == "/";
  }

  /**
   * A `master.mpd` redirect's Location is a URL the DASH extractor produced and
   * `writeHead` accepts: non-empty, on one line and header-safe, from the primary
   * target's page, or from the fallback's when the primary gives nothing usable.
   */
  lemma DashRedirectLocation(pages: string -> Option<string>, primary: string, fallback: string, location: string)
    requires Respond(pages, DashRedirect(primary, fallback)) == Found(location)
    ensures location != [] && SingleLine(location) && HeaderSafe(location)
    ensures DashOf(pages(primary)) == Some(location) ||
            (!Redirectable(DashOf(pages(primary))) && DashOf(pages(fallback)) == Some(location))
  {
  }

  /**
   * A `master.m3u8` redirect's Location is a URL the HLS extractor produced and
   * `writeHead` accepts: on one line, ending in `.m3u8` and header-safe, from the
   * primary target's page, or from the fallback's when the primary gives nothing
   * usable.
   */
  lemma HlsRedirectLocation(pages: string -> Option<string>, primary: string, fallback: string, location: string)
    requires Respond(pages, HlsRedirect(primary, fallback)) == Found(location)
    ensures SingleLine(location) && |HlsExt| <= |location| && location[|location| - |HlsExt|..] == HlsExt
    ensures HeaderSafe(location)
    ensures HlsOf(pages(primary)) == Some(location) ||
            (!Redirectable(HlsOf(pages(primary))) && HlsOf(pages(fallback)) == Some(location))
  {
  }

  /**
   * A redirect route fetches its fallback exactly when the primary gives no usable
   * Location, and crashes (500 from the catch-all) exactly when neither does.
   */
  lemma RedirectFallback(pages: string -> Option<string>, route: Route)
    requires route.DashRedirect? || route.HlsRedirect?
    ensures var first := if route.DashRedirect? then DashOf(pages(route.primary)) else HlsOf(pages(route.primary));
            var second := if route.DashRedirect? then DashOf(pages(route.fallback)) else HlsOf(pages(route.fallback));
            && (Fetches(pages, route) == [route.primary, route.fallback] <==> !Redirectable(first))
            && (Fetches(pages, route) == [route.primary] <==> Redirectable(first))
            && (Respond(pages, route) == Crashed <==> !Redirectable(first) && !Redirectable(second))
  {
  }

  /**
   * A primary DASH match holding a character above U+00FF makes `writeHead` throw:
   * the fallback page is fetched and answers instead.
   */
  lemma WideLocationFallsBack(pages: string -> Option<string>, primary: string, fallback: string, url: string, j: nat)
    requires DashOf(pages(primary)) == Some(url)
    requires j < |url| && '\U{100}' <= url[j]
    ensures Fetches(pages, DashRedirect(primary, fallback)) == [primary, fallback]
    ensures Respond(pages, DashRedirect(primary, fallback)) ==
            (if Redirectable(DashOf(pages(fallback))) then Found(DashOf(pages(fallback)).value) else Crashed)
  {
    assert !HeaderChar(url[j]);
  }

  /**
   * Only the two manifest routes answer with a redirect, and a response has status
   * 302 exactly when it is a redirect.
   */
  lemma OnlyManifestsRedirect(pages: string -> Option<string>, route: Route)
    ensures Respond(pages, route).Found? <==> Status(Respond(pages, route)) == 302
    ensures Status(Respond(pages, route)) == 302 ==> route.DashRedirect? || route.HlsRedirect?
  {
  }

  /** Every route fetches at most two URLs, and only the generate route can change the table. */
  lemma FetchBound(pages: string -> Option<string>, route: Route, id: nat)
    ensures |Fetches(pages, route)| <= 2
    ensures (route.MissingParameters? || route.ServeForm?) <==> Fetches(pages, route) == []
    ensures !route.Generate? ==> RouteRecorded(pages, route, id) == []
  {
  }
}
