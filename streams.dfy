/**
 * Resolution of a streaming URL (app.js:16-21, app.js:30-67): the fetch that
 * feeds the two extractors, the append-only `streams` table, and
 * `generateStreamingUrl`, which tries DASH on the channel's live page and falls
 * back to HLS on the video URL itself.
 */
module Streams {
  import opened Wrappers
  import opened Manifest

  /**
   * The web as the server sees it: `pages(url)` is the text `fetch(url)` then
   * `r.text()` produce, or None when the fetch rejects.  `requests` records every
   * URL fetched, in order.
   */
  class Upstream {
    const pages: string -> Option<string>
    ghost var requests: seq<string>

    constructor (pages: string -> Option<string>)
      ensures this.pages == pages && requests == []
    {
      this.pages := pages;
      requests := [];
    }

    method Fetch(url: string) returns (body: Option<string>)
      modifies this
      ensures body == pages(url)
      ensures requests == old(requests) + [url]
    {
      body := pages(url);
      requests := requests + [url];
    }
  }

  /** What `dashUrl` resolves to for a fetched page; None where it rejects. */
  function DashOf(page: Option<string>): (r: Option<string>)
    ensures r.Some? ==> r.value != [] && SingleLine(r.value)
  {
    if page.None? then None else DashMatch(page.value)
  }

  /** What `hlsUrl` resolves to for a fetched page; None where it rejects. */
  function HlsOf(page: Option<string>): (r: Option<string>)
    ensures r.Some? ==> |HlsExt| <= |r.value| && r.value[|r.value| - |HlsExt|..] == HlsExt && SingleLine(r.value)
  {
    if page.None? then None else HlsMatch(page.value)
  }

  /**
   * An extractor rejects exactly when the fetch failed or the page holds no
   * match; the caller cannot tell the two apart.
   */
  lemma ExtractionFailure(page: Option<string>)
    ensures DashOf(page).None? <==> page.None? || forall s, e :: !DashMatchAt(page.value, s, e)
    ensures HlsOf(page).None? <==> page.None? || forall s, e :: !HlsMatchAt(page.value, s, e)
  {
  }

  /** `dashUrl(ytUrl)`: one fetch, then the DASH pattern; a fetch failure and a missing match both give None. */
  method DashUrl(net: Upstream, ytUrl: string) returns (r: Option<string>)
    modifies net
    ensures r == DashOf(net.pages(ytUrl))
    ensures net.requests == old(net.requests) + [ytUrl]
  {
    var body := net.Fetch(ytUrl);
    if body.None? {
      r := None;
    } else {
      r := DashMatch(body.value);
    }
  }

  /** `hlsUrl(ytUrl)`: one fetch, then the HLS pattern; a fetch failure and a missing match both give None. */
  method HlsUrl(net: Upstream, ytUrl: string) returns (r: Option<string>)
    modifies net
    ensures r == HlsOf(net.pages(ytUrl))
    ensures net.requests == old(net.requests) + [ytUrl]
  {
    var body := net.Fetch(ytUrl);
    if body.None? {
      r := None;
    } else {
      r := HlsMatch(body.value);
    }
  }

  /** A row of the `streams` table. */
  datatype StreamRow = StreamRow(id: nat, videoUrl: string, channelName: string, streamingUrl: string)

  /**
   * The `streams` table: rows in insertion order and the next AUTOINCREMENT value.
   * Rows are only ever appended.
   */
  class StreamStore {
    var rows: seq<StreamRow>
    var nextId: nat

    /** Ids are positive, strictly increasing in insertion order, and below the next one handed out. */
    ghost predicate Valid()
      reads this
    {
      && 1 <= nextId
      && (forall j :: 0 <= j < |rows| ==> 1 <= rows[j].id < nextId)
      && (forall j, k :: 0 <= j < k < |rows| ==> rows[j].id < rows[k].id)
    }

    /** A freshly created table: empty, AUTOINCREMENT starting at 1. */
    constructor ()
      ensures Valid() && rows == [] && nextId == 1
    {
      rows := [];
      nextId := 1;
    }

    /** `storeStreamData`: INSERT one row; the table assigns the id. */
    method Insert(videoUrl: string, channelName: string, streamingUrl: string)
      requires Valid()
      modifies this
      ensures Valid()
      ensures rows == old(rows) + [StreamRow(old(nextId), videoUrl, channelName, streamingUrl)]
      ensures nextId == old(nextId) + 1
    {
      rows := rows + [StreamRow(nextId, videoUrl, channelName, streamingUrl)];
      nextId := nextId + 1;
    }
  }

  /** The channel's live page, `https://www.youtube.com/@<channelName>/live`. */
  function LiveUrl(channelName: string): string {
    "https://www.youtube.com/@" + channelName + "/live"
  }

  /** Distinct channel names give distinct live pages. */
  lemma LiveUrlInjective(a: string, b: string)
    requires LiveUrl(a) == LiveUrl(b)
    ensures a == b
  {
    var n := |"https://www.youtube.com/@"|;
    assert a == LiveUrl(a)[n..|LiveUrl(a)| - |"/live"|];
    assert b == LiveUrl(b)[n..|LiveUrl(b)| - |"/live"|];
  }

  /** The URL `generateStreamingUrl(videoUrl, channelName)` resolves to, or None where it rejects. */
  function Resolve(pages: string -> Option<string>, videoUrl: string, channelName: string): (r: Option<string>)
    ensures r.Some? ==> r.value != [] && SingleLine(r.value)
  {
    var dash := DashOf(pages(LiveUrl(channelName)));
    if dash.Some? then dash else HlsOf(pages(videoUrl))
  }

  /** The URLs `generateStreamingUrl` fetches, in order. */
  function ResolveFetches(pages: string -> Option<string>, videoUrl: string, channelName: string): (urls: seq<string>)
    ensures 1 <= |urls| <= 2 && urls[0] == LiveUrl(channelName)
    ensures |urls| == 2 ==> urls[1] == videoUrl
    ensures |urls| == 1 <==> DashOf(pages(LiveUrl(channelName))).Some?
  {
    if DashOf(pages(LiveUrl(channelName))).Some? then [LiveUrl(channelName)]
    else [LiveUrl(channelName), videoUrl]
  }

  /** The rows `generateStreamingUrl` appends when the table's next id is `id`. */
  function Recorded(pages: string -> Option<string>, videoUrl: string, channelName: string, id: nat): (added: seq<StreamRow>)
    ensures |added| <= 1
    ensures added == [] <==> Resolve(pages, videoUrl, channelName).None?
    ensures added != [] ==> added[0].id == id && added[0].videoUrl == videoUrl &&
                            added[0].channelName == channelName &&
                            Some(added[0].streamingUrl) == Resolve(pages, videoUrl, channelName)
  {
    var url := Resolve(pages, videoUrl, channelName);
    if url.Some? then [StreamRow(id, videoUrl, channelName, url.value)] else []
  }

  /**
   * `generateStreamingUrl`: DASH on the live page; on success store and return it.
   * Otherwise HLS on `videoUrl`; on success store and return it; otherwise reject
   * (None) with nothing stored.
   */
  method GenerateStreamingUrl(store: StreamStore, net: Upstream, videoUrl: string, channelName: string)
    returns (streamingUrl: Option<string>)
    requires store.Valid()
    modifies store, net
    ensures store.Valid()
    ensures streamingUrl == Resolve(net.pages, videoUrl, channelName)
    ensures net.requests == old(net.requests) + ResolveFetches(net.pages, videoUrl, channelName)
    ensures store.rows == old(store.rows) + Recorded(net.pages, videoUrl, channelName, old(store.nextId))
    ensures store.nextId == old(store.nextId) + |Recorded(net.pages, videoUrl, channelName, old(store.nextId))|
  {
    var liveUrl := LiveUrl(channelName);
    var dash := DashUrl(net, liveUrl);
    if dash.Some? {
      store.Insert(videoUrl, channelName, dash.value);
      return dash;
    }
    var hls := HlsUrl(net, videoUrl);
    if hls.Some? {
      store.Insert(videoUrl, channelName, hls.value);
    }
    return hls;
  }

  // ---------------------------------------------------------------------------
  // Properties of a resolution

  /**
   * A live page holding a well-formed DASH field, with no DASH match before the
   * field's value, resolves to that value, fetches nothing but the live page, and
   * records exactly one row.
   */
  lemma DashFirst(pages: string -> Option<string>, videoUrl: string, channelName: string,
                  k: nat, url: string, id: nat)
    requires pages(LiveUrl(channelName)).Some?
    requires DashFieldAt(pages(LiveUrl(channelName)).value, k, url)
    requires forall s, e :: s < k ==> !DashMatchAt(pages(LiveUrl(channelName)).value, s, e)
    ensures Resolve(pages, videoUrl, channelName) == Some(url)
    ensures ResolveFetches(pages, videoUrl, channelName) == [LiveUrl(channelName)]
    ensures Recorded(pages, videoUrl, channelName, id) == [StreamRow(id, videoUrl, channelName, url)]
  {
    DashFieldFirst(pages(LiveUrl(channelName)).value, k, url);
  }

  /**
   * When the live page yields no DASH URL (fetch failure or no match), the HLS
   * field of the page at `videoUrl` itself is used: with no HLS match before the
   * field's value and no later `.m3u8` on its line, that value is returned, the
   * live page is fetched first, `videoUrl` second, and one row is recorded.
   */
  lemma HlsFallback(pages: string -> Option<string>, videoUrl: string, channelName: string,
                    k: nat, url: string, id: nat)
    requires pages(LiveUrl(channelName)).None? || forall s, e :: !DashMatchAt(pages(LiveUrl(channelName)).value, s, e)
    requires pages(videoUrl).Some?
    requires HlsFieldAt(pages(videoUrl).value, k, url)
    requires NoLaterExtension(pages(videoUrl).value, k, k + |url|)
    requires forall s, e :: s < k ==> !HlsMatchAt(pages(videoUrl).value, s, e)
    ensures Resolve(pages, videoUrl, channelName) == Some(url)
    ensures ResolveFetches(pages, videoUrl, channelName) == [LiveUrl(channelName), videoUrl]
    ensures Recorded(pages, videoUrl, channelName, id) == [StreamRow(id, videoUrl, channelName, url)]
  {
    ExtractionFailure(pages(LiveUrl(channelName)));
    HlsFieldFirst(pages(videoUrl).value, k, url);
  }

  /** When neither extraction matches, the resolution rejects after two fetches and records nothing. */
  lemma BothFail(pages: string -> Option<string>, videoUrl: string, channelName: string, id: nat)
    requires pages(LiveUrl(channelName)).None? || forall s, e :: !DashMatchAt(pages(LiveUrl(channelName)).value, s, e)
    requires pages(videoUrl).None? || forall s, e :: !HlsMatchAt(pages(videoUrl).value, s, e)
    ensures Resolve(pages, videoUrl, channelName).None?
    ensures ResolveFetches(pages, videoUrl, channelName) == [LiveUrl(channelName), videoUrl]
    ensures Recorded(pages, videoUrl, channelName, id) == []
  {
    ExtractionFailure(pages(LiveUrl(channelName)));
    ExtractionFailure(pages(videoUrl));
  }

  /**
   * Every resolved URL is either the first DASH match of the live page, or, when
   * the live page has none, the first HLS match of the page at `videoUrl`.
   */
  lemma ResolvedFromFirstMatch(pages: string -> Option<string>, videoUrl: string, channelName: string, url: string)
    requires Resolve(pages, videoUrl, channelName) == Some(url)
    ensures || (var live := pages(LiveUrl(channelName));
                live.Some? && exists s, e :: FirstDashMatch(live.value, s, e) && url == live.value[s..e])
            || (var live := pages(LiveUrl(channelName));
                var video := pages(videoUrl);
                && (live.None? || forall s, e :: !DashMatchAt(live.value, s, e))
                && video.Some? && exists s, e :: FirstHlsMatch(video.value, s, e) && url == video.value[s..e])
  {
    ExtractionFailure(pages(LiveUrl(channelName)));
  }

  /**
   * Repeating a resolution against unchanged pages appends a second row with the
   * same URL and a larger id: the table keeps no uniqueness on its contents.
   */
  lemma RepeatedResolution(pages: string -> Option<string>, videoUrl: string, channelName: string, id: nat)
    requires Resolve(pages, videoUrl, channelName).Some?
    ensures var first := Recorded(pages, videoUrl, channelName, id);
            var second := Recorded(pages, videoUrl, channelName, id + |first|);
            && |first| == 1 && |second| == 1
            && first[0].streamingUrl == second[0].streamingUrl
            && first[0].id < second[0].id
  {
  }
}
