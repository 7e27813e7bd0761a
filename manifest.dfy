/**
 * The pattern-matching step of `dashUrl` and `hlsUrl` (app.js:30-41): the two
 * fixed ECMAScript regular expressions applied to a page body, followed by `[0]`.
 *
 *   DASH  /(?<=dashManifestUrl":").+?(?=",)/g
 *   HLS   /(?<=hlsManifestUrl":").*\.m3u8/g
 *
 * A match is described by the positions [s, e) it occupies in the body.  The
 * declarative predicates (DashMatchAt, HlsMatchAt, FirstDashMatch,
 * FirstHlsMatch) say what ECMA-262 section 22.2 makes of each pattern; the
 * functions below them follow the backtracking matcher step by step, and their
 * contracts tie the two together.
 */
module Manifest {
  import opened Wrappers

  /** Text the DASH lookbehind requires right before the match. */
  const DashKey: string := "dashManifestUrl\":\""
  /** Text the DASH lookahead requires right after the match. */
  const DashEnd: string := "\","
  /** Text the HLS lookbehind requires right before the match. */
  const HlsKey: string := "hlsManifestUrl\":\""
  /** The literal `\.m3u8` every HLS match ends with. */
  const HlsExt: string := ".m3u8"

  /** The LineTerminator code points, which `.` does not match (ECMA-262 section 12.3). */
  predicate IsLineTerminator(c: char) {
    c == '\n' || c == '\r' || c == '\U{2028}' || c == '\U{2029}'
  }

  /** Every character of `s` is matched by `.`. */
  predicate SingleLine(s: string) {
    forall j :: 0 <= j < |s| ==> !IsLineTerminator(s[j])
  }

  /** `t` occurs in `body` ending at position `p`: what a lookbehind for `t` checks at `p`. */
  predicate EndsAt(body: string, p: int, t: string) {
    |t| <= p <= |body| && body[p - |t| .. p] == t
  }

  /** `t` occurs in `body` starting at position `p`: what a lookahead for `t` checks at `p`. */
  predicate StartsAt(body: string, p: int, t: string) {
    0 <= p && p + |t| <= |body| && body[p .. p + |t|] == t
  }

  /** body[s..e] is a match of `(?<=dashManifestUrl":").+?(?=",)`. */
  predicate DashMatchAt(body: string, s: int, e: int) {
    EndsAt(body, s, DashKey) && s < e <= |body| && SingleLine(body[s..e]) && StartsAt(body, e, DashEnd)
  }

  /** body[s..e] is a match of `(?<=hlsManifestUrl":").*\.m3u8`. */
  predicate HlsMatchAt(body: string, s: int, e: int) {
    EndsAt(body, s, HlsKey) && s + |HlsExt| <= e <= |body| && SingleLine(body[s..e]) && EndsAt(body, e, HlsExt)
  }

  /**
   * The match the DASH pattern reports first: the leftmost start position, and at
   * that position the shortest run, since `.+?` is lazy.
   */
  ghost predicate FirstDashMatch(body: string, s: int, e: int) {
    DashMatchAt(body, s, e) &&
    forall s', e' :: DashMatchAt(body, s', e') ==> s < s' || (s == s' && e <= e')
  }

  /**
   * The match the HLS pattern reports first: the leftmost start position, and at
   * that position the longest run, since `.*` is greedy.
   */
  ghost predicate FirstHlsMatch(body: string, s: int, e: int) {
    HlsMatchAt(body, s, e) &&
    forall s', e' :: HlsMatchAt(body, s', e') ==> s < s' || (s == s' && e' <= e)
  }

  // ---------------------------------------------------------------------------
  // DASH: lazy `.+?` followed by the lookahead `(?=",)`

  /**
   * The lazy quantifier has consumed body[s..e-1] and now consumes body[e-1]:
   * that character must not be a line terminator; then the lookahead is tried,
   * and on failure one more character is consumed.
   */
  function LazyEnd(body: string, s: nat, e: nat): (r: Option<nat>)
    requires s < e <= |body| + 1
    requires SingleLine(body[s..e - 1])
    decreases |body| + 1 - e
    ensures r.Some? ==> e <= r.value <= |body| && SingleLine(body[s..r.value]) && StartsAt(body, r.value, DashEnd)
    ensures forall e' :: e <= e' <= |body| && SingleLine(body[s..e']) && StartsAt(body, e', DashEnd) ==>
                         r.Some? && r.value <= e'
  {
    if e > |body| then None
    else if IsLineTerminator(body[e - 1]) then
      assert forall e' :: e <= e' <= |body| ==> body[s..e'][e - 1 - s] == body[e - 1];
      None
    else
      assert body[s..e] == body[s..e - 1] + [body[e - 1]];
      if StartsAt(body, e, DashEnd) then Some(e)
      else LazyEnd(body, s, e + 1)
  }

  /**
   * The DASH matcher tried at start position `p` alone: the lookbehind, then the
   * lazy run from one character on.  The result is the shortest match starting
   * at `p`.
   */
  function DashAt(body: string, p: nat): (r: Option<nat>)
    requires p <= |body|
    ensures r.Some? ==> DashMatchAt(body, p, r.value)
    ensures forall e' :: DashMatchAt(body, p, e') ==> r.Some? && r.value <= e'
  {
    if EndsAt(body, p, DashKey) then LazyEnd(body, p, p + 1) else None
  }

  /** The DASH matcher tried at start positions p, p+1, ..., |body| in turn. */
  function DashFrom(body: string, p: nat): (r: Option<(nat, nat)>)
    requires p <= |body|
    decreases |body| - p
    ensures r.Some? ==> p <= r.value.0 && DashMatchAt(body, r.value.0, r.value.1)
    ensures r.Some? ==> forall s', e' :: p <= s' && DashMatchAt(body, s', e') ==>
                          r.value.0 < s' || (r.value.0 == s' && r.value.1 <= e')
    ensures r.None? ==> forall s', e' :: p <= s' ==> !DashMatchAt(body, s', e')
  {
    var run := DashAt(body, p);
    if run.Some? then Some((p, run.value))
    else if p == |body| then None
    else DashFrom(body, p + 1)
  }

  /**
   * `body.match(/(?<=dashManifestUrl":").+?(?=",)/g)[0]`: Some(the first match),
   * or None where `match` yields null and the indexing throws.
   */
  function DashMatch(body: string): (r: Option<string>)
    ensures r.Some? <==> exists s, e :: DashMatchAt(body, s, e)
    ensures r.Some? ==> exists s, e :: FirstDashMatch(body, s, e) && r.value == body[s..e]
    ensures r.Some? ==> r.value != [] && SingleLine(r.value)
  {
    match DashFrom(body, 0)
    case None => None
    case Some((s, e)) =>
      assert FirstDashMatch(body, s, e);
      Some(body[s..e])
  }

  // ---------------------------------------------------------------------------
  // HLS: greedy `.*` that gives characters back until `\.m3u8` matches

  /** Where greedy `.*` started at `p` stops: the first line terminator at or after `p`, or the end. */
  function LineEnd(body: string, p: nat): (r: nat)
    requires p <= |body|
    decreases |body| - p
    ensures p <= r <= |body| && SingleLine(body[p..r])
    ensures r < |body| ==> IsLineTerminator(body[r])
  {
    if p == |body| || IsLineTerminator(body[p]) then p
    else
      var r := LineEnd(body, p + 1);
      assert body[p..r] == [body[p]] + body[p + 1..r];
      r
  }

  /**
   * `.*` has consumed body[s..j]; the literal `\.m3u8` is tried at `j`, and on
   * failure `.*` gives back one character.
   */
  function GreedyEnd(body: string, s: nat, j: nat): (r: Option<nat>)
    requires s <= j <= |body|
    decreases j - s
    ensures r.Some? ==> s + |HlsExt| <= r.value <= j + |HlsExt| && EndsAt(body, r.value, HlsExt)
    ensures forall e' :: s + |HlsExt| <= e' <= j + |HlsExt| && EndsAt(body, e', HlsExt) ==>
                         r.Some? && e' <= r.value
  {
    if StartsAt(body, j, HlsExt) then Some(j + |HlsExt|)
    else if j == s then None
    else GreedyEnd(body, s, j - 1)
  }

  /** A run that ends in `.m3u8` no later than where `.*` stopped lies on one line. */
  lemma {:induction false} ExtensionStaysOnLine(body: string, s: nat, e: nat)
    requires s <= |body| && s + |HlsExt| <= e
    requires e - |HlsExt| <= LineEnd(body, s)
    requires EndsAt(body, e, HlsExt)
    ensures SingleLine(body[s..e])
  {
    var m := LineEnd(body, s);
    forall j | 0 <= j < e - s
      ensures !IsLineTerminator(body[s..e][j])
    {
      if s + j < m {
        assert body[s..e][j] == body[s..m][j];
      } else {
        assert body[s..e][j] == HlsExt[s + j - (e - |HlsExt|)];
      }
    }
  }

  /** A single-line run starting at `s` cannot reach past where `.*` stopped. */
  lemma {:induction false} SingleLineWithinLine(body: string, s: nat, e: nat)
    requires s <= e <= |body|
    requires SingleLine(body[s..e])
    ensures e <= LineEnd(body, s)
  {
  }

  /**
   * The HLS matcher tried at start position `p` alone: the lookbehind, then `.*`
   * to the end of the line, then give-back until `\.m3u8` matches.  The result is
   * the longest match starting at `p`.
   */
  function HlsAt(body: string, p: nat): (r: Option<nat>)
    requires p <= |body|
    ensures r.Some? ==> HlsMatchAt(body, p, r.value)
    ensures forall e' :: HlsMatchAt(body, p, e') ==> r.Some? && e' <= r.value
  {
    var run := if EndsAt(body, p, HlsKey) then GreedyEnd(body, p, LineEnd(body, p)) else None;
    assert run.Some? ==> HlsMatchAt(body, p, run.value) by {
      if run.Some? { ExtensionStaysOnLine(body, p, run.value); }
    }
    assert forall e' :: HlsMatchAt(body, p, e') ==> run.Some? && e' <= run.value by {
      forall e' | HlsMatchAt(body, p, e') ensures run.Some? && e' <= run.value {
        SingleLineWithinLine(body, p, e');
      }
    }
    run
  }

  /** The HLS matcher tried at start positions p, p+1, ..., |body| in turn. */
  function HlsFrom(body: string, p: nat): (r: Option<(nat, nat)>)
    requires p <= |body|
    decreases |body| - p
    ensures r.Some? ==> p <= r.value.0 && HlsMatchAt(body, r.value.0, r.value.1)
    ensures r.Some? ==> forall s', e' :: p <= s' && HlsMatchAt(body, s', e') ==>
                          r.value.0 < s' || (r.value.0 == s' && e' <= r.value.1)
    ensures r.None? ==> forall s', e' :: p <= s' ==> !HlsMatchAt(body, s', e')
  {
    var run := HlsAt(body, p);
    if run.Some? then Some((p, run.value))
    else if p == |body| then None
    else HlsFrom(body, p + 1)
  }

  /**
   * `body.match(/(?<=hlsManifestUrl":").*\.m3u8/g)[0]`: Some(the first match),
   * or None where `match` yields null and the indexing throws.
   */
  function HlsMatch(body: string): (r: Option<string>)
    ensures r.Some? <==> exists s, e :: HlsMatchAt(body, s, e)
    ensures r.Some? ==> exists s, e :: FirstHlsMatch(body, s, e) && r.value == body[s..e]
    ensures r.Some? ==> |HlsExt| <= |r.value| && r.value[|r.value| - |HlsExt|..] == HlsExt && SingleLine(r.value)
  {
    match HlsFrom(body, 0)
    case None => None
    case Some((s, e)) =>
      assert FirstHlsMatch(body, s, e);
      assert body[s..e][e - s - |HlsExt|..] == body[e - |HlsExt|..e];
      Some(body[s..e])
  }

  // ---------------------------------------------------------------------------
  // What a caller of `dashUrl` / `hlsUrl` can rely on

  /**
   * A DASH result is a non-empty single-line run that the body shows right after
   * `dashManifestUrl":"` and right before `",`, and no `",` starts inside it after
   * its first character: the lazy quantifier stops at the first one.
   */
  lemma DashMatchShape(body: string, url: string)
    requires DashMatch(body) == Some(url)
    ensures url != [] && SingleLine(url)
    ensures exists s :: EndsAt(body, s, DashKey) && StartsAt(body, s, url) && StartsAt(body, s + |url|, DashEnd) &&
                        forall p :: s < p < s + |url| ==> !StartsAt(body, p, DashEnd)
  {
    var s, e :| FirstDashMatch(body, s, e) && url == body[s..e];
    forall p | s < p < e
      ensures !StartsAt(body, p, DashEnd)
    {
      if StartsAt(body, p, DashEnd) {
        assert body[s..p] == body[s..e][..p - s];
        assert DashMatchAt(body, s, p);
        assert false;
      }
    }
    assert StartsAt(body, s, url);
  }

  /**
   * An HLS result is a single-line run ending in `.m3u8` that the body shows right
   * after `hlsManifestUrl":"`, and no longer single-line run from the same start
   * ends in `.m3u8`: the greedy quantifier reaches the last `.m3u8` on that line.
   */
  lemma HlsMatchShape(body: string, url: string)
    requires HlsMatch(body) == Some(url)
    ensures |HlsExt| <= |url| && url[|url| - |HlsExt|..] == HlsExt && SingleLine(url)
    ensures exists s :: EndsAt(body, s, HlsKey) && StartsAt(body, s, url) &&
                        forall e :: s + |url| < e <= |body| && SingleLine(body[s..e]) ==> !EndsAt(body, e, HlsExt)
  {
    var s, e :| FirstHlsMatch(body, s, e) && url == body[s..e];
    forall e' | s + |url| < e' <= |body| && SingleLine(body[s..e'])
      ensures !EndsAt(body, e', HlsExt)
    {
      if EndsAt(body, e', HlsExt) {
        assert HlsMatchAt(body, s, e');
        assert false;
      }
    }
    assert StartsAt(body, s, url);
  }

  /**
   * body holds a well-formed DASH field whose value `url` starts at `k`:
   * `dashManifestUrl":"` + url + `",`, with url non-empty, on one line and free of `"`.
   */
  predicate DashFieldAt(body: string, k: int, url: string) {
    && EndsAt(body, k, DashKey) && StartsAt(body, k, url) && StartsAt(body, k + |url|, DashEnd)
    && url != [] && SingleLine(url) && '"' !in url
  }

  /**
   * A body holding a well-formed DASH field, with no DASH match starting before
   * the field's value, yields exactly that value, whatever surrounds the field.
   */
  lemma {:induction false} DashFieldFirst(body: string, k: nat, url: string)
    requires DashFieldAt(body, k, url)
    requires forall s, e :: s < k ==> !DashMatchAt(body, s, e)
    ensures DashMatch(body) == Some(url)
  {
    assert DashMatchAt(body, k, k + |url|);
    var found := DashFrom(body, 0);
    var s, e := found.value.0, found.value.1;
    assert s == k && e <= k + |url|;
    QuoteFreeRun(body, k, url, e);
    assert body[s..e] == body[k..k + |url|];
  }

  /**
   * A body that starts with a well-formed DASH field, `dashManifestUrl":"` + url +
   * `",`, yields exactly that url, whatever follows.
   */
  lemma DashWellFormedField(url: string, rest: string)
    requires url != [] && SingleLine(url) && '"' !in url
    ensures DashMatch(DashKey + url + DashEnd + rest) == Some(url)
  {
    var body := DashKey + url + DashEnd + rest;
    var n := |DashKey|;
    assert body[..n] == DashKey;
    assert body[n..n + |url|] == url;
    assert body[n + |url|..n + |url| + |DashEnd|] == DashEnd;
    DashFieldFirst(body, n, url);
  }

  /** A run without `"` holds no `",`: the first `",` after its start is at or after its end. */
  lemma QuoteFreeRun(body: string, n: nat, url: string, p: nat)
    requires StartsAt(body, n, url) && '"' !in url
    requires n <= p && StartsAt(body, p, DashEnd)
    ensures n + |url| <= p
  {
    assert body[p] == body[p..p + |DashEnd|][0] == '"';
    assert forall j :: n <= j < n + |url| ==> body[j] == body[n..n + |url|][j - n];
  }

  /**
   * body holds a well-formed HLS field whose value `url` starts at `k`:
   * `hlsManifestUrl":"` + url, with url on one line and ending in `.m3u8`.
   */
  predicate HlsFieldAt(body: string, k: int, url: string) {
    && EndsAt(body, k, HlsKey) && StartsAt(body, k, url)
    && |HlsExt| <= |url| && url[|url| - |HlsExt|..] == HlsExt && SingleLine(url)
  }

  /** No `.m3u8` ends after `e` on the line that runs from `k`: greedy `.*` cannot go past `e`. */
  ghost predicate NoLaterExtension(body: string, k: int, e: int) {
    forall e' :: e < e' <= |body| && 0 <= k <= e' && SingleLine(body[k..e']) ==> !EndsAt(body, e', HlsExt)
  }

  /**
   * A body holding a well-formed HLS field, with no HLS match starting before the
   * field's value and no later `.m3u8` on the same line, yields exactly that value.
   */
  lemma {:induction false} HlsFieldFirst(body: string, k: nat, url: string)
    requires HlsFieldAt(body, k, url)
    requires NoLaterExtension(body, k, k + |url|)
    requires forall s, e :: s < k ==> !HlsMatchAt(body, s, e)
    ensures HlsMatch(body) == Some(url)
  {
    var n := k + |url|;
    assert body[n - |HlsExt|..n] == url[|url| - |HlsExt|..] by {
      assert body[k..n] == url;
    }
    assert HlsMatchAt(body, k, n);
    var found := HlsFrom(body, 0);
    var s, e := found.value.0, found.value.1;
    assert s == k && n <= e;
    assert e == n;
    assert body[s..e] == url;
  }

  /**
   * A body that starts with a well-formed HLS field, `hlsManifestUrl":"` + url where
   * url ends in `.m3u8` and the line ends right after it, yields exactly that url.
   */
  lemma HlsWellFormedField(url: string, rest: string)
    requires |HlsExt| <= |url| && url[|url| - |HlsExt|..] == HlsExt && SingleLine(url)
    requires rest == [] || IsLineTerminator(rest[0])
    ensures HlsMatch(HlsKey + url + rest) == Some(url)
  {
    var body := HlsKey + url + rest;
    var k := |HlsKey|;
    var n := k + |url|;
    assert body[..k] == HlsKey;
    assert body[k..n] == url;
    forall e' | n < e' <= |body|
      ensures !SingleLine(body[k..e'])
    {
      assert body[k..e'][|url|] == body[n] == rest[0];
    }
    HlsFieldFirst(body, k, url);
  }

  /** The DASH example: the field's value is returned without its quotes. */
  lemma DashExample()
    ensures DashMatch(DashKey + "https://example.com/abc.mpd" + DashEnd) == Some("https://example.com/abc.mpd")
  {
    assert DashKey + "https://example.com/abc.mpd" + DashEnd + "" == DashKey + "https://example.com/abc.mpd" + DashEnd;
    DashWellFormedField("https://example.com/abc.mpd", "");
  }

  /** Lazy `.+?`: the first `",` ends the match, not a later one on the same line. */
  lemma DashLazyExample()
    ensures DashMatch(DashKey + "a.mpd" + DashEnd + "b" + DashEnd) == Some("a.mpd")
  {
    assert DashKey + "a.mpd" + DashEnd + ("b" + DashEnd) == DashKey + "a.mpd" + DashEnd + "b" + DashEnd;
    DashWellFormedField("a.mpd", "b" + DashEnd);
  }

  /** The HLS example: the field's value up to and including `.m3u8`. */
  lemma HlsExample()
    ensures HlsMatch(HlsKey + "https://example.com/abc.m3u8") == Some("https://example.com/abc.m3u8")
  {
    assert HlsKey + "https://example.com/abc.m3u8" + "" == HlsKey + "https://example.com/abc.m3u8";
    HlsWellFormedField("https://example.com/abc.m3u8", "");
  }

  /** Greedy `.*`: the match runs to the last `.m3u8` of the line, and not past the line's end. */
  lemma HlsGreedyExample()
    ensures HlsMatch(HlsKey + "a.m3u8?b.m3u8" + "\nc.m3u8") == Some("a.m3u8?b.m3u8")
  {
    HlsWellFormedField("a.m3u8?b.m3u8", "\nc.m3u8");
  }

  /**
   * An HLS field as the first member of a one-line JSON object: the match starts
   * after the key, and stops at the value's `.m3u8` when what follows the value
   * holds no `8`, so that no later `.m3u8` can end on the line.
   */
  lemma HlsJsonField(url: string, tail: string)
    requires |HlsExt| <= |url| && url[|url| - |HlsExt|..] == HlsExt && SingleLine(url)
    requires '8' !in tail
    ensures HlsMatch("{\"" + HlsKey + url + tail) == Some(url)
  {
    var body := "{\"" + HlsKey + url + tail;
    var k := 2 + |HlsKey|;
    var n := k + |url|;
    assert body[2..k] == HlsKey;
    assert body[k..n] == url;
    forall e' | n < e' <= |body|
      ensures !EndsAt(body, e', HlsExt)
    {
      assert body[e' - 1] == tail[e' - 1 - n];
    }
    forall s, e | s < k
      ensures !HlsMatchAt(body, s, e)
    {
      if |HlsKey| <= s {
        assert body[s - |HlsKey|..s][0] == body[s - |HlsKey|];
      }
    }
    HlsFieldFirst(body, k, url);
  }

  /** The JSON form: `{"hlsManifestUrl":"https://example.com/i.m3u8","live":1}`. */
  lemma HlsJsonExample()
    ensures HlsMatch("{\"" + HlsKey + "https://example.com/i.m3u8" + "\",\"live\":1}") == Some("https://example.com/i.m3u8")
  {
    HlsJsonField("https://example.com/i.m3u8", "\",\"live\":1}");
  }
}
