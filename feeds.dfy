/** Feed entries as `feedparser` delivers them, and the slice of each feed
    an ingestion cycle looks at. */
module Feeds {
  import opened Wrappers
  import opened Urls

  /** An item of `media_content` or `media_thumbnail`; `url` is "" when the
      item has no url. */
  datatype MediaRef = MediaRef(url: string)

  /** An item of `links`; a missing attribute is "". */
  datatype LinkInfo = LinkInfo(rel: string, mimeType: string, href: string)

  /** One feed entry. `parsed` is `urlparse(link)`, None when it raised;
      `ogImage` is what the og:image scrape of the article page would find:
      None when the request failed or the page has no such tag, otherwise the
      tag's `content` attribute ("" when absent). */
  datatype FeedEntry = FeedEntry(
    link: string,
    parsed: Option<Url>,
    title: string,
    summary: string,
    mediaContent: seq<MediaRef>,
    mediaThumbnail: seq<MediaRef>,
    links: seq<LinkInfo>,
    ogImage: Option<string>)

  /** Entries looked at per source and cycle. */
  const ENTRIES_PER_SOURCE: nat := 5

  /** `entries[:5]`. */
  function Head<T>(entries: seq<T>): (r: seq<T>)
    ensures |r| <= ENTRIES_PER_SOURCE && |r| <= |entries|
    ensures r == entries[..|r|]
    ensures |entries| <= ENTRIES_PER_SOURCE ==> r == entries
    ensures |entries| > ENTRIES_PER_SOURCE ==> |r| == ENTRIES_PER_SOURCE
  {
    if |entries| <= ENTRIES_PER_SOURCE then entries else entries[..ENTRIES_PER_SOURCE]
  }

  /** The entries one cycle processes, source after source: the first five of
      every source. */
  function Window<T>(sources: seq<seq<T>>): (r: seq<T>)
    ensures |r| <= ENTRIES_PER_SOURCE * |sources|
    decreases |sources|
  {
    if sources == [] then []
    else Window(sources[..|sources| - 1]) + Head(sources[|sources| - 1])
  }

  /** Every entry a cycle processes is among the first five of its source. */
  lemma {:induction false} WindowFromHeads<T>(sources: seq<seq<T>>, x: T)
    requires x in Window(sources)
    ensures exists i, j :: 0 <= i < |sources| && 0 <= j < |sources[i]| &&
                           j < ENTRIES_PER_SOURCE && sources[i][j] == x
    decreases |sources|
  {
    var n := |sources|;
    var last := Head(sources[n - 1]);
    if x in last {
      var j :| 0 <= j < |last| && last[j] == x;
      assert sources[n - 1][j] == x;
    } else {
      var init := sources[..n - 1];
      WindowFromHeads(init, x);
      var i, j :| 0 <= i < |init| && 0 <= j < |init[i]| && j < ENTRIES_PER_SOURCE && init[i][j] == x;
      assert sources[i] == init[i];
    }
  }

  /** Taking one more source appends that source's first five entries. */
  lemma WindowSnoc<T>(sources: seq<seq<T>>, i: nat)
    requires i < |sources|
    ensures Window(sources[..i + 1]) == Window(sources[..i]) + Head(sources[i])
  {
    assert sources[..i + 1][..i] == sources[..i];
  }
}
