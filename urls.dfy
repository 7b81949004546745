/** The de-duplication key of a feed link (`canonicalize_url`). A link is
    taken in the form `urllib.parse.urlparse` hands it over: its six
    components, with the query already split into the pairs that
    `parse_qsl(query, keep_blank_values=True)` yields. */
module Urls {
  import opened Wrappers
  import opened Strings
  import opened Sequences

  datatype QueryPair = QueryPair(key: string, value: string)

  datatype Url = Url(
    scheme: string,
    netloc: string,
    path: string,
    params: string,
    query: seq<QueryPair>,
    fragment: string)

  /** Tracking parameters removed from the query (compared lower-cased). */
  const DROP_PARAMS: set<string> := {
    "utm_source", "utm_medium", "utm_campaign", "utm_term", "utm_content",
    "fbclid", "gclid", "mc_cid", "mc_eid"
  }

  predicate IsTracking(p: QueryPair) {
    Lower(p.key) in DROP_PARAMS
  }

  // ---------------------------------------------------------------------------
  // Query filtering
  // ---------------------------------------------------------------------------

  /** The query pairs that are not tracking parameters, in their original
      order (the list comprehension of `canonicalize_url`). */
  function KeepUntracked(q: seq<QueryPair>): (r: seq<QueryPair>)
    ensures |r| <= |q|
    decreases |q|
  {
    if q == [] then []
    else (if IsTracking(q[0]) then [] else [q[0]]) + KeepUntracked(q[1..])
  }

  /** Exactly the pairs that are not tracking parameters are kept. */
  lemma {:induction false} KeepUntrackedMembers(q: seq<QueryPair>)
    ensures forall p :: p in KeepUntracked(q) <==> p in q && !IsTracking(p)
    decreases |q|
  {
    if q != [] {
      KeepUntrackedMembers(q[1..]);
      assert forall p :: p in q <==> p == q[0] || p in q[1..];
    }
  }

  /** Filtering distributes over concatenation, so the kept pairs keep their
      relative order. */
  lemma {:induction false} KeepUntrackedAppend(a: seq<QueryPair>, b: seq<QueryPair>)
    ensures KeepUntracked(a + b) == KeepUntracked(a) + KeepUntracked(b)
    decreases |a|
  {
    if a == [] {
      assert a + b == b;
    } else {
      var head := if IsTracking(a[0]) then [] else [a[0]];
      TailOfConcat(a, b);
      assert KeepUntracked(a + b) == head + KeepUntracked(a[1..] + b);
      KeepUntrackedAppend(a[1..], b);
      Associative(head, KeepUntracked(a[1..]), KeepUntracked(b));
    }
  }

  /** A query without tracking parameters is left as it is. */
  lemma {:induction false} KeepUntrackedOfClean(q: seq<QueryPair>)
    requires forall p :: p in q ==> !IsTracking(p)
    ensures KeepUntracked(q) == q
    decreases |q|
  {
    if q != [] {
      assert q[0] in q;
      assert forall p :: p in q[1..] ==> p in q;
      KeepUntrackedOfClean(q[1..]);
    }
  }

  // ---------------------------------------------------------------------------
  // Path normalisation
  // ---------------------------------------------------------------------------

  /** A path as `canonicalize_url` leaves it: `/`, or non-empty without a
      trailing slash. */
  predicate PathNormalForm(p: string) {
    p == "/" || (p != "" && p[|p| - 1] != '/')
  }

  /** `path.rstrip("/") or "/"`: drops every trailing slash and turns an
      empty result into `/`. */
  function NormalizePath(p: string): (r: string)
    ensures PathNormalForm(r)
    ensures r == "/" <==> forall k :: 0 <= k < |p| ==> p[k] == '/'
    ensures r != "/" ==> |r| <= |p| && r == p[..|r|] && forall k :: |r| <= k < |p| ==> p[k] == '/'
  {
    var s := StripTrailing(p, '/');
    if s == "" then "/" else s
  }

  lemma NormalizePathOfNormal(p: string)
    requires PathNormalForm(p)
    ensures NormalizePath(p) == p
  {
  }

  /** Appending a slash does not change the normalised path. */
  lemma NormalizePathTrailingSlash(p: string)
    ensures NormalizePath(p + "/") == NormalizePath(p)
  {
    assert (p + "/")[..|p|] == p;
  }

  // ---------------------------------------------------------------------------
  // Canonical form
  // ---------------------------------------------------------------------------

  /** A URL in canonical form: lower-case scheme and host, normal path, no
      params, no fragment and no tracking parameter. */
  predicate IsCanonical(u: Url) {
    && IsLower(u.scheme)
    && IsLower(u.netloc)
    && PathNormalForm(u.path)
    && u.params == ""
    && u.fragment == ""
    && forall p :: p in u.query ==> !IsTracking(p)
  }

  /** The canonical form of a parsed link (`canonicalize_url` before
      `urlunparse` turns it back into text). */
  function Canonicalize(u: Url): (r: Url)
    ensures IsCanonical(r)
    ensures Lower(r.scheme) == Lower(u.scheme) && Lower(r.netloc) == Lower(u.netloc)
    ensures r.path == "/" || (|r.path| <= |u.path| && r.path == u.path[..|r.path|] && forall k :: |r.path| <= k < |u.path| ==> u.path[k] == '/')
    ensures r.path == "/" <==> forall k :: 0 <= k < |u.path| ==> u.path[k] == '/'
    ensures forall p :: p in r.query <==> p in u.query && !IsTracking(p)
  {
    LowerIsLower(u.scheme);
    LowerIsLower(u.netloc);
    KeepUntrackedMembers(u.query);
    Url(Lower(u.scheme), Lower(u.netloc), NormalizePath(u.path), "", KeepUntracked(u.query), "")
  }

  /** A URL already in canonical form is its own canonical form. */
  lemma CanonicalIsFixedPoint(u: Url)
    requires IsCanonical(u)
    ensures Canonicalize(u) == u
  {
    LowerOfLower(u.scheme);
    LowerOfLower(u.netloc);
    NormalizePathOfNormal(u.path);
    KeepUntrackedOfClean(u.query);
  }

  /** Canonicalisation is idempotent. */
  lemma CanonicalizeIdempotent(u: Url)
    ensures Canonicalize(Canonicalize(u)) == Canonicalize(u)
  {
    CanonicalIsFixedPoint(Canonicalize(u));
  }

  /** Filtering removes a tracking pair wherever it stands. */
  lemma KeepUntrackedSkipsTracking(before: seq<QueryPair>, p: QueryPair, after: seq<QueryPair>)
    requires IsTracking(p)
    ensures KeepUntracked(before + [p] + after) == KeepUntracked(before + after)
  {
    calc {
      KeepUntracked(before + [p] + after);
    == { KeepUntrackedAppend(before + [p], after); }
      KeepUntracked(before + [p]) + KeepUntracked(after);
    == { KeepUntrackedAppend(before, [p]); }
      KeepUntracked(before) + KeepUntracked([p]) + KeepUntracked(after);
    == { assert [p][1..] == []; }
      KeepUntracked(before) + KeepUntracked(after);
    == { KeepUntrackedAppend(before, after); }
      KeepUntracked(before + after);
    }
  }

  /** Links that differ only by a tracking parameter share a canonical form. */
  lemma TrackingParamIgnored(u: Url, before: seq<QueryPair>, p: QueryPair, after: seq<QueryPair>)
    requires IsTracking(p)
    ensures Canonicalize(u.(query := before + [p] + after)) == Canonicalize(u.(query := before + after))
  {
    KeepUntrackedSkipsTracking(before, p, after);
  }

  /** Links that differ only by a trailing slash share a canonical form. */
  lemma TrailingSlashIgnored(u: Url)
    ensures Canonicalize(u.(path := u.path + "/")) == Canonicalize(u)
  {
    NormalizePathTrailingSlash(u.path);
  }

  // ---------------------------------------------------------------------------
  // Back to text
  // ---------------------------------------------------------------------------

  /** `urlencode` of the pairs, without percent-encoding. */
  function EncodeQuery(q: seq<QueryPair>): string {
    Join(seq(|q|, i requires 0 <= i < |q| => q[i].key + "=" + q[i].value), "&")
  }

  /** `urlunparse` of the six components, simplified (see README). */
  function Unparse(u: Url): string {
    var path := if u.params != "" then u.path + ";" + u.params else u.path;
    var rest := if u.netloc != "" then
                  "//" + u.netloc + (if path != "" && path[0] != '/' then "/" + path else path)
                else path;
    (if u.scheme != "" then u.scheme + ":" else "") + rest
      + (if |u.query| > 0 then "?" + EncodeQuery(u.query) else "")
      + (if u.fragment != "" then "#" + u.fragment else "")
  }

  /** The de-duplication key of a link: the text of its canonical form, or the
      link itself when `urlparse` rejected it (`parsed` is None). */
  function CanonicalKey(link: string, parsed: Option<Url>): (k: string)
    ensures parsed.None? ==> k == link
    ensures parsed.Some? ==> exists c :: IsCanonical(c) && k == Unparse(c)
  {
    match parsed
    case None => link
    case Some(u) => Unparse(Canonicalize(u))
  }

  /** A canonical record's key is its own text. */
  lemma KeyOfCanonical(link: string, c: Url)
    requires IsCanonical(c)
    ensures CanonicalKey(link, Some(c)) == Unparse(c)
  {
    CanonicalIsFixedPoint(c);
  }

  /** Links whose records have the same canonical form share a key, whatever
      their text. */
  lemma KeyOfEquivalentLinks(link1: string, u1: Url, link2: string, u2: Url)
    requires Canonicalize(u1) == Canonicalize(u2)
    ensures CanonicalKey(link1, Some(u1)) == CanonicalKey(link2, Some(u2))
  {
  }

  /** A tracking pair does not change the key. */
  lemma KeyIgnoresTrackingParam(link1: string, link2: string, u: Url,
                                before: seq<QueryPair>, p: QueryPair, after: seq<QueryPair>)
    requires IsTracking(p)
    ensures CanonicalKey(link1, Some(u.(query := before + [p] + after)))
            == CanonicalKey(link2, Some(u.(query := before + after)))
  {
    TrackingParamIgnored(u, before, p, after);
  }

  /** A trailing slash does not change the key. */
  lemma KeyIgnoresTrailingSlash(link1: string, link2: string, u: Url)
    ensures CanonicalKey(link1, Some(u.(path := u.path + "/"))) == CanonicalKey(link2, Some(u))
  {
    TrailingSlashIgnored(u);
  }

  /** Canonicalising a record before taking its key changes nothing. */
  lemma KeyIsStable(link: string, u: Url)
    ensures CanonicalKey(link, Some(Canonicalize(u))) == CanonicalKey(link, Some(u))
  {
    CanonicalizeIdempotent(u);
  }
}
