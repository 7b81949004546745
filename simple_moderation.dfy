/** The earlier revision of the moderation pipeline (`main.py`): links are
    de-duplicated as they are, the link itself is the token, and only the
    message text is stored. */
module SimpleModeration {
  import opened Wrappers
  import opened Strings
  import opened Feeds
  import opened Composer
  import Moderation

  /** The message shown to the moderators: the starred title, the summary,
      a blank line and the link. */
  function SimpleMessage(e: FeedEntry): (m: string)
    ensures StartsWith(m, "*" + e.title + "*\n")
    ensures EndsWith(m, "\n" + ReadSourceLine(e.link))
  {
    var m := "*" + e.title + "*\n" + e.summary + "\n\n" + READ_SOURCE_LABEL + "(" + e.link + ")";
    assert m == ("*" + e.title + "*\n") + (e.summary + "\n" + ReadSourceLine(e.link))
             == ("*" + e.title + "*\n" + e.summary) + ("\n" + ReadSourceLine(e.link));
    Affixes("*" + e.title + "*\n", e.summary + "\n" + ReadSourceLine(e.link));
    Affixes("*" + e.title + "*\n" + e.summary, "\n" + ReadSourceLine(e.link));
    m
  }

  // ---------------------------------------------------------------------------
  // Ingestion, as a specification
  // ---------------------------------------------------------------------------

  /** The two collections: links seen so far, and pending texts by link. */
  datatype Store = Store(seen: set<string>, pending: map<string, string>)

  /** Every pending link has been seen and its text names it in the
      read-source line (so no pending text is empty). */
  ghost predicate Consistent(s: Store) {
    forall t :: t in s.pending ==> t in s.seen && EndsWith(s.pending[t], "\n" + ReadSourceLine(t))
  }

  /** One entry of `fetch_feeds`: a seen link is skipped; a new one is seen
      and its message is stored under it. */
  function Step(s: Store, e: FeedEntry): Store {
    if e.link in s.seen then s
    else Store(s.seen + {e.link}, s.pending[e.link := SimpleMessage(e)])
  }

  /** The entries `es` handled in order. */
  function Ingest(s: Store, es: seq<FeedEntry>): Store
    decreases |es|
  {
    if es == [] then s else Step(Ingest(s, es[..|es| - 1]), es[|es| - 1])
  }

  function LinksOf(es: seq<FeedEntry>): set<string> {
    set i | 0 <= i < |es| :: es[i].link
  }

  lemma IngestSnoc(s: Store, es: seq<FeedEntry>, e: FeedEntry)
    ensures Ingest(s, es + [e]) == Step(Ingest(s, es), e)
    ensures LinksOf(es + [e]) == LinksOf(es) + {e.link}
  {
    assert (es + [e])[..|es|] == es;
    assert forall i :: 0 <= i < |es| ==> (es + [e])[i] == es[i];
    assert (es + [e])[|es|] == e;
  }

  /** Handling two runs one after the other is handling their
      concatenation. */
  lemma {:induction false} IngestConcat(s: Store, xs: seq<FeedEntry>, ys: seq<FeedEntry>)
    ensures Ingest(Ingest(s, xs), ys) == Ingest(s, xs + ys)
    decreases |ys|
  {
    if ys == [] {
      assert xs + ys == xs;
    } else {
      var init := ys[..|ys| - 1];
      var y := ys[|ys| - 1];
      assert init + [y] == ys;
      assert xs + ys == (xs + init) + [y];
      IngestConcat(s, xs, init);
      IngestSnoc(Ingest(s, xs), init, y);
      IngestSnoc(s, xs + init, y);
    }
  }

  /** The seen set grows by exactly the links of the entries handled. */
  lemma {:induction false} IngestSeen(s: Store, es: seq<FeedEntry>)
    ensures Ingest(s, es).seen == s.seen + LinksOf(es)
    decreases |es|
  {
    if es != [] {
      var init := es[..|es| - 1];
      IngestSeen(s, init);
      IngestSnoc(s, init, es[|es| - 1]);
      assert init + [es[|es| - 1]] == es;
    }
  }

  /** Handling entries keeps the store consistent, leaves every pending text
      as it was, and registers only links that were new and came from the
      entries. */
  lemma {:induction false} IngestKeepsConsistent(s: Store, es: seq<FeedEntry>)
    requires Consistent(s)
    ensures Consistent(Ingest(s, es))
    ensures forall t :: t in s.pending ==> t in Ingest(s, es).pending && Ingest(s, es).pending[t] == s.pending[t]
    ensures forall t :: t in Ingest(s, es).pending ==> t in s.pending || (t !in s.seen && t in LinksOf(es))
    decreases |es|
  {
    if es != [] {
      var init := es[..|es| - 1];
      var e := es[|es| - 1];
      IngestKeepsConsistent(s, init);
      IngestSnoc(s, init, e);
      assert init + [e] == es;
      IngestSeen(s, init);
    }
  }

  /** Entries whose links are all seen change nothing. */
  lemma {:induction false} IngestOfSeen(s: Store, es: seq<FeedEntry>)
    requires LinksOf(es) <= s.seen
    ensures Ingest(s, es) == s
    decreases |es|
  {
    if es != [] {
      var init := es[..|es| - 1];
      IngestSnoc(s, init, es[|es| - 1]);
      assert init + [es[|es| - 1]] == es;
      IngestOfSeen(s, init);
    }
  }

  /** Handling the same entries a second time changes nothing. */
  lemma IngestIdempotent(s: Store, es: seq<FeedEntry>)
    ensures Ingest(Ingest(s, es), es) == Ingest(s, es)
  {
    IngestSeen(s, es);
    IngestOfSeen(Ingest(s, es), es);
  }

  /** A new link is stored with the message of the first entry that carries
      it; later entries with the same link are skipped. */
  lemma {:induction false} IngestFirstWins(s: Store, es: seq<FeedEntry>, i: nat)
    requires i < |es| && es[i].link !in s.seen
    requires forall j :: 0 <= j < i ==> es[j].link != es[i].link
    ensures es[i].link in Ingest(s, es).pending
    ensures Ingest(s, es).pending[es[i].link] == SimpleMessage(es[i])
    decreases |es|
  {
    var init := es[..|es| - 1];
    var e := es[|es| - 1];
    IngestSnoc(s, init, e);
    assert init + [e] == es;
    if i < |init| {
      assert init[i] == es[i];
      IngestFirstWins(s, init, i);
      IngestSeen(s, init);
      assert es[i].link in LinksOf(init);
    } else {
      IngestSeen(s, init);
      assert es[i].link !in LinksOf(init) by {
        forall j | 0 <= j < |init| ensures init[j].link != es[i].link {
          assert init[j] == es[j];
        }
      }
    }
  }

  // ---------------------------------------------------------------------------
  // Decisions
  // ---------------------------------------------------------------------------

  /** `handle_callback`: data without a ':' is ignored; a token with no
      (or an empty) pending text gets the "already processed" notice;
      otherwise only "approve" broadcasts the stored text as it is, and the
      moderators' copy gets the status line. */
  function SimpleDecide(pending: map<string, string>, data: string): (o: Moderation.Outcome)
    ensures o.Ignored? <==> ':' !in data
    ensures ':' in data && (var token := SplitFirst(data, ':').value.1;
                            token !in pending || pending[token] == "") ==>
              o == Moderation.AlreadyProcessed(Moderation.ALREADY_PROCESSED)
    ensures ':' in data && (var token := SplitFirst(data, ':').value.1;
                            token in pending && pending[token] != "") ==>
              o.Decided?
    ensures o.Decided? ==>
              var (action, token) := SplitFirst(data, ':').value;
              && o.token == token && token in pending && pending[token] != ""
              && (o.broadcast.Some? <==> action == Moderation.APPROVE)
              && (o.broadcast.Some? ==> o.broadcast.value == Moderation.TextPost(pending[token]))
              && o.moderatorText == pending[token] + "\n\n" +
                                    (if action == Moderation.APPROVE then Moderation.STATUS_PUBLISHED
                                     else Moderation.STATUS_REJECTED)
  {
    match SplitFirst(data, ':')
    case None => Moderation.Ignored
    case Some((action, token)) =>
      var text := if token in pending then pending[token] else "";
      if text == "" then Moderation.AlreadyProcessed(Moderation.ALREADY_PROCESSED)
      else if action == Moderation.APPROVE then
        Moderation.Decided(token, Some(Moderation.TextPost(text)), text + "\n\n" + Moderation.STATUS_PUBLISHED)
      else
        Moderation.Decided(token, None, text + "\n\n" + Moderation.STATUS_REJECTED)
  }

  /** The pending texts after `handle_callback`: the decided token is
      removed and nothing else changes. */
  function SimpleRemaining(pending: map<string, string>, data: string): (r: map<string, string>)
    ensures SimpleDecide(pending, data).Decided? ==>
              r.Keys == pending.Keys - {SimpleDecide(pending, data).token}
    ensures !SimpleDecide(pending, data).Decided? ==> r == pending
    ensures forall t :: t in r ==> t in pending && r[t] == pending[t]
  {
    match SimpleDecide(pending, data)
    case Decided(token, _, _) => pending - {token}
    case _ => pending
  }

  /** In a consistent store every pending link can be decided: the
      "already processed" branch is reached only for unknown tokens. */
  lemma PendingLinkIsDecided(s: Store, action: string)
    requires Consistent(s) && ':' !in action
    ensures forall t :: t in s.pending ==> SimpleDecide(s.pending, Moderation.ButtonData(action, t)).Decided?
  {
    forall t | t in s.pending ensures SimpleDecide(s.pending, Moderation.ButtonData(action, t)).Decided? {
      Moderation.ButtonDataRoundTrip(action, t);
    }
  }

  /** Approving a pending link broadcasts its stored text verbatim. */
  lemma ApproveBroadcastsText(pending: map<string, string>, link: string)
    requires link in pending && pending[link] != ""
    ensures SimpleDecide(pending, Moderation.ButtonData(Moderation.APPROVE, link))
            == Moderation.Decided(link, Some(Moderation.TextPost(pending[link])),
                                  pending[link] + "\n\n" + Moderation.STATUS_PUBLISHED)
  {
    Moderation.ButtonDataRoundTrip(Moderation.APPROVE, link);
  }

  /** Rejecting a pending link sends nothing. */
  lemma RejectSendsNothing(pending: map<string, string>, link: string)
    requires link in pending && pending[link] != ""
    ensures SimpleDecide(pending, Moderation.ButtonData(Moderation.REJECT, link))
            == Moderation.Decided(link, None, pending[link] + "\n\n" + Moderation.STATUS_REJECTED)
  {
    Moderation.ButtonDataRoundTrip(Moderation.REJECT, link);
  }

  /** A decision is final: a later press on the same token gets the
      "already processed" notice and changes nothing. */
  lemma SimpleDecideTwice(pending: map<string, string>, data: string, again: string)
    requires SimpleDecide(pending, data).Decided?
    requires ':' in again && SplitFirst(again, ':').value.1 == SimpleDecide(pending, data).token
    ensures SimpleDecide(SimpleRemaining(pending, data), again)
            == Moderation.AlreadyProcessed(Moderation.ALREADY_PROCESSED)
    ensures SimpleRemaining(SimpleRemaining(pending, data), again) == SimpleRemaining(pending, data)
  {
  }

  /** A decision keeps the store consistent. */
  lemma SimpleRemainingKeepsConsistent(s: Store, data: string)
    requires Consistent(s)
    ensures Consistent(Store(s.seen, SimpleRemaining(s.pending, data)))
  {
  }

  // ---------------------------------------------------------------------------
  // The bot's state and its two handlers
  // ---------------------------------------------------------------------------

  class SimpleBot {
    /** Links seen so far; only ever grows. */
    var postedLinks: set<string>
    /** Texts awaiting a decision, by link. */
    var pendingPosts: map<string, string>

    ghost predicate Valid()
      reads this
    {
      Consistent(Store(postedLinks, pendingPosts))
    }

    constructor ()
      ensures Valid()
      ensures postedLinks == {} && pendingPosts == map[]
    {
      postedLinks := {};
      pendingPosts := map[];
    }

    /** The inner loop of `fetch_feeds`: the entries of one source, in
        order; the new state is that of `Ingest` on them. */
    method IngestEntries(entries: seq<FeedEntry>)
      modifies this
      ensures Store(postedLinks, pendingPosts) == Ingest(old(Store(postedLinks, pendingPosts)), entries)
    {
      ghost var s0 := Store(postedLinks, pendingPosts);
      var j := 0;
      while j < |entries|
        invariant 0 <= j <= |entries|
        invariant Store(postedLinks, pendingPosts) == Ingest(s0, entries[..j])
      {
        var entry := entries[j];
        assert entries[..j + 1] == entries[..j] + [entry];
        IngestSnoc(s0, entries[..j], entry);
        ghost var before := Store(postedLinks, pendingPosts);
        j := j + 1;
        var link := entry.link;
        if link in postedLinks {
          continue;
        }
        postedLinks := postedLinks + {link};
        var message := SimpleMessage(entry);
        pendingPosts := pendingPosts[link := message];
        assert Store(postedLinks, pendingPosts) == Step(before, entry);
      }
      assert entries[..j] == entries;
    }

    /** `fetch_feeds`: the first five entries of every source, in order; the
        new state is that of `Ingest` on them. */
    method FetchFeeds(sources: seq<seq<FeedEntry>>)
      requires Valid()
      modifies this
      ensures Valid()
      ensures Store(postedLinks, pendingPosts) == Ingest(old(Store(postedLinks, pendingPosts)), Window(sources))
    {
      ghost var s0 := Store(postedLinks, pendingPosts);
      var i := 0;
      while i < |sources|
        invariant 0 <= i <= |sources|
        invariant Store(postedLinks, pendingPosts) == Ingest(s0, Window(sources[..i]))
      {
        IngestEntries(Head(sources[i]));
        IngestConcat(s0, Window(sources[..i]), Head(sources[i]));
        WindowSnoc(sources, i);
        i := i + 1;
      }
      assert sources[..i] == sources;
      IngestKeepsConsistent(s0, Window(sources));
    }

    /** `handle_callback`: the outcome and the new pending texts are those of
        `SimpleDecide` and `SimpleRemaining`; the seen links do not change. */
    method HandleCallback(data: string) returns (o: Moderation.Outcome)
      requires Valid()
      modifies this`pendingPosts
      ensures Valid()
      ensures o == SimpleDecide(old(pendingPosts), data)
      ensures pendingPosts == SimpleRemaining(old(pendingPosts), data)
    {
      if data == "" || ':' !in data {
        return Moderation.Ignored;
      }
      var (action, callbackId) := SplitFirst(data, ':').value;
      var messageText := if callbackId in pendingPosts then pendingPosts[callbackId] else "";
      if messageText == "" {
        return Moderation.AlreadyProcessed(Moderation.ALREADY_PROCESSED);
      }
      var broadcast: Option<Moderation.Broadcast> := None;
      var status;
      if action == Moderation.APPROVE {
        broadcast := Some(Moderation.TextPost(messageText));
        status := Moderation.STATUS_PUBLISHED;
      } else {
        status := Moderation.STATUS_REJECTED;
      }
      o := Moderation.Decided(callbackId, broadcast, messageText + "\n\n" + status);
      pendingPosts := pendingPosts - {callbackId};
    }
  }
}
