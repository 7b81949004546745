/** The moderation pipeline of `main_patched.py`: the set of canonical keys
    already seen, the pending candidates keyed by an opaque token, the
    ingestion cycle (`fetch_feeds`) that registers candidates and the
    decision handler (`handle_callback`) that broadcasts or rejects them. */
module Moderation {
  import opened Wrappers
  import opened Strings
  import opened Urls
  import opened Translation
  import opened Composer
  import opened Feeds
  import opened Images
  import opened Truncation
  import opened Sequences

  /** A pending candidate: the message shown to the moderators, the image to
      broadcast with it, the id of the moderators' copy, the canonical key and
      the original link. */
  datatype PendingPost = PendingPost(
    text: string,
    imageUrl: Option<string>,
    validatorMessageId: int,
    canonicalLink: string,
    sourceLink: string)

  // ---------------------------------------------------------------------------
  // Ingestion, as a specification
  // ---------------------------------------------------------------------------

  function EntryKey(e: FeedEntry): string {
    CanonicalKey(e.link, e.parsed)
  }

  function EntryMessage(e: FeedEntry, providers: seq<Provider>): string {
    BuildValidationMessage(e.link, e.parsed, e.title, e.summary, providers)
  }

  /** `p` is the record `fetch_feeds` stores for `e`, whatever message id the
      moderators' channel handed back. */
  ghost predicate Records(p: PendingPost, e: FeedEntry, providers: seq<Provider>) {
    && p.text == EntryMessage(e, providers)
    && p.imageUrl == ExtractImage(e)
    && p.canonicalLink == EntryKey(e)
    && p.sourceLink == e.link
  }

  /** The canonical keys of a run of entries. */
  function KeysOf(es: seq<FeedEntry>): set<string>
    decreases |es|
  {
    if es == [] then {} else KeysOf(es[..|es| - 1]) + {EntryKey(es[|es| - 1])}
  }

  /** A key is among the keys of a run exactly when some entry of the run
      has it. */
  lemma {:induction false} KeysOfMembers(es: seq<FeedEntry>)
    ensures forall i :: 0 <= i < |es| ==> EntryKey(es[i]) in KeysOf(es)
    ensures forall k :: k in KeysOf(es) ==> exists i :: 0 <= i < |es| && EntryKey(es[i]) == k
    decreases |es|
  {
    if es != [] {
      var init := es[..|es| - 1];
      KeysOfMembers(init);
      assert forall i :: 0 <= i < |init| ==> init[i] == es[i];
    }
  }

  /** Whether the last of `es` becomes a candidate when the cycle started
      with `seen`: its key has not been seen before it and its message is not
      empty. */
  predicate AdmitsLast(seen: set<string>, es: seq<FeedEntry>, providers: seq<Provider>)
    requires es != []
  {
    var init := es[..|es| - 1];
    EntryKey(es[|es| - 1]) !in seen + KeysOf(init) && EntryMessage(es[|es| - 1], providers) != ""
  }

  /** The entries of `es` that become candidates, in order. */
  function Admitted(seen: set<string>, es: seq<FeedEntry>, providers: seq<Provider>): seq<FeedEntry>
    decreases |es|
  {
    if es == [] then []
    else Admitted(seen, es[..|es| - 1], providers)
         + (if AdmitsLast(seen, es, providers) then [es[|es| - 1]] else [])
  }

  lemma AdmittedSnoc(seen: set<string>, es: seq<FeedEntry>, e: FeedEntry, providers: seq<Provider>)
    ensures KeysOf(es + [e]) == KeysOf(es) + {EntryKey(e)}
    ensures Admitted(seen, es + [e], providers)
            == Admitted(seen, es, providers)
               + (if EntryKey(e) !in seen + KeysOf(es) && EntryMessage(e, providers) != "" then [e] else [])
  {
    assert (es + [e])[..|es|] == es;
  }

  /** Every candidate comes from the run, has a key that was not seen when
      the cycle began and a non-empty message. */
  lemma {:induction false} AdmittedAreFresh(seen: set<string>, es: seq<FeedEntry>, providers: seq<Provider>)
    ensures forall x :: x in Admitted(seen, es, providers) ==>
              x in es && EntryKey(x) !in seen && EntryMessage(x, providers) != ""
    decreases |es|
  {
    if es != [] {
      var init := es[..|es| - 1];
      AdmittedAreFresh(seen, init, providers);
      assert forall x :: x in init ==> x in es;
    }
  }

  /** No two candidates of one run share a canonical key. */
  lemma {:induction false} AdmittedKeysDistinct(seen: set<string>, es: seq<FeedEntry>, providers: seq<Provider>)
    ensures var adm := Admitted(seen, es, providers);
            forall k, l :: 0 <= k < l < |adm| ==> EntryKey(adm[k]) != EntryKey(adm[l])
    ensures forall x :: x in Admitted(seen, es, providers) ==> EntryKey(x) in KeysOf(es)
    decreases |es|
  {
    if es != [] {
      var init := es[..|es| - 1];
      var e := es[|es| - 1];
      assert init + [e] == es;
      AdmittedKeysDistinct(seen, init, providers);
      AdmittedSnoc(seen, init, e, providers);
      var before := Admitted(seen, init, providers);
      if EntryKey(e) !in seen + KeysOf(init) && EntryMessage(e, providers) != "" {
        var adm := before + [e];
        forall k | 0 <= k < |before| ensures EntryKey(adm[k]) != EntryKey(e) {
          assert adm[k] == before[k] && before[k] in before;
        }
      }
    }
  }

  /** An entry whose key is already seen never becomes a candidate. */
  lemma SeenKeyNeverAdmitted(seen: set<string>, es: seq<FeedEntry>, e: FeedEntry, providers: seq<Provider>)
    requires EntryKey(e) in seen
    ensures e !in Admitted(seen, es, providers)
  {
    AdmittedAreFresh(seen, es, providers);
  }

  /** Running the same entries again after a cycle yields no candidate: every
      key is seen by then. */
  lemma {:induction false} RefetchAdmitsNothing(seen: set<string>, es: seq<FeedEntry>, providers: seq<Provider>)
    requires KeysOf(es) <= seen
    ensures Admitted(seen, es, providers) == []
    decreases |es|
  {
    if es != [] {
      var init := es[..|es| - 1];
      assert KeysOf(init) <= KeysOf(es);
      RefetchAdmitsNothing(seen, init, providers);
    }
  }

  // ---------------------------------------------------------------------------
  // Store invariant and the effect of one cycle on the pending map
  // ---------------------------------------------------------------------------

  /** Every pending candidate has a seen key and a non-empty message, and no
      two pending candidates share a key. */
  ghost predicate StoreInvariant(posted: set<string>, pending: map<string, PendingPost>) {
    && (forall t :: t in pending ==> pending[t].canonicalLink in posted && pending[t].text != "")
    && (forall t, u :: t in pending && u in pending && t != u ==>
          pending[t].canonicalLink != pending[u].canonicalLink)
  }

  /** Seeing a key keeps the store invariant. */
  lemma SeeKeepsInvariant(posted: set<string>, pending: map<string, PendingPost>, key: string)
    requires StoreInvariant(posted, pending)
    ensures StoreInvariant(posted + {key}, pending)
  {
  }

  /** Registering a candidate under a fresh token keeps the store invariant
      when its key was not seen before and is seen now, and its text is not
      empty. */
  lemma AdmitKeepsInvariant(posted: set<string>, pending: map<string, PendingPost>,
                            t: string, p: PendingPost)
    requires StoreInvariant(posted, pending)
    requires p.canonicalLink !in posted && p.text != "" && t !in pending
    ensures StoreInvariant(posted + {p.canonicalLink}, pending[t := p])
  {
  }

  /** `after` is `before` plus one fresh token per element of `values`,
      in order, each holding that value; nothing in `before` changes. */
  ghost predicate ExtendsBy<V>(before: map<string, V>, after: map<string, V>,
                               tokens: seq<string>, values: seq<V>)
  {
    && |tokens| == |values|
    && (forall k :: 0 <= k < |tokens| ==>
          tokens[k] !in before && tokens[k] in after && after[tokens[k]] == values[k])
    && (forall k, l :: 0 <= k < l < |tokens| ==> tokens[k] != tokens[l])
    && (forall t :: t in after <==> t in before || t in tokens)
    && (forall t :: t in before ==> t in after && after[t] == before[t])
  }

  lemma ExtendsByStep<V>(before: map<string, V>, after: map<string, V>,
                         tokens: seq<string>, values: seq<V>, t: string, v: V)
    requires ExtendsBy(before, after, tokens, values)
    requires t !in after
    ensures ExtendsBy(before, after[t := v], tokens + [t], values + [v])
  {
    var after' := after[t := v];
    var tokens' := tokens + [t];
    var values' := values + [v];
    forall k | 0 <= k < |tokens'|
      ensures tokens'[k] !in before && tokens'[k] in after' && after'[tokens'[k]] == values'[k]
    {
      if k < |tokens| {
        assert tokens'[k] == tokens[k] && values'[k] == values[k];
        assert tokens[k] != t;
      }
    }
    forall t' | t' in before ensures t' in after' && after'[t'] == before[t'] {
      assert t' != t;
    }
    assert forall k :: 0 <= k < |tokens| ==> tokens'[k] == tokens[k];
  }

  /** `posts` are the records of `admitted`, one for one. */
  ghost predicate RecordsAll(posts: seq<PendingPost>, admitted: seq<FeedEntry>, providers: seq<Provider>) {
    && |posts| == |admitted|
    && forall k :: 0 <= k < |posts| ==> Records(posts[k], admitted[k], providers)
  }

  lemma RecordsAllSnoc(posts: seq<PendingPost>, admitted: seq<FeedEntry>, providers: seq<Provider>,
                       p: PendingPost, e: FeedEntry)
    requires RecordsAll(posts, admitted, providers) && Records(p, e, providers)
    ensures RecordsAll(posts + [p], admitted + [e], providers)
  {
    forall k | 0 <= k < |posts| + 1 ensures Records((posts + [p])[k], (admitted + [e])[k], providers) {
      if k < |posts| {
        assert (posts + [p])[k] == posts[k] && (admitted + [e])[k] == admitted[k];
      }
    }
  }

  /** Some string is not yet a token. */
  lemma FreshTokenExists(used: set<string>)
    ensures exists t :: t !in used
  {
    var t := seq(LongestLength(used) + 1, _ => 'a');
    assert t !in used;
  }

  ghost function LongestLength(s: set<string>): (n: nat)
    ensures forall x :: x in s ==> |x| <= n
    decreases s
  {
    if s == {} then 0
    else
      var x :| x in s;
      var m := LongestLength(s - {x});
      if |x| > m then |x| else m
  }

  // ---------------------------------------------------------------------------
  // Decisions
  // ---------------------------------------------------------------------------

  const APPROVE := "approve"
  const REJECT := "reject"
  const ALREADY_PROCESSED := "Цей запис вже опрацьовано."
  const STATUS_PUBLISHED := "✅ Опубліковано"
  const STATUS_REJECTED := "❌ Відхилено"

  /** What the public channel receives on approval. */
  datatype Broadcast = PhotoPost(photo: string, caption: string) | TextPost(text: string) {
    function Body(): string {
      match this
      case PhotoPost(_, caption) => caption
      case TextPost(text) => text
    }
  }

  /** The effect of one button press: nothing (malformed data), the
      "already processed" notice, or a decision on `token` with its
      broadcast (on approval) and the moderators' final text. */
  datatype Outcome =
    | Ignored
    | AlreadyProcessed(notice: string)
    | Decided(token: string, broadcast: Option<Broadcast>, moderatorText: string)

  /** The `callback_data` of a moderation button. */
  function ButtonData(action: string, token: string): string {
    action + ":" + token
  }

  /** The broadcast for a pending candidate: a photo with a caption within
      the caption limit when it has an image, otherwise a text within the
      message limit, both ending with the source-link line. */
  function BroadcastOf(p: PendingPost): (b: Broadcast)
    ensures b.PhotoPost? <==> p.imageUrl.Some? && p.imageUrl.value != ""
    ensures b.PhotoPost? ==> b.photo == p.imageUrl.value
    ensures b.Body() == FitToBudget(p.text, LinkLine(p.sourceLink, p.canonicalLink), Budget(b.PhotoPost?))
    ensures EndsWith(b.Body(), LinkLine(p.sourceLink, p.canonicalLink))
    ensures |LinkLine(p.sourceLink, p.canonicalLink)| + |ELLIPSIS| <= Budget(b.PhotoPost?) ==>
              |b.Body()| <= Budget(b.PhotoPost?)
  {
    var linkLine := LinkLine(p.sourceLink, p.canonicalLink);
    if p.imageUrl.Some? && p.imageUrl.value != "" then
      PhotoPost(p.imageUrl.value, FitToBudget(p.text, linkLine, CAPTION_LIMIT))
    else
      TextPost(FitToBudget(p.text, linkLine, TEXT_LIMIT))
  }

  /** `handle_callback` on the pending map: data without a ':' is ignored; an
      unknown token gets the "already processed" notice; otherwise only
      "approve" broadcasts, and the moderators' copy gets the status line. */
  function Decide(pending: map<string, PendingPost>, data: string): (o: Outcome)
    ensures ':' !in data ==> o.Ignored?
    ensures o.Ignored? ==> ':' !in data
    ensures ':' in data && SplitFirst(data, ':').value.1 !in pending ==> o == AlreadyProcessed(ALREADY_PROCESSED)
    ensures ':' in data && SplitFirst(data, ':').value.1 in pending ==> o.Decided?
    ensures o.Decided? ==>
              var (action, token) := SplitFirst(data, ':').value;
              && o.token == token && token in pending
              && (o.broadcast.Some? <==> action == APPROVE)
              && (o.broadcast.Some? ==> o.broadcast.value == BroadcastOf(pending[token]))
              && o.moderatorText == pending[token].text + "\n\n" +
                                    (if action == APPROVE then STATUS_PUBLISHED else STATUS_REJECTED)
  {
    match SplitFirst(data, ':')
    case None => Ignored
    case Some((action, token)) =>
      if token !in pending then AlreadyProcessed(ALREADY_PROCESSED)
      else
        var post := pending[token];
        if action == APPROVE then
          Decided(token, Some(BroadcastOf(post)), post.text + "\n\n" + STATUS_PUBLISHED)
        else
          Decided(token, None, post.text + "\n\n" + STATUS_REJECTED)
  }

  /** The pending map after `handle_callback`: the decided token is retired
      and nothing else changes. */
  function Remaining(pending: map<string, PendingPost>, data: string): (r: map<string, PendingPost>)
    ensures Decide(pending, data).Decided? ==>
              r.Keys == pending.Keys - {Decide(pending, data).token}
    ensures !Decide(pending, data).Decided? ==> r == pending
    ensures forall t :: t in r ==> t in pending && r[t] == pending[t]
  {
    match Decide(pending, data)
    case Decided(token, _, _) => pending - {token}
    case _ => pending
  }

  /** The data a button carries is parsed back into its action and token. */
  lemma ButtonDataRoundTrip(action: string, token: string)
    requires ':' !in action
    ensures SplitFirst(ButtonData(action, token), ':') == Some((action, token))
  {
    SplitFirstOfJoined(action, ':', token);
  }

  /** Pressing the approve button of a pending candidate broadcasts it. */
  lemma ApproveButtonBroadcasts(pending: map<string, PendingPost>, token: string)
    requires token in pending
    ensures Decide(pending, ButtonData(APPROVE, token))
            == Decided(token, Some(BroadcastOf(pending[token])), pending[token].text + "\n\n" + STATUS_PUBLISHED)
  {
    ButtonDataRoundTrip(APPROVE, token);
  }

  /** Pressing the reject button of a pending candidate sends nothing. */
  lemma RejectButtonSendsNothing(pending: map<string, PendingPost>, token: string)
    requires token in pending
    ensures Decide(pending, ButtonData(REJECT, token))
            == Decided(token, None, pending[token].text + "\n\n" + STATUS_REJECTED)
  {
    ButtonDataRoundTrip(REJECT, token);
  }

  /** A decision is final: any later press on the same token gets the
      "already processed" notice and changes nothing. */
  lemma DecideTwice(pending: map<string, PendingPost>, data: string, again: string)
    requires Decide(pending, data).Decided?
    requires ':' in again && SplitFirst(again, ':').value.1 == Decide(pending, data).token
    ensures Decide(Remaining(pending, data), again) == AlreadyProcessed(ALREADY_PROCESSED)
    ensures Remaining(Remaining(pending, data), again) == Remaining(pending, data)
  {
  }

  /** A decision keeps the store invariant. */
  lemma RemainingKeepsInvariant(posted: set<string>, pending: map<string, PendingPost>, data: string)
    requires StoreInvariant(posted, pending)
    ensures StoreInvariant(posted, Remaining(pending, data))
  {
  }

  // ---------------------------------------------------------------------------
  // The bot's state and its two handlers
  // ---------------------------------------------------------------------------

  /** One entry of the cycle keeps the cycle's bookkeeping: the seen keys
      and the pending map are those of the entries handled so far. */
  lemma IngestStep(seen0: set<string>, pending0: map<string, PendingPost>,
                   processed: seq<FeedEntry>, tokens: seq<string>, posts: seq<PendingPost>,
                   posted: set<string>, pending: map<string, PendingPost>,
                   posted': set<string>, pending': map<string, PendingPost>,
                   token: Option<string>, e: FeedEntry, providers: seq<Provider>)
    requires posted == seen0 + KeysOf(processed)
    requires ExtendsBy(pending0, pending, tokens, posts)
    requires RecordsAll(posts, Admitted(seen0, processed, providers), providers)
    requires posted' == posted + {EntryKey(e)}
    requires EntryKey(e) in posted || EntryMessage(e, providers) == "" ==>
               token.None? && pending' == pending
    requires EntryKey(e) !in posted && EntryMessage(e, providers) != "" ==>
               && token.Some? && token.value !in pending && token.value in pending'
               && pending' == pending[token.value := pending'[token.value]]
               && Records(pending'[token.value], e, providers)
    ensures posted' == seen0 + KeysOf(processed + [e])
    ensures token.Some? ==> token.value in pending'
    ensures var tokens' := if token.Some? then tokens + [token.value] else tokens;
            var posts' := if token.Some? then posts + [pending'[token.value]] else posts;
            ExtendsBy(pending0, pending', tokens', posts') &&
            RecordsAll(posts', Admitted(seen0, processed + [e], providers), providers)
  {
    AdmittedSnoc(seen0, processed, e, providers);
    if token.Some? {
      ExtendsByStep(pending0, pending, tokens, posts, token.value, pending'[token.value]);
      RecordsAllSnoc(posts, Admitted(seen0, processed, providers), providers, pending'[token.value], e);
    } else {
      assert Admitted(seen0, processed + [e], providers) == Admitted(seen0, processed, providers);
    }
  }

  class NewsBot {
    /** Canonical keys seen so far; only ever grows. */
    var postedLinks: set<string>
    /** Candidates awaiting a decision, by token. */
    var pendingPosts: map<string, PendingPost>

    ghost predicate Valid()
      reads this
    {
      StoreInvariant(postedLinks, pendingPosts)
    }

    constructor ()
      ensures Valid()
      ensures postedLinks == {} && pendingPosts == map[]
    {
      postedLinks := {};
      pendingPosts := map[];
    }

    /** The body of the inner loop of `fetch_feeds` for one entry. `token`
        is the token the entry was registered under, if any. */
    method IngestEntry(e: FeedEntry, providers: seq<Provider>) returns (ghost token: Option<string>)
      requires Valid()
      modifies this
      ensures Valid()
      ensures postedLinks == old(postedLinks) + {EntryKey(e)}
      ensures EntryKey(e) in old(postedLinks) || EntryMessage(e, providers) == "" ==>
                token.None? && pendingPosts == old(pendingPosts)
      ensures EntryKey(e) !in old(postedLinks) && EntryMessage(e, providers) != "" ==>
                && token.Some? && token.value !in old(pendingPosts) && token.value in pendingPosts
                && pendingPosts == old(pendingPosts)[token.value := pendingPosts[token.value]]
                && Records(pendingPosts[token.value], e, providers)
    {
      var link := e.link;
      var canonicalLink := CanonicalKey(link, e.parsed);
      if canonicalLink in postedLinks {
        return None;
      }
      ghost var seenBefore := postedLinks;
      SeeKeepsInvariant(postedLinks, pendingPosts, canonicalLink);
      postedLinks := postedLinks + {canonicalLink};
      var message := BuildValidationMessage(link, e.parsed, e.title, e.summary, providers);
      if message == "" {
        return None;
      }
      var imageUrl := ExtractImage(e);
      FreshTokenExists(pendingPosts.Keys);
      var callbackId :| callbackId !in pendingPosts;
      // The id Telegram gives the moderators' copy: any value.
      var sentMessageId: int :| true;
      var post := PendingPost(message, imageUrl, sentMessageId, canonicalLink, link);
      AdmitKeepsInvariant(seenBefore, pendingPosts, callbackId, post);
      pendingPosts := pendingPosts[callbackId := post];
      token := Some(callbackId);
    }

    /** One entry handled by `IngestEntry`, with the cycle's bookkeeping
        carried along: `processed` are the entries handled before `e`. */
    method IngestNext(e: FeedEntry, providers: seq<Provider>,
                      ghost seen0: set<string>, ghost pending0: map<string, PendingPost>,
                      ghost processed: seq<FeedEntry>, ghost tokens0: seq<string>, ghost posts0: seq<PendingPost>)
      returns (ghost tokens: seq<string>, ghost posts: seq<PendingPost>)
      requires Valid()
      requires postedLinks == seen0 + KeysOf(processed)
      requires ExtendsBy(pending0, pendingPosts, tokens0, posts0)
      requires RecordsAll(posts0, Admitted(seen0, processed, providers), providers)
      modifies this
      ensures Valid()
      ensures postedLinks == seen0 + KeysOf(processed + [e])
      ensures ExtendsBy(pending0, pendingPosts, tokens, posts)
      ensures RecordsAll(posts, Admitted(seen0, processed + [e], providers), providers)
    {
      ghost var postedBefore := postedLinks;
      ghost var pendingBefore := pendingPosts;
      var token := IngestEntry(e, providers);
      IngestStep(seen0, pending0, processed, tokens0, posts0, postedBefore, pendingBefore,
                 postedLinks, pendingPosts, token, e, providers);
      tokens, posts := if token.Some? then tokens0 + [token.value] else tokens0,
                       if token.Some? then posts0 + [pendingPosts[token.value]] else posts0;
    }

    /** The inner loop of `fetch_feeds`: the entries of one source, in
        order, after `done` have been handled in the same cycle. */
    method IngestEntries(entries: seq<FeedEntry>, providers: seq<Provider>,
                         ghost seen0: set<string>, ghost pending0: map<string, PendingPost>,
                         ghost done: seq<FeedEntry>, ghost tokens0: seq<string>, ghost posts0: seq<PendingPost>)
      returns (ghost tokens: seq<string>, ghost posts: seq<PendingPost>)
      requires Valid()
      requires postedLinks == seen0 + KeysOf(done)
      requires ExtendsBy(pending0, pendingPosts, tokens0, posts0)
      requires RecordsAll(posts0, Admitted(seen0, done, providers), providers)
      modifies this
      ensures Valid()
      ensures postedLinks == seen0 + KeysOf(done + entries)
      ensures ExtendsBy(pending0, pendingPosts, tokens, posts)
      ensures RecordsAll(posts, Admitted(seen0, done + entries, providers), providers)
    {
      ghost var processed := done;
      tokens, posts := tokens0, posts0;
      var j := 0;
      TakeOneMore(done, entries, 0);
      while j < |entries|
        invariant 0 <= j <= |entries|
        invariant processed == done + entries[..j]
        invariant Valid()
        invariant postedLinks == seen0 + KeysOf(processed)
        invariant ExtendsBy(pending0, pendingPosts, tokens, posts)
        invariant RecordsAll(posts, Admitted(seen0, processed, providers), providers)
      {
        TakeOneMore(done, entries, j);
        tokens, posts := IngestNext(entries[j], providers, seen0, pending0, processed, tokens, posts);
        processed := processed + [entries[j]];
        j := j + 1;
      }
      assert entries[..j] == entries;
    }

    /** `fetch_feeds`: the first five entries of every source, in order.
        Every key seen is added to `postedLinks`; each candidate is
        registered under a fresh token (listed in `tokens`, with the stored
        records in `posts`), and nothing already pending changes. */
    method FetchFeeds(sources: seq<seq<FeedEntry>>, providers: seq<Provider>)
      returns (ghost tokens: seq<string>, ghost posts: seq<PendingPost>)
      requires Valid()
      modifies this
      ensures Valid()
      ensures postedLinks == old(postedLinks) + KeysOf(Window(sources))
      ensures ExtendsBy(old(pendingPosts), pendingPosts, tokens, posts)
      ensures RecordsAll(posts, Admitted(old(postedLinks), Window(sources), providers), providers)
    {
      ghost var seen0 := postedLinks;
      ghost var pending0 := pendingPosts;
      tokens, posts := [], [];
      var i := 0;
      while i < |sources|
        invariant 0 <= i <= |sources|
        invariant Valid()
        invariant postedLinks == seen0 + KeysOf(Window(sources[..i]))
        invariant ExtendsBy(pending0, pendingPosts, tokens, posts)
        invariant RecordsAll(posts, Admitted(seen0, Window(sources[..i]), providers), providers)
      {
        WindowSnoc(sources, i);
        tokens, posts := IngestEntries(Head(sources[i]), providers, seen0, pending0, Window(sources[..i]), tokens, posts);
        i := i + 1;
      }
      assert sources[..i] == sources;
    }

    /** `handle_callback`: the outcome and the new pending map are those of
        `Decide` and `Remaining`; the seen keys do not change. */
    method HandleCallback(data: string) returns (o: Outcome)
      requires Valid()
      modifies this`pendingPosts
      ensures Valid()
      ensures o == Decide(old(pendingPosts), data)
      ensures pendingPosts == Remaining(old(pendingPosts), data)
    {
      if data == "" || ':' !in data {
        return Ignored;
      }
      var (action, callbackId) := SplitFirst(data, ':').value;
      if callbackId !in pendingPosts {
        return AlreadyProcessed(ALREADY_PROCESSED);
      }
      var post := pendingPosts[callbackId];
      var broadcast: Option<Broadcast> := None;
      var status;
      if action == APPROVE {
        broadcast := Some(BroadcastOf(post));
        status := STATUS_PUBLISHED;
      } else {
        status := STATUS_REJECTED;
      }
      o := Decided(callbackId, broadcast, post.text + "\n\n" + status);
      assert o == Decide(pendingPosts, data);
      RemainingKeepsInvariant(postedLinks, pendingPosts, data);
      pendingPosts := pendingPosts - {callbackId};
    }
  }
}
