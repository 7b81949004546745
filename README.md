# Telegram news bot: moderation pipeline

A Dafny model of a Telegram bot that reposts news. The bot reads RSS/Atom
feeds and sends each new item to a moderators' channel with "approve" and
"reject" buttons. On approval it broadcasts the item to the public channel.
Two revisions are modelled:

- `main_patched.py`, the full revision, which:
  - de-duplicates on a canonical form of the link, with tracking parameters,
    letter case of scheme and host, trailing slashes, params and fragment
    ignored;
  - drops items from international outlets that do not mention Ukraine;
  - translates the title and a 300-character brief of the remaining
    international items through a chain of providers;
  - attaches an image, taken from the media list, the thumbnail list, an
    image enclosure or the article's og:image;
  - keys each candidate by a fresh random token;
  - on approval, cuts the text to Telegram's caption (1024) or message (4096)
    limit, keeping room for a source-link line.
- `main.py`, the earlier revision, which:
  - de-duplicates on the raw link;
  - uses the link itself as the token;
  - stores only the message text;
  - broadcasts that text unchanged.

The project is organised as follows:

- Pure parts are datatypes, functions and lemmas:
  - `Strings`: the Python string builtins used;
  - `Urls`: `canonicalize_url`;
  - `Relevance`: `is_international` and `is_ukraine_related`;
  - `Translation`: `translate_to_uk`;
  - `Composer`: `build_validation_message`;
  - `Images`: `extract_image`;
  - `Truncation`: the length arithmetic of `handle_callback`.
- The two process-wide collections, `posted_links` and `pending_posts`,
  become fields of the classes `Moderation.NewsBot` and
  `SimpleModeration.SimpleBot`. Their `FetchFeeds` methods keep the source's
  nested loops over sources and entries. Their `HandleCallback` methods look
  a token up and remove it.

Each method is proved against specification functions:

- `Moderation.Admitted` is the candidates of a cycle:
  - the store grows by exactly those, under fresh tokens (`ExtendsBy`,
    `RecordsAll`);
  - `Decide` and `Remaining` are the effect of a button press.
- `SimpleModeration.Ingest` is the left fold of one entry step; the
  decision functions are `SimpleDecide` and `SimpleRemaining`.

The lemmas beside those functions state the promises of the source:

- the seen set only grows, so re-fetching changes nothing;
- keys of candidates are fresh and distinct;
- a decision is final;
- the broadcast ends with the source link, and it fits the budget whenever the link line leaves room for "...".

The string literals of `main_patched.py` are stored mis-encoded; see
"## Left out".

## Model

| member | source | states |
|---|---|---|
| Strings.LowerIsLower | main_patched.py:62-63 | lower-casing yields lower-case text and is idempotent |
| Strings.Lower | main_patched.py:62-63 | `str.lower()` on the covered alphabet: the same length, each character mapped by the ASCII and Cyrillic case table (also used at lines 58 and 107) |
| Strings.Contains | main_patched.py:108 | substring search is true exactly when the needle occurs somewhere in the text |
| Strings.StartsWith | main_patched.py:187 | `startswith` holds exactly when the prefix occurs at position 0 |
| Strings.PyPrefix | main_patched.py:279 | Python's `s[:n]`: a prefix of `s` of length `n` (capped at `|s|`), or of `|s|+n` characters for negative `n`, empty if that is negative |
| Strings.StripTrailing | main_patched.py:60 | `rstrip`: a prefix that does not end in the character, with only that character cut off |
| Strings.JoinSnoc | main_patched.py:154 | joining one more line appends the separator and the line |
| Strings.Join | main_patched.py:154 | `sep.join(parts)`: empty for no parts, the single part alone, otherwise the parts with the separator between each pair (also line 163) |
| Strings.SplitFirst | main_patched.py:258-260 | `split(':', 1)`: None exactly when there is no ':'; otherwise head, ':' and tail rebuild the data and the head has no ':' |
| Strings.SplitFirstOfJoined | main_patched.py:260 | splitting `head + ':' + tail` with a colon-free head gives back head and tail, whatever the tail holds |
| Urls.KeepUntracked | main_patched.py:58 | the filtered query is never longer than the original |
| Urls.KeepUntrackedMembers | main_patched.py:58 | exactly the pairs whose lower-cased key is not a tracking parameter are kept |
| Urls.KeepUntrackedAppend | main_patched.py:58 | filtering distributes over concatenation, so kept pairs stay in their original order |
| Urls.KeepUntrackedOfClean | main_patched.py:58 | a query without tracking pairs is kept as it is |
| Urls.KeepUntrackedSkipsTracking | main_patched.py:58 | a tracking pair is removed wherever it stands and nothing else changes |
| Urls.NormalizePath | main_patched.py:60 | the path becomes "/" exactly when it is all slashes; otherwise it is the path without its trailing slashes, and only slashes are cut |
| Urls.NormalizePathOfNormal | main_patched.py:60 | a path already in normal form is unchanged |
| Urls.NormalizePathTrailingSlash | main_patched.py:60 | one more trailing slash makes no difference |
| Urls.Canonicalize | main_patched.py:56-68 | the result is canonical (lower-case scheme and host, normal path, no params, no fragment, no tracking pair), agrees with the input up to letter case and trailing slashes, and keeps exactly the untracked pairs |
| Urls.CanonicalIsFixedPoint | main_patched.py:58-68 | a canonical URL is its own canonical form |
| Urls.CanonicalizeIdempotent | main_patched.py:58-68 | canonicalising twice gives the same record as canonicalising once |
| Urls.TrackingParamIgnored | main_patched.py:58 | links that differ by one tracking pair have the same canonical form |
| Urls.TrailingSlashIgnored | main_patched.py:60 | links that differ by a trailing slash have the same canonical form |
| Urls.CanonicalKey | main_patched.py:48-70 | a link `urlparse` rejects is its own key; any other key is the text of a canonical URL |
| Urls.EncodeQuery | main_patched.py:66 | `urlencode(q)`, simplified: the pairs as `key=value`, joined by `&`, without percent-encoding |
| Urls.Unparse | main_patched.py:61-68 | the simplified `urlunparse` described under "## Left out": scheme and ':', '//' and host (with '/' before a relative path), the path with ';params', '?query' and '#fragment', each only when present |
| Urls.KeyOfCanonical | main_patched.py:56-68 | the key of a canonical record is that record's text |
| Urls.KeyOfEquivalentLinks | main_patched.py:48-70 | links whose records have the same canonical form get the same key, so the second is skipped as seen |
| Urls.KeyIgnoresTrackingParam | main_patched.py:58 | a tracking pair does not change the key |
| Urls.KeyIgnoresTrailingSlash | main_patched.py:60 | a trailing slash does not change the key |
| Urls.KeyIsStable | main_patched.py:56-68 | canonicalising a record before taking its key changes nothing |
| Relevance.AnyOccurs | main_patched.py:108 | `any(snippet in host ...)` holds exactly when some snippet is a substring of the host |
| Relevance.AnyOccursIgnoringCase | main_patched.py:92-99 | the keyword pattern with IGNORECASE matches exactly when some lower-cased keyword occurs in the lower-cased text |
| Relevance.IsInternational | main_patched.py:101-110 | a link is international exactly when it parses and some host snippet occurs in its lower-cased host |
| Relevance.IsUkraineRelated | main_patched.py:112-115 | an item is related exactly when some keyword occurs, ignoring case, in title + " " + summary |
| Relevance.HaystackAppend | main_patched.py:114 | text appended to the summary is appended to the searched text |
| Relevance.Haystack | main_patched.py:114 | the searched text is title, one space, summary |
| Relevance.OccursIgnoringCaseInLonger | main_patched.py:115 | a match survives appending text |
| Relevance.KeywordInTitle | main_patched.py:112-115 | a keyword in the title, in any case, makes the item related |
| Relevance.KeywordInSummary | main_patched.py:112-115 | a keyword in the summary, in any case, makes the item related |
| Translation.FirstAnswer | main_patched.py:125-133 | the answer of the first provider that succeeds; the text itself when every provider fails |
| Translation.ProvidersCalled | main_patched.py:123-132 | no provider is called for empty text; every provider before the last one called failed, and if not all were called the last one called succeeded |
| Translation.Translate | main_patched.py:117-133 | empty text is returned as it is; otherwise the first success, or the unchanged text when all fail |
| Translation.AllProvidersFail | main_patched.py:129-133 | when no provider answers, the text passes through and every provider was tried |
| Translation.FirstAnswerOfCalled | main_patched.py:125-132 | the answer depends only on the providers up to and including the first success |
| Translation.TranslateStopsAtFirstSuccess | main_patched.py:123-133 | translating with only the providers that were called gives the same text as with all of them |
| Composer.Brief | main_patched.py:147 | the brief is the summary's first 300 characters (exactly 300 of them when the summary is longer), the whole summary when it is shorter |
| Composer.InternationalLayout | main_patched.py:147-154 | an international message is the flag header, the translated brief on its own line when not empty, and the source line |
| Composer.InternationalMessage | main_patched.py:147-154 | the lines header, translated brief (when not empty) and source line, joined by line breaks; laid out by `InternationalLayout` |
| Composer.NativeLayout | main_patched.py:157-163 | a native message is the starred title and the summary, each on its own line when not empty, then a blank line and the read-source link |
| Composer.NativeMessage | main_patched.py:157-163 | the lines starred title and summary (each when not empty) and the read-source line, joined by line breaks; laid out by `NativeLayout` |
| Composer.FramedLines | main_patched.py:150-154 | header, optional middle line and last line joined by line breaks start with the header line and end with the last line |
| Composer.InternationalShape | main_patched.py:150-154 | an international message starts with the flag and translated title and ends with the source line |
| Composer.NativeShape | main_patched.py:157-163 | a native message ends with the read-source link |
| Composer.BuildValidationMessage | main_patched.py:135-163 | "" exactly when the link is international and unrelated; native messages end with the read-source link; related international messages start with the translated header and end with the source line |
| Composer.RelatedExtended | main_patched.py:112-115 | relevance survives a longer summary |
| Composer.BriefCutBeforeTranslation | main_patched.py:147-149 | characters of the summary after the first 300 never reach a relevant international message |
| Feeds.Head | main_patched.py:206 | `entries[:5]`: a prefix of the feed, exactly five entries when the feed is longer, the whole feed when it is short |
| Feeds.Window | main_patched.py:204-206 | one cycle handles at most five entries per source in total; with `Head` and `WindowSnoc`, at most five from each |
| Feeds.WindowFromHeads | main_patched.py:204-206 | every entry a cycle handles is among the first five of some source |
| Feeds.WindowSnoc | main_patched.py:204-206 | each further source appends its first five entries, in order |
| Images.FirstMediaUrl | main_patched.py:175-184 | only element 0 of a media list is looked at; its url counts when it is not empty |
| Images.FirstImageEnclosure | main_patched.py:186-190 | None exactly when no link is an image enclosure with an href; otherwise the href of the first such link |
| Images.IsImageEnclosure | main_patched.py:187-189 | a link is accepted when its rel is "enclosure", its type starts with "image/" and its href is not empty |
| Images.OgImage | main_patched.py:192-199 | the og:image content counts only when it is not empty |
| Images.ExtractImage | main_patched.py:165-200 | media before thumbnail before enclosure before og:image, each step's url returned when the earlier ones find nothing; any image found is a non-empty url; None exactly when every step finds nothing |
| Images.OnlyFirstMediaInspected | main_patched.py:175-184 | elements after the first of either media list never change the result |
| Truncation.LinkLine | main_patched.py:271-273 | the link line starts with the label and ends with the original link, or with the canonical link when the original is empty, and is exactly that long |
| Truncation.FitToBudget | main_patched.py:277-297 | the result ends with the link line; text that fits is sent verbatim; otherwise it is cut to leave room for "..." and the link line and has exactly the budget's length; it is within the budget exactly when the text fits or the link line leaves room for "..." |
| Truncation.Budget | main_patched.py:275-292 | the budget is the caption limit (1024) with a photo and the message limit (4096) without one |
| Truncation.LongTextEndsWithEllipsis | main_patched.py:278-279 | a cut text ends with "..." right before the link line |
| Moderation.KeysOfMembers | main_patched.py:209-212 | a key is among a run's keys exactly when an entry of the run has it |
| Moderation.Admitted | main_patched.py:209-219 | the candidates of a cycle, in order: each entry whose key was seen neither before the cycle nor earlier in it and whose message is not empty; proved about by `AdmittedSnoc`, `AdmittedAreFresh`, `AdmittedKeysDistinct` |
| Moderation.Records | main_patched.py:245-251 | a stored record holds the entry's message, its image, its canonical key and its original link |
| Moderation.AdmittedSnoc | main_patched.py:206-219 | one more entry becomes a candidate exactly when its key was not seen before it in the cycle and its message is not empty |
| Moderation.AdmittedAreFresh | main_patched.py:209-219 | every candidate comes from the cycle, has a key unseen when the cycle began and a non-empty message |
| Moderation.AdmittedKeysDistinct | main_patched.py:209-212 | no two candidates of one cycle share a key, and each candidate's key is among the cycle's keys |
| Moderation.SeenKeyNeverAdmitted | main_patched.py:209-212 | an entry whose key was already seen never becomes a candidate, even if that key was filtered out before |
| Moderation.RefetchAdmitsNothing | main_patched.py:209-212 | once all keys of a run are seen, the run yields no candidate |
| Moderation.SeeKeepsInvariant | main_patched.py:212 | adding a seen key keeps the store invariant |
| Moderation.AdmitKeepsInvariant | main_patched.py:212-251 | registering a newly seen key's non-empty message under a fresh token keeps the store invariant |
| Moderation.ExtendsByStep | main_patched.py:222-251 | one more fresh token extends the pending map without touching earlier entries |
| Moderation.RecordsAllSnoc | main_patched.py:245-251 | one more stored record extends the records of the candidates |
| Moderation.FreshTokenExists | main_patched.py:222 | a token not yet in use always exists |
| Moderation.IngestStep | main_patched.py:206-251 | one entry keeps the cycle's bookkeeping: seen keys and pending map are those of the entries handled so far |
| Moderation.BroadcastOf | main_patched.py:268-304 | a photo post exactly when a non-empty image url is stored; the body is the stored text fitted with the link line to the caption or message budget; it ends with the link line and is within its budget when the link line leaves room for "..." |
| Moderation.Decide | main_patched.py:253-313 | data without ':' is ignored; an unknown token gets the "already processed" notice; a pending token is always decided, only "approve" broadcasts (every other action rejects), and the moderators' text gains the status line |
| Moderation.Remaining | main_patched.py:314-315 | a decided token is removed and every other entry is unchanged; otherwise the map is unchanged |
| Moderation.ButtonData | main_patched.py:225-226 | the button data is the action, ':' and the token; parsed back by `ButtonDataRoundTrip` |
| Moderation.ButtonDataRoundTrip | main_patched.py:225-226 | the data of a button parses back into its action and token |
| Moderation.ApproveButtonBroadcasts | main_patched.py:274-304 | pressing "approve" on a pending token broadcasts its record |
| Moderation.RejectButtonSendsNothing | main_patched.py:305-307 | pressing "reject" sends nothing |
| Moderation.DecideTwice | main_patched.py:264-267 | a second press on a decided token gets the "already processed" notice and changes nothing |
| Moderation.RemainingKeepsInvariant | main_patched.py:315 | a decision keeps the store invariant |
| Moderation.NewsBot.constructor | main_patched.py:27-34 | both collections start empty and the invariant holds |
| Moderation.NewsBot.IngestEntry | main_patched.py:207-251 | the entry's key is seen afterwards; a seen key or an empty message leaves the pending map as it was; otherwise exactly one fresh token is added, holding the entry's message, image, key and link |
| Moderation.NewsBot.IngestNext | main_patched.py:206-251 | one entry carries the cycle's bookkeeping forward |
| Moderation.NewsBot.IngestEntries | main_patched.py:206-251 | the entries of one source carry the cycle's bookkeeping forward |
| Moderation.NewsBot.FetchFeeds | main_patched.py:202-251 | the seen set grows by exactly the keys of the first five entries of every source; the pending map gains one fresh token per candidate, in order, holding its record, and keeps every earlier entry |
| Moderation.NewsBot.HandleCallback | main_patched.py:253-315 | the outcome is `Decide` on the old pending map and the new map is `Remaining`; the seen set does not change |
| SimpleModeration.SimpleMessage | main.py:26 | the message starts with the starred title line and ends with the blank line and the read-source link |
| SimpleModeration.Step | main.py:20-28 | one entry: a seen link changes nothing; a new link is seen and its message is stored under it |
| SimpleModeration.Ingest | main.py:17-28 | the entries handled in order, one `Step` each; proved about by `IngestSeen`, `IngestKeepsConsistent`, `IngestFirstWins` |
| SimpleModeration.IngestSnoc | main.py:19-28 | one more entry is one more step, and adds its link to the run's links |
| SimpleModeration.IngestConcat | main.py:17-19 | handling one source after another is handling their entries in sequence |
| SimpleModeration.IngestSeen | main.py:21-23 | the seen set grows by exactly the links handled |
| SimpleModeration.IngestKeepsConsistent | main.py:21-28 | the store stays consistent; pending texts already there are never overwritten; only new links from the handled entries are registered |
| SimpleModeration.IngestOfSeen | main.py:21-22 | entries whose links are all seen change nothing |
| SimpleModeration.IngestIdempotent | main.py:21-22 | handling the same entries twice gives the same store as once |
| SimpleModeration.IngestFirstWins | main.py:21-28 | a new link is stored with the message of the first entry that carries it |
| SimpleModeration.SimpleDecide | main.py:43-70 | data without ':' is ignored; a token without a non-empty text gets the "already processed" notice; a token with one is always decided, and only "approve" broadcasts the stored text verbatim, and the moderators' text gains the status line |
| SimpleModeration.SimpleRemaining | main.py:71 | a decided token is removed and every other entry is unchanged; otherwise the map is unchanged |
| SimpleModeration.PendingLinkIsDecided | main.py:51-54 | in a consistent store each pending link's button is decided, never answered "already processed" |
| SimpleModeration.ApproveBroadcastsText | main.py:55-62 | "approve" on a pending link broadcasts its text as stored |
| SimpleModeration.RejectSendsNothing | main.py:63-64 | any other action broadcasts nothing |
| SimpleModeration.SimpleDecideTwice | main.py:51-71 | a second press on a decided link gets the "already processed" notice and changes nothing |
| SimpleModeration.SimpleRemainingKeepsConsistent | main.py:71 | a decision keeps the store consistent |
| SimpleModeration.SimpleBot.constructor | main.py:12-13 | both collections start empty and the invariant holds |
| SimpleModeration.SimpleBot.IngestEntries | main.py:19-41 | the new state is `Ingest` of the old one over the source's entries |
| SimpleModeration.SimpleBot.FetchFeeds | main.py:15-41 | the new state is `Ingest` of the old one over the first five entries of every source, and the store stays consistent |
| SimpleModeration.SimpleBot.HandleCallback | main.py:43-71 | the outcome is `SimpleDecide` on the old pending map and the new map is `SimpleRemaining`; the seen set does not change |

## Left out

- Telegram calls are not modelled: `send_message`, `send_photo`, `edit_message_text`, `query.answer`, the inline keyboards and Markdown rendering. They are foreign I/O. The outcome datatype records what would be sent and edited. The id of the moderators' copy is an arbitrary value.
- A failing Telegram call is not modelled. It raises and ends the cycle or handler midway.
- Feed fetching (`feedparser.parse`) is replaced by input: a sequence of sources, each a sequence of entries. A missing summary is "", as `entry.get("summary", "")` makes it.
- Every entry is assumed to have a link and a title. Both revisions read them as attributes (`entry.link`, `entry.title`). On an entry without one the source raises. For a missing title that happens after the key was added to the seen set (main_patched.py:212-213, main.py:23-24). The key is then seen with no candidate, and the rest of the cycle is skipped. That abort is not modelled.
- The og:image scrape (`requests.get` and BeautifulSoup) is an input field of the entry: None when the request fails or there is no tag, otherwise the tag's content.
- The translation providers are an input sequence of functions. `None` stands for a provider that raised.
- `urllib.parse` is replaced by a parsed record, None when `urlparse` raises.
- `Urls.Unparse` is a simplified `urlunparse`/`urlencode`. It does no percent-encoding and joins the components in the standard order.
- Urls.CanonicalKey: states that equal canonical records give equal keys (`KeyOfEquivalentLinks`). It does not state the converse, because the simplified `Unparse` is not injective.
- The regular expression engine is replaced by case-insensitive substring search over the list of alternatives.
- Strings.LowerIsLower: lower-casing covers ASCII and the basic Cyrillic block (with Ґ), not full Unicode case folding.
- `uuid.uuid4().hex` is any string not already a pending token. Its format is not modelled.
- Moderation.NewsBot.FetchFeeds: the tokens and stored records it reports are ghost values. The message ids in the records are arbitrary.
- Configuration loading, the startup `RuntimeError` and the job queue are not modelled. The methods run one at a time, so asyncio interleaving is not modelled either.
- The `FetchFeeds` and `HandleCallback` methods of both classes, and the `NewsBot` ingestion helpers, require the class invariant `Valid()`. The constructors establish it and those methods keep it. `SimpleBot.IngestEntries` is stated against `Ingest` alone, without the invariant. The source has no such check, but no reachable state violates it.
- Truncation.FitToBudget: the length bound holds only when the link line leaves room for "...". With a longer link, Python's negative slice keeps too much text and the result exceeds the budget. The contract states both cases.
- Lengths are counted in code points. Telegram counts UTF-16 units.
- The string literals of `main_patched.py` are stored mis-encoded: UTF-8 bytes read as cp1252. This affects the flag, the labels, the Cyrillic keywords and the statuses. The model uses the decoded text, which matches the literals of `main.py`. The program as written differs in two ways:
  - its link-line prefix is 23 code points long, not 13;
  - its Cyrillic regex alternatives do not match correctly encoded Cyrillic, so the model's `IsUkraineRelated` holds on "Київ" where the program as written does not.
  No contract depends on the concrete literals.
- Translation.Translate: each provider is a pure function of the text, so it answers the same text the same way on every call. A provider whose answer or failure varies between calls within a cycle is not modelled.
- Edit propagation between the channels does not exist in this revision, so there is nothing to model.
