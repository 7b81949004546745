/** The relevance filter: which links come from international outlets
    (`is_international`) and which items mention Ukraine
    (`is_ukraine_related`). */
module Relevance {
  import opened Wrappers
  import opened Strings
  import opened Urls

  /** Host fragments that mark a feed as international. */
  const INTL_HOST_SNIPPETS: seq<string> := [
    "bbc.", "reuters.", "theguardian.", "apnews.", "cnn.", "aljazeera.",
    "nytimes.", "dw.com", "npr.org", "euronews."
  ]

  /** The alternatives of the Ukraine keyword pattern, matched
      case-insensitively anywhere in the text. */
  const UA_KEYWORDS: seq<string> := [
    "Україна", "україн", "Київ", "Києв", "Харків", "Львів", "Одеса", "Донбас",
    "Донецьк", "Крим", "Херсон", "Маріуполь", "Запоріжж", "Дніпро", "Зеленськ",
    "Украина", "Киев", "Харьков", "Львов", "Одесса",
    "Ukraine", "Ukrainian", "Kyiv", "Kiev", "Kharkiv", "Lviv", "Odesa", "Donbas",
    "Donetsk", "Crimea", "Kherson", "Mariupol", "Zaporizh", "Dnipro", "Zelensky"
  ]

  /** `any(n in hay for n in needles)`. */
  function AnyOccurs(needles: seq<string>, hay: string): (r: bool)
    ensures r <==> exists i :: 0 <= i < |needles| && IsSubstring(needles[i], hay)
    decreases |needles|
  {
    if needles == [] then false
    else if Contains(hay, needles[0]) then true
    else
      var r := AnyOccurs(needles[1..], hay);
      assert r ==> exists i :: 0 <= i < |needles| && IsSubstring(needles[i], hay) by {
        if r {
          var i :| 0 <= i < |needles| - 1 && IsSubstring(needles[1..][i], hay);
          assert needles[1..][i] == needles[i + 1];
        }
      }
      r
  }

  /** Some keyword occurs in `hay` when both are lower-cased. */
  function AnyOccursIgnoringCase(keywords: seq<string>, hay: string): (r: bool)
    ensures r <==> exists i :: 0 <= i < |keywords| && IsSubstring(Lower(keywords[i]), Lower(hay))
    decreases |keywords|
  {
    if keywords == [] then false
    else if Contains(Lower(hay), Lower(keywords[0])) then true
    else
      var r := AnyOccursIgnoringCase(keywords[1..], hay);
      assert r ==> exists i :: 0 <= i < |keywords| && IsSubstring(Lower(keywords[i]), Lower(hay)) by {
        if r {
          var i :| 0 <= i < |keywords| - 1 && IsSubstring(Lower(keywords[1..][i]), Lower(hay));
          assert keywords[1..][i] == keywords[i + 1];
        }
      }
      r
  }

  /** A match survives appending text to the haystack. */
  lemma OccursIgnoringCaseInLonger(keywords: seq<string>, hay: string, extra: string)
    requires AnyOccursIgnoringCase(keywords, hay)
    ensures AnyOccursIgnoringCase(keywords, hay + extra)
  {
    var i :| 0 <= i < |keywords| && IsSubstring(Lower(keywords[i]), Lower(hay));
    LowerAppend(hay, extra);
    SubstringOfConcat(Lower(keywords[i]), Lower(hay), Lower(extra));
  }

  /** A link is international exactly when its lower-cased host contains one
      of the snippets; a link `urlparse` rejects is not international. */
  function IsInternational(parsed: Option<Url>): (r: bool)
    ensures r <==> parsed.Some? &&
                   exists i :: 0 <= i < |INTL_HOST_SNIPPETS| &&
                               IsSubstring(INTL_HOST_SNIPPETS[i], Lower(parsed.value.netloc))
  {
    match parsed
    case None => false
    case Some(u) => AnyOccurs(INTL_HOST_SNIPPETS, Lower(u.netloc))
  }

  /** The text the keyword pattern is searched in. */
  function Haystack(title: string, summary: string): string {
    title + " " + summary
  }

  /** Text appended to the summary is appended to the haystack. */
  lemma HaystackAppend(title: string, summary: string, extra: string)
    ensures Haystack(title, summary + extra) == Haystack(title, summary) + extra
  {
  }

  /** An item is Ukraine-related exactly when some keyword occurs,
      ignoring case, in its title and summary joined by a space. */
  function IsUkraineRelated(title: string, summary: string): (r: bool)
    ensures r <==> exists i :: 0 <= i < |UA_KEYWORDS| &&
                               IsSubstring(Lower(UA_KEYWORDS[i]), Lower(Haystack(title, summary)))
  {
    AnyOccursIgnoringCase(UA_KEYWORDS, Haystack(title, summary))
  }

  /** A keyword in the title, in any letter case, makes the item related. */
  lemma KeywordInTitle(title: string, summary: string, i: nat)
    requires i < |UA_KEYWORDS|
    requires IsSubstring(Lower(UA_KEYWORDS[i]), Lower(title))
    ensures IsUkraineRelated(title, summary)
  {
    LowerAppend(title, " " + summary);
    assert Haystack(title, summary) == title + (" " + summary);
    SubstringOfConcat(Lower(UA_KEYWORDS[i]), Lower(title), Lower(" " + summary));
  }

  /** A keyword in the summary, in any letter case, makes the item related. */
  lemma KeywordInSummary(title: string, summary: string, i: nat)
    requires i < |UA_KEYWORDS|
    requires IsSubstring(Lower(UA_KEYWORDS[i]), Lower(summary))
    ensures IsUkraineRelated(title, summary)
  {
    LowerAppend(title + " ", summary);
    SubstringOfConcat(Lower(UA_KEYWORDS[i]), Lower(title + " "), Lower(summary));
  }
}
