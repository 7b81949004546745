/** The message composer (`build_validation_message`): the text shown to the
    moderators, or "" when an item is to be dropped. */
module Composer {
  import opened Wrappers
  import opened Strings
  import opened Urls
  import opened Relevance
  import opened Translation

  const FLAG := "🇺🇦"
  const SOURCE_LABEL := "🔗 Джерело: "
  const READ_SOURCE_LABEL := "[Читати джерело]"

  /** Characters of the summary kept, before translation, for international
      items. */
  const BRIEF_LIMIT: nat := 300

  /** Last line of an international item's message. */
  function SourceLine(link: string): string {
    SOURCE_LABEL + link
  }

  /** Last part of a native item's message: a blank line, then the link. */
  function ReadSourceLine(link: string): string {
    "\n" + READ_SOURCE_LABEL + "(" + link + ")"
  }

  /** First line of an international item's message. */
  function Header(translatedTitle: string): string {
    FLAG + " *" + translatedTitle + "*"
  }

  /** `summary[:300]`. */
  function Brief(summary: string): (r: string)
    ensures |r| <= BRIEF_LIMIT && |r| <= |summary| && r == summary[..|r|]
    ensures |summary| <= BRIEF_LIMIT ==> r == summary
    ensures |summary| > BRIEF_LIMIT ==> |r| == BRIEF_LIMIT
  {
    PyPrefix(summary, BRIEF_LIMIT)
  }

  function InternationalMessage(link: string, title: string, summary: string,
                                providers: seq<Provider>): string
  {
    var brief := Brief(summary);
    var translatedTitle := Translate(title, providers);
    var translatedBrief := if brief != "" then Translate(brief, providers) else "";
    var lines := [Header(translatedTitle)]
                 + (if translatedBrief != "" then [translatedBrief] else [])
                 + [SourceLine(link)];
    Join(lines, "\n")
  }

  function NativeMessage(link: string, title: string, summary: string): string {
    var lines := (if title != "" then ["*" + title + "*"] else [])
                 + (if summary != "" then [summary] else [])
                 + [ReadSourceLine(link)];
    Join(lines, "\n")
  }

  /** An international item's message: the header, the translated brief when
      it is not empty, and the source line, one per line. */
  lemma InternationalLayout(link: string, title: string, summary: string, providers: seq<Provider>)
    ensures var translatedBrief := Translate(Brief(summary), providers);
            InternationalMessage(link, title, summary, providers)
            == Header(Translate(title, providers))
               + (if translatedBrief == "" then "" else "\n" + translatedBrief)
               + "\n" + SourceLine(link)
  {
    var header := Header(Translate(title, providers));
    var brief := Brief(summary);
    var translatedBrief := Translate(brief, providers);
    assert (if brief != "" then Translate(brief, providers) else "") == translatedBrief;
    if translatedBrief == "" {
      JoinSnoc([header], SourceLine(link), "\n");
    } else {
      assert [header] + [translatedBrief] + [SourceLine(link)] == [header, translatedBrief] + [SourceLine(link)];
      JoinSnoc([header], translatedBrief, "\n");
      JoinSnoc([header, translatedBrief], SourceLine(link), "\n");
    }
  }

  /** A native item's message: the starred title and the summary, each on its
      own line when not empty, then a blank line and the source link. */
  lemma NativeLayout(link: string, title: string, summary: string)
    ensures NativeMessage(link, title, summary)
            == (if title != "" then "*" + title + "*\n" else "")
               + (if summary != "" then summary + "\n" else "")
               + ReadSourceLine(link)
  {
    var first := if title != "" then ["*" + title + "*"] else [];
    var second := if summary != "" then [summary] else [];
    JoinSnoc(first + second, ReadSourceLine(link), "\n");
    if title != "" && summary != "" {
      JoinSnoc(first, summary, "\n");
    }
  }

  /** The header, an optional middle line and a last line, joined by line
      breaks, start with the header line and end with the last line. */
  lemma FramedLines(header: string, middle: string, last: string)
    ensures var m := header + (if middle == "" then "" else "\n" + middle) + "\n" + last;
            StartsWith(m, header + "\n") && EndsWith(m, "\n" + last)
  {
    var m := header + (if middle == "" then "" else "\n" + middle) + "\n" + last;
    if middle == "" {
      assert m == (header + "\n") + last == header + ("\n" + last);
      Affixes(header + "\n", last);
      Affixes(header, "\n" + last);
    } else {
      assert m == (header + "\n") + (middle + "\n" + last) == (header + "\n" + middle) + ("\n" + last);
      Affixes(header + "\n", middle + "\n" + last);
      Affixes(header + "\n" + middle, "\n" + last);
    }
  }

  /** An international item's message starts with the header line and ends
      with the source line. */
  lemma InternationalShape(link: string, title: string, summary: string, providers: seq<Provider>)
    ensures StartsWith(InternationalMessage(link, title, summary, providers),
                       Header(Translate(title, providers)) + "\n")
    ensures EndsWith(InternationalMessage(link, title, summary, providers), "\n" + SourceLine(link))
  {
    InternationalLayout(link, title, summary, providers);
    FramedLines(Header(Translate(title, providers)), Translate(Brief(summary), providers), SourceLine(link));
  }

  /** A native item's message ends with the source link. */
  lemma NativeShape(link: string, title: string, summary: string)
    ensures EndsWith(NativeMessage(link, title, summary), ReadSourceLine(link))
  {
    NativeLayout(link, title, summary);
    Affixes((if title != "" then "*" + title + "*\n" else "") + (if summary != "" then summary + "\n" else ""),
            ReadSourceLine(link));
  }

  /** `build_validation_message`: "" exactly when the link is international
      and the item does not mention Ukraine; a native item's message ends with
      the source link; a relevant international item's message starts with the
      flag and the translated title and ends with the source line. */
  function BuildValidationMessage(link: string, parsed: Option<Url>, title: string, summary: string,
                                  providers: seq<Provider>): (r: string)
    ensures r == "" <==> IsInternational(parsed) && !IsUkraineRelated(title, summary)
    ensures !IsInternational(parsed) ==> EndsWith(r, ReadSourceLine(link))
    ensures IsInternational(parsed) && IsUkraineRelated(title, summary) ==>
              StartsWith(r, Header(Translate(title, providers)) + "\n") &&
              EndsWith(r, "\n" + SourceLine(link))
  {
    if IsInternational(parsed) then
      if !IsUkraineRelated(title, summary) then ""
      else
        InternationalShape(link, title, summary, providers);
        InternationalMessage(link, title, summary, providers)
    else
      NativeShape(link, title, summary);
      NativeMessage(link, title, summary)
  }

  /** Relevance survives making the summary longer. */
  lemma RelatedExtended(title: string, summary: string, extra: string)
    requires IsUkraineRelated(title, summary)
    ensures IsUkraineRelated(title, summary + extra)
  {
    HaystackAppend(title, summary, extra);
    OccursIgnoringCaseInLonger(UA_KEYWORDS, Haystack(title, summary), extra);
  }

  /** The brief is cut before translation: for a relevant international item,
      nothing after the first 300 characters of the summary reaches the
      message. */
  lemma BriefCutBeforeTranslation(link: string, parsed: Option<Url>, title: string, summary: string,
                                  extra: string, providers: seq<Provider>)
    requires IsInternational(parsed) && IsUkraineRelated(title, summary)
    requires |summary| >= BRIEF_LIMIT
    ensures BuildValidationMessage(link, parsed, title, summary + extra, providers)
            == BuildValidationMessage(link, parsed, title, summary, providers)
  {
    RelatedExtended(title, summary, extra);
    assert Brief(summary + extra) == Brief(summary) by {
      assert (summary + extra)[..BRIEF_LIMIT] == summary[..BRIEF_LIMIT];
    }
  }
}
