/** Length enforcement at broadcast time (`handle_callback`): the stored text
    is cut so that text and the appended source-link line fit the channel's
    limit. */
module Truncation {
  import opened Strings

  /** Telegram's limit for a photo caption. */
  const CAPTION_LIMIT: nat := 1024
  /** Telegram's limit for a text message. */
  const TEXT_LIMIT: nat := 4096

  const LINK_LINE_PREFIX := "\n\n🔗 Джерело: "
  const ELLIPSIS := "..."

  /** The line appended to every broadcast: the original link, or the
      canonical one when the original is empty. */
  function LinkLine(sourceLink: string, canonicalLink: string): (r: string)
    ensures StartsWith(r, LINK_LINE_PREFIX)
    ensures EndsWith(r, if sourceLink != "" then sourceLink else canonicalLink)
    ensures |r| == |LINK_LINE_PREFIX| + if sourceLink != "" then |sourceLink| else |canonicalLink|
  {
    LINK_LINE_PREFIX + (if sourceLink != "" then sourceLink else canonicalLink)
  }

  /** The text that is sent: `text` followed by `linkLine`, where `text` is
      cut to `budget - |linkLine| - 3` characters plus "..." when it does not
      fit in `budget - |linkLine|`. The result is within the budget exactly
      when the text fits or the link line leaves room for the ellipsis. */
  function FitToBudget(text: string, linkLine: string, budget: nat): (r: string)
    ensures EndsWith(r, linkLine)
    ensures |text| + |linkLine| <= budget ==> r == text + linkLine
    ensures |text| + |linkLine| > budget && |linkLine| + |ELLIPSIS| <= budget ==>
              r == text[..budget - |linkLine| - |ELLIPSIS|] + ELLIPSIS + linkLine && |r| == budget
    ensures |r| <= budget <==> |text| + |linkLine| <= budget || |linkLine| + |ELLIPSIS| <= budget
  {
    var maxLen := budget - |linkLine|;
    var base := if |text| > maxLen then PyPrefix(text, maxLen - |ELLIPSIS|) + ELLIPSIS else text;
    base + linkLine
  }

  /** The budget a broadcast is held to: the caption limit with a photo, the
      message limit without. */
  function Budget(withPhoto: bool): (n: nat)
    ensures n >= CAPTION_LIMIT
    ensures withPhoto ==> n == CAPTION_LIMIT
    ensures !withPhoto ==> n == TEXT_LIMIT
  {
    if withPhoto then CAPTION_LIMIT else TEXT_LIMIT
  }

  /** A long text ends with the ellipsis right before the link line. */
  lemma LongTextEndsWithEllipsis(text: string, linkLine: string, budget: nat)
    requires |text| + |linkLine| > budget && |linkLine| + |ELLIPSIS| <= budget
    ensures EndsWith(FitToBudget(text, linkLine, budget), ELLIPSIS + linkLine)
  {
    var r := FitToBudget(text, linkLine, budget);
    var cut := text[..budget - |linkLine| - |ELLIPSIS|];
    assert r == cut + (ELLIPSIS + linkLine);
  }
}
