/** The image resolver (`extract_image`): the first hit among an entry's
    media content, its thumbnail, an image enclosure and the article's
    og:image. */
module Images {
  import opened Wrappers
  import opened Strings
  import opened Feeds

  /** The url of element 0 of a media list, when there is one and it is not
      empty; later elements are never looked at. */
  function FirstMediaUrl(media: seq<MediaRef>): (r: Option<string>)
    ensures r.Some? <==> |media| > 0 && media[0].url != ""
    ensures r.Some? ==> r.value == media[0].url
  {
    if |media| > 0 && media[0].url != "" then Some(media[0].url) else None
  }

  /** A link the enclosure step accepts: `rel` is "enclosure", the type
      starts with "image/" and the href is not empty. */
  predicate IsImageEnclosure(l: LinkInfo) {
    l.rel == "enclosure" && StartsWith(l.mimeType, "image/") && l.href != ""
  }

  /** The href of the first accepted enclosure link. */
  function FirstImageEnclosure(links: seq<LinkInfo>): (r: Option<string>)
    ensures r.None? <==> forall i :: 0 <= i < |links| ==> !IsImageEnclosure(links[i])
    ensures r.Some? ==> exists i :: 0 <= i < |links| && IsImageEnclosure(links[i]) &&
                                   links[i].href == r.value &&
                                   forall j :: 0 <= j < i ==> !IsImageEnclosure(links[j])
    decreases |links|
  {
    if links == [] then None
    else if IsImageEnclosure(links[0]) then Some(links[0].href)
    else
      var r := FirstImageEnclosure(links[1..]);
      assert forall i :: 1 <= i < |links| ==> links[1..][i - 1] == links[i];
      assert r.Some? ==> exists i :: 0 <= i < |links| && IsImageEnclosure(links[i]) &&
                                     links[i].href == r.value &&
                                     forall j :: 0 <= j < i ==> !IsImageEnclosure(links[j]) by {
        if r.Some? {
          var i :| 0 <= i < |links| - 1 && IsImageEnclosure(links[1..][i]) &&
                   links[1..][i].href == r.value &&
                   forall j :: 0 <= j < i ==> !IsImageEnclosure(links[1..][j]);
          assert links[i + 1] == links[1..][i];
          assert forall j :: 1 <= j < i + 1 ==> !IsImageEnclosure(links[j]) by {
            forall j | 1 <= j < i + 1 ensures !IsImageEnclosure(links[j]) {
              assert links[j] == links[1..][j - 1];
            }
          }
        }
      }
      r
  }

  /** The og:image step: the tag's content when it is not empty. */
  function OgImage(og: Option<string>): (r: Option<string>)
    ensures r.Some? <==> og.Some? && og.value != ""
    ensures r.Some? ==> r == og
  {
    if og.Some? && og.value != "" then og else None
  }

  /** `extract_image`: the first step that finds a non-empty url wins. */
  function ExtractImage(e: FeedEntry): (r: Option<string>)
    ensures r.Some? ==> r.value != ""
    ensures FirstMediaUrl(e.mediaContent).Some? ==> r == FirstMediaUrl(e.mediaContent)
    ensures FirstMediaUrl(e.mediaContent).None? && FirstMediaUrl(e.mediaThumbnail).Some? ==>
              r == FirstMediaUrl(e.mediaThumbnail)
    ensures (FirstMediaUrl(e.mediaContent).None? && FirstMediaUrl(e.mediaThumbnail).None? &&
             FirstImageEnclosure(e.links).Some?) ==> r == FirstImageEnclosure(e.links)
    ensures (FirstMediaUrl(e.mediaContent).None? && FirstMediaUrl(e.mediaThumbnail).None? &&
             FirstImageEnclosure(e.links).None?) ==> r == OgImage(e.ogImage)
    ensures r.None? <==> FirstMediaUrl(e.mediaContent).None? && FirstMediaUrl(e.mediaThumbnail).None? &&
                         (forall i :: 0 <= i < |e.links| ==> !IsImageEnclosure(e.links[i])) &&
                         OgImage(e.ogImage).None?
  {
    var media := FirstMediaUrl(e.mediaContent);
    if media.Some? then media
    else
      var thumb := FirstMediaUrl(e.mediaThumbnail);
      if thumb.Some? then thumb
      else
        var enclosure := FirstImageEnclosure(e.links);
        if enclosure.Some? then enclosure
        else OgImage(e.ogImage)
  }

  /** Only element 0 of the media and thumbnail lists matters. */
  lemma OnlyFirstMediaInspected(e: FeedEntry, moreMedia: seq<MediaRef>, moreThumbs: seq<MediaRef>)
    requires |e.mediaContent| > 0 && |e.mediaThumbnail| > 0
    ensures ExtractImage(e.(mediaContent := [e.mediaContent[0]] + moreMedia,
                            mediaThumbnail := [e.mediaThumbnail[0]] + moreThumbs)) == ExtractImage(e)
  {
  }
}
