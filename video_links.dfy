/** How a video card's anchor is found and what it says: the video identifier in its href (or in its
    thumbnail's src) and whether it stands for a playlist or a clip. */
module VideoLinks {
  import opened Common

  const IdLength := 11

  /** The characters that the regular-expression `.` does not match. */
  predicate IsLineTerminator(c: char)
  {
    c == '\n' || c == '\r' || c == '\U{2028}' || c == '\U{2029}'
  }

  /** `.{11}` matches at position `p`. */
  predicate ElevenFrom(s: string, p: nat)
  {
    p + IdLength <= |s| && forall i | p <= i < p + IdLength :: !IsLineTerminator(s[i])
  }

  /** `(?<=(?:\?|&)v=).{11}|(?<=\/shorts\/).{11}` matches at position `p`. */
  predicate HrefIdAt(href: string, p: nat)
  {
    && p <= |href|
    && (EndsWith(href[..p], "?v=") || EndsWith(href[..p], "&v=") || EndsWith(href[..p], "/shorts/"))
    && ElevenFrom(href, p)
  }

  /** `(?<=\/vi\/).{11}` matches at position `p`. */
  predicate ThumbnailIdAt(src: string, p: nat)
  {
    p <= |src| && EndsWith(src[..p], "/vi/") && ElevenFrom(src, p)
  }

  /** The leftmost position at or after `p` where a pattern matches: the position `match` reports. */
  function FirstMatch(s: string, at: (string, nat) -> bool, p: nat): (r: Option<nat>)
    ensures r.Some? ==> p <= r.value <= |s| && at(s, r.value)
    ensures r.Some? ==> forall q | p <= q < r.value :: !at(s, q)
    ensures r.None? ==> forall q | p <= q <= |s| :: !at(s, q)
    decreases |s| + 1 - p
  {
    if p > |s| then None
    else if at(s, p) then Some(p)
    else FirstMatch(s, at, p + 1)
  }

  /** `id` is what a match of the pattern `at` at its leftmost position in `s` yields. */
  ghost predicate LeftmostMatch(s: string, at: (string, nat) -> bool, id: string)
  {
    exists p: nat :: p + IdLength <= |s| && at(s, p) && id == s[p..p + IdLength]
      && forall q | 0 <= q < p :: !at(s, q)
  }

  /** `s.match(pattern)?.[0]` for a pattern whose every match is `.{11}` behind a look-behind. */
  function MatchEleven(s: string, at: (string, nat) -> bool): (r: Option<VideoID>)
    requires forall p: nat :: at(s, p) ==> ElevenFrom(s, p)
    ensures r.Some? ==> |r.value| == IdLength && LeftmostMatch(s, at, r.value)
    ensures r.None? <==> forall p: nat :: !at(s, p)
  {
    match FirstMatch(s, at, 0)
    case Some(p) =>
      assert ElevenFrom(s, p);
      Some(s[p..p + IdLength])
    case None =>
      assert forall p: nat :: !at(s, p) by {
        forall p: nat ensures !at(s, p) {
          if p > |s| { assert !ElevenFrom(s, p); }
        }
      }
      None
  }

  /** The image `yt-image img` inside a link: its `src` attribute when first read, and when read again
      after waiting for the attribute to be set. */
  datatype ThumbnailImage = ThumbnailImage(src: Option<string>, srcAfterWait: Option<string>)

  /** What the model needs of an anchor element: its href (absent when the element is not an
      anchor) and its thumbnail image, if it has one. */
  datatype Link = Link(href: Option<string>, image: Option<ThumbnailImage>)

  /** The thumbnail source the fallback reads: the current attribute, or the one read after waiting. */
  function ImageSource(image: ThumbnailImage): Option<string>
  {
    if Truthy(image.src) then image.src else image.srcAfterWait
  }

  function HrefVideoID(href: Option<string>): (r: Option<VideoID>)
    ensures r.Some? ==> href.Some? && |r.value| == IdLength && LeftmostMatch(href.value, HrefIdAt, r.value)
    ensures r.None? <==> href.None? || forall p: nat :: !HrefIdAt(href.value, p)
  {
    match href
    case None => None
    case Some(h) => MatchEleven(h, HrefIdAt)
  }

  function ThumbnailVideoID(src: string): (r: Option<VideoID>)
    ensures r.Some? ==> |r.value| == IdLength && LeftmostMatch(src, ThumbnailIdAt, r.value)
    ensures r.None? <==> forall p: nat :: !ThumbnailIdAt(src, p)
  {
    MatchEleven(src, ThumbnailIdAt)
  }

  /** extractVideoID: the eleven characters after `?v=`, `&v=` or `/shorts/` in the href; failing that,
      the eleven characters after `/vi/` in the thumbnail's source; failing that, nothing. */
  function ExtractVideoID(link: Link): (r: Option<VideoID>)
    ensures r.Some? ==> |r.value| == IdLength
    ensures HrefVideoID(link.href).Some? ==> r == HrefVideoID(link.href)
    ensures r.Some? && HrefVideoID(link.href).None? ==> link.image.Some? && Truthy(ImageSource(link.image.value))
    ensures HrefVideoID(link.href).None? && link.image.Some? && Truthy(ImageSource(link.image.value)) ==>
              r == ThumbnailVideoID(ImageSource(link.image.value).value)
    ensures HrefVideoID(link.href).None? && link.image.None? ==> r.None?
  {
    match HrefVideoID(link.href)
    case Some(id) => Some(id)
    case None =>
      match link.image
      case None => None
      case Some(image) =>
        var src := ImageSource(image);
        if Truthy(src) then ThumbnailVideoID(src.value) else None
  }

  /** When the href has no identifier but the thumbnail has a source, extractVideoID finds an
      identifier exactly when `/vi/` is followed by eleven characters in that source, and reports the
      leftmost such match. */
  lemma ExtractVideoIDFromThumbnail(link: Link)
    requires HrefVideoID(link.href).None? && link.image.Some? && Truthy(ImageSource(link.image.value))
    ensures ExtractVideoID(link).Some? <==> exists p: nat :: ThumbnailIdAt(ImageSource(link.image.value).value, p)
    ensures ExtractVideoID(link).Some? ==>
              LeftmostMatch(ImageSource(link.image.value).value, ThumbnailIdAt, ExtractVideoID(link).value)
  {
  }

  /** isPlaylistOrClipTitle: the href names a playlist (`list=`) but not a position in it (`index=`),
      or it is a clip (`/clip/`). */
  function IsPlaylistOrClipTitle(link: Link): (r: bool)
    ensures r <==> link.href.Some? && (
                     || (Occurs(link.href.value, "list=") && !Occurs(link.href.value, "index="))
                     || Occurs(link.href.value, "/clip/"))
  {
    match link.href
    case None => false
    case Some(h) => (Contains(h, "list=") && !Contains(h, "index=")) || Contains(h, "/clip/")
  }

  /** Where getLinkElement finds a card's anchor. */
  datatype LinkSource = Query(selector: string) | ElementItself

  /** getLinkElement: the anchor selector per location (every card location looks up an `a`
      element). End recommendations are anchors themselves; the watch page has no card anchor, and
      asking for one throws. */
  function GetLinkElement(location: BrandingLocation): (r: Outcome<LinkSource>)
    ensures r.Threw? <==> location == Watch
    ensures r == Ok(ElementItself) <==> location == EndRecommendations
    ensures r.Ok? && r.value.Query? ==> |r.value.selector| > 1 && r.value.selector[0] == 'a'
  {
    match location
    case Related => Ok(Query("a#thumbnail"))
    case Endcards => Ok(Query("a.ytp-ce-covering-overlay"))
    case Autoplay => Ok(Query("a.ytp-autonav-endscreen-link-container"))
    case EndRecommendations => Ok(ElementItself)
    case Watch => Threw("Invalid branding location")
  }
}
