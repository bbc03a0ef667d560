/** Where a card's original title is found: the selectors per location and the query string built from
    them, which skips the extension's own title node. */
module TitleSelectors {
  import opened Common

  const CustomTitleClass := "cbCustomTitle"
  const NotCustomTitle := ":not(.cbCustomTitle)"
  const SelectorSeparator := ", "

  /** getTitleSelector on a location the enum declares. */
  function TitleSelector(location: BrandingLocation): (r: seq<string>)
    ensures r != []
    ensures location == Watch <==> |r| == 2 && r[0] == "yt-formatted-string"
    ensures location == Endcards ==> r == [".ytp-ce-video-title", ".ytp-ce-playlist-title"]
    ensures location != Watch && location != Endcards ==> |r| == 1
  {
    match location
    case Watch => ["yt-formatted-string", ".ytp-title-link.yt-uix-sessionlink"]
    case Related => ["#video-title"]
    case Endcards => [".ytp-ce-video-title", ".ytp-ce-playlist-title"]
    case Autoplay => [".ytp-autonav-endscreen-upnext-title"]
    case EndRecommendations => [".ytp-videowall-still-info-title"]
  }

  /** getTitleSelector on the enum's numeric value: a number that is not a location throws. */
  function TitleSelectorForCode(code: int): (r: Outcome<seq<string>>)
    ensures r.Threw? <==> !(0 <= code < 5)
    ensures r.Ok? ==> r.value == TitleSelector(LocationFromCode(code).value)
  {
    match LocationFromCode(code)
    case None => Threw("Invalid branding location")
    case Some(location) => Ok(TitleSelector(location))
  }

  /** Each selector with `:not(.cbCustomTitle)` appended, in order. */
  function ExcludeCustom(selectors: seq<string>): (r: seq<string>)
    ensures |r| == |selectors|
    ensures forall i | 0 <= i < |r| :: r[i] == selectors[i] + NotCustomTitle
    decreases |selectors|
  {
    if selectors == [] then []
    else ExcludeCustom(selectors[..|selectors| - 1]) + [selectors[|selectors| - 1] + NotCustomTitle]
  }

  /** `Array.prototype.join`: the parts with `sep` between consecutive ones. */
  function Join(parts: seq<string>, sep: string): (r: string)
    decreases |parts|
  {
    if parts == [] then ""
    else if |parts| == 1 then parts[0]
    else Join(parts[..|parts| - 1], sep) + sep + parts[|parts| - 1]
  }

  /** getOriginalTitleElement's query string. */
  function OriginalTitleSelector(location: BrandingLocation): (r: string)
  {
    Join(ExcludeCustom(TitleSelector(location)), SelectorSeparator)
  }

  lemma OccursInSuffix(s: string, t: string, u: string)
    requires Occurs(s, t)
    ensures Occurs(s + u, t) && Occurs(u + s, t)
  {
    var i :| OccursAt(s, t, i);
    assert (s + u)[i..i + |t|] == s[i..i + |t|];
    assert (u + s)[|u| + i..|u| + i + |t|] == s[i..i + |t|];
    assert OccursAt(s + u, t, i);
    assert OccursAt(u + s, t, |u| + i);
  }

  /** Every part is somewhere in the joined string, which starts with the first part and ends with the
      last one. */
  lemma {:induction false} JoinContainsParts(parts: seq<string>, sep: string)
    requires parts != []
    ensures forall i | 0 <= i < |parts| :: Occurs(Join(parts, sep), parts[i])
    ensures |parts[0]| <= |Join(parts, sep)| && Join(parts, sep)[..|parts[0]|] == parts[0]
    ensures EndsWith(Join(parts, sep), parts[|parts| - 1])
    decreases |parts|
  {
    var j := Join(parts, sep);
    if |parts| == 1 {
      assert OccursAt(j, parts[0], 0);
    } else {
      var prefix := parts[..|parts| - 1];
      var last := parts[|parts| - 1];
      JoinContainsParts(prefix, sep);
      var jp := Join(prefix, sep);
      assert j == jp + (sep + last);
      forall i | 0 <= i < |parts| ensures Occurs(j, parts[i]) {
        if i < |parts| - 1 {
          assert parts[i] == prefix[i];
          OccursInSuffix(jp, parts[i], sep + last);
        } else {
          assert j == (jp + sep) + last;
          assert OccursAt(j, last, |jp + sep|);
        }
      }
      assert j[..|parts[0]|] == jp[..|prefix[0]|];
    }
  }

  /** The original-title query names every selector of the location, each with the custom-title node
      excluded. */
  lemma OriginalTitleSelectorNamesAll(location: BrandingLocation)
    ensures forall s | s in TitleSelector(location) :: Occurs(OriginalTitleSelector(location), s + NotCustomTitle)
    ensures EndsWith(OriginalTitleSelector(location), NotCustomTitle)
  {
    var sels := TitleSelector(location);
    var parts := ExcludeCustom(sels);
    JoinContainsParts(parts, SelectorSeparator);
    forall s | s in sels ensures Occurs(OriginalTitleSelector(location), s + NotCustomTitle) {
      var i :| 0 <= i < |sels| && sels[i] == s;
      assert parts[i] == s + NotCustomTitle;
    }
    var last := parts[|parts| - 1];
    assert last[|last| - |NotCustomTitle|..] == NotCustomTitle;
  }
}
