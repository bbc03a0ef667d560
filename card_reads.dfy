/** How a card's anchor, read three times by replaceVideoCardBranding, becomes the attempt the driver
    acts on. */
module CardReads {
  import opened Common
  import opened VideoLinks
  import opened Registry
  import opened CardDriver

  /** The attempt a card presents when its anchor reads as `link` before rendering and as `recheck` and
      `recheckAgain` after it. */
  function ReadCard(linkFound: bool, link: Link, recheck: Link, recheckAgain: Link, callback: Callback,
                    thumbnailResult: bool, titleResult: bool): Attempt
  {
    Attempt(linkFound, ExtractVideoID(link), IsPlaylistOrClipTitle(link), ExtractVideoID(recheck),
            ExtractVideoID(recheckAgain), callback, thumbnailResult, titleResult)
  }

  /** A card whose anchor reads the same after rendering as before never retries. */
  lemma UnchangedAnchorNeverRetries(location: BrandingLocation, verify: Option<VideoID>, tries: int,
                                    linkFound: bool, link: Link, recheckAgain: Link, callback: Callback,
                                    thumbnailResult: bool, titleResult: bool)
    ensures var p := PassOf(location, verify, tries,
                            ReadCard(linkFound, link, link, recheckAgain, callback, thumbnailResult, titleResult));
            p.Registered? ==> !p.retry
  {
  }

  /** An anchor with neither an href nor a thumbnail yields no identifier: with nothing to verify, the
      card is registered under the key "undefined" and settles on the renderers' results. */
  lemma CardWithoutIdRegistersUndefined(location: BrandingLocation, tries: int, callback: Callback,
                                        thumbnailResult: bool, titleResult: bool)
    requires location != Watch
    ensures var blank := Link(None, None);
            PassOf(location, None, tries, ReadCard(true, blank, blank, blank, callback, thumbnailResult, titleResult))
              == Registered("undefined", callback, false, false, Finished(thumbnailResult, titleResult))
  {
  }
}
