/** The title nodes of one branding element: the platform's original title node and the extension's
    `.cbCustomTitle` node, created on first use, with the style and text writes the renderer makes. */
module TitleNodes {
  import opened Common
  import TitleSelectors

  /** The inline `display` style of a node: unset, or one of the values the renderer writes. */
  datatype Display = Unset | Hidden | Inline | WebkitBox | InlineBlock | Block

  predicate Visible(d: Display)
  {
    d != Hidden
  }

  class TitleNode {
    var display: Display
    /** textContent (for the custom node, the innerText the renderer writes). */
    var text: string
    /** The `title` attribute: the tooltip. */
    var tooltip: string
    const classes: set<string>

    constructor (display: Display, text: string, tooltip: string, classes: set<string>)
      ensures this.display == display && this.text == text && this.tooltip == tooltip && this.classes == classes
    {
      this.display := display;
      this.text := text;
      this.tooltip := tooltip;
      this.classes := classes;
    }
  }

  /** A fresh custom title is a shallow clone of the original (same classes, style and tooltip, no text)
      except on the watch page's main title, where it is a new `div`. */
  predicate ClonesOriginal(location: BrandingLocation, originalClasses: set<string>)
  {
    location != Watch || "miniplayer-title" in originalClasses
  }

  /** The display showOriginalTitle forces on the original node. */
  function OriginalShownDisplay(location: BrandingLocation, reduxInstalled: bool, originalClasses: set<string>): (d: Display)
    ensures Visible(d)
    ensures d == InlineBlock <==> location == Watch && "ytd-miniplayer" in originalClasses
    ensures d != InlineBlock ==> d == (if reduxInstalled then WebkitBox else Inline)
  {
    if location == Watch && "ytd-miniplayer" in originalClasses then InlineBlock
    else if reduxInstalled then WebkitBox
    else Inline
  }

  /** The element a branding location renders in (a video card, or a title on the watch page). */
  class BrandingElement {
    /** The node getOriginalTitleElement finds; the custom node never matches its query. */
    const original: TitleNode
    /** The `.cbCustomTitle` node, once created. */
    var custom: TitleNode?
    /** The `title` attribute of the original node's parent ("" when absent). */
    var parentTooltip: string

    ghost predicate Valid()
      reads this
    {
      custom != original
    }

    constructor (original: TitleNode, parentTooltip: string)
      ensures this.original == original && custom == null && this.parentTooltip == parentTooltip
      ensures Valid()
    {
      this.original := original;
      this.custom := null;
      this.parentTooltip := parentTooltip;
    }

    /** getOrCreateTitleElement: the existing custom node, with nothing changed; otherwise a new one,
        cloned from the original or a plain `div` (ClonesOriginal). At the autoplay and end-screen
        locations the original is moved into a new wrapper, whose tooltip is empty. */
    method GetOrCreateTitleElement(location: BrandingLocation) returns (t: TitleNode)
      requires Valid()
      modifies this
      ensures Valid() && custom == t
      ensures old(custom) != null ==> t == old(custom) && parentTooltip == old(parentTooltip)
      ensures old(custom) == null ==>
                && fresh(t)
                && t.text == ""
                && TitleSelectors.CustomTitleClass in t.classes
                && (ClonesOriginal(location, original.classes) ==>
                      t.display == original.display && t.tooltip == original.tooltip
                      && t.classes == original.classes + {TitleSelectors.CustomTitleClass})
                && (!ClonesOriginal(location, original.classes) ==>
                      t.display == Unset && t.tooltip == "" && t.classes == {TitleSelectors.CustomTitleClass})
                && parentTooltip == if location == EndRecommendations || location == Autoplay then "" else old(parentTooltip)
    {
      if custom != null {
        t := custom;
      } else {
        if ClonesOriginal(location, original.classes) {
          t := new TitleNode(original.display, "", original.tooltip, original.classes + {TitleSelectors.CustomTitleClass});
        } else {
          t := new TitleNode(Unset, "", "", {TitleSelectors.CustomTitleClass});
        }
        if location == EndRecommendations || location == Autoplay {
          parentTooltip := "";
        }
        custom := t;
      }
    }

    /** showOriginalTitle: the custom node (created if needed) hidden, the original shown. */
    method ShowOriginal(location: BrandingLocation, reduxInstalled: bool)
      requires Valid()
      modifies this, original, custom
      ensures Valid() && custom != null
      ensures old(custom) != null ==> custom == old(custom) && parentTooltip == old(parentTooltip)
      ensures old(custom) == null ==> fresh(custom)
      ensures custom.display == Hidden
      ensures original.display == OriginalShownDisplay(location, reduxInstalled, original.classes)
      ensures old(custom) != null ==> custom.text == old(custom.text) && custom.tooltip == old(custom.tooltip)
      ensures old(custom) == null ==> JustCreated(this, location, old(parentTooltip))
      ensures original.text == old(original.text) && original.tooltip == old(original.tooltip)
    {
      var t := GetOrCreateTitleElement(location);
      t.display := Hidden;
      original.display := OriginalShownDisplay(location, reduxInstalled, original.classes);
    }

    /** hideOriginalTitle: only the original's display changes. */
    method HideOriginal()
      modifies original
      ensures original.display == Hidden
      ensures original.text == old(original.text) && original.tooltip == old(original.tooltip)
    {
      original.display := Hidden;
    }

    /** hideCustomTitle: the custom node (created if needed) hidden; the original untouched. */
    method HideCustom(location: BrandingLocation)
      requires Valid()
      modifies this, custom
      ensures Valid() && custom != null
      ensures old(custom) != null ==> custom == old(custom) && parentTooltip == old(parentTooltip)
      ensures old(custom) == null ==> fresh(custom)
      ensures custom.display == Hidden
      ensures old(custom) != null ==> custom.text == old(custom.text) && custom.tooltip == old(custom.tooltip)
      ensures old(custom) == null ==> JustCreated(this, location, old(parentTooltip))
    {
      var t := GetOrCreateTitleElement(location);
      t.display := Hidden;
    }

    /** showCustomTitle: the custom node's display style removed, which shows it; the original untouched. */
    method ShowCustom(location: BrandingLocation)
      requires Valid()
      modifies this, custom
      ensures Valid() && custom != null
      ensures old(custom) != null ==> custom == old(custom) && parentTooltip == old(parentTooltip)
      ensures old(custom) == null ==> fresh(custom)
      ensures custom.display == Unset
      ensures old(custom) != null ==> custom.text == old(custom.text) && custom.tooltip == old(custom.tooltip)
      ensures old(custom) == null ==> JustCreated(this, location, old(parentTooltip))
    {
      var t := GetOrCreateTitleElement(location);
      t.display := Unset;
    }

    /** setCustomTitle: the custom node's text and tooltip both become `title`; no display changes. */
    method SetCustomTitle(title: string, location: BrandingLocation)
      requires Valid()
      modifies this, custom
      ensures Valid() && custom != null
      ensures old(custom) != null ==> custom == old(custom) && custom.display == old(custom.display)
      ensures old(custom) == null ==> fresh(custom)
      ensures old(custom) != null ==> parentTooltip == old(parentTooltip)
      ensures custom.text == title && custom.tooltip == title
    {
      var t := GetOrCreateTitleElement(location);
      t.text := title;
      t.tooltip := title;
    }
  }

  /** The custom node was created by this call: it has no text, the tooltip creation gave it, and the
      parent's tooltip is as creation leaves it. */
  ghost predicate JustCreated(e: BrandingElement, location: BrandingLocation, parentBefore: string)
    reads e, e.custom, e.original
  {
    && e.custom != null
    && e.custom.text == ""
    && e.custom.tooltip == (if ClonesOriginal(location, e.original.classes) then e.original.tooltip else "")
    && e.parentTooltip == if location == EndRecommendations || location == Autoplay then "" else parentBefore
  }
}
