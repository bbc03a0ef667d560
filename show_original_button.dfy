/** The show-original button: how its appearance follows the branding state, how it is found or created,
    which icon it ends up with, and what a click does. */
module ShowOriginalButtons {
  import opened Common
  import opened Registry

  /** The localised tooltip messages the button shows. */
  datatype ButtonTooltip = ShowOriginalLabel | ShowModifiedLabel

  /** The three-ring logo (custom title present) and the two-ring one (auto-formatted only). */
  datatype Icon = ThreeRing | TwoRing

  /** The settings the button reads. */
  datatype ButtonConfig = ButtonConfig(defaultToCustom: bool, alwaysShowShowOriginalButton: bool)

  class ShowOriginalButton {
    /** The `cbDontHide` class: the button stays visible without hovering. */
    var dontHide: bool
    /** `display: none !important` forced on the button. */
    var displayNone: bool
    var tooltip: ButtonTooltip
    /** The `videoID` attribute. */
    var videoID: Option<string>
    /** Whether the button holds its `.cbShowOriginalImage` image. */
    const hasImage: bool
    /** The image's `cbOriginalShown` class. */
    var originalShown: bool
    var icon: Icon
    /** The image's `cbAutoFormat` class. */
    var autoFormat: bool

    constructor (dontHide: bool, originalShown: bool, tooltip: ButtonTooltip)
      ensures this.dontHide == dontHide && this.originalShown == originalShown && this.tooltip == tooltip
      ensures hasImage && !displayNone && videoID.None? && icon == ThreeRing && !autoFormat
    {
      this.dontHide := dontHide;
      this.displayNone := false;
      this.tooltip := tooltip;
      this.videoID := None;
      this.hasImage := true;
      this.originalShown := originalShown;
      this.icon := ThreeRing;
      this.autoFormat := false;
    }
  }

  /** Where findShowOriginalButton looks: the original title's parent, or the title bar's button
      container on the watch page. */
  class ButtonHost {
    var button: ShowOriginalButton?

    constructor (button: ShowOriginalButton?)
      ensures this.button == button
    {
      this.button := button;
    }
  }

  /** The button keeps `cbDontHide` unless custom branding is in its default state, the location is not
      the watch page and the always-show setting is off. */
  predicate KeepsDontHide(showCustomBranding: bool, location: BrandingLocation, config: ButtonConfig)
  {
    !(showCustomBranding == config.defaultToCustom && location != Watch && !config.alwaysShowShowOriginalButton)
  }

  /** The button's tooltip: "show original" while custom branding is shown. */
  function TooltipFor(showCustomBranding: bool): ButtonTooltip
  {
    if showCustomBranding then ShowOriginalLabel else ShowModifiedLabel
  }

  /** createShowOriginalButton's `cbDontHide`: agrees with the update rule for the default branding
      state, so a new button looks as an updated one would. */
  function CreatedDontHide(location: BrandingLocation, config: ButtonConfig): (b: bool)
    ensures b == KeepsDontHide(config.defaultToCustom, location, config)
    ensures location == Watch ==> b
  {
    location == Watch || config.alwaysShowShowOriginalButton
  }

  /** handleShowOriginalButton's icon: three rings exactly when the title data is a custom title. */
  function IconFor(title: Option<TitleResult>): Icon
  {
    if title.Some? && !title.value.original then ThreeRing else TwoRing
  }

  /** hideAndUpdateShowOriginalButton: on a button with its image, the image's `cbOriginalShown` class,
      the tooltip and `cbDontHide` follow the branding state; any button is hidden unless `dontHide`.
      Nothing else changes. */
  method HideAndUpdateShowOriginalButton(host: ButtonHost, location: BrandingLocation, showCustomBranding: bool,
                                         dontHide: bool, config: ButtonConfig)
    modifies host.button
    ensures var b := host.button;
      b != null ==>
        && (b.hasImage ==>
              b.originalShown == !showCustomBranding && b.tooltip == TooltipFor(showCustomBranding)
              && b.dontHide == KeepsDontHide(showCustomBranding, location, config))
        && (!b.hasImage ==>
              b.originalShown == old(b.originalShown) && b.tooltip == old(b.tooltip) && b.dontHide == old(b.dontHide))
        && b.displayNone == (old(b.displayNone) || !dontHide)
        && b.videoID == old(b.videoID) && b.icon == old(b.icon) && b.autoFormat == old(b.autoFormat)
  {
    var b := host.button;
    if b != null {
      if b.hasImage {
        if showCustomBranding {
          b.originalShown := false;
          b.tooltip := ShowOriginalLabel;
        } else {
          b.originalShown := true;
          b.tooltip := ShowModifiedLabel;
        }
        if showCustomBranding == config.defaultToCustom && location != Watch && !config.alwaysShowShowOriginalButton {
          b.dontHide := false;
        } else {
          b.dontHide := true;
        }
      }
      if !dontHide {
        b.displayNone := true;
      }
    }
  }

  /** findOrCreateShowOriginalButton: the button already there (its classes kept), or a new one whose
      `cbDontHide` is CreatedDontHide and whose image shows the default branding state. Either way it
      is tagged with the video and shown. */
  method FindOrCreateShowOriginalButton(host: ButtonHost, location: BrandingLocation, videoID: VideoID,
                                        config: ButtonConfig) returns (b: ShowOriginalButton)
    modifies host, host.button
    ensures host.button == b
    ensures b.videoID == Some(videoID) && !b.displayNone
    ensures old(host.button) != null ==>
              && b == old(host.button)
              && b.dontHide == old(b.dontHide) && b.originalShown == old(b.originalShown)
              && b.tooltip == old(b.tooltip) && b.icon == old(b.icon) && b.autoFormat == old(b.autoFormat)
    ensures old(host.button) == null ==>
              && fresh(b) && b.hasImage
              && b.dontHide == CreatedDontHide(location, config)
              && b.originalShown == !config.defaultToCustom
              && b.tooltip == TooltipFor(config.defaultToCustom)
              && b.icon == ThreeRing && !b.autoFormat
  {
    if host.button != null {
      b := host.button;
    } else {
      b := new ShowOriginalButton(location == Watch || config.alwaysShowShowOriginalButton,
                                  !config.defaultToCustom, TooltipFor(config.defaultToCustom));
      host.button := b;
    }
    b.videoID := Some(videoID);
    b.displayNone := false;
  }

  /** handleShowOriginalButton, with the two rendering results given. The button is updated first. When
      either rendering replaced something, the button is found or created, tagged and shown, and its
      icon tells a custom title from an auto-formatted one. Otherwise a button that was kept visible is
      now hidden as well, so any button there ends hidden. */
  method HandleShowOriginalButton(host: ButtonHost, location: BrandingLocation, videoID: VideoID,
                                  showCustomBranding: bool, thumbnailResult: bool, titleResult: bool,
                                  dontHide: bool, config: ButtonConfig, title: Option<TitleResult>)
    modifies host, host.button
    ensures thumbnailResult || titleResult ==>
              && host.button != null && host.button.videoID == Some(videoID) && !host.button.displayNone
              && (old(host.button) != null ==> host.button == old(host.button))
              && (host.button.hasImage ==>
                    host.button.icon == IconFor(title) && host.button.autoFormat == (IconFor(title) == TwoRing))
              && (old(host.button) != null && host.button.hasImage ==>
                    host.button.originalShown == !showCustomBranding)
    ensures !(thumbnailResult || titleResult) ==>
              && host.button == old(host.button)
              && (host.button != null ==> host.button.displayNone && host.button.videoID == old(host.button.videoID))
  {
    HideAndUpdateShowOriginalButton(host, location, showCustomBranding, dontHide, config);
    if thumbnailResult || titleResult {
      var b := FindOrCreateShowOriginalButton(host, location, videoID, config);
      if b.hasImage {
        var icon := IconFor(title);
        b.icon := icon;
        b.autoFormat := icon == TwoRing;
      }
    } else if dontHide {
      HideAndUpdateShowOriginalButton(host, location, showCustomBranding, false, config);
    }
  }

  /** The click handler: a button tagged with a non-empty video identifier toggles that video's branding
      in the registry and re-runs the video's callbacks (`invoked`), which re-register as `outcome`
      says; an untagged one does nothing. */
  method Click(b: ShowOriginalButton, reg: BrandingRegistry, outcome: Callback -> seq<string>,
               defaultToCustom: Option<bool>) returns (shown: Option<bool>, invoked: seq<Callback>)
    requires reg.Valid()
    modifies reg
    ensures reg.Valid()
    ensures !Truthy(b.videoID) ==> shown.None? && invoked == [] && reg.State() == old(reg.State())
    ensures Truthy(b.videoID) && b.videoID.value in old(reg.instances) ==>
              && shown == Some(!old(reg.instances[b.videoID.value].showCustomBranding))
              && invoked == old(reg.instances[b.videoID.value].updateBrandingCallbacks)
              && b.videoID.value in reg.instances
              && reg.instances[b.videoID.value] == Instance(shown.value, RegisteredUnder(invoked, outcome, b.videoID.value))
              && reg.State() == Replay(Drained(WithFlag(old(reg.State()), b.videoID.value, shown.value), b.videoID.value),
                                       invoked, outcome, defaultToCustom)
    ensures Truthy(b.videoID) && b.videoID.value !in old(reg.instances) ==>
              shown == Some(true) && invoked == [] && reg.State() == old(reg.State())
  {
    if Truthy(b.videoID) {
      var r;
      r, invoked := reg.ToggleShowCustom(b.videoID.value, outcome, defaultToCustom);
      shown := Some(r);
    } else {
      shown := None;
      invoked := [];
    }
  }
}
