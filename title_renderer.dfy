/** replaceTitle: the decision to show the custom title, the original one or (on one path) both, for one
    branding element, with the watch page's memory of the last title it handled. */
module TitleRendering {
  import opened Common
  import opened TitleNodes

  datatype WatchPageType = Video | Miniplayer

  /** What replaceTitle's collaborators answer during one call. */
  datatype TitleEnv = TitleEnv(
    extensionEnabled: bool,
    /** shouldReplaceTitlesFastCheck: false rejects at once; true or null lets the call go on. */
    fastCheck: Option<bool>,
    /** Whether document.URL contains "watch". */
    urlHasWatch: bool,
    /** getVideoTitleIncludingUnsubmitted: a title, none, or a throw. */
    fetched: Outcome<Option<TitleResult>>,
    /** isOnCorrectVideo after the fetch, and after formatting. */
    onVideoAfterFetch: bool,
    onVideoAfterFormat: bool,
    /** shouldReplaceTitles: the full policy check. */
    fullCheck: Outcome<bool>,
    reduxInstalled: bool)

  /** The module-level memory of the watch page's last title (lastWatchTitle, lastWatchVideoID,
      lastUrlWatchPageType). */
  datatype WatchMemory = WatchMemory(title: string, videoID: Option<VideoID>, pageType: Option<WatchPageType>)

  function PageType(env: TitleEnv): WatchPageType
  {
    if env.urlHasWatch then Video else Miniplayer
  }

  /** On the watch page: the video changed but the title on the page is still the last video's, on the
      same kind of page; the title-change listener will come back once it changes. */
  predicate AwaitsTitleChange(videoID: VideoID, text: string, memory: WatchMemory, pageType: WatchPageType)
  {
    && Truthy(memory.videoID)
    && text != ""
    && videoID != memory.videoID.value
    && text == memory.title
    && memory.pageType == Some(pageType)
  }

  predicate Rejected(env: TitleEnv)
  {
    !env.extensionEnabled || env.fastCheck == Some(false)
  }

  /** What formatTitle is asked to format: the fetched title (as custom unless it is the original), or
      else the trimmed original text (as not custom), or else nothing. */
  function FormatInput(text: string, data: Option<TitleResult>): (r: Option<(string, bool)>)
    ensures data.Some? && data.value.title != "" ==> r == Some((data.value.title, !data.value.original))
    ensures (data.None? || data.value.title == "") && text != "" ==> r == Some((Trim(text), false))
    ensures r.None? <==> (data.None? || data.value.title == "") && text == ""
  {
    if data.Some? && data.value.title != "" then Some((data.value.title, !data.value.original))
    else if text != "" then Some((Trim(text), false))
    else None
  }

  /** What the content step settles on when the call gets past it: a formatted title, or no text at all. */
  datatype Content = NewTitle(title: string) | NoText

  /** Where a call ends. */
  datatype Exit =
    | Disabled                         // extension off or fast check false
    | AwaitingTitleChange              // watch page still shows the last video's title
    | LeftVideo                        // the element moved on to another video during an await
    | SameAsOriginal                   // formatting leaves the original text as it is
    | FetchOrFormatThrew               // caught before any content was written
    | Rendered(content: Content, fullCheck: Outcome<bool>)

  /** The content step (the fetch up to the choice of text): the call either stops there, or goes on with
      the content it has written. */
  datatype Step = Stop(exit: Exit) | Continue(content: Content)

  function ContentStep(text: string, env: TitleEnv, format: (string, bool) -> Outcome<string>): (r: Step)
    ensures r.Stop? ==> r.exit in {FetchOrFormatThrew, LeftVideo, SameAsOriginal}
    ensures r.Stop? && r.exit == LeftVideo ==> env.fetched.Ok? && (!env.onVideoAfterFetch || !env.onVideoAfterFormat)
    ensures r.Stop? && r.exit == SameAsOriginal ==> text != "" && env.onVideoAfterFormat
    ensures r.Continue? ==> env.fetched.Ok? && env.onVideoAfterFetch
    ensures r.Continue? && r.content.NoText? <==>
              env.fetched.Ok? && env.onVideoAfterFetch && FormatInput(text, env.fetched.value).None?
    ensures r.Continue? && r.content.NewTitle? ==>
              && env.onVideoAfterFormat
              && FormatInput(text, env.fetched.value).Some?
              && format(FormatInput(text, env.fetched.value).value.0, FormatInput(text, env.fetched.value).value.1)
                 == Ok(r.content.title)
              && !(text != "" && Trim(text) == r.content.title)
    ensures env.fetched.Threw? ==> r == Stop(FetchOrFormatThrew)
    ensures env.fetched.Ok? && !env.onVideoAfterFetch ==> r == Stop(LeftVideo)
    ensures env.fetched.Ok? && env.onVideoAfterFetch && FormatInput(text, env.fetched.value).Some? ==>
              var input := FormatInput(text, env.fetched.value).value;
              var formatted := format(input.0, input.1);
              && (formatted.Threw? ==> r == Stop(FetchOrFormatThrew))
              && (formatted.Ok? && !env.onVideoAfterFormat ==> r == Stop(LeftVideo))
              && (formatted.Ok? && env.onVideoAfterFormat && text != "" && Trim(text) == formatted.value ==>
                    r == Stop(SameAsOriginal))
              && (formatted.Ok? && env.onVideoAfterFormat && !(text != "" && Trim(text) == formatted.value) ==>
                    r == Continue(NewTitle(formatted.value)))
  {
    match env.fetched
    case Threw(_) => Stop(FetchOrFormatThrew)
    case Ok(data) =>
      if !env.onVideoAfterFetch then Stop(LeftVideo)
      else
        match FormatInput(text, data)
        case None => Continue(NoText)
        case Some(input) =>
          match format(input.0, input.1)
          case Threw(_) => Stop(FetchOrFormatThrew)
          case Ok(formatted) =>
            if !env.onVideoAfterFormat then Stop(LeftVideo)
            else if text != "" && Trim(text) == formatted then Stop(SameAsOriginal)
            else Continue(NewTitle(formatted))
  }

  /** The exit of the try block: the content step's, or else the full check's verdict on what it wrote. */
  function ExitAfterGates(text: string, env: TitleEnv, format: (string, bool) -> Outcome<string>): (r: Exit)
    ensures r != Disabled && r != AwaitingTitleChange
    ensures r.Rendered? ==> r.fullCheck == env.fullCheck && ContentStep(text, env, format) == Continue(r.content)
    ensures ContentStep(text, env, format).Stop? ==> r == ContentStep(text, env, format).exit
    ensures ContentStep(text, env, format).Continue? ==> r == Rendered(ContentStep(text, env, format).content, env.fullCheck)
  {
    match ContentStep(text, env, format)
    case Stop(exit) => exit
    case Continue(content) => Rendered(content, env.fullCheck)
  }

  /** The exit replaceTitle takes for an original title text `text`, the watch memory `memory` and the
      collaborators' answers. */
  function ExitOf(location: BrandingLocation, videoID: VideoID, text: string, memory: WatchMemory, env: TitleEnv,
                  format: (string, bool) -> Outcome<string>): (r: Exit)
    ensures r == Disabled <==> Rejected(env)
    ensures r == AwaitingTitleChange <==>
              !Rejected(env) && location == Watch && AwaitsTitleChange(videoID, text, memory, PageType(env))
    ensures !Rejected(env) && !(location == Watch && AwaitsTitleChange(videoID, text, memory, PageType(env))) ==>
              r == ExitAfterGates(text, env, format)
  {
    if Rejected(env) then Disabled
    else if location == Watch && AwaitsTitleChange(videoID, text, memory, PageType(env)) then AwaitingTitleChange
    else ExitAfterGates(text, env, format)
  }

  /** The call ends with the original shown and the custom title hidden. */
  predicate ShowsOriginalOnly(exit: Exit, showCustomBranding: bool)
  {
    exit != AwaitingTitleChange && exit != LeftVideo && !(exit.Rendered? && exit.fullCheck == Ok(true) && showCustomBranding)
  }

  /** replaceTitle reports success exactly when it got through the full check. */
  predicate Succeeded(exit: Exit)
  {
    exit.Rendered? && exit.fullCheck == Ok(true)
  }

  /** Past the two gates, a call that finds the element on another video once the title is fetched ends
      there and reports failure; ReplaceTitle states it writes nothing more and leaves both titles hidden. */
  lemma LeftVideoAfterFetch(location: BrandingLocation, videoID: VideoID, text: string, memory: WatchMemory,
                            env: TitleEnv, format: (string, bool) -> Outcome<string>)
    requires !Rejected(env) && !(location == Watch && AwaitsTitleChange(videoID, text, memory, PageType(env)))
    requires env.fetched.Ok? && !env.onVideoAfterFetch
    ensures ExitOf(location, videoID, text, memory, env, format) == LeftVideo
    ensures !Succeeded(ExitOf(location, videoID, text, memory, env, format))
  {
  }

  /** Past the two gates, a formatted title equal to the trimmed original text leaves the original shown
      alone, and the call reports failure. */
  lemma SameAsOriginalShowsOriginal(location: BrandingLocation, videoID: VideoID, text: string, memory: WatchMemory,
                                    env: TitleEnv, format: (string, bool) -> Outcome<string>, showCustomBranding: bool)
    requires !Rejected(env) && !(location == Watch && AwaitsTitleChange(videoID, text, memory, PageType(env)))
    requires env.fetched.Ok? && env.onVideoAfterFetch && env.onVideoAfterFormat && text != ""
    requires FormatInput(text, env.fetched.value).Some?
    requires format(FormatInput(text, env.fetched.value).value.0, FormatInput(text, env.fetched.value).value.1)
             == Ok(Trim(text))
    ensures ExitOf(location, videoID, text, memory, env, format) == SameAsOriginal
    ensures ShowsOriginalOnly(ExitOf(location, videoID, text, memory, env, format), showCustomBranding)
    ensures !Succeeded(ExitOf(location, videoID, text, memory, env, format))
  {
  }

  /** Past the two gates, a throw from the fetch, from formatting or from the full policy check is caught:
      the original is shown alone and the call reports failure. */
  lemma ThrowShowsOriginal(location: BrandingLocation, videoID: VideoID, text: string, memory: WatchMemory,
                           env: TitleEnv, format: (string, bool) -> Outcome<string>, showCustomBranding: bool)
    requires !Rejected(env) && !(location == Watch && AwaitsTitleChange(videoID, text, memory, PageType(env)))
    requires || env.fetched.Threw?
             || (&& env.fetched.Ok? && env.onVideoAfterFetch
                 && FormatInput(text, env.fetched.value).Some?
                 && format(FormatInput(text, env.fetched.value).value.0,
                           FormatInput(text, env.fetched.value).value.1).Threw?)
             || (ContentStep(text, env, format).Continue? && env.fullCheck.Threw?)
    ensures ShowsOriginalOnly(ExitOf(location, videoID, text, memory, env, format), showCustomBranding)
    ensures !Succeeded(ExitOf(location, videoID, text, memory, env, format))
  {
  }

  class TitleRenderer {
    var lastWatchTitle: string
    var lastWatchVideoID: Option<VideoID>
    var lastUrlWatchPageType: Option<WatchPageType>

    function Memory(): WatchMemory
      reads this
    {
      WatchMemory(lastWatchTitle, lastWatchVideoID, lastUrlWatchPageType)
    }

    constructor ()
      ensures Memory() == WatchMemory("", None, None)
    {
      lastWatchTitle := "";
      lastWatchVideoID := None;
      lastUrlWatchPageType := None;
    }

    /** replaceTitle. The outcome is the exit ExitOf computes from the original text and the memory as
        they were on entry. The result is true exactly on success, even when `showCustomBranding` is
        false. Waiting for the title change touches nothing. The watch memory is overwritten on every
        watch-page call that gets past the first two checks. Every exit but three ends with the original
        shown and the custom title hidden; an element that moved on to another video is left with both
        hidden; a success with custom branding on shows the custom title and hides the original, except
        when there was no text at all, when both are shown. Only a rendered formatted title changes the
        custom node's text, and a rendered call clears the parent's tooltip. */
    method ReplaceTitle(el: BrandingElement, videoID: VideoID, showCustomBranding: bool, location: BrandingLocation,
                        env: TitleEnv, format: (string, bool) -> Outcome<string>) returns (r: bool)
      requires el.Valid()
      modifies this, el, el.original, el.custom
      ensures el.Valid() && el.original.text == old(el.original.text)
      ensures var exit := ExitOf(location, videoID, old(el.original.text), old(Memory()), env, format);
        && (r <==> Succeeded(exit))
        && (location == Watch && exit != Disabled && exit != AwaitingTitleChange ==>
              Memory() == WatchMemory(old(el.original.text), Some(videoID), Some(PageType(env))))
        && (location != Watch || exit == Disabled || exit == AwaitingTitleChange ==> Memory() == old(Memory()))
      ensures ExitOf(location, videoID, old(el.original.text), old(Memory()), env, format) == AwaitingTitleChange ==>
                && el.custom == old(el.custom) && el.parentTooltip == old(el.parentTooltip)
                && el.original.display == old(el.original.display)
                && (el.custom != null ==> el.custom.display == old(el.custom.display) && el.custom.text == old(el.custom.text))
      ensures var exit := ExitOf(location, videoID, old(el.original.text), old(Memory()), env, format);
        exit != AwaitingTitleChange ==>
          && el.custom != null
          && (old(el.custom) != null ==> el.custom == old(el.custom))
          && (ShowsOriginalOnly(exit, showCustomBranding) ==>
                el.custom.display == Hidden
                && el.original.display == OriginalShownDisplay(location, env.reduxInstalled, el.original.classes))
          && (exit == LeftVideo ==> el.custom.display == Hidden && el.original.display == Hidden)
          && (Succeeded(exit) && showCustomBranding ==>
                && el.custom.display == Unset
                && el.original.display == if exit.content.NoText?
                                          then OriginalShownDisplay(location, env.reduxInstalled, el.original.classes)
                                          else Hidden)
          && (exit.Rendered? && exit.content.NewTitle? ==>
                el.custom.text == exit.content.title && el.custom.tooltip == exit.content.title)
          && (!(exit.Rendered? && exit.content.NewTitle?) ==>
                el.custom.text == if old(el.custom) != null then old(el.custom.text) else "")
          && (exit.Rendered? ==> el.parentTooltip == "")
    {
      var text := el.original.text;
      ghost var exit := ExitOf(location, videoID, text, Memory(), env, format);
      if !env.extensionEnabled || env.fastCheck == Some(false) {
        assert exit == Disabled;
        el.ShowOriginal(location, env.reduxInstalled);
        return false;
      }

      if location == Watch {
        var pageType := PageType(env);
        if AwaitsTitleChange(videoID, text, Memory(), pageType) {
          assert exit == AwaitingTitleChange;
          return false;
        }
        lastWatchTitle := text;
        lastWatchVideoID := Some(videoID);
        lastUrlWatchPageType := Some(pageType);
      }

      assert exit == ExitAfterGates(text, env, format);
      el.HideCustom(location);
      el.HideOriginal();
      r := RenderTitle(el, text, showCustomBranding, location, env, format);
    }

    /** The try block of replaceTitle, entered with both titles hidden: the content step, then the
        display and the full check. */
    method RenderTitle(el: BrandingElement, text: string, showCustomBranding: bool, location: BrandingLocation,
                       env: TitleEnv, format: (string, bool) -> Outcome<string>) returns (r: bool)
      requires el.Valid() && el.custom != null && el.original.text == text
      requires el.custom.display == Hidden && el.original.display == Hidden
      modifies el, el.original, el.custom
      ensures el.Valid() && el.custom == old(el.custom) && el.original.text == text
      ensures var exit := ExitAfterGates(text, env, format);
        && (r <==> Succeeded(exit))
        && (ShowsOriginalOnly(exit, showCustomBranding) ==>
              el.custom.display == Hidden
              && el.original.display == OriginalShownDisplay(location, env.reduxInstalled, el.original.classes))
        && (exit == LeftVideo ==> el.custom.display == Hidden && el.original.display == Hidden)
        && (Succeeded(exit) && showCustomBranding ==>
              && el.custom.display == Unset
              && el.original.display == if exit.content.NoText?
                                        then OriginalShownDisplay(location, env.reduxInstalled, el.original.classes)
                                        else Hidden)
        && (exit.Rendered? && exit.content.NewTitle? ==>
              el.custom.text == exit.content.title && el.custom.tooltip == exit.content.title)
        && (!(exit.Rendered? && exit.content.NewTitle?) ==> el.custom.text == old(el.custom.text))
        && (exit.Rendered? ==> el.parentTooltip == "")
    {
      var proceed := RenderContent(el, text, location, env, format);
      if !proceed {
        return false;
      }
      r := FinishRender(el, showCustomBranding, location, env);
    }

    /** Lines 50-80: the content step. A stop leaves the custom title hidden and its text as it was, and
        the original shown, except after leaving the video, when it stays hidden. Going on with a title
        writes it to the custom node and keeps both hidden; going on with no text shows the original. */
    method RenderContent(el: BrandingElement, text: string, location: BrandingLocation, env: TitleEnv,
                         format: (string, bool) -> Outcome<string>) returns (proceed: bool)
      requires el.Valid() && el.custom != null && el.original.text == text
      requires el.custom.display == Hidden && el.original.display == Hidden
      modifies el, el.original, el.custom
      ensures el.Valid() && el.custom == old(el.custom) && el.original.text == text
      ensures el.parentTooltip == old(el.parentTooltip)
      ensures var step := ContentStep(text, env, format);
        && (proceed <==> step.Continue?)
        && (step == Stop(LeftVideo) ==> el.custom.display == Hidden && el.original.display == Hidden)
        && ((step.Stop? && step.exit != LeftVideo) || step == Continue(NoText) ==>
              el.custom.display == Hidden
              && el.original.display == OriginalShownDisplay(location, env.reduxInstalled, el.original.classes))
        && (step.Continue? && step.content.NewTitle? ==>
              && el.custom.text == step.content.title && el.custom.tooltip == step.content.title
              && el.custom.display == Hidden && el.original.display == Hidden)
        && (!(step.Continue? && step.content.NewTitle?) ==> el.custom.text == old(el.custom.text))
    {
      ghost var step := ContentStep(text, env, format);
      if env.fetched.Threw? {
        assert step == Stop(FetchOrFormatThrew);
        el.ShowOriginal(location, env.reduxInstalled);
        return false;
      }
      var titleData := env.fetched.value;
      if !env.onVideoAfterFetch {
        assert step == Stop(LeftVideo);
        return false;
      }

      if titleData.Some? && titleData.value.title != "" {
        var title := titleData.value.title;
        var formatted := format(title, !titleData.value.original);
        if formatted.Threw? {
          assert step == Stop(FetchOrFormatThrew);
          el.ShowOriginal(location, env.reduxInstalled);
          return false;
        }
        if !env.onVideoAfterFormat {
          assert step == Stop(LeftVideo);
          return false;
        }
        if text != "" && Trim(text) == formatted.value {
          assert step == Stop(SameAsOriginal);
          el.ShowOriginal(location, env.reduxInstalled);
          return false;
        }
        assert step == Continue(NewTitle(formatted.value));
        el.SetCustomTitle(formatted.value, location);
      } else if text != "" {
        var originalText := Trim(text);
        var modified := format(originalText, false);
        if modified.Threw? {
          assert step == Stop(FetchOrFormatThrew);
          el.ShowOriginal(location, env.reduxInstalled);
          return false;
        }
        if !env.onVideoAfterFormat {
          assert step == Stop(LeftVideo);
          return false;
        }
        if originalText == modified.value {
          assert step == Stop(SameAsOriginal);
          el.ShowOriginal(location, env.reduxInstalled);
          return false;
        }
        assert step == Continue(NewTitle(modified.value));
        el.SetCustomTitle(modified.value, location);
      } else {
        assert step == Continue(NoText);
        el.ShowOriginal(location, env.reduxInstalled);
      }
      return true;
    }

    /** Lines 82-98: clear the parent's tooltip, show the custom title, show the original again when custom
        branding is off, and let the full check decide; a failing or throwing check shows the original
        only. The custom node's text is not touched. */
    method FinishRender(el: BrandingElement, showCustomBranding: bool, location: BrandingLocation, env: TitleEnv)
      returns (r: bool)
      requires el.Valid() && el.custom != null
      modifies el, el.original, el.custom
      ensures el.Valid() && el.custom == old(el.custom) && el.parentTooltip == ""
      ensures el.original.text == old(el.original.text)
      ensures el.custom.text == old(el.custom.text) && el.custom.tooltip == old(el.custom.tooltip)
      ensures r <==> env.fullCheck == Ok(true)
      ensures !r || !showCustomBranding ==>
                el.custom.display == Hidden
                && el.original.display == OriginalShownDisplay(location, env.reduxInstalled, el.original.classes)
      ensures r && showCustomBranding ==> el.custom.display == Unset && el.original.display == old(el.original.display)
    {
      if el.parentTooltip != "" {
        el.parentTooltip := "";
      }

      el.ShowCustom(location);

      if !showCustomBranding {
        el.ShowOriginal(location, env.reduxInstalled);
      }

      if env.fullCheck.Threw? || !env.fullCheck.value {
        el.ShowOriginal(location, env.reduxInstalled);
        return false;
      }

      return true;
    }
  }
}
