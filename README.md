# DeArrow branding core in Dafny

This project models the part of the DeArrow browser extension that decides how the videos on a YouTube
page are branded: which title a video card shows (the crowd-sourced one, an auto-formatted one or the
original), how each video's on-page occurrences are tracked so that they can be re-rendered, and how the
show-original button follows that state.

The page is abstracted. A card's title area is a `BrandingElement` holding the original title node and the
extension's custom title node. A card's anchor is a `Link`: its href and its thumbnail's `src`. Everything
the code asks a collaborator becomes an input: the network fetch of the title, `formatTitle`, the channel
policy checks, whether the element still shows the same video, the settings, and the renderers' results.

Modules, one per file:

- `Common` (common.dfy): `BrandingLocation` and its numeric codes, JavaScript truthiness of strings,
  `String.prototype.trim`, and substring search.
- `VideoLinks` (video_links.dfy): `extractVideoID` (the href regular expression with its thumbnail
  fallback), `isPlaylistOrClipTitle` and `getLinkElement`.
- `Registry` (registry.dfy): the `videoBrandingInstances` record as a class. It holds a map from key to
  `{showCustomBranding, updateBrandingCallbacks}` and the keys' insertion order, which is the order its
  for-in loops visit. It supports:
  - registering a callback
  - toggling and setting the flag
  - draining and re-running the callbacks
  - sweeping entries with no visible button
  - the settings-change listener
- `ImageSrcWait` (image_wait.dfy): the `imagesWaitingFor` memo of pending waits for an image's `src`.
- `TitleSelectors` (title_selectors.dfy): `getTitleSelector` and the `:not(.cbCustomTitle)` selector
  built by `getOriginalTitleElement`.
- `TitleNodes` (title_nodes.dfy): the original and custom title nodes, and `getOrCreateTitleElement`,
  `show/hideOriginalTitle`, `show/hideCustomTitle` and `setCustomTitle`.
- `TitleRendering` (title_renderer.dfy): `replaceTitle` with its module-level watch-page memory
  (`lastWatchTitle`, `lastWatchVideoID`, `lastUrlWatchPageType`). It is specified by a function that
  computes where a call ends (`ExitOf`).
- `ShowOriginalButtons` (show_original_button.dfy): `hideAndUpdateShowOriginalButton`,
  `findOrCreateShowOriginalButton` with the new button's initial state, the button's click handler and
  `handleShowOriginalButton`'s icon choice.
- `CardDriver` and `CardReads` (card_driver.dfy, card_reads.dfy): `replaceVideoCardBranding`. It is run
  against a script of attempts, one per pass through the card, and specified by the function `Run`.

Callbacks are opaque tokens. What a run of a callback registers is given by an `outcome` function: the
keys, in order, under which that run calls `getAndUpdateVideoBrandingInstances`. A card callback
registers once per pass through the card, so a card whose identifier drifts registers several times.
`updateBrandingForVideo` awaits its callbacks, so there `outcome` covers the whole run. The settings
listener starts its callbacks without awaiting them, so there it is a `syncOutcome`: the keys a run
registers under before its first suspension. A card callback suspends at `extractVideoID` before it
registers, so its `syncOutcome` is empty. The watch page's callback reaches its registration without
suspending whenever a visible title is already on the page. It then registers under the page's current
video (`getVideoID()`), when there is one, so its `syncOutcome` is that video: the key it was listed under
while the page still shows that video, another key after a navigation, and nothing when there is no
video or no visible title.

Each for-in loop over the record visits the keys present when the loop starts, in insertion order. A key
deleted meanwhile is skipped. A key added during the loop is not visited, which is what V8 does
(ECMAScript leaves it open). An identifier that could not be extracted indexes the record as the property
key `"undefined"`.

The card driver retries a card whose video changed during rendering under the guard `tries < 2`
(src/videoBranding/videoBranding.ts:142). That bound reads as at most two retries. The recursive call
passes `tries++` (line 144), which is the value before the increment, so the counter never advances and
the bound never stops the retries. The model follows the code: `ReplaceVideoCardBranding` takes the
counter's increment as a parameter, 0 for the code as written and 1 for the intended count. Both
behaviours are proved (see Findings).

## Model

| member | source | states |
|---|---|---|
| Common.LocationFromCode | src/videoBranding/videoBranding.ts:23-29 | a numeric code names a branding location exactly when it is 0 to 4 |
| Common.LocationCode | src/videoBranding/videoBranding.ts:23-29 | each location's enum value is one of 0 to 4 and converts back to that same location, so the five codes and the five locations correspond one to one, in declaration order |
| Common.Trim | src/titles/titleRenderer.ts:58-59 | the trimmed text occurs in the original and neither starts nor ends with whitespace or a line terminator |
| Common.TrimSlice | src/titles/titleRenderer.ts:58-59 | the trimmed text is a slice of the original, at the offset where the leading whitespace ends, and everything before and after that slice is whitespace or line terminators |
| Common.TrimIdempotent | src/titles/titleRenderer.ts:68-72 | trimming an already trimmed original text changes nothing |
| VideoLinks.FirstMatch | src/videoBranding/videoBranding.ts:171 | the position a regular-expression match reports is the leftmost one where the pattern matches, and none means there is no match |
| VideoLinks.MatchEleven | src/videoBranding/videoBranding.ts:171 | `match(...)?.[0]` for an eleven-character pattern yields eleven characters at the leftmost match, and nothing exactly when the pattern matches nowhere |
| VideoLinks.HrefVideoID | src/videoBranding/videoBranding.ts:171 | the identifier from an href is the eleven characters after the leftmost `?v=`, `&v=` or `/shorts/`, and an absent href yields none |
| VideoLinks.ThumbnailVideoID | src/videoBranding/videoBranding.ts:184 | the identifier from a thumbnail source is the eleven characters after the leftmost `/vi/` |
| VideoLinks.ExtractVideoID | src/videoBranding/videoBranding.ts:170-190 | an identifier found in the href wins; with none there, a thumbnail with a non-empty source (read again after waiting when it was empty) gives exactly its `/vi/` identifier; with neither, there is none; every identifier is eleven characters |
| VideoLinks.ExtractVideoIDFromThumbnail | src/videoBranding/videoBranding.ts:173-187 | when the href has no identifier and the thumbnail has a non-empty source, an identifier is found exactly when `/vi/` is followed by eleven characters somewhere in the source, and it is the leftmost such match |
| VideoLinks.IsPlaylistOrClipTitle | src/videoBranding/videoBranding.ts:201-204 | a card is a playlist or clip exactly when its href contains `list=` but not `index=`, or contains `/clip/` |
| VideoLinks.GetLinkElement | src/videoBranding/videoBranding.ts:155-168 | the watch page has no card anchor and throws; end recommendations are their own anchor; every other location queries an `a` element |
| Registry.RegistryKeyInjective | src/videoBranding/videoBranding.ts:117-118 | two extracted identifiers index the same entry exactly when they are equal: a missing identifier is keyed as `"undefined"`, which no eleven-character identifier can be |
| Registry.RegisteredUnder | src/videoBranding/videoBranding.ts:271-279 | a callback is among the registrations made under a key exactly when it was captured and a run of it registers under that key |
| Registry.RegisteredUnderCounts | src/videoBranding/videoBranding.ts:236-247 | a callback is registered under a key once per captured copy of it times the number of registrations under that key one run of it makes, since pushing keeps duplicates |
| Registry.RegisterWellFormed | src/videoBranding/videoBranding.ts:236-247 | registering keeps each key recorded once in the insertion order |
| Registry.RegisterEachWellFormed | src/videoBranding/videoBranding.ts:117-118 | one run of a callback, however many times it registers, keeps each key recorded once in the insertion order |
| Registry.ReplayWellFormed | src/videoBranding/videoBranding.ts:271-279 | running the captured callbacks keeps the record well formed |
| Registry.RegisterEachEntry | src/videoBranding/videoBranding.ts:236-247 | after one run of a callback, an existing entry keeps its flag and gains one copy of the callback per registration under its key, after its old callbacks; a new entry starts with the default flag and exactly those copies; no entry appears unless registered under |
| Registry.ReplayEntry | src/videoBranding/videoBranding.ts:271-279 | after the drained callbacks have run, the entry keeps its flag and holds exactly the registrations made under it, in order; an entry created meanwhile has the default flag |
| Registry.RegisteredUnderAll | src/videoBranding/videoBranding.ts:271-279 | when every callback registers exactly once, under its own key, the drained list comes back as it was |
| Registry.RegisteredUnderNone | src/videoBranding/videoBranding.ts:271-279 | callbacks none of whose runs registers under a key leave that key's drained list empty |
| Registry.RegisterEachKnown | src/videoBranding/videoBranding.ts:236-247 | registering only under existing keys adds no key and keeps the insertion order |
| Registry.ReplayKnown | src/videoBranding/videoBranding.ts:271-279 | callbacks that register only under existing keys add no key and keep the insertion order |
| Registry.KeepVisibleMembers | src/videoBranding/videoBranding.ts:281-290 | the sweep keeps exactly the keys a visible button names, in their order and without repeats |
| Registry.AllCallbacksMembers | src/videoBranding/videoBranding.ts:317-325 | a loop over entries starts every callback of every visited entry and nothing else |
| Registry.RemoveHiddenAll | src/videoBranding/videoBranding.ts:284-289 | deleting during the for-in loop removes exactly the visited entries no visible button names and changes no survivor |
| Registry.SweepEntriesFlags | src/videoBranding/videoBranding.ts:299-325 | a listener loop keeps every entry; the first loop gives every visited entry the new flag, and any other flag is unchanged, whatever the started callbacks register |
| Registry.ListenerFlags | src/videoBranding/videoBranding.ts:298-327 | after the listener every entry is still there, and its flag is the new `defaultToCustom` when that changed and the old flag otherwise |
| Registry.SweepSelfRegistering | src/videoBranding/videoBranding.ts:299-325 | when every started callback registers, before suspending, only under the key it was listed under, a loop over distinct keys keeps the keys and their order, refills each visited entry with its own callbacks' registrations (with the new flag in the first loop), leaves the others alone and starts the visited entries' callbacks in key order |
| Registry.SweepAllSelfRegistering | src/videoBranding/videoBranding.ts:299-325 | under the same condition, a loop over every key refills every entry and starts every callback, and the record stays well formed with the same condition holding, so the next loop can run |
| Registry.ListenerSelfRegistering | src/videoBranding/videoBranding.ts:298-327 | under the same condition, each of the listener's loops refills every entry from its own callbacks, and the listener starts every callback once per loop that runs |
| Registry.WatchPageListener | src/videoBranding/videoBranding.ts:298-327 | a watch-page entry whose page still shows its video with the title visible, so that its callback registers at once under that video, given a batch that changes `defaultToCustom` and a setting to reload, has its callback started twice and ends holding it once, with the new flag |
| Registry.BrandingRegistry.constructor | src/videoBranding/videoBranding.ts:42 | the record starts empty |
| Registry.BrandingRegistry.GetAndUpdateVideoBrandingInstances | src/videoBranding/videoBranding.ts:236-247 | a first sighting creates the entry with `defaultToCustom` (true without settings) and exactly `[cb]`; a later one appends `cb` (duplicates kept) and keeps the flag; other entries are untouched |
| Registry.BrandingRegistry.Drain | src/videoBranding/videoBranding.ts:273-275 | the entry's list is swapped for an empty one and the old list handed back |
| Registry.BrandingRegistry.RegisterRun | src/videoBranding/videoBranding.ts:117-118 | a callback's run that registers under several keys, one after the other, leaves the state RegisterEach describes |
| Registry.BrandingRegistry.UpdateBrandingForVideo | src/videoBranding/videoBranding.ts:271-279 | the list is emptied before any callback runs, each captured callback runs once, in order, and afterwards the entry holds only the registrations made under it during the runs |
| Registry.BrandingRegistry.SetShowCustom | src/videoBranding/videoBranding.ts:258-269 | on a known key the flag becomes `value`, the callbacks re-run and `value` is returned; on an unknown key it returns true and changes nothing |
| Registry.BrandingRegistry.ToggleShowCustom | src/videoBranding/videoBranding.ts:249-256 | on a known key the flag is negated, the new value returned and the key's callbacks re-run, with the whole new state stated; on an unknown key it returns true and changes nothing |
| Registry.BrandingRegistry.ClearVideoBrandingInstances | src/videoBranding/videoBranding.ts:281-290 | afterwards every key is named by a visible button, every named key survives, and surviving entries are unchanged |
| Registry.BrandingRegistry.OnConfigChanged | src/videoBranding/videoBranding.ts:298-327 | the state left and the callbacks started are the listener's two loops, the first only when `defaultToCustom` changed and the second only when a reload setting changed; every entry survives, with the new flag when `defaultToCustom` changed |
| Registry.BrandingRegistry.SetShowCustomForAll | src/videoBranding/videoBranding.ts:299-303 | `setShowCustom` with the new value on every key present when the loop starts, each started callback registering what it registers before it suspends |
| Registry.BrandingRegistry.RerunAll | src/videoBranding/videoBranding.ts:316-325 | every key present when the loop starts has its list swapped for an empty one and the callbacks it held started, in key order, flags untouched |
| ImageSrcWait.ImagesWaitingFor.constructor | src/videoBranding/videoBranding.ts:330 | no image starts with a pending wait |
| ImageSrcWait.ImagesWaitingFor.WaitForImageSrc | src/videoBranding/videoBranding.ts:331-357 | an image with a pending wait gets that same wait back; otherwise a new one is recorded for it and nothing else changes |
| ImageSrcWait.ImagesWaitingFor.OnMutations | src/videoBranding/videoBranding.ts:335-346 | a batch resolves the wait exactly when it reports a `src` change and the source is non-empty, and the image's entry is removed exactly then |
| TitleSelectors.TitleSelector | src/titles/titleRenderer.ts:186-197 | every location has at least one selector; the watch page has two, led by `yt-formatted-string`; end cards have the video and playlist titles; the others have one |
| TitleSelectors.TitleSelectorForCode | src/titles/titleRenderer.ts:186-201 | a location code outside the enumeration throws, and any other code gets its location's selectors |
| TitleSelectors.ExcludeCustom | src/titles/titleRenderer.ts:182-183 | each selector is suffixed with `:not(.cbCustomTitle)`, one for one |
| TitleSelectors.JoinContainsParts | src/titles/titleRenderer.ts:183 | a joined selector list contains each part, starts with the first and ends with the last |
| TitleSelectors.OriginalTitleSelectorNamesAll | src/titles/titleRenderer.ts:181-184 | the original-title query names every selector of the location with `:not(.cbCustomTitle)` and ends with that exclusion |
| TitleNodes.OriginalShownDisplay | src/titles/titleRenderer.ts:129-139 | a shown original title is visible; it is `inline-block` exactly in the watch page's miniplayer, and otherwise `-webkit-box` with the redux extension and `inline` without |
| TitleNodes.BrandingElement.GetOrCreateTitleElement | src/titles/titleRenderer.ts:203-267 | an existing custom node is returned untouched; otherwise exactly one is created, as a clone of the original or a plain `div`, with no text |
| TitleNodes.BrandingElement.ShowOriginal | src/titles/titleRenderer.ts:124-145 | the custom node (created if needed) is hidden and the original shown with the location's display |
| TitleNodes.BrandingElement.HideOriginal | src/titles/titleRenderer.ts:112-122 | the original is hidden and nothing else changes |
| TitleNodes.BrandingElement.HideCustom | src/titles/titleRenderer.ts:147-152 | the custom node (created if needed) is hidden |
| TitleNodes.BrandingElement.ShowCustom | src/titles/titleRenderer.ts:154-165 | the custom node (created if needed) loses its forced display |
| TitleNodes.BrandingElement.SetCustomTitle | src/titles/titleRenderer.ts:167-179 | the custom node's text and tooltip both become the title |
| TitleRendering.FormatInput | src/titles/titleRenderer.ts:53-69 | a fetched non-empty title is formatted as it is, as custom unless it is the original; with no fetched title, or an empty one, a non-empty original text is formatted trimmed and not custom; with neither there is nothing to format |
| TitleRendering.ContentStep | src/titles/titleRenderer.ts:49-80 | a throw from the fetch or from formatting stops the step; so does finding the element on another video after the fetch or after formatting, and so does a formatted title equal to the trimmed original text; with nothing to format it goes on with no text, and otherwise with the formatted title, which then differs from the trimmed original; each stop and each way on holds only under those conditions |
| TitleRendering.ExitAfterGates | src/titles/titleRenderer.ts:49-104 | past the gates, a content step that stops ends the call with its exit, and one that goes on renders its content, judged by the full policy check |
| TitleRendering.LeftVideoAfterFetch | src/titles/titleRenderer.ts:49-51 | past the gates, a fetched title with the element already on another video ends the call as left-video, reporting failure |
| TitleRendering.SameAsOriginalShowsOriginal | src/titles/titleRenderer.ts:53-75 | past the gates, a formatted title equal to the trimmed original text ends the call with the original shown alone, reporting failure |
| TitleRendering.ThrowShowsOriginal | src/titles/titleRenderer.ts:87-104 | past the gates, a throw from the fetch, from formatting or from the full policy check ends the call with the original shown alone, reporting failure |
| TitleRendering.ExitOf | src/titles/titleRenderer.ts:22-105 | the call is disabled exactly when the extension is off or the fast check is false; it waits for the title change exactly on the watch page with a new video still showing the last title on the same page type; otherwise it goes on |
| TitleRendering.TitleRenderer.constructor | src/titles/titleRenderer.ts:18-20 | the watch memory starts empty |
| TitleRendering.TitleRenderer.ReplaceTitle | src/titles/titleRenderer.ts:22-105 | it returns true exactly when the full check passed; watch memory is overwritten past the first two checks; waiting touches nothing; leaving the video leaves both nodes hidden; success with custom branding on shows the custom title (and the original too when there was no text); every other exit shows only the original |
| TitleRendering.TitleRenderer.RenderTitle | src/titles/titleRenderer.ts:44-104 | after both nodes are hidden, the try block ends as ExitAfterGates says, with the same visibility outcome |
| TitleRendering.TitleRenderer.RenderContent | src/titles/titleRenderer.ts:49-80 | the content step writes the formatted title or shows the original exactly as ContentStep decides, and writes nothing after leaving the video |
| TitleRendering.TitleRenderer.FinishRender | src/titles/titleRenderer.ts:82-98 | the parent's tooltip is cleared; the result is true exactly when the full check passed; without custom branding or on failure the original alone is shown |
| ShowOriginalButtons.CreatedDontHide | src/titles/titleRenderer.ts:319-322 | a new button's `cbDontHide` agrees with the update rule for the default branding state |
| ShowOriginalButtons.ShowOriginalButton.constructor | src/titles/titleRenderer.ts:314-336 | a new button has its image, the three-ring logo and no forced display |
| ShowOriginalButtons.HideAndUpdateShowOriginalButton | src/titles/titleRenderer.ts:269-295 | on a button with an image, `cbOriginalShown` holds exactly when custom branding is off, and `cbDontHide` is removed exactly in the default state off the watch page without always-show; the button is hidden unless `dontHide` |
| ShowOriginalButtons.FindOrCreateShowOriginalButton | src/titles/titleRenderer.ts:303-336 | the existing button keeps its classes; a new one starts in the default branding state; either way it is tagged with the video and shown |
| ShowOriginalButtons.HandleShowOriginalButton | src/videoBranding/videoBranding.ts:206-234 | when either rendering succeeded, the button is found or created, tagged and shown, and its icon is the three-ring logo exactly when the title data is a custom title; otherwise any button there ends hidden |
| ShowOriginalButtons.Click | src/titles/titleRenderer.ts:343-349 | a click on a button tagged with a known non-empty identifier negates that video's flag and re-runs its callbacks, with the registry's whole new state stated; an unknown identifier reports custom branding shown and changes nothing; an untagged button changes nothing |
| CardDriver.PassOf | src/videoBranding/videoBranding.ts:106-145 | a pass stops with `[false, false]` when there is no anchor or the identifier differs from the one to verify, and throws on the watch page; it registers exactly when none of these happens, under the card's key, and then retries exactly when the identifier drifted |
| CardDriver.Run | src/videoBranding/videoBranding.ts:104-153 | a run registers only under the verified identifier when there is one, registers before any success, and never reports a replaced title for a playlist or clip card |
| CardDriver.RetryAsWrittenNeverSettles | src/videoBranding/videoBranding.ts:142-145 | as written, a card whose identifier keeps drifting never settles and registers one more callback on every pass |
| CardDriver.RetryCorrectedSettles | src/videoBranding/videoBranding.ts:142-145 | with the counter advanced, a card settles within three passes whatever the page does |
| CardDriver.DriftingCardExample | src/videoBranding/videoBranding.ts:142-145 | a card reading `aaaaaaaaaaa` before rendering and `bbbbbbbbbbb` after never settles as written, and settles by the third pass when corrected |
| CardDriver.ForceOriginalVisible | src/videoBranding/videoBranding.ts:126-134 | a playlist or clip card gets a hidden custom title node and a forced-visible original |
| CardDriver.RegisterPass | src/videoBranding/videoBranding.ts:117-134 | a pass registers its callback under its key, and touches the title nodes only for a playlist or clip card |
| CardDriver.ReplaceVideoCardBranding | src/videoBranding/videoBranding.ts:104-153 | the result and the registry's new state are those of Run; a settling playlist or clip card is left with the original forced visible |
| CardDriver.RegisterAndSettle | src/videoBranding/videoBranding.ts:117-149 | after a registered pass, the card retries on the rest of the script or settles with the renderers' results, as Run says |
| CardReads.UnchangedAnchorNeverRetries | src/videoBranding/videoBranding.ts:142 | a card whose anchor reads the same after rendering never retries |
| CardReads.CardWithoutIdRegistersUndefined | src/videoBranding/videoBranding.ts:109-118 | an anchor with neither href nor thumbnail registers the card under `"undefined"` and settles on the renderers' results |

## Left out

- CardDriver.ReplaceVideoCardBranding: the contract states the title nodes' display only for a playlist or clip card that settles. RegisterPass states each pass's effect on them.
- The renderers' results are inputs of each attempt. The driver does not call `replaceThumbnail` or `replaceTitle` (the latter is modelled on its own). It also does not start `handleShowOriginalButton`, which it does not await and which is modelled on its own.
- `handleOnboarding`, `countTitleReplacement` and `setPageTitle` are not modelled. They only report or mirror what the model already decides.
- `replaceCurrentVideoBranding` (src/videoBranding/videoBranding.ts:44-98) is not modelled. It waits for elements to become visible and renders several title nodes concurrently. Its registration is the same call as the cards', and its callback's registration before its first suspension is what `syncOutcome` gives for the watch page.
- `replaceVideoCardsBranding` and `startThumbnailListener` are not modelled. They only fan cards out concurrently.
- Concurrency is not modelled. `Promise.all` in `updateBrandingForVideo` is modelled as the callbacks finishing one after the other. `Promise.race` in `handleShowOriginalButton` reduces to whether either result is true. The settings listener starts its callbacks without awaiting them: the model covers what each registers before its first suspension, and what they register after suspending happens after the listener returns and is not part of that call.
- The page does not change during an await except through the answers given as inputs. `isOnCorrectVideo` and `extractVideoIDFromElement` are those answers.
- `createTitleElement`'s layout repairs, badge moves and duration moves are not modelled. They only restyle nodes the model does not track.
- ShowOriginalButtons.Click models only the toggle of `createShowOriginalButton`'s click handler (src/titles/titleRenderer.ts:343-349). It does not hide the hover players or pause their preview video after the toggle (lines 351-359). The `mouseleave` handler on the original title's parent, which shows the hover players again and resumes a paused preview (lines 364-377), is not modelled. The hover players and their video are page nodes the model does not track.
- `chrome.i18n` messages and `chrome.runtime.getURL` logos are enumerations. Their text is not modelled.
- A missing original title node is not modelled: every branding element has one. When the code finds none, it fails on its first use of the missing node: a clone or class test in `createTitleElement` (src/titles/titleRenderer.ts:209-210), reached through `hideCustomTitle` or `showOriginalTitle` when there is no custom node yet, or a style write when there is one. Those calls are outside the `try`, so `replaceTitle` rejects, and the card driver's `await Promise.all` (src/videoBranding/videoBranding.ts:140) then rejects after the card has registered.
- `waitForImageSrc` is assumed to settle: a thumbnail's `srcAfterWait` is its source once it has. In the source the wait resolves only when a mutation gives the image a non-empty `src`; if none comes, `extractVideoID` never returns and the card is neither registered nor rendered. The model instead extracts no identifier from that thumbnail, so a card without an identifier to verify registers under `"undefined"`.
- The watch page's title-bar button container is assumed present. `findShowOriginalButton` is a `ButtonHost` that holds the button it finds.
- Inherited object properties are not modelled: the record is a plain map. A key such as `constructor`, eleven characters and so a possible identifier, would find an inherited property in the source.
- The MutationObserver itself is not modelled. Resolving the promise is not modelled, only the memo entry's removal.
- The network fetch, `formatTitle` and the channel policy checks are inputs, so their internals are not modelled.

## Findings

| source | as written | input that shows it | evidently intended | confidence | as-written member | corrected member |
|---|---|---|---|---|---|---|
| src/videoBranding/videoBranding.ts:144 | `tries++` passes the counter's old value, so every retry sees `tries` at its first value and the `tries < 2` bound never ends the retries | a related card whose anchor reads `aaaaaaaaaaa` before rendering and `bbbbbbbbbbb` after, on every pass | at most two retries (three passes) per card | not executed | CardDriver.RetryAsWrittenNeverSettles | CardDriver.RetryCorrectedSettles |
