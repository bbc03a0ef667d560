/** replaceVideoCardBranding: one video card is branded by registering it in the registry, rendering
    its thumbnail and title, and retrying when the card's video changed underneath it. What the page
    shows on each attempt is given as an Attempt; the renderers' results come with it. */
module CardDriver {
  import opened Common
  import opened VideoLinks
  import opened Registry
  import opened TitleNodes

  /** One pass through the card as the page presents it: what each read of the anchor returns. */
  datatype Attempt = Attempt(
    /** The anchor query found an element (end recommendations are anchors themselves). */
    linkFound: bool,
    /** extractVideoID and isPlaylistOrClipTitle on the anchor before rendering. */
    id: Option<VideoID>,
    playlist: bool,
    /** extractVideoID on the anchor re-read after rendering, and read once more. */
    recheckId: Option<VideoID>,
    recheckAgainId: Option<VideoID>,
    /** The callback this pass registers. */
    callback: Callback,
    /** What the thumbnail and title renderers settled with. */
    thumbnailResult: bool,
    titleResult: bool)

  /** How a card settles: the two renderers' results, an exception (the watch page has no card
      anchor), or, in the model only, the script of attempts ending while the code would go on. */
  datatype CardResult = Finished(thumbnail: bool, title: bool) | Failed | Unsettled

  /** What a run of the driver does: its result, the callbacks it registered (with their keys) in
      order, how many attempts it read, and whether the attempt that settled was a playlist or clip
      card (which forces the original title visible). */
  datatype RunResult = RunResult(result: CardResult, registered: seq<(string, Callback)>, used: nat,
                                 settledPlaylist: bool)

  predicate LinkFound(location: BrandingLocation, a: Attempt)
  {
    location == EndRecommendations || a.linkFound
  }

  /** The card now shows a different video than the one the branding was asked for. */
  predicate Mismatch(verify: Option<VideoID>, id: Option<VideoID>)
  {
    Truthy(verify) && id != Some(verify.value)
  }

  /** The retry test after rendering: the identifier read again differs, a third read is non-empty,
      and fewer than two retries have been counted. */
  predicate Drifted(a: Attempt, tries: int)
  {
    a.id != a.recheckId && Truthy(a.recheckAgainId) && tries < 2
  }

  /** What one pass through the card decides: it stops before registering anything (no anchor, the
      wrong video, or the watch page, which has no card anchor and throws), or it registers `callback`
      under `key` and then either retries or settles with `result`. */
  datatype Pass = Stopped(result: CardResult)
                | Registered(key: string, callback: Callback, playlist: bool, retry: bool, result: CardResult)

  /** One pass of replaceVideoCardBranding at retry count `tries`. */
  function PassOf(location: BrandingLocation, verify: Option<VideoID>, tries: int, a: Attempt): (p: Pass)
    ensures p == Stopped(Failed) <==> location == Watch
    ensures location != Watch && !LinkFound(location, a) ==> p == Stopped(Finished(false, false))
    ensures location != Watch && LinkFound(location, a) && Mismatch(verify, a.id) ==>
              p == Stopped(Finished(false, false))
    ensures p.Registered? <==> location != Watch && LinkFound(location, a) && !Mismatch(verify, a.id)
    ensures p.Registered? ==>
              && p.key == RegistryKey(a.id) && p.callback == a.callback
              && (Truthy(verify) ==> p.key == verify.value)
              && p.playlist == a.playlist
              && (p.retry <==> Drifted(a, tries))
              && (p.playlist ==> p.result.Finished? && !p.result.title)
    ensures p.Registered? && !p.retry ==>
              p.result == Finished(a.thumbnailResult, !p.playlist && a.titleResult)
  {
    match GetLinkElement(location)
    case Threw(_) => Stopped(Failed)
    case Ok(_) =>
      if !LinkFound(location, a) then Stopped(Finished(false, false))
      else
        if Mismatch(verify, a.id) then Stopped(Finished(false, false))
        else
          Registered(RegistryKey(a.id), a.callback, a.playlist, Drifted(a, tries),
                     Finished(a.thumbnailResult, !a.playlist && a.titleResult))
  }

  /** The driver, with the retry counter advanced by `increment` on each retry: 0 is the code as
      written (`tries++` passes the value before the increment), 1 the evidently intended count. */
  function Run(location: BrandingLocation, verify: Option<VideoID>, tries: int, attempts: seq<Attempt>,
               increment: nat): (r: RunResult)
    decreases |attempts|
    ensures r.used <= |attempts| && |r.registered| <= r.used
    ensures attempts != [] <==> r.used > 0
    ensures r.settledPlaylist ==> r.result.Finished? && !r.result.title
    ensures Truthy(verify) ==> forall p | p in r.registered :: p.0 == verify.value
    ensures r.result.Finished? && (r.result.thumbnail || r.result.title) ==> r.registered != []
    ensures r.settledPlaylist ==> r.registered != []
  {
    if attempts == [] then RunResult(Unsettled, [], 0, false)
    else
      match PassOf(location, verify, tries, attempts[0])
      case Stopped(result) => RunResult(result, [], 1, false)
      case Registered(key, callback, playlist, retry, result) =>
        if retry then
          var rest := Run(location, verify, tries + increment, attempts[1..], increment);
          RunResult(rest.result, [(key, callback)] + rest.registered, 1 + rest.used,
                    rest.settledPlaylist)
        else
          RunResult(result, [(key, callback)], 1, playlist)
  }

  /** The registry after a run: each registration applied in order. */
  function RegisterAll(s: RegistryState, registered: seq<(string, Callback)>, defaultToCustom: Option<bool>)
    : (t: RegistryState)
    ensures registered == [] ==> t == s
    decreases |registered|
  {
    if registered == [] then s
    else RegisterAll(Register(s, registered[0].0, registered[0].1, defaultToCustom), registered[1..], defaultToCustom)
  }

  lemma RegisterAllCons(s: RegistryState, key: string, cb: Callback, rest: seq<(string, Callback)>,
                        defaultToCustom: Option<bool>)
    ensures RegisterAll(s, [(key, cb)] + rest, defaultToCustom)
            == RegisterAll(Register(s, key, cb, defaultToCustom), rest, defaultToCustom)
  {
    assert ([(key, cb)] + rest)[1..] == rest;
  }

  /** A card whose video keeps changing between reads never settles under the code as written: every
      attempt retries with the counter still at its first value, and each registers one more callback. */
  lemma {:induction false} RetryAsWrittenNeverSettles(location: BrandingLocation, verify: Option<VideoID>,
                                                      tries: int, attempts: seq<Attempt>)
    requires tries < 2 && location != Watch
    requires forall i | 0 <= i < |attempts| ::
               && LinkFound(location, attempts[i])
               && !Mismatch(verify, attempts[i].id)
               && Drifted(attempts[i], tries)
    ensures Run(location, verify, tries, attempts, 0).result == Unsettled
    ensures |Run(location, verify, tries, attempts, 0).registered| == |attempts|
    decreases |attempts|
  {
    if attempts != [] {
      RetryAsWrittenNeverSettles(location, verify, tries, attempts[1..]);
    }
  }

  /** With the counter advanced, a card settles within three attempts whatever the page does: the
      retry test fails once two retries are counted. */
  lemma {:induction false} RetryCorrectedSettles(location: BrandingLocation, verify: Option<VideoID>,
                                                 tries: int, attempts: seq<Attempt>)
    requires 0 <= tries
    ensures Run(location, verify, tries, attempts, 1).used <= if tries < 2 then 3 - tries else 1
    ensures |attempts| >= (if tries < 2 then 3 - tries else 1) ==>
              Run(location, verify, tries, attempts, 1).result != Unsettled
    decreases |attempts|
  {
    if attempts != [] {
      RetryCorrectedSettles(location, verify, tries + 1, attempts[1..]);
    }
  }

  /** The playlist and clip branch: the custom title node exists (so the show-original button lands in
      the right place), hidden, and the original title is forced visible. */
  method ForceOriginalVisible(el: BrandingElement, location: BrandingLocation)
    requires el.Valid()
    modifies el, el.original, el.custom
    ensures el.Valid() && el.custom != null
    ensures el.original.display == Block && el.custom.display == Hidden
    ensures old(el.custom) != null ==> el.custom == old(el.custom)
    ensures old(el.custom) == null ==> fresh(el.custom)
  {
    var t := el.GetOrCreateTitleElement(location);
    el.original.display := Block;
    t.display := Hidden;
  }

  /** A related-videos card whose anchor reads `aaaaaaaaaaa` before rendering and `bbbbbbbbbbb` after,
      every time. As written, the driver keeps retrying, registering one callback per pass; with the
      counter advanced, it settles by the third pass. */
  lemma DriftingCardExample(n: nat)
    ensures var a := Attempt(true, Some("aaaaaaaaaaa"), false, Some("bbbbbbbbbbb"), Some("bbbbbbbbbbb"), 0, true, true);
            var attempts := seq(n, i => a);
            && Run(Related, None, 0, attempts, 0).result == Unsettled
            && |Run(Related, None, 0, attempts, 0).registered| == n
            && (n >= 3 ==> Run(Related, None, 0, attempts, 1).result != Unsettled)
  {
    var a := Attempt(true, Some("aaaaaaaaaaa"), false, Some("bbbbbbbbbbb"), Some("bbbbbbbbbbb"), 0, true, true);
    var attempts := seq(n, i => a);
    assert forall i | 0 <= i < |attempts| :: attempts[i] == a;
    assert Drifted(a, 0) && !Mismatch(None, a.id) && LinkFound(Related, a);
    RetryAsWrittenNeverSettles(Related, None, 0, attempts);
    RetryCorrectedSettles(Related, None, 0, attempts);
  }

  /** What a pass that gets past the checks does before rendering: register the card's callback, and
      for a playlist or clip card force the original title visible. */
  method RegisterPass(el: BrandingElement, reg: BrandingRegistry, location: BrandingLocation, key: string,
                      callback: Callback, playlist: bool, defaultToCustom: Option<bool>)
    requires reg.Valid() && el.Valid()
    modifies reg, el, el.original, el.custom
    ensures reg.Valid() && el.Valid()
    ensures reg.State() == Register(old(reg.State()), key, callback, defaultToCustom)
    ensures old(el.custom) != null ==> el.custom == old(el.custom)
    ensures old(el.custom) == null ==> el.custom == null || fresh(el.custom)
    ensures playlist ==> el.custom != null && el.original.display == Block && el.custom.display == Hidden
    ensures !playlist ==>
              && el.custom == old(el.custom) && el.original.display == old(el.original.display)
              && (el.custom != null ==> el.custom.display == old(el.custom.display))
  {
    var _ := reg.GetAndUpdateVideoBrandingInstances(key, callback, defaultToCustom);
    if playlist {
      ForceOriginalVisible(el, location);
    }
  }

  /** replaceVideoCardBranding, run against a script of attempts: the passes that stop before
      registering (the watch page, no anchor, the wrong video), and otherwise RegisterAndSettle. The
      result and the registry's new state are those of Run; a playlist or clip card that settles is
      left with its custom title hidden and its original forced visible. */
  method ReplaceVideoCardBranding(el: BrandingElement, reg: BrandingRegistry, location: BrandingLocation,
                                  verify: Option<VideoID>, tries: int, attempts: seq<Attempt>,
                                  increment: nat, defaultToCustom: Option<bool>) returns (result: CardResult)
    requires reg.Valid() && el.Valid()
    modifies reg, el, el.original, el.custom
    decreases |attempts|, 1
    ensures reg.Valid() && el.Valid()
    ensures result == Run(location, verify, tries, attempts, increment).result
    ensures reg.State() == RegisterAll(old(reg.State()), Run(location, verify, tries, attempts, increment).registered,
                                       defaultToCustom)
    ensures Run(location, verify, tries, attempts, increment).settledPlaylist ==>
              el.custom != null && el.original.display == Block && el.custom.display == Hidden
  {
    if attempts == [] {
      return Unsettled;
    }
    var pass := PassOf(location, verify, tries, attempts[0]);
    if pass.Stopped? {
      return pass.result;
    }
    result := RegisterAndSettle(el, reg, location, verify, tries, attempts, increment, defaultToCustom, pass);
  }

  /** A pass that got past the checks: register it (RegisterPass), then retry on the rest of the script
      with the counter advanced by `increment`, or settle with the renderers' results. */
  method RegisterAndSettle(el: BrandingElement, reg: BrandingRegistry, location: BrandingLocation,
                           verify: Option<VideoID>, tries: int, attempts: seq<Attempt>,
                           increment: nat, defaultToCustom: Option<bool>, pass: Pass) returns (result: CardResult)
    requires reg.Valid() && el.Valid()
    requires attempts != [] && pass == PassOf(location, verify, tries, attempts[0]) && pass.Registered?
    modifies reg, el, el.original, el.custom
    decreases |attempts|, 0
    ensures reg.Valid() && el.Valid()
    ensures result == Run(location, verify, tries, attempts, increment).result
    ensures reg.State() == RegisterAll(old(reg.State()), Run(location, verify, tries, attempts, increment).registered,
                                       defaultToCustom)
    ensures Run(location, verify, tries, attempts, increment).settledPlaylist ==>
              el.custom != null && el.original.display == Block && el.custom.display == Hidden
  {
    ghost var r := Run(location, verify, tries, attempts, increment);
    ghost var s0 := reg.State();
    RegisterPass(el, reg, location, pass.key, pass.callback, pass.playlist, defaultToCustom);
    ghost var s1 := reg.State();
    if pass.retry {
      ghost var rest := Run(location, verify, tries + increment, attempts[1..], increment);
      assert r == RunResult(rest.result, [(pass.key, pass.callback)] + rest.registered, 1 + rest.used,
                            rest.settledPlaylist);
      RegisterAllCons(s0, pass.key, pass.callback, rest.registered, defaultToCustom);
      result := ReplaceVideoCardBranding(el, reg, location, verify, tries + increment, attempts[1..],
                                         increment, defaultToCustom);
      assert reg.State() == RegisterAll(s1, rest.registered, defaultToCustom);
    } else {
      result := pass.result;
      assert r == RunResult(result, [(pass.key, pass.callback)], 1, pass.playlist);
      RegisterAllCons(s0, pass.key, pass.callback, [], defaultToCustom);
      assert [(pass.key, pass.callback)] + [] == r.registered;
    }
  }
}
