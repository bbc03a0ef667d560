/** The per-video branding registry (`videoBrandingInstances`): one entry per video on the page, holding
    whether custom branding is shown for it and the re-render callbacks of its on-page occurrences. */
module Registry {
  import opened Common

  /** A re-render callback of one on-page occurrence, as an opaque token. */
  type Callback = nat

  datatype Instance = Instance(showCustomBranding: bool, updateBrandingCallbacks: seq<Callback>)

  /** The registry's contents: its entries, and their keys in insertion order, which is the order a
      for-in loop over the record visits them (video identifiers are never array-index keys). */
  datatype RegistryState = RegistryState(instances: map<string, Instance>, order: seq<string>)

  ghost predicate Distinct(keys: seq<string>)
  {
    forall i, j | 0 <= i < j < |keys| :: keys[i] != keys[j]
  }

  ghost predicate WellFormed(s: RegistryState)
  {
    Distinct(s.order) && forall k :: k in s.instances <==> k in s.order
  }

  /** `Config.config?.defaultToCustom ?? true`: the flag a new entry starts with. */
  function DefaultFlag(defaultToCustom: Option<bool>): bool
  {
    match defaultToCustom
    case None => true
    case Some(v) => v
  }

  /** The property key an extracted identifier indexes the record with: an identifier that could not be
      extracted is `undefined`, which JavaScript turns into the key "undefined". */
  function RegistryKey(id: Option<VideoID>): string
  {
    match id
    case None => "undefined"
    case Some(v) => v
  }

  /** Distinct eleven-character identifiers, and a missing one, index distinct entries: the coerced key
      "undefined" is never an identifier's key. */
  lemma RegistryKeyInjective(a: Option<VideoID>, b: Option<VideoID>)
    requires a.Some? ==> |a.value| == 11
    requires b.Some? ==> |b.value| == 11
    ensures RegistryKey(a) == RegistryKey(b) <==> a == b
  {
    if a.Some? && b.None? {
      assert |RegistryKey(a)| != |RegistryKey(b)|;
    }
    if a.None? && b.Some? {
      assert |RegistryKey(a)| != |RegistryKey(b)|;
    }
  }

  // ---------------------------------------------------------------------------
  // The operations as functions on RegistryState
  // ---------------------------------------------------------------------------

  /** getAndUpdateVideoBrandingInstances on the state: create the entry, or append to its callbacks. */
  function Register(s: RegistryState, key: string, cb: Callback, defaultToCustom: Option<bool>): RegistryState
  {
    if key in s.instances then
      var inst := s.instances[key];
      s.(instances := s.instances[key := inst.(updateBrandingCallbacks := inst.updateBrandingCallbacks + [cb])])
    else
      RegistryState(s.instances[key := Instance(DefaultFlag(defaultToCustom), [cb])], s.order + [key])
  }

  /** The entry's callback list swapped for an empty one. */
  function Drained(s: RegistryState, key: string): RegistryState
  {
    if key in s.instances then
      s.(instances := s.instances[key := s.instances[key].(updateBrandingCallbacks := [])])
    else
      s
  }

  /** The entry's flag set to `value`. */
  function WithFlag(s: RegistryState, key: string, value: bool): RegistryState
  {
    if key in s.instances then
      s.(instances := s.instances[key := s.instances[key].(showCustomBranding := value)])
    else
      s
  }

  /** How often `key` occurs in `keys`. */
  function Count(keys: seq<string>, key: string): (n: nat)
    ensures n <= |keys|
    ensures n == 0 <==> key !in keys
    decreases |keys|
  {
    if keys == [] then 0
    else
      assert keys == keys[..|keys| - 1] + [keys[|keys| - 1]];
      Count(keys[..|keys| - 1], key) + (if keys[|keys| - 1] == key then 1 else 0)
  }

  /** `n` copies of one callback. */
  function Repeat(c: Callback, n: nat): (r: seq<Callback>)
    ensures |r| == n
    ensures forall i | 0 <= i < n :: r[i] == c
  {
    if n == 0 then [] else Repeat(c, n - 1) + [c]
  }

  /** One run of callback `c` registering it under each key of `keys` in turn: a card whose identifier
      drifts re-registers once per rendering pass. */
  function RegisterEach(s: RegistryState, keys: seq<string>, c: Callback, defaultToCustom: Option<bool>): RegistryState
    decreases |keys|
  {
    if keys == [] then s
    else Register(RegisterEach(s, keys[..|keys| - 1], c, defaultToCustom), keys[|keys| - 1], c, defaultToCustom)
  }

  /** The captured callbacks run one after the other; `outcome(c)` lists the keys a run of `c`
      registers under, in order. */
  function Replay(s: RegistryState, captured: seq<Callback>, outcome: Callback -> seq<string>,
                  defaultToCustom: Option<bool>): RegistryState
    decreases |captured|
  {
    if captured == [] then s
    else
      var last := captured[|captured| - 1];
      RegisterEach(Replay(s, captured[..|captured| - 1], outcome, defaultToCustom), outcome(last), last, defaultToCustom)
  }

  /** The registrations the captured callbacks make under `key`, in the order they are made. */
  function RegisteredUnder(captured: seq<Callback>, outcome: Callback -> seq<string>, key: string): (r: seq<Callback>)
    ensures forall c | c in r :: c in captured && key in outcome(c)
    ensures forall c | c in captured && key in outcome(c) :: c in r
    decreases |captured|
  {
    if captured == [] then []
    else
      var prefix := captured[..|captured| - 1];
      var last := captured[|captured| - 1];
      assert captured == prefix + [last];
      var added := Repeat(last, Count(outcome(last), key));
      assert key in outcome(last) ==> added[0] == last;
      RegisteredUnder(prefix, outcome, key) + added
  }

  /** The keys of `keys` that a visible show-original button names, in order. */
  function KeepVisible(keys: seq<string>, visible: seq<Option<string>>): seq<string>
    decreases |keys|
  {
    if keys == [] then []
    else
      var last := keys[|keys| - 1];
      KeepVisible(keys[..|keys| - 1], visible) + (if Some(last) in visible then [last] else [])
  }

  /** The callbacks of the entries `keys`, entry after entry. */
  function AllCallbacks(keys: seq<string>, m: map<string, Instance>): seq<Callback>
    decreases |keys|
  {
    if keys == [] then []
    else
      var last := keys[|keys| - 1];
      AllCallbacks(keys[..|keys| - 1], m) + (if last in m then m[last].updateBrandingCallbacks else [])
  }

  /** The entries `keys` deleted one after the other, except those a visible button names. */
  function RemoveHidden(m: map<string, Instance>, keys: seq<string>, visible: seq<Option<string>>): map<string, Instance>
    decreases |keys|
  {
    if keys == [] then m
    else
      var last := keys[|keys| - 1];
      var p := RemoveHidden(m, keys[..|keys| - 1], visible);
      if Some(last) in visible then p else p - {last}
  }

  // ---------------------------------------------------------------------------
  // Lemmas about the state functions
  // ---------------------------------------------------------------------------

  lemma RegisterWellFormed(s: RegistryState, key: string, cb: Callback, defaultToCustom: Option<bool>)
    requires WellFormed(s)
    ensures WellFormed(Register(s, key, cb, defaultToCustom))
  {
  }

  lemma {:induction false} RegisterEachWellFormed(s: RegistryState, keys: seq<string>, c: Callback,
                                                  defaultToCustom: Option<bool>)
    requires WellFormed(s)
    ensures WellFormed(RegisterEach(s, keys, c, defaultToCustom))
    decreases |keys|
  {
    if keys != [] {
      RegisterEachWellFormed(s, keys[..|keys| - 1], c, defaultToCustom);
      RegisterWellFormed(RegisterEach(s, keys[..|keys| - 1], c, defaultToCustom), keys[|keys| - 1], c, defaultToCustom);
    }
  }

  lemma {:induction false} ReplayWellFormed(s: RegistryState, captured: seq<Callback>,
                                            outcome: Callback -> seq<string>, defaultToCustom: Option<bool>)
    requires WellFormed(s)
    ensures WellFormed(Replay(s, captured, outcome, defaultToCustom))
    decreases |captured|
  {
    if captured != [] {
      var prefix := captured[..|captured| - 1];
      ReplayWellFormed(s, prefix, outcome, defaultToCustom);
      var last := captured[|captured| - 1];
      RegisterEachWellFormed(Replay(s, prefix, outcome, defaultToCustom), outcome(last), last, defaultToCustom);
    }
  }

  /** One callback's run, seen from one key: the entry gains one copy of the callback per registration
      under that key, and is created with the default flag by the first one if it was missing. */
  lemma {:induction false} RegisterEachEntry(s: RegistryState, keys: seq<string>, c: Callback,
                                             defaultToCustom: Option<bool>, key: string)
    ensures var t := RegisterEach(s, keys, c, defaultToCustom);
      var added := Repeat(c, Count(keys, key));
      && (key in t.instances <==> key in s.instances || added != [])
      && (key in s.instances ==> t.instances[key] == s.instances[key].(updateBrandingCallbacks :=
            s.instances[key].updateBrandingCallbacks + added))
      && (key !in s.instances && added != [] ==> t.instances[key] == Instance(DefaultFlag(defaultToCustom), added))
    decreases |keys|
  {
    if keys == [] {
      if key in s.instances {
        assert s.instances[key].updateBrandingCallbacks + [] == s.instances[key].updateBrandingCallbacks;
      }
    } else {
      var prefix := keys[..|keys| - 1];
      RegisterEachEntry(s, prefix, c, defaultToCustom, key);
      var before := Repeat(c, Count(prefix, key));
      if keys[|keys| - 1] == key {
        assert Repeat(c, Count(keys, key)) == before + [c];
        if key in s.instances {
          var cbs := s.instances[key].updateBrandingCallbacks;
          assert cbs + before + [c] == cbs + (before + [c]);
        }
      }
    }
  }

  /** After the captured callbacks have run, an entry that existed keeps its flag and gains exactly the
      registrations made under it, in order; an entry that did not exist is there exactly when some
      registration was made under it, with the default flag and those registrations. */
  lemma {:induction false} ReplayEntry(s: RegistryState, captured: seq<Callback>, outcome: Callback -> seq<string>,
                                       defaultToCustom: Option<bool>, key: string)
    ensures var t := Replay(s, captured, outcome, defaultToCustom);
      var regs := RegisteredUnder(captured, outcome, key);
      && (key in t.instances <==> key in s.instances || regs != [])
      && (key in s.instances ==> t.instances[key] == Instance(s.instances[key].showCustomBranding,
            s.instances[key].updateBrandingCallbacks + regs))
      && (key !in s.instances && regs != [] ==> t.instances[key] == Instance(DefaultFlag(defaultToCustom), regs))
    decreases |captured|
  {
    if captured == [] {
      if key in s.instances {
        assert s.instances[key].updateBrandingCallbacks + [] == s.instances[key].updateBrandingCallbacks;
      }
    } else {
      var prefix := captured[..|captured| - 1];
      var last := captured[|captured| - 1];
      ReplayEntry(s, prefix, outcome, defaultToCustom, key);
      var mid := Replay(s, prefix, outcome, defaultToCustom);
      RegisterEachEntry(mid, outcome(last), last, defaultToCustom, key);
      var before := RegisteredUnder(prefix, outcome, key);
      var added := Repeat(last, Count(outcome(last), key));
      assert RegisteredUnder(captured, outcome, key) == before + added;
      if key in s.instances {
        var cbs := s.instances[key].updateBrandingCallbacks;
        assert cbs + before + added == cbs + (before + added);
      } else if before == [] {
        assert before + added == added;
      }
    }
  }

  lemma {:induction false} RepeatCount(c: Callback, n: nat, x: Callback)
    ensures multiset(Repeat(c, n))[x] == if x == c then n else 0
  {
    if n > 0 {
      RepeatCount(c, n - 1, x);
      assert multiset(Repeat(c, n)) == multiset(Repeat(c, n - 1)) + multiset{c};
    }
  }

  /** A callback appears among the registrations under `key` once per captured copy of it and per
      registration of one of its runs under `key`. */
  lemma {:induction false} RegisteredUnderCounts(captured: seq<Callback>, outcome: Callback -> seq<string>,
                                                 key: string, x: Callback)
    ensures multiset(RegisteredUnder(captured, outcome, key))[x] == multiset(captured)[x] * Count(outcome(x), key)
    decreases |captured|
  {
    if captured != [] {
      var prefix := captured[..|captured| - 1];
      var last := captured[|captured| - 1];
      RegisteredUnderCounts(prefix, outcome, key, x);
      var added := Repeat(last, Count(outcome(last), key));
      RepeatCount(last, Count(outcome(last), key), x);
      LastSplit(captured);
      assert RegisteredUnder(captured, outcome, key) == RegisteredUnder(prefix, outcome, key) + added;
      CountsStep(RegisteredUnder(captured, outcome, key), captured, RegisteredUnder(prefix, outcome, key), added,
                 prefix, last, x, Count(outcome(x), key));
    }
  }

  /** One step of `RegisteredUnderCounts`, over plain sequences. */
  lemma CountsStep(whole: seq<Callback>, all: seq<Callback>, before: seq<Callback>, added: seq<Callback>,
                   prefix: seq<Callback>, last: Callback, x: Callback, n: nat)
    requires whole == before + added && all == prefix + [last]
    requires multiset(before)[x] == multiset(prefix)[x] * n
    requires multiset(added)[x] == if x == last then n else 0
    ensures multiset(whole)[x] == multiset(all)[x] * n
  {
    MultisetAppend(before, added, x);
    MultisetAppend(prefix, [last], x);
    if x == last {
      MulSucc(multiset(prefix)[x], n);
    }
  }

  lemma MultisetAppend(a: seq<Callback>, b: seq<Callback>, x: Callback)
    ensures multiset(a + b)[x] == multiset(a)[x] + multiset(b)[x]
  {
  }

  lemma MulSucc(m: nat, n: nat)
    ensures (m + 1) * n == m * n + n
  {
  }

  /** When every captured callback registers exactly once, under the key it came from, the drained list
      is refilled with exactly the callbacks it held: none duplicated, none lost. */
  lemma {:induction false} RegisteredUnderAll(captured: seq<Callback>, outcome: Callback -> seq<string>, key: string)
    requires forall c | c in captured :: outcome(c) == [key]
    ensures RegisteredUnder(captured, outcome, key) == captured
    decreases |captured|
  {
    if captured != [] {
      var prefix := captured[..|captured| - 1];
      var last := captured[|captured| - 1];
      LastSplit(captured);
      RegisteredUnderAll(prefix, outcome, key);
      assert outcome(last) == [key];
      assert Count([key], key) == Count([], key) + 1;
      assert Repeat(last, 1) == [last];
    }
  }

  /** A run that registers under keys that all exist adds no key and keeps the iteration order. */
  lemma {:induction false} RegisterEachKnown(s: RegistryState, keys: seq<string>, c: Callback, defaultToCustom: Option<bool>)
    requires forall k | k in keys :: k in s.instances
    ensures RegisterEach(s, keys, c, defaultToCustom).order == s.order
    ensures RegisterEach(s, keys, c, defaultToCustom).instances.Keys == s.instances.Keys
    decreases |keys|
  {
    if keys != [] {
      var prefix := keys[..|keys| - 1];
      assert forall k | k in prefix :: k in keys;
      RegisterEachKnown(s, prefix, c, defaultToCustom);
    }
  }

  lemma {:induction false} ReplayKnown(s: RegistryState, captured: seq<Callback>, outcome: Callback -> seq<string>,
                                       defaultToCustom: Option<bool>)
    requires forall c, k | c in captured && k in outcome(c) :: k in s.instances
    ensures Replay(s, captured, outcome, defaultToCustom).order == s.order
    ensures Replay(s, captured, outcome, defaultToCustom).instances.Keys == s.instances.Keys
    decreases |captured|
  {
    if captured != [] {
      var prefix := captured[..|captured| - 1];
      var last := captured[|captured| - 1];
      assert forall c | c in prefix :: c in captured;
      ReplayKnown(s, prefix, outcome, defaultToCustom);
      RegisterEachKnown(Replay(s, prefix, outcome, defaultToCustom), outcome(last), last, defaultToCustom);
    }
  }

  /** The sweep keeps exactly the keys named by a visible button, in their order, without repeats. */
  lemma {:induction false} KeepVisibleMembers(keys: seq<string>, visible: seq<Option<string>>)
    ensures forall k :: k in KeepVisible(keys, visible) <==> k in keys && Some(k) in visible
    ensures Distinct(keys) ==> Distinct(KeepVisible(keys, visible))
    decreases |keys|
  {
    if keys != [] {
      var prefix := keys[..|keys| - 1];
      KeepVisibleMembers(prefix, visible);
      assert keys == prefix + [keys[|keys| - 1]];
      if Distinct(keys) {
        assert Distinct(prefix);
        assert keys[|keys| - 1] !in prefix;
      }
    }
  }

  /** Every callback of every listed entry is dispatched, and nothing else. */
  lemma {:induction false} AllCallbacksMembers(keys: seq<string>, m: map<string, Instance>)
    requires forall k | k in keys :: k in m
    ensures forall c :: c in AllCallbacks(keys, m) <==>
                          exists i | 0 <= i < |keys| :: c in m[keys[i]].updateBrandingCallbacks
    decreases |keys|
  {
    if keys != [] {
      var prefix := keys[..|keys| - 1];
      var lastCbs := m[keys[|keys| - 1]].updateBrandingCallbacks;
      assert forall k | k in prefix :: k in keys;
      AllCallbacksMembers(prefix, m);
      assert AllCallbacks(keys, m) == AllCallbacks(prefix, m) + lastCbs;
      assert forall i | 0 <= i < |prefix| :: prefix[i] == keys[i];
      forall c | c in AllCallbacks(keys, m)
        ensures exists i | 0 <= i < |keys| :: c in m[keys[i]].updateBrandingCallbacks
      {
        if c !in lastCbs {
          assert c in AllCallbacks(prefix, m);
          var i :| 0 <= i < |prefix| && c in m[prefix[i]].updateBrandingCallbacks;
          assert c in m[keys[i]].updateBrandingCallbacks;
        }
      }
    }
  }

  lemma AllCallbacksSnoc(keys: seq<string>, i: nat, m: map<string, Instance>)
    requires i < |keys| && keys[i] in m
    ensures AllCallbacks(keys[..i + 1], m) == AllCallbacks(keys[..i], m) + m[keys[i]].updateBrandingCallbacks
  {
    TakeStep(keys, i);
  }

  /** The sweep deletes exactly the listed entries no visible button names, and changes no entry. */
  lemma {:induction false} RemoveHiddenAll(m: map<string, Instance>, keys: seq<string>, visible: seq<Option<string>>)
    ensures forall k :: k in RemoveHidden(m, keys, visible) <==> k in m && (k in keys ==> Some(k) in visible)
    ensures forall k | k in RemoveHidden(m, keys, visible) :: RemoveHidden(m, keys, visible)[k] == m[k]
    decreases |keys|
  {
    if keys != [] {
      var prefix := keys[..|keys| - 1];
      RemoveHiddenAll(m, prefix, visible);
      assert keys == prefix + [keys[|keys| - 1]];
    }
  }

  lemma RemoveHiddenSnoc(m: map<string, Instance>, keys: seq<string>, i: nat, visible: seq<Option<string>>)
    requires i < |keys|
    ensures var p := RemoveHidden(m, keys[..i], visible);
      RemoveHidden(m, keys[..i + 1], visible) == if Some(keys[i]) in visible then p else p - {keys[i]}
  {
    TakeStep(keys, i);
  }

  // ---------------------------------------------------------------------------
  // The option-change notification
  // ---------------------------------------------------------------------------

  datatype Change<T> = Change(oldValue: T, newValue: T)

  /** A batch of settings changes: `defaultToCustom` with its boolean values, every other setting with
      its values as opaque encodings. */
  datatype ConfigChanges = ConfigChanges(defaultToCustom: Option<Change<bool>>, settings: map<string, Change<int>>)

  /** The settings whose change makes every on-page occurrence re-render. */
  const SettingsToReload: seq<string> := [
    "extensionEnabled",
    "replaceTitles",
    "replaceThumbnails",
    "titleFormatting",
    "thumbnailFallback",
    "alwaysShowShowOriginalButton",
    "customConfigurations",
    "channelOverrides"
  ]

  predicate DefaultToCustomChanged(changes: ConfigChanges)
  {
    changes.defaultToCustom.Some? && changes.defaultToCustom.value.newValue != changes.defaultToCustom.value.oldValue
  }

  predicate ReloadRequested(changes: ConfigChanges)
  {
    exists i | 0 <= i < |SettingsToReload| ::
      SettingsToReload[i] in changes.settings
      && changes.settings[SettingsToReload[i]].newValue != changes.settings[SettingsToReload[i]].oldValue
  }

  /** What a for-in loop over the registry leaves: the new state, and every callback it started, in
      the order it started them. */
  datatype Sweep = Sweep(state: RegistryState, dispatched: seq<Callback>)

  /** The entries `keys` visited one after the other (a key deleted meanwhile is skipped): the entry's
      flag set to `flag` when there is one, its list swapped for an empty one, and the callbacks it held
      started in order. Started callbacks are not awaited, so `outcome(c)` lists only what a run of `c`
      registers before it first suspends. */
  function SweepEntries(s: RegistryState, keys: seq<string>, flag: Option<bool>, outcome: Callback -> seq<string>,
                        defaultToCustom: Option<bool>): Sweep
    decreases |keys|
  {
    if keys == [] then Sweep(s, [])
    else
      var p := SweepEntries(s, keys[..|keys| - 1], flag, outcome, defaultToCustom);
      var key := keys[|keys| - 1];
      if key in p.state.instances then
        var captured := p.state.instances[key].updateBrandingCallbacks;
        var flagged := if flag.Some? then WithFlag(p.state, key, flag.value) else p.state;
        Sweep(Replay(Drained(flagged, key), captured, outcome, defaultToCustom), p.dispatched + captured)
      else p
  }

  /** The option-change listener on the state: a change of `defaultToCustom` sweeps every entry with
      the new flag; then a change of a setting to reload sweeps every entry present by then, without
      touching flags. Each for-in loop visits the keys present when it starts. */
  function Listener(s: RegistryState, changes: ConfigChanges, outcome: Callback -> seq<string>,
                    defaultToCustom: Option<bool>): Sweep
  {
    var first := if DefaultToCustomChanged(changes)
                 then SweepEntries(s, s.order, Some(changes.defaultToCustom.value.newValue), outcome, defaultToCustom)
                 else Sweep(s, []);
    var second := if ReloadRequested(changes)
                  then SweepEntries(first.state, first.state.order, None, outcome, defaultToCustom)
                  else Sweep(first.state, []);
    Sweep(second.state, first.dispatched + second.dispatched)
  }

  /** A sweep keeps every entry and the flags it does not set: registrations only append. */
  lemma {:induction false} SweepEntriesFlags(s: RegistryState, keys: seq<string>, flag: Option<bool>,
                                             outcome: Callback -> seq<string>, defaultToCustom: Option<bool>)
    ensures var t := SweepEntries(s, keys, flag, outcome, defaultToCustom).state;
      forall k | k in s.instances ::
        && k in t.instances
        && t.instances[k].showCustomBranding
           == if flag.Some? && k in keys then flag.value else s.instances[k].showCustomBranding
    decreases |keys|
  {
    if keys != [] {
      var prefix := keys[..|keys| - 1];
      var key := keys[|keys| - 1];
      assert keys == prefix + [key];
      SweepEntriesFlags(s, prefix, flag, outcome, defaultToCustom);
      var p := SweepEntries(s, prefix, flag, outcome, defaultToCustom);
      if key in p.state.instances {
        var captured := p.state.instances[key].updateBrandingCallbacks;
        var flagged := if flag.Some? then WithFlag(p.state, key, flag.value) else p.state;
        forall k | k in s.instances
          ensures var t := SweepEntries(s, keys, flag, outcome, defaultToCustom).state;
            && k in t.instances
            && t.instances[k].showCustomBranding
               == if flag.Some? && k in keys then flag.value else s.instances[k].showCustomBranding
        {
          ReplayEntry(Drained(flagged, key), captured, outcome, defaultToCustom, k);
        }
      }
    }
  }

  /** The listener leaves every entry in place; when `defaultToCustom` changed each of them shows the
      new value, and otherwise each keeps its flag. */
  lemma ListenerFlags(s: RegistryState, changes: ConfigChanges, outcome: Callback -> seq<string>,
                      defaultToCustom: Option<bool>)
    requires WellFormed(s)
    ensures var t := Listener(s, changes, outcome, defaultToCustom).state;
      forall k | k in s.instances ::
        && k in t.instances
        && t.instances[k].showCustomBranding
           == if DefaultToCustomChanged(changes) then changes.defaultToCustom.value.newValue
              else s.instances[k].showCustomBranding
  {
    var flag := if DefaultToCustomChanged(changes) then Some(changes.defaultToCustom.value.newValue) else None;
    var first := if DefaultToCustomChanged(changes) then SweepEntries(s, s.order, flag, outcome, defaultToCustom)
                 else Sweep(s, []);
    if DefaultToCustomChanged(changes) {
      SweepEntriesFlags(s, s.order, flag, outcome, defaultToCustom);
    }
    if ReloadRequested(changes) {
      SweepEntriesFlags(first.state, first.state.order, None, outcome, defaultToCustom);
    }
  }

  /** Every callback registers, before it first suspends, under no key but the one it is listed under.
      A card's callback suspends before registering anything. The watch page's callback registers under
      the page's current video (`getVideoID()`), and only when there is one and the title is already
      visible; that is the key it is listed under only while the page still shows that video. */
  ghost predicate SelfRegistering(s: RegistryState, outcome: Callback -> seq<string>)
  {
    forall k, c | k in s.instances && c in s.instances[k].updateBrandingCallbacks :: forall j | j in outcome(c) :: j == k
  }

  /** Every entry re-filled with the registrations its own callbacks make, with its flag set to `flag`
      when there is one. */
  function Refilled(s: RegistryState, flag: Option<bool>, outcome: Callback -> seq<string>): RegistryState
  {
    RegistryState(map k | k in s.instances :: RefilledEntry(s.instances[k], k, flag, outcome), s.order)
  }

  function RefilledEntry(inst: Instance, key: string, flag: Option<bool>, outcome: Callback -> seq<string>): Instance
  {
    Instance(if flag.Some? then flag.value else inst.showCustomBranding,
             RegisteredUnder(inst.updateBrandingCallbacks, outcome, key))
  }

  /** Callbacks none of whose runs registers under `key` make no registration under it. */
  lemma {:induction false} RegisteredUnderNone(captured: seq<Callback>, outcome: Callback -> seq<string>, key: string)
    requires forall c | c in captured :: key !in outcome(c)
    ensures RegisteredUnder(captured, outcome, key) == []
    decreases |captured|
  {
    if captured != [] {
      var prefix := captured[..|captured| - 1];
      assert forall i | 0 <= i < |prefix| :: prefix[i] == captured[i];
      RegisteredUnderNone(prefix, outcome, key);
      assert Count(outcome(captured[|captured| - 1]), key) == 0;
    }
  }

  /** Callbacks that register only under `key`, replayed: `key` gains their registrations, and every
      other entry stays as it was. */
  lemma ReplayOwnEntry(s: RegistryState, captured: seq<Callback>, outcome: Callback -> seq<string>,
                       defaultToCustom: Option<bool>, key: string, k: string)
    requires key in s.instances && k in s.instances
    requires forall c | c in captured :: forall j | j in outcome(c) :: j == key
    ensures var t := Replay(s, captured, outcome, defaultToCustom);
      k in t.instances
      && t.instances[k] == if k == key then s.instances[k].(updateBrandingCallbacks :=
           s.instances[k].updateBrandingCallbacks + RegisteredUnder(captured, outcome, k)) else s.instances[k]
  {
    ReplayEntry(s, captured, outcome, defaultToCustom, k);
    if k != key {
      RegisteredUnderNone(captured, outcome, k);
      assert s.instances[k].updateBrandingCallbacks + [] == s.instances[k].updateBrandingCallbacks;
    }
  }

  /** One visit of a sweep over self-registering callbacks: the visited entry is refilled, the others
      stay, and no key is added. */
  lemma SweepSelfStep(s: RegistryState, p: RegistryState, key: string, flag: Option<bool>,
                      outcome: Callback -> seq<string>, defaultToCustom: Option<bool>)
    requires SelfRegistering(s, outcome) && key in s.instances
    requires p.order == s.order && p.instances.Keys == s.instances.Keys && p.instances[key] == s.instances[key]
    ensures var flagged := if flag.Some? then WithFlag(p, key, flag.value) else p;
      var t := Replay(Drained(flagged, key), s.instances[key].updateBrandingCallbacks, outcome, defaultToCustom);
      && t.order == s.order && t.instances.Keys == s.instances.Keys
      && t.instances[key] == RefilledEntry(s.instances[key], key, flag, outcome)
      && forall k | k in s.instances && k != key :: t.instances[k] == p.instances[k]
  {
    var captured := s.instances[key].updateBrandingCallbacks;
    var flagged := if flag.Some? then WithFlag(p, key, flag.value) else p;
    var drained := Drained(flagged, key);
    ReplayKnown(drained, captured, outcome, defaultToCustom);
    forall k | k in s.instances
      ensures Replay(drained, captured, outcome, defaultToCustom).instances[k]
              == if k == key then RefilledEntry(s.instances[key], key, flag, outcome) else p.instances[k]
    {
      ReplayOwnEntry(drained, captured, outcome, defaultToCustom, key, k);
    }
  }

  /** With self-registering callbacks, a sweep over distinct keys keeps the keys and their order, gives
      each visited entry the registrations its own callbacks make (and the flag), leaves the others, and
      starts exactly the callbacks the visited entries held. */
  lemma {:induction false} SweepSelfRegistering(s: RegistryState, keys: seq<string>, flag: Option<bool>,
                                                outcome: Callback -> seq<string>, defaultToCustom: Option<bool>)
    requires WellFormed(s) && Distinct(keys) && SelfRegistering(s, outcome)
    ensures var t := SweepEntries(s, keys, flag, outcome, defaultToCustom);
      && t.state.order == s.order && t.state.instances.Keys == s.instances.Keys
      && t.dispatched == AllCallbacks(keys, s.instances)
      && forall k | k in s.instances ::
           t.state.instances[k] == if k in keys then RefilledEntry(s.instances[k], k, flag, outcome) else s.instances[k]
    decreases |keys|
  {
    if keys != [] {
      var prefix := keys[..|keys| - 1];
      var key := keys[|keys| - 1];
      assert keys == prefix + [key];
      assert Distinct(prefix);
      assert key !in prefix;
      SweepSelfRegistering(s, prefix, flag, outcome, defaultToCustom);
      var p := SweepEntries(s, prefix, flag, outcome, defaultToCustom);
      if key in p.state.instances {
        SweepSelfStep(s, p.state, key, flag, outcome, defaultToCustom);
      } else {
        assert key !in s.instances;
        assert AllCallbacks(keys, s.instances) == AllCallbacks(prefix, s.instances) + [];
      }
    }
  }

  /** With self-registering callbacks, a sweep over every key refills every entry and starts every
      callback the registry held. */
  lemma SweepAllSelfRegistering(s: RegistryState, flag: Option<bool>, outcome: Callback -> seq<string>,
                                defaultToCustom: Option<bool>)
    requires WellFormed(s) && SelfRegistering(s, outcome)
    ensures SweepEntries(s, s.order, flag, outcome, defaultToCustom)
            == Sweep(Refilled(s, flag, outcome), AllCallbacks(s.order, s.instances))
    ensures WellFormed(Refilled(s, flag, outcome)) && SelfRegistering(Refilled(s, flag, outcome), outcome)
  {
    SweepSelfRegistering(s, s.order, flag, outcome, defaultToCustom);
    var t := SweepEntries(s, s.order, flag, outcome, defaultToCustom);
    var r := Refilled(s, flag, outcome);
    assert t.state.instances == r.instances;
    forall k, c | k in r.instances && c in r.instances[k].updateBrandingCallbacks
      ensures forall j | j in outcome(c) :: j == k
    {
      assert c in s.instances[k].updateBrandingCallbacks;
    }
  }

  /** The whole listener with self-registering callbacks: each loop refills every entry with the
      registrations its own callbacks make (the first one also setting the new flag), and starts every
      callback held when it begins. A watch-page entry `[cbW]` thus ends as `[cbW]`, with `cbW` started
      once per loop. */
  lemma ListenerSelfRegistering(s: RegistryState, changes: ConfigChanges, outcome: Callback -> seq<string>,
                                defaultToCustom: Option<bool>)
    requires WellFormed(s) && SelfRegistering(s, outcome)
    ensures var first := if DefaultToCustomChanged(changes)
                         then Refilled(s, Some(changes.defaultToCustom.value.newValue), outcome) else s;
      var second := if ReloadRequested(changes) then Refilled(first, None, outcome) else first;
      && Listener(s, changes, outcome, defaultToCustom).state == second
      && Listener(s, changes, outcome, defaultToCustom).dispatched
         == (if DefaultToCustomChanged(changes) then AllCallbacks(s.order, s.instances) else [])
            + (if ReloadRequested(changes) then AllCallbacks(s.order, first.instances) else [])
  {
    if DefaultToCustomChanged(changes) {
      var flag := Some(changes.defaultToCustom.value.newValue);
      SweepAllSelfRegistering(s, flag, outcome, defaultToCustom);
      if ReloadRequested(changes) {
        SweepAllSelfRegistering(Refilled(s, flag, outcome), None, outcome, defaultToCustom);
      }
    } else if ReloadRequested(changes) {
      SweepAllSelfRegistering(s, None, outcome, defaultToCustom);
    }
  }

  /** One loop over a single entry whose callback `cb` re-registers at once under the entry's key. */
  lemma SingleEntrySweep(v: string, cb: Callback, before: bool, flag: Option<bool>, outcome: Callback -> seq<string>,
                         defaultToCustom: Option<bool>)
    requires outcome(cb) == [v]
    ensures SweepEntries(RegistryState(map[v := Instance(before, [cb])], [v]), [v], flag, outcome, defaultToCustom)
            == Sweep(RegistryState(map[v := Instance(if flag.Some? then flag.value else before, [cb])], [v]), [cb])
  {
    var s := RegistryState(map[v := Instance(before, [cb])], [v]);
    var after := if flag.Some? then flag.value else before;
    var flagged := if flag.Some? then WithFlag(s, v, flag.value) else s;
    var drained := Drained(flagged, v);
    assert drained == RegistryState(map[v := Instance(after, [])], [v]);
    SingleRegister(v, after, cb, defaultToCustom);
    assert [v][..0] == [] && [cb][..0] == [];
    assert RegisterEach(drained, [v], cb, defaultToCustom) == Register(drained, v, cb, defaultToCustom);
    assert Replay(drained, [cb], outcome, defaultToCustom) == RegisterEach(drained, [v], cb, defaultToCustom);
    assert [] + [cb] == [cb];
    assert SweepEntries(s, [v], flag, outcome, defaultToCustom) == Sweep(Replay(drained, [cb], outcome, defaultToCustom), [] + [cb]);
  }

  lemma SingleRegister(v: string, b: bool, cb: Callback, defaultToCustom: Option<bool>)
    ensures Register(RegistryState(map[v := Instance(b, [])], [v]), v, cb, defaultToCustom)
            == RegistryState(map[v := Instance(b, [cb])], [v])
  {
    var none: seq<Callback> := [];
    assert none + [cb] == [cb];
    assert map[v := Instance(b, none)][v := Instance(b, none + [cb])] == map[v := Instance(b, [cb])];
  }

  /** A watch page still showing video `v` with its title visible, so that its callback `cb` re-registers
      at once under `v`, the page's current video: a batch that changes `defaultToCustom` and a setting to reload starts `cb` once per loop and
      leaves it registered once, with the new flag. */
  lemma WatchPageListener(v: string, cb: Callback, before: bool, changes: ConfigChanges,
                          outcome: Callback -> seq<string>, defaultToCustom: Option<bool>)
    requires outcome(cb) == [v]
    requires DefaultToCustomChanged(changes) && ReloadRequested(changes)
    ensures Listener(RegistryState(map[v := Instance(before, [cb])], [v]), changes, outcome, defaultToCustom)
            == Sweep(RegistryState(map[v := Instance(changes.defaultToCustom.value.newValue, [cb])], [v]), [cb, cb])
  {
    var value := changes.defaultToCustom.value.newValue;
    SingleEntrySweep(v, cb, before, Some(value), outcome, defaultToCustom);
    SingleEntrySweep(v, cb, value, None, outcome, defaultToCustom);
    assert [cb] + [cb] == [cb, cb];
  }

  // ---------------------------------------------------------------------------
  // The registry object
  // ---------------------------------------------------------------------------

  class BrandingRegistry {
    var instances: map<string, Instance>
    /** Insertion order of the keys: the order in which for-in loops over the record visit them. */
    var order: seq<string>

    function State(): RegistryState
      reads this
    {
      RegistryState(instances, order)
    }

    ghost predicate Valid()
      reads this
    {
      WellFormed(State())
    }

    constructor ()
      ensures Valid() && instances == map[] && order == []
    {
      instances := map[];
      order := [];
    }

    /** getAndUpdateVideoBrandingInstances: the first sighting of a key creates its entry with the
        default flag and `[cb]`; a later one appends `cb` (duplicates kept) and leaves the flag alone.
        Every other entry is untouched. */
    method GetAndUpdateVideoBrandingInstances(key: string, cb: Callback, defaultToCustom: Option<bool>)
      returns (inst: Instance)
      requires Valid()
      modifies this
      ensures Valid() && State() == Register(old(State()), key, cb, defaultToCustom)
      ensures key in instances && inst == instances[key]
      ensures old(key !in instances) ==>
                inst == Instance(DefaultFlag(defaultToCustom), [cb]) && order == old(order) + [key]
      ensures old(key in instances) ==>
                && inst.showCustomBranding == old(instances[key].showCustomBranding)
                && inst.updateBrandingCallbacks == old(instances[key].updateBrandingCallbacks) + [cb]
                && order == old(order)
      ensures forall k | k != key ::
                (k in instances <==> k in old(instances)) && (k in instances ==> instances[k] == old(instances[k]))
    {
      RegisterWellFormed(State(), key, cb, defaultToCustom);
      if key !in instances {
        instances := instances[key := Instance(DefaultFlag(defaultToCustom), [cb])];
        order := order + [key];
      } else {
        var existing := instances[key];
        instances := instances[key := existing.(updateBrandingCallbacks := existing.updateBrandingCallbacks + [cb])];
      }
      inst := instances[key];
    }

    /** The swap `updateBrandingCallbacks = []`, handing back the list it replaced. */
    method Drain(key: string) returns (captured: seq<Callback>)
      requires Valid()
      modifies this
      ensures Valid() && State() == Drained(old(State()), key)
      ensures captured == if key in old(instances) then old(instances[key].updateBrandingCallbacks) else []
    {
      if key in instances {
        captured := instances[key].updateBrandingCallbacks;
        instances := instances[key := instances[key].(updateBrandingCallbacks := [])];
      } else {
        captured := [];
      }
    }

    /** One run of callback `c`: getAndUpdateVideoBrandingInstances for each key it registers under. */
    method RegisterRun(c: Callback, keys: seq<string>, defaultToCustom: Option<bool>)
      requires Valid()
      modifies this
      ensures Valid() && State() == RegisterEach(old(State()), keys, c, defaultToCustom)
    {
      var j := 0;
      while j < |keys|
        invariant 0 <= j <= |keys|
        invariant Valid() && State() == RegisterEach(old(State()), keys[..j], c, defaultToCustom)
      {
        var _ := GetAndUpdateVideoBrandingInstances(keys[j], c, defaultToCustom);
        TakeStep(keys, j);
        j := j + 1;
      }
      assert keys[..j] == keys;
    }

    /** updateBrandingForVideo: the list is emptied before any callback runs; every captured callback
        runs exactly once, in order, and the list afterwards holds only the registrations made under this
        key while they ran. `outcome(c)` lists the keys a run of callback `c` registers under. */
    method UpdateBrandingForVideo(key: string, outcome: Callback -> seq<string>, defaultToCustom: Option<bool>)
      returns (invoked: seq<Callback>)
      requires Valid()
      modifies this
      ensures Valid()
      ensures invoked == if key in old(instances) then old(instances[key].updateBrandingCallbacks) else []
      ensures State() == Replay(Drained(old(State()), key), invoked, outcome, defaultToCustom)
      ensures key in old(instances) ==>
                key in instances
                && instances[key] == Instance(old(instances[key].showCustomBranding), RegisteredUnder(invoked, outcome, key))
    {
      ghost var drained := Drained(State(), key);
      invoked := Drain(key);
      var i := 0;
      while i < |invoked|
        invariant 0 <= i <= |invoked|
        invariant Valid()
        invariant State() == Replay(drained, invoked[..i], outcome, defaultToCustom)
      {
        RegisterRun(invoked[i], outcome(invoked[i]), defaultToCustom);
        TakeStep(invoked, i);
        i := i + 1;
      }
      assert invoked[..i] == invoked;
      if key in old(instances) {
        ReplayEntry(drained, invoked, outcome, defaultToCustom, key);
        assert RegisteredUnder(invoked, outcome, key) == [] + RegisteredUnder(invoked, outcome, key);
      }
    }

    /** setShowCustom: on a known key, sets the flag, re-runs the key's callbacks and returns `value`;
        on an unknown key, returns true and changes nothing. */
    method SetShowCustom(key: string, value: bool, outcome: Callback -> seq<string>, defaultToCustom: Option<bool>)
      returns (r: bool, invoked: seq<Callback>)
      requires Valid()
      modifies this
      ensures Valid()
      ensures key !in old(instances) ==> r && invoked == [] && State() == old(State())
      ensures key in old(instances) ==>
                && r == value
                && invoked == old(instances[key].updateBrandingCallbacks)
                && key in instances
                && instances[key] == Instance(value, RegisteredUnder(invoked, outcome, key))
                && State() == Replay(Drained(WithFlag(old(State()), key, value), key), invoked, outcome, defaultToCustom)
    {
      if key in instances {
        instances := instances[key := instances[key].(showCustomBranding := value)];
        invoked := UpdateBrandingForVideo(key, outcome, defaultToCustom);
        r := value;
      } else {
        r := true;
        invoked := [];
      }
    }

    /** toggleShowCustom: sets the flag of a known key to its negation (returning the new value); on an
        unknown key returns true and changes nothing. */
    method ToggleShowCustom(key: string, outcome: Callback -> seq<string>, defaultToCustom: Option<bool>)
      returns (r: bool, invoked: seq<Callback>)
      requires Valid()
      modifies this
      ensures Valid()
      ensures key !in old(instances) ==> r && invoked == [] && State() == old(State())
      ensures key in old(instances) ==>
                && r == !old(instances[key].showCustomBranding)
                && invoked == old(instances[key].updateBrandingCallbacks)
                && key in instances
                && instances[key] == Instance(r, RegisteredUnder(invoked, outcome, key))
                && State() == Replay(Drained(WithFlag(old(State()), key, r), key), invoked, outcome, defaultToCustom)
    {
      if key in instances {
        r, invoked := SetShowCustom(key, !instances[key].showCustomBranding, outcome, defaultToCustom);
      } else {
        r := true;
        invoked := [];
      }
    }

    /** clearVideoBrandingInstances: deletes every entry whose key no visible show-original button
        names (`visible` holds each button's `videoid` attribute, missing ones as None); the entries
        that stay are unchanged. */
    method ClearVideoBrandingInstances(visible: seq<Option<string>>)
      requires Valid()
      modifies this
      ensures Valid()
      ensures forall k :: k in instances <==> k in old(instances) && Some(k) in visible
      ensures forall k | k in instances :: instances[k] == old(instances[k])
      ensures order == KeepVisible(old(order), visible)
    {
      var keys := order;
      var i := 0;
      while i < |keys|
        invariant 0 <= i <= |keys|
        invariant instances == RemoveHidden(old(instances), keys[..i], visible)
      {
        var key := keys[i];
        if Some(key) !in visible {
          instances := instances - {key};
        }
        RemoveHiddenSnoc(old(instances), keys, i, visible);
        i := i + 1;
      }
      assert keys[..i] == keys;
      RemoveHiddenAll(old(instances), keys, visible);
      // deleting properties leaves the insertion order of the others as it was
      order := KeepVisible(keys, visible);
      KeepVisibleMembers(keys, visible);
    }

    /** The option-change listener: the state it leaves and the callbacks it starts are Listener's.
        `syncOutcome(c)` lists the keys callback `c` registers under before it first suspends; flags of
        the entries already present end up as the change says. */
    method OnConfigChanged(changes: ConfigChanges, syncOutcome: Callback -> seq<string>, defaultToCustom: Option<bool>)
      returns (dispatched: seq<Callback>)
      requires Valid()
      modifies this
      ensures Valid()
      ensures State() == Listener(old(State()), changes, syncOutcome, defaultToCustom).state
      ensures dispatched == Listener(old(State()), changes, syncOutcome, defaultToCustom).dispatched
      ensures forall k | k in old(instances) ::
                && k in instances
                && instances[k].showCustomBranding
                   == if DefaultToCustomChanged(changes) then changes.defaultToCustom.value.newValue
                      else old(instances[k].showCustomBranding)
    {
      ListenerFlags(State(), changes, syncOutcome, defaultToCustom);
      var first := [];
      if DefaultToCustomChanged(changes) {
        first := SetShowCustomForAll(changes.defaultToCustom.value.newValue, syncOutcome, defaultToCustom);
      }
      var second := [];
      if ReloadRequested(changes) {
        second := RerunAll(syncOutcome, defaultToCustom);
      }
      dispatched := first + second;
    }

    /** The listener's first loop: `setShowCustom(videoID, newValue)` for every key present when it
        starts, none awaited. */
    method SetShowCustomForAll(value: bool, syncOutcome: Callback -> seq<string>, defaultToCustom: Option<bool>)
      returns (dispatched: seq<Callback>)
      requires Valid()
      modifies this
      ensures Valid()
      ensures State() == SweepEntries(old(State()), old(order), Some(value), syncOutcome, defaultToCustom).state
      ensures dispatched == SweepEntries(old(State()), old(order), Some(value), syncOutcome, defaultToCustom).dispatched
    {
      var keys := order;
      dispatched := [];
      var i := 0;
      while i < |keys|
        invariant 0 <= i <= |keys|
        invariant Valid()
        invariant Sweep(State(), dispatched) == SweepEntries(old(State()), keys[..i], Some(value), syncOutcome, defaultToCustom)
      {
        var _, invoked := SetShowCustom(keys[i], value, syncOutcome, defaultToCustom);
        dispatched := dispatched + invoked;
        TakeStep(keys, i);
        i := i + 1;
      }
      assert keys[..i] == keys;
    }

    /** The listener's second loop: for every key present when it starts, the list swapped for an empty
        one and the callbacks it held started, none awaited; this is updateBrandingForVideo without the
        presence test, which a key visited by the loop always passes. */
    method RerunAll(syncOutcome: Callback -> seq<string>, defaultToCustom: Option<bool>) returns (dispatched: seq<Callback>)
      requires Valid()
      modifies this
      ensures Valid()
      ensures State() == SweepEntries(old(State()), old(order), None, syncOutcome, defaultToCustom).state
      ensures dispatched == SweepEntries(old(State()), old(order), None, syncOutcome, defaultToCustom).dispatched
    {
      var keys := order;
      dispatched := [];
      var i := 0;
      while i < |keys|
        invariant 0 <= i <= |keys|
        invariant Valid()
        invariant Sweep(State(), dispatched) == SweepEntries(old(State()), keys[..i], None, syncOutcome, defaultToCustom)
      {
        // they will be added back to the list
        var invoked := UpdateBrandingForVideo(keys[i], syncOutcome, defaultToCustom);
        dispatched := dispatched + invoked;
        TakeStep(keys, i);
        i := i + 1;
      }
      assert keys[..i] == keys;
    }
  }
}
