/** Runs of the broker over many process starts: keys are generated, rotated and pruned at each start
    (prepareSigningKeys), and tokens are signed and verified in between. */
module KeyLifecycle {
  import opened Entities
  import opened Scopes
  import opened SigningKeys

  // exp is in Unix seconds
  datatype Token = Token(kid: string, issuedAt: int, exp: int)

  datatype State = State(now: int, stored: Option<KeySet>, loaded: Option<Loaded>, tokens: set<Token>, ids: set<string>)

  datatype Event =
    | Start(at: int, rotationDays: int, retentionDays: int, force: bool, newID: string)
    | Issue(at: int, ttl: int)

  // newSigningKeyID: a sanitized prefix, a timestamp and fresh random characters
  predicate Enabled(s: State, e: Event) {
    && e.at >= s.now
    && match e {
         case Start(_, _, _, _, newID) => Base64Url(newID) && newID !in s.ids
         case Issue(_, ttl) => s.loaded.Some? && ttl > 0
       }
  }

  function Generated(newID: string, now: int): KeySet {
    KeySet(newID, [NewKey(newID, now)])
  }

  function Step(s: State, e: Event): State
    requires Enabled(s, e)
  {
    match e
    case Start(at, rotationDays, retentionDays, force, newID) =>
      var found := if s.stored.Some? then s.stored.value else Generated(newID, at);
      var prepared := RotatedAndPruned(found, newID, rotationDays, retentionDays, force && s.stored.Some?, at);
      if prepared.None? then s.(now := at, loaded := None, ids := s.ids + {newID})
      else
        var ks := prepared.value;
        State(at, Some(ks), Build(Configs(ks.keys, ks.active), ks.active), s.tokens, s.ids + {newID})
    case Issue(at, ttl) =>
      s.(now := at, tokens := s.tokens + {Token(s.loaded.value.active, at, Unix(at + ttl))})
  }

  predicate IsRun(s: State, events: seq<Event>)
    decreases |events|
  {
    events == [] || (Enabled(s, events[0]) && IsRun(Step(s, events[0]), events[1..]))
  }

  function After(s: State, events: seq<Event>): State
    requires IsRun(s, events)
    decreases |events|
  {
    if events == [] then s else After(Step(s, events[0]), events[1..])
  }

  // Nothing stored yet, some time after the epoch
  predicate Init(s: State) {
    s.now >= SECOND && s.stored.None? && s.loaded.None? && s.tokens == {} && s.ids == {}
  }

  // jwtExpired
  predicate Expired(token: Token, now: int) {
    now > token.exp * SECOND + SKEW
  }

  // ---- Key sets stay well formed ----

  function KeyIds(keys: seq<ManagedKey>): set<string> {
    set k | k in keys :: k.id
  }

  predicate Distinct(keys: seq<ManagedKey>) {
    forall i, j :: 0 <= i < j < |keys| ==> keys[i].id != keys[j].id
  }

  // Exactly one key is in use, and it is the active one
  predicate Sound(ks: KeySet) {
    && (forall k :: k in ks.keys ==> Base64Url(k.id) && k.pem.Rsa? && (k.retiredAt == 0 <==> k.id == ks.active))
    && Distinct(ks.keys)
    && ks.active in KeyIds(ks.keys)
  }

  lemma TrimOfId(id: string)
    requires Base64Url(id)
    ensures TrimSpace(id) == id
  {
    assert id[0] in id && id[|id| - 1] in id;
  }

  lemma SoundIsWellFormed(ks: KeySet)
    requires Sound(ks)
    ensures WellFormed(ks) && ks.keys != []
  {
    hide TrimSpace, Base64Url;
    forall k | k in ks.keys
      ensures Usable(k, ks.active) && TrimSpace(k.id) == k.id
    {
      TrimOfId(k.id);
      BaseIsNotEmpty(k.id);
    }
  }

  lemma BaseIsNotEmpty(id: string)
    requires Base64Url(id)
    ensures id != ""
  {
  }

  lemma {:induction false} WithoutStaleKeeps(active: string, keys: seq<ManagedKey>, cutoff: int)
    ensures forall k :: k in WithoutStale(active, keys, cutoff) <==> k in keys && !Stale(active, k, cutoff)
    ensures Distinct(keys) ==> Distinct(WithoutStale(active, keys, cutoff))
  {
    if keys != [] {
      var init, last := keys[..|keys| - 1], keys[|keys| - 1];
      WithoutStaleKeeps(active, init, cutoff);
      assert keys == init + [last];
      if Distinct(keys) {
        assert Distinct(init);
        assert forall k :: k in WithoutStale(active, init, cutoff) ==> k.id != last.id;
      }
    }
  }

  lemma PrunedIsSound(ks: KeySet, retentionDays: int, now: int)
    requires Sound(ks)
    ensures Sound(Pruned(ks, retentionDays, now))
  {
    hide Base64Url;
    if retentionDays >= 0 {
      WithoutStaleKeeps(ks.active, ks.keys, Unix(now - retentionDays * DAY * SECOND));
      var k :| k in ks.keys && k.id == ks.active;
      assert k in Pruned(ks, retentionDays, now).keys;
    }
  }

  lemma RetiringKeepsIds(keys: seq<ManagedKey>, i: nat, at: int)
    requires i < |keys|
    ensures KeyIds(keys[i := keys[i].(retiredAt := at)]) == KeyIds(keys)
    ensures Distinct(keys) ==> Distinct(keys[i := keys[i].(retiredAt := at)])
  {
    var retired := keys[i := keys[i].(retiredAt := at)];
    forall id | id in KeyIds(keys)
      ensures id in KeyIds(retired)
    {
      var j :| 0 <= j < |keys| && keys[j].id == id;
      assert retired[j] in retired;
    }
    forall id | id in KeyIds(retired)
      ensures id in KeyIds(keys)
    {
      var j :| 0 <= j < |keys| && retired[j].id == id;
      assert keys[j] in keys;
    }
  }

  lemma RetiringLeavesNoneInUse(ks: KeySet, i: nat, at: int)
    requires Sound(ks) && i < |ks.keys| && ks.keys[i].id == ks.active && at != 0
    ensures forall k :: k in ks.keys[i := ks.keys[i].(retiredAt := at)] ==>
              Base64Url(k.id) && k.pem.Rsa? && k.retiredAt != 0
  {
    hide Base64Url;
    var retired := ks.keys[i := ks.keys[i].(retiredAt := at)];
    forall k | k in retired
      ensures Base64Url(k.id) && k.pem.Rsa? && k.retiredAt != 0
    {
      var j :| 0 <= j < |retired| && retired[j] == k;
      assert ks.keys[j] in ks.keys;
    }
  }

  lemma RotatedIsSound(ks: KeySet, newID: string, now: int)
    requires Sound(ks) && Base64Url(newID) && newID !in KeyIds(ks.keys) && now >= SECOND
    ensures Sound(Rotated(ks, newID, now))
    ensures 0 <= IndexOf(ks.keys, ks.active) < |ks.keys|
    ensures KeyIds(Rotated(ks, newID, now).keys) == KeyIds(ks.keys) + {newID}
  {
    hide Base64Url;
    IndexOfFinds(ks.keys, ks.active);
    var i := IndexOf(ks.keys, ks.active);
    RetiringKeepsIds(ks.keys, i, Unix(now));
    RetiringLeavesNoneInUse(ks, i, Unix(now));
    var retired := ks.keys[i := ks.keys[i].(retiredAt := Unix(now))];
    assert Rotated(ks, newID, now) == KeySet(newID, retired + [NewKey(newID, now)]);
    AppendedIsSound(retired, NewKey(newID, now));
  }

  lemma AppendedIsSound(keys: seq<ManagedKey>, key: ManagedKey)
    requires Distinct(keys) && key.id !in KeyIds(keys)
    requires forall k :: k in keys ==> Base64Url(k.id) && k.pem.Rsa? && k.retiredAt != 0
    requires Base64Url(key.id) && key.pem.Rsa? && key.retiredAt == 0
    ensures Sound(KeySet(key.id, keys + [key]))
    ensures KeyIds(keys + [key]) == KeyIds(keys) + {key.id}
  {
    hide Base64Url;
    assert key in keys + [key];
    assert forall k :: k in keys ==> k in keys + [key];
  }

  lemma {:induction false} ConfigsAre(keys: seq<ManagedKey>, active: string)
    ensures |Configs(keys, active)| == |keys|
    ensures forall i :: 0 <= i < |keys| ==>
              Configs(keys, active)[i] == KeyConfig(keys[i].id, keys[i].pem, keys[i].id == active)
  {
    if keys != [] {
      ConfigsAre(keys[..|keys| - 1], active);
    }
  }

  lemma LastKey(keys: seq<ManagedKey>)
    requires keys != []
    ensures KeyIds(keys) == KeyIds(keys[..|keys| - 1]) + {keys[|keys| - 1].id}
    ensures Distinct(keys) ==> Distinct(keys[..|keys| - 1]) && keys[|keys| - 1].id !in KeyIds(keys[..|keys| - 1])
  {
    assert keys == keys[..|keys| - 1] + [keys[|keys| - 1]];
  }

  // One active flag when the active id is there, none otherwise; only that key is picked
  lemma {:induction false} ActiveIsChosen(keys: seq<ManagedKey>, active: string, count: nat)
    requires Distinct(keys) && forall k :: k in keys ==> TrimSpace(k.id) == k.id
    ensures ActiveFlags(Configs(keys, active)) == if active in KeyIds(keys) then 1 else 0
    ensures Chosen(Configs(keys, active), 1, count, active) == if active in KeyIds(keys) then [active] else []
  {
    hide TrimSpace, Distinct, KeyIds;
    if keys == [] {
      assert KeyIds([]) == {} by { NoKeys(); }
    } else {
      var init, last := keys[..|keys| - 1], keys[|keys| - 1];
      LastKey(keys);
      ActiveIsChosen(init, active, count);
      assert Configs(keys, active)[..|Configs(keys, active)| - 1] == Configs(init, active);
    }
  }

  lemma NoKeys()
    ensures KeyIds([]) == {}
  {
  }

  lemma ConfigsParse(ks: KeySet)
    requires Sound(ks)
    ensures Parses(Configs(ks.keys, ks.active)) && Ids(Configs(ks.keys, ks.active)) == KeyIds(ks.keys)
    ensures forall k :: k in ks.keys ==> TrimSpace(k.id) == k.id
  {
    hide TrimSpace, Base64Url, Configs;
    forall k | k in ks.keys
      ensures TrimSpace(k.id) == k.id != ""
    {
      TrimOfId(k.id);
      BaseIsNotEmpty(k.id);
    }
    ConfigsAre(ks.keys, ks.active);
    var configs := Configs(ks.keys, ks.active);
    assert forall i :: 0 <= i < |configs| ==> ks.keys[i] in ks.keys && TrimSpace(configs[i].id) == ks.keys[i].id;
    assert Ids(configs) == KeyIds(ks.keys);
  }

  // buildSigningKeySet selects the active key and verifies under every key
  lemma SoundSetIsLoaded(ks: KeySet)
    requires Sound(ks)
    ensures Build(Configs(ks.keys, ks.active), ks.active) == Some(Loaded(ks.active, KeyIds(ks.keys)))
  {
    hide TrimSpace, Base64Url, Parses, Ids, Configs, KeyIds, Chosen, ActiveFlags, Distinct;
    ConfigsParse(ks);
    ConfigsAre(ks.keys, ks.active);
    SoundIsWellFormed(ks);
    ActiveIsChosen(ks.keys, ks.active, |ks.keys|);
  }

  // ---- Invariant over every run ----

  ghost predicate Inv(s: State) {
    && s.now >= SECOND
    && (s.stored.Some? ==> Sound(s.stored.value) && KeyIds(s.stored.value.keys) <= s.ids)
    && (s.loaded.Some? ==>
          s.stored.Some? && s.loaded.value == Loaded(s.stored.value.active, KeyIds(s.stored.value.keys)))
  }

  predicate Rotates(ks: KeySet, e: Event)
    requires e.Start?
  {
    var i := IndexOf(ks.keys, ks.active);
    0 <= i < |ks.keys| && ShouldRotate(ks.keys[i], e.rotationDays, e.force, e.at)
  }

  // The key set before pruning
  function Renewed(s: State, e: Event): KeySet
    requires e.Start?
  {
    if s.stored.None? then Generated(e.newID, e.at)
    else if Rotates(s.stored.value, e) then Rotated(s.stored.value, e.newID, e.at)
    else s.stored.value
  }

  // A start never fails, and a set generated by this start is not rotated at once
  lemma StartRenews(s: State, e: Event)
    requires Enabled(s, e) && e.Start? && Inv(s)
    ensures Sound(Renewed(s, e)) && KeyIds(Renewed(s, e).keys) <= s.ids + {e.newID}
    ensures var ks := Pruned(Renewed(s, e), e.retentionDays, e.at);
      Step(s, e).stored == Some(ks) && Step(s, e).loaded == Build(Configs(ks.keys, ks.active), ks.active)
  {
    hide Base64Url, TrimSpace, Sound, WellFormed, Build, Configs;
    var ks := Renewed(s, e);
    if s.stored.None? {
      GeneratedIsSound(e.newID, e.at);
      assert !Rotates(ks, e.(force := false));
    } else if Rotates(s.stored.value, e) {
      RotatedIsSound(s.stored.value, e.newID, e.at);
    }
    PrunedIsSound(ks, e.retentionDays, e.at);
    SoundIsWellFormed(ks);
    SoundIsWellFormed(Pruned(ks, e.retentionDays, e.at));
    if s.stored.Some? {
      SoundIsWellFormed(s.stored.value);
    }
  }

  lemma GeneratedIsSound(newID: string, now: int)
    requires Base64Url(newID)
    ensures Sound(Generated(newID, now)) && KeyIds(Generated(newID, now).keys) == {newID}
    ensures IndexOf(Generated(newID, now).keys, newID) == 0
  {
    hide Base64Url;
    assert [] + [NewKey(newID, now)] == [NewKey(newID, now)];
    AppendedIsSound([], NewKey(newID, now));
  }

  lemma StepInv(s: State, e: Event)
    requires Enabled(s, e) && Inv(s)
    ensures Inv(Step(s, e))
    ensures e.Start? ==> Step(s, e).loaded.Some?
  {
    hide Sound, Build, Configs, RotatedAndPruned;
    if e.Start? {
      StartRenews(s, e);
      var ks := Renewed(s, e);
      PrunedIsSound(ks, e.retentionDays, e.at);
      WithoutStaleKeeps(ks.active, ks.keys, Unix(e.at - e.retentionDays * DAY * SECOND));
      SoundSetIsLoaded(Pruned(ks, e.retentionDays, e.at));
    }
  }

  lemma {:induction false} RunInv(s: State, events: seq<Event>)
    requires IsRun(s, events) && Inv(s)
    ensures Inv(After(s, events))
    decreases |events|
  {
    hide Inv, Step;
    if events != [] {
      StepInv(s, events[0]);
      RunInv(Step(s, events[0]), events[1..]);
    }
  }

  /** After any run of starts and issues, the process has loaded exactly the stored keys, their ids differ,
      exactly one is not retired, and that one is the key new tokens are signed under. Every start succeeds. */
  lemma ManagedSetsStayWellFormed(s: State, events: seq<Event>)
    requires Init(s) && IsRun(s, events) && events != []
    ensures var t := After(s, events);
      && t.stored.Some? && t.loaded.Some?
      && WellFormed(t.stored.value)
      && t.loaded.value.verify == KeyIds(t.stored.value.keys)
      && (exists i :: 0 <= i < |t.stored.value.keys|
           && t.stored.value.keys[i].retiredAt == 0
           && t.stored.value.keys[i].id == t.loaded.value.active
           && forall j :: 0 <= j < |t.stored.value.keys| && t.stored.value.keys[j].retiredAt == 0 ==> j == i)
  {
    hide TrimSpace, Base64Url, Step;
    RunInv(s, events);
    StaysLoaded(s, events);
    var t := After(s, events);
    var ks := t.stored.value;
    SoundIsWellFormed(ks);
    var k :| k in ks.keys && k.id == ks.active;
    var i :| 0 <= i < |ks.keys| && ks.keys[i] == k;
    assert forall j :: 0 <= j < |ks.keys| ==> ks.keys[j] in ks.keys;
  }

  lemma {:induction false} StaysLoaded(s: State, events: seq<Event>)
    requires IsRun(s, events) && Inv(s) && (s.loaded.Some? || events != [])
    ensures After(s, events).loaded.Some?
    decreases |events|
  {
    hide Inv;
    if events != [] {
      StepInv(s, events[0]);
      StaysLoaded(Step(s, events[0]), events[1..]);
    }
  }
}
