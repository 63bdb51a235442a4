/** Managed RSA signing keys (signing_keys.go): rotation and pruning at process start, and the selection of the active
    key. A day is 86400 seconds. */
module SigningKeys {
  import opened Entities
  import opened Scopes

  // The PEM text of a key: empty, not an RSA key, or an RSA key
  datatype Pem = Blank | Garbled | Rsa(id: string)

  // createdAt and retiredAt are Unix seconds; retiredAt 0 is a key in use
  datatype ManagedKey = ManagedKey(id: string, pem: Pem, createdAt: int, retiredAt: int)

  datatype KeySet = KeySet(active: string, keys: seq<ManagedKey>)

  const DAY: int := 86400

  function Unix(t: int): int {
    t / SECOND
  }

  function NewKey(id: string, now: int): ManagedKey {
    ManagedKey(id, Rsa(id), Unix(now), 0)
  }

  predicate ShouldRotate(key: ManagedKey, rotationDays: int, force: bool, now: int) {
    force || (rotationDays > 0 && key.createdAt > 0 && !(now < (key.createdAt + rotationDays * DAY) * SECOND))
  }

  // validateManagedSigningKey, and the active key is not retired
  predicate Usable(key: ManagedKey, active: string) {
    TrimSpace(key.id) != "" && key.pem.Rsa? && (key.id == active ==> key.retiredAt == 0)
  }

  // Every key is usable under an id of its own, and one of them is the active key
  predicate WellFormed(ks: KeySet) {
    && TrimSpace(ks.active) != ""
    && (forall i :: 0 <= i < |ks.keys| ==> Usable(ks.keys[i], ks.active))
    && (forall i, j :: 0 <= i < j < |ks.keys| ==> ks.keys[i].id != ks.keys[j].id)
    && (exists i :: 0 <= i < |ks.keys| && ks.keys[i].id == ks.active)
  }

  predicate Stale(active: string, key: ManagedKey, cutoff: int) {
    key.id != active && key.retiredAt != 0 && key.retiredAt < cutoff
  }

  function WithoutStale(active: string, keys: seq<ManagedKey>, cutoff: int): seq<ManagedKey> {
    if keys == [] then []
    else
      var last := keys[|keys| - 1];
      WithoutStale(active, keys[..|keys| - 1], cutoff) + if Stale(active, last, cutoff) then [] else [last]
  }

  function Pruned(ks: KeySet, retentionDays: int, now: int): KeySet {
    if retentionDays < 0 then ks
    else ks.(keys := WithoutStale(ks.active, ks.keys, Unix(now - retentionDays * DAY * SECOND)))
  }

  function IndexOf(keys: seq<ManagedKey>, id: string): int {
    if keys == [] then -1 else if keys[0].id == id then 0
    else var i := IndexOf(keys[1..], id); if i < 0 then -1 else i + 1
  }

  lemma {:induction false} IndexOfFinds(keys: seq<ManagedKey>, id: string)
    ensures -1 <= IndexOf(keys, id) < |keys|
    ensures IndexOf(keys, id) >= 0 ==> keys[IndexOf(keys, id)].id == id
    ensures IndexOf(keys, id) < 0 ==> forall i :: 0 <= i < |keys| ==> keys[i].id != id
  {
    if keys != [] {
      IndexOfFinds(keys[1..], id);
    }
  }

  // The set with its active key retired and a new one in its place
  function Rotated(ks: KeySet, newID: string, now: int): KeySet {
    var i := IndexOf(ks.keys, ks.active);
    if 0 <= i < |ks.keys| then
      KeySet(newID, ks.keys[i := ks.keys[i].(retiredAt := Unix(now))] + [NewKey(newID, now)])
    else ks
  }

  // A set without keys gets its first one
  function Filled(ks: KeySet, newID: string, now: int): KeySet {
    if ks.keys == [] then KeySet(newID, [NewKey(newID, now)]) else ks
  }

  // What rotateAndPrune leaves behind, whether or not it reports an error
  function Attempted(ks: KeySet, newID: string, rotationDays: int, retentionDays: int, force: bool, now: int): KeySet {
    var filled := Filled(ks, newID, now);
    var i := IndexOf(filled.keys, filled.active);
    if !WellFormed(filled) then filled
    else if ks.keys != [] && 0 <= i < |ks.keys| && ShouldRotate(ks.keys[i], rotationDays, force, now) then
      Pruned(Rotated(ks, newID, now), retentionDays, now)
    else Pruned(filled, retentionDays, now)
  }

  // rotateAndPrune on values; None when the set does not validate, before or after
  function RotatedAndPruned(ks: KeySet, newID: string, rotationDays: int, retentionDays: int, force: bool,
                            now: int): Option<KeySet> {
    var left := Attempted(ks, newID, rotationDays, retentionDays, force, now);
    if WellFormed(Filled(ks, newID, now)) && WellFormed(left) then Some(left) else None
  }

  lemma {:induction false} ActiveSurvives(active: string, keys: seq<ManagedKey>, cutoff: int, i: nat) returns (j: nat)
    requires i < |keys| && keys[i].id == active
    ensures j < |WithoutStale(active, keys, cutoff)| && WithoutStale(active, keys, cutoff)[j].id == active
  {
    var n := |keys| - 1;
    if i == n {
      j := |WithoutStale(active, keys[..n], cutoff)|;
    } else {
      j := ActiveSurvives(active, keys[..n], cutoff, i);
    }
  }

  // A new id that is already taken is found out
  lemma TakenIdIsRefused(ks: KeySet, newID: string, retentionDays: int, now: int)
    requires newID == ks.active && 0 <= IndexOf(ks.keys, newID) < |ks.keys|
    ensures !WellFormed(Pruned(Rotated(ks, newID, now), retentionDays, now))
  {
    hide TrimSpace, Usable;
    IndexOfFinds(ks.keys, newID);
    var i, key := IndexOf(ks.keys, newID), NewKey(newID, now);
    var retired := ks.keys[i := ks.keys[i].(retiredAt := Unix(now))];
    var all := retired + [key];
    assert Rotated(ks, newID, now) == KeySet(newID, all);
    if retentionDays < 0 {
      assert all[i].id == all[|retired|].id;
    } else {
      var cutoff := Unix(now - retentionDays * DAY * SECOND);
      assert all[..|retired|] == retired && retired[i].id == newID;
      var j := ActiveSurvives(newID, retired, cutoff, i);
      var front := WithoutStale(newID, retired, cutoff);
      assert WithoutStale(newID, all, cutoff) == front + [key];
      assert (front + [key])[j].id == (front + [key])[|front|].id;
    }
  }

  /** An empty set gets one key, which is active, new and not rotated at once, however eager the rotation. */
  lemma EmptySetIsFilled(active: string, newID: string, rotationDays: int, retentionDays: int, force: bool, now: int)
    requires TrimSpace(newID) != ""
    ensures RotatedAndPruned(KeySet(active, []), newID, rotationDays, retentionDays, force, now) ==
            Some(KeySet(newID, [ManagedKey(newID, Rsa(newID), Unix(now), 0)]))
  {
    hide TrimSpace;
    var key := ManagedKey(newID, Rsa(newID), Unix(now), 0);
    var filled := KeySet(newID, [key]);
    assert filled.keys[0].id == newID;
    assert WellFormed(filled);
    var cutoff := Unix(now - retentionDays * DAY * SECOND);
    assert [key][..0] == [] && WithoutStale(newID, [], cutoff) == [];
    assert WithoutStale(newID, [key], cutoff) == [] + [key] == [key];
    assert Pruned(filled, retentionDays, now) == filled;
    assert Filled(KeySet(active, []), newID, now) == filled;
    assert Attempted(KeySet(active, []), newID, rotationDays, retentionDays, force, now) == filled;
  }

  class ManagedSigningKeySet {
    var activeKeyID: string
    var keys: seq<ManagedKey>

    ghost function Value(): KeySet
      reads this
    {
      KeySet(activeKeyID, keys)
    }

    constructor (ks: KeySet)
      ensures Value() == ks
    {
      activeKeyID, keys := ks.active, ks.keys;
    }

    method Validate() returns (ok: bool)
      ensures ok <==> WellFormed(Value())
    {
      hide TrimSpace;
      if TrimSpace(activeKeyID) == "" {
        return false;
      }
      var seen: set<string> := {};
      var activeSeen := false;
      for i := 0 to |keys|
        invariant seen == set j | 0 <= j < i :: keys[j].id
        invariant forall j :: 0 <= j < i ==> Usable(keys[j], activeKeyID)
        invariant forall j, k :: 0 <= j < k < i ==> keys[j].id != keys[k].id
        invariant activeSeen <==> activeKeyID in seen
      {
        var key := keys[i];
        if key.id in seen || !Usable(key, activeKeyID) {
          return false;
        }
        seen := seen + {key.id};
        if key.id == activeKeyID {
          activeSeen := true;
        }
      }
      ok := activeSeen;
    }

    method ActiveIndex() returns (i: int)
      ensures i == IndexOf(keys, activeKeyID)
    {
      for j := 0 to |keys|
        invariant IndexOf(keys, activeKeyID) == (var k := IndexOf(keys[j..], activeKeyID); if k < 0 then -1 else k + j)
      {
        assert keys[j..][1..] == keys[j + 1..];
        IndexOfFinds(keys[j + 1..], activeKeyID);
        if keys[j].id == activeKeyID {
          return j;
        }
      }
      i := -1;
    }

    method Prune(retentionDays: int, now: int) returns (changed: bool)
      modifies this
      ensures Value() == Pruned(old(Value()), retentionDays, now)
      ensures changed <==> Value() != old(Value())
    {
      if retentionDays < 0 {
        return false;
      }
      var cutoff := Unix(now - retentionDays * DAY * SECOND);
      var kept: seq<ManagedKey> := [];
      changed := false;
      for i := 0 to |keys|
        invariant keys == old(keys) && activeKeyID == old(activeKeyID)
        invariant kept == WithoutStale(activeKeyID, keys[..i], cutoff)
        invariant if changed then |kept| < i else kept == keys[..i]
      {
        assert keys[..i + 1][..i] == keys[..i];
        if Stale(activeKeyID, keys[i], cutoff) {
          changed := true;
        } else {
          kept := kept + [keys[i]];
        }
      }
      assert keys[..|keys|] == keys;
      keys := kept;
    }

    method SigningKeyConfigs() returns (out: seq<KeyConfig>)
      ensures out == Configs(keys, activeKeyID)
    {
      out := [];
      for i := 0 to |keys|
        invariant out == Configs(keys[..i], activeKeyID)
      {
        assert keys[..i + 1][..i] == keys[..i];
        out := out + [KeyConfig(keys[i].id, keys[i].pem, keys[i].id == activeKeyID)];
      }
      assert keys[..|keys|] == keys;
    }

    /** rotateAndPrune; newID is the id a new key would get */
    method RotateAndPrune(newID: string, rotationDays: int, retentionDays: int, force: bool, now: int)
      returns (ok: bool, changed: bool)
      modifies this
      ensures Value() == Attempted(old(Value()), newID, rotationDays, retentionDays, force, now)
      ensures ok == RotatedAndPruned(old(Value()), newID, rotationDays, retentionDays, force, now).Some?
      ensures ok ==> (changed <==> Value() != old(Value()))
      ensures !ok && !WellFormed(Filled(old(Value()), newID, now)) ==> !changed
    {
      changed := false;
      var createdInitial := false;
      if keys == [] {
        activeKeyID, keys := newID, [NewKey(newID, now)];
        changed, createdInitial := true, true;
      }
      ok := Validate();
      if !ok {
        return false, false;
      }
      var activeIndex := ActiveIndex();
      IndexOfFinds(keys, activeKeyID);
      if !createdInitial && ShouldRotate(keys[activeIndex], rotationDays, force, now) {
        keys := keys[activeIndex := keys[activeIndex].(retiredAt := Unix(now))];
        activeKeyID, keys := newID, keys + [NewKey(newID, now)];
        changed := true;
      }
      if old(keys) != [] && changed && newID == old(activeKeyID) {
        TakenIdIsRefused(old(Value()), newID, retentionDays, now);
      }
      var pruned := Prune(retentionDays, now);
      changed := changed || pruned;
      ok := Validate();
    }
  }

  // ---- The key set a process loads ----

  datatype KeyConfig = KeyConfig(id: string, pem: Pem, active: bool)

  // The id new tokens are signed under ("" without keys) and the ids tokens are verified under
  datatype Loaded = Loaded(active: string, verify: set<string>)

  function Configs(keys: seq<ManagedKey>, active: string): seq<KeyConfig> {
    if keys == [] then []
    else
      var last := keys[|keys| - 1];
      Configs(keys[..|keys| - 1], active) + [KeyConfig(last.id, last.pem, last.id == active)]
  }

  function ActiveFlags(configs: seq<KeyConfig>): nat {
    if configs == [] then 0
    else ActiveFlags(configs[..|configs| - 1]) + if configs[|configs| - 1].active then 1 else 0
  }

  predicate Selected(config: KeyConfig, flags: nat, count: nat, keyID: string) {
    if flags > 0 then config.active else count == 1 || (keyID != "" && TrimSpace(config.id) == keyID)
  }

  // The ids signingKeyConfigIsActive picks, in order
  function Chosen(configs: seq<KeyConfig>, flags: nat, count: nat, keyID: string): seq<string> {
    if configs == [] then []
    else
      var last := configs[|configs| - 1];
      Chosen(configs[..|configs| - 1], flags, count, keyID)
      + if Selected(last, flags, count, keyID) then [TrimSpace(last.id)] else []
  }

  function Ids(configs: seq<KeyConfig>): set<string> {
    set i | 0 <= i < |configs| :: TrimSpace(configs[i].id)
  }

  predicate Parses(configs: seq<KeyConfig>) {
    && (forall i :: 0 <= i < |configs| ==> TrimSpace(configs[i].id) != "" && configs[i].pem.Rsa?)
    && (forall i, j :: 0 <= i < j < |configs| ==> TrimSpace(configs[i].id) != TrimSpace(configs[j].id))
  }

  // What buildSigningKeySet should give: nothing unless every key parses and exactly one is picked
  function Build(configs: seq<KeyConfig>, keyID: string): Option<Loaded> {
    if configs == [] then Some(Loaded("", {}))
    else
      var chosen := Chosen(configs, ActiveFlags(configs), |configs|, keyID);
      if Parses(configs) && |chosen| == 1 then Some(Loaded(chosen[0], Ids(configs))) else None
  }

  method CountActive(configs: seq<KeyConfig>) returns (count: nat)
    ensures count == ActiveFlags(configs)
  {
    count := 0;
    for i := 0 to |configs|
      invariant count == ActiveFlags(configs[..i])
    {
      assert configs[..i + 1][..i] == configs[..i];
      if configs[i].active {
        count := count + 1;
      }
    }
    assert configs[..|configs|] == configs;
  }

  lemma ParsesOneMore(configs: seq<KeyConfig>, i: nat)
    requires i < |configs|
    ensures Ids(configs[..i + 1]) == Ids(configs[..i]) + {TrimSpace(configs[i].id)}
    ensures Parses(configs[..i + 1]) <==>
              && Parses(configs[..i]) && TrimSpace(configs[i].id) != "" && configs[i].pem.Rsa?
              && TrimSpace(configs[i].id) !in Ids(configs[..i])
    ensures Parses(configs) ==> Parses(configs[..i + 1])
  {
    hide TrimSpace;
    var some, more := configs[..i], configs[..i + 1];
    assert forall j :: 0 <= j < i ==> some[j] == more[j];
    assert forall id :: id in Ids(more) ==> id in Ids(some) + {TrimSpace(configs[i].id)};
    assert more[i] == configs[i];
  }

  method BuildSigningKeySet(configs: seq<KeyConfig>, keyID: string) returns (r: Option<Loaded>)
    ensures r == Build(configs, keyID)
  {
    hide TrimSpace, Parses, Ids, Selected;
    if |configs| == 0 {
      return Some(Loaded("", {}));
    }
    var verifyKeys: set<string> := {};
    var active, activeCount := "", 0;
    var flags := CountActive(configs);
    assert Parses(configs[..0]) && Ids(configs[..0]) == {} by { NothingParses(); }
    for i := 0 to |configs|
      invariant Parses(configs[..i]) && verifyKeys == Ids(configs[..i])
      invariant activeCount == |Chosen(configs[..i], flags, |configs|, keyID)|
      invariant activeCount > 0 ==> active == Chosen(configs[..i], flags, |configs|, keyID)[activeCount - 1]
    {
      ParsesOneMore(configs, i);
      var config, id := configs[i], TrimSpace(configs[i].id);
      if id == "" || !config.pem.Rsa? || id in verifyKeys {
        return None;
      }
      assert configs[..i + 1][..i] == configs[..i];
      verifyKeys := verifyKeys + {id};
      if Selected(config, flags, |configs|, keyID) {
        activeCount, active := activeCount + 1, id;
      }
    }
    assert configs[..|configs|] == configs;
    r := if activeCount == 1 then Some(Loaded(active, verifyKeys)) else None;
  }

  lemma NothingParses()
    ensures Parses([]) && Ids([]) == {}
  {
  }

  // ---- Which key is picked ----

  lemma {:induction false} ChosenByID(configs: seq<KeyConfig>, count: nat, keyID: string)
    requires Parses(configs) && count > 1
    ensures Chosen(configs, 0, count, keyID) == if keyID != "" && keyID in Ids(configs) then [keyID] else []
    decreases |configs|
  {
    hide TrimSpace, Parses, Ids;
    if configs == [] {
      assert Ids([]) == {} by { NothingParses(); }
    } else {
      var n := |configs| - 1;
      ParsesOneMore(configs, n);
      assert configs[..n + 1] == configs;
      ChosenByID(configs[..n], count, keyID);
    }
  }

  // This key is the only one with the active flag
  ghost predicate OnlyActive(configs: seq<KeyConfig>, i: nat) {
    i < |configs| && configs[i].active && forall j :: 0 <= j < |configs| && configs[j].active ==> j == i
  }

  lemma {:induction false} NoneChosen(configs: seq<KeyConfig>, flags: nat, count: nat, keyID: string)
    requires flags > 0 && forall j :: 0 <= j < |configs| ==> !configs[j].active
    ensures Chosen(configs, flags, count, keyID) == [] && ActiveFlags(configs) == 0
  {
    if configs != [] {
      NoneChosen(configs[..|configs| - 1], flags, count, keyID);
    }
  }

  lemma {:induction false} ChosenByFlag(configs: seq<KeyConfig>, flags: nat, count: nat, keyID: string, i: nat)
    requires flags > 0 && OnlyActive(configs, i)
    ensures Chosen(configs, flags, count, keyID) == [TrimSpace(configs[i].id)] && ActiveFlags(configs) == 1
    decreases |configs|
  {
    hide TrimSpace;
    var n := |configs| - 1;
    if i == n {
      NoneChosen(configs[..n], flags, count, keyID);
    } else {
      assert OnlyActive(configs[..n], i);
      ChosenByFlag(configs[..n], flags, count, keyID, i);
    }
  }

  lemma {:induction false} OneFlagIsOnly(configs: seq<KeyConfig>) returns (i: nat)
    requires ActiveFlags(configs) == 1
    ensures OnlyActive(configs, i)
  {
    var n := |configs| - 1;
    if configs[n].active {
      i := n;
      NoFlags(configs[..n]);
      assert forall j :: 0 <= j < n ==> !configs[..n][j].active;
    } else {
      i := OneFlagIsOnly(configs[..n]);
      assert forall j :: 0 <= j < n ==> configs[..n][j] == configs[j];
    }
  }

  lemma {:induction false} NoFlags(configs: seq<KeyConfig>)
    ensures ActiveFlags(configs) == 0 <==> forall j :: 0 <= j < |configs| ==> !configs[j].active
  {
    if configs != [] {
      var n := |configs| - 1;
      NoFlags(configs[..n]);
      assert forall j :: 0 <= j < n ==> configs[..n][j] == configs[j];
    }
  }

  lemma {:induction false} ChosenCounts(configs: seq<KeyConfig>, flags: nat, count: nat, keyID: string)
    requires flags > 0
    ensures |Chosen(configs, flags, count, keyID)| == ActiveFlags(configs)
  {
    if configs != [] {
      ChosenCounts(configs[..|configs| - 1], flags, count, keyID);
    }
  }

  /** The key to sign with: the only flagged one; without flags the only one there is, or the one with the configured
      id. In every other case, and when some key does not parse, nothing is loaded. All keys verify. */
  lemma BuildExactly(configs: seq<KeyConfig>, keyID: string)
    requires configs != []
    ensures Build(configs, keyID).Some? ==> Parses(configs) && Build(configs, keyID).value.verify == Ids(configs)
    ensures (exists i :: 0 <= i < |configs| && configs[i].active) && Parses(configs) ==>
              && (Build(configs, keyID).Some? <==> exists i: nat :: OnlyActive(configs, i))
              && forall i: nat :: OnlyActive(configs, i) ==>
                   Build(configs, keyID).value.active == TrimSpace(configs[i].id)
    ensures !(exists i :: 0 <= i < |configs| && configs[i].active) && Parses(configs) ==>
              Build(configs, keyID) ==
              if |configs| == 1 then Some(Loaded(TrimSpace(configs[0].id), Ids(configs)))
              else if keyID != "" && keyID in Ids(configs) then Some(Loaded(keyID, Ids(configs)))
              else None
  {
    hide TrimSpace, Parses, Ids;
    NoFlags(configs);
    var flags := ActiveFlags(configs);
    if flags > 0 {
      ChosenCounts(configs, flags, |configs|, keyID);
      forall i: nat | OnlyActive(configs, i)
        ensures Chosen(configs, flags, |configs|, keyID) == [TrimSpace(configs[i].id)] && flags == 1
      {
        ChosenByFlag(configs, flags, |configs|, keyID, i);
      }
      if flags == 1 {
        var i := OneFlagIsOnly(configs);
      }
    } else if |configs| > 1 && Parses(configs) {
      ChosenByID(configs, |configs|, keyID);
    } else if |configs| == 1 {
      assert Chosen(configs, 0, 1, keyID) == Chosen(configs[..0], 0, 1, keyID) + [TrimSpace(configs[0].id)];
      assert Chosen(configs[..0], 0, 1, keyID) == [];
    }
  }
}
