/** Refresh-token families under concurrency. Every bbolt transaction and every clock reading of
    tokenRefresh, of the refresh part of issueUserTokens and of revokeRefreshToken is one step, and
    steps of different requests interleave freely with each other, with the sweeper and with the clock. */
module RefreshFamilies {
  import opened Entities
  import opened Transactions
  import opened Scopes

  // A request in flight, by the next thing it will do
  datatype Proc =
    | Judging(client: string, key: Digest, scope: string, found: Option<Tombstone>)   // clock, against the tombstone
    | Revoking(key: Digest, tombstone: Tombstone)                                     // RevokeRefreshTokenFamily
    | Loading(client: string, key: Digest, scope: string)                             // GetRefreshToken
    | Checking(client: string, key: Digest, scope: string, prior: RefreshToken)       // clock, against the token
    | Failing(key: Digest, prior: RefreshToken)                                       // clock, a second time
    | Burning(key: Digest)                                                            // DeleteRefreshToken
    | Preparing(client: string, key: Digest, scope: string, prior: RefreshToken)      // scope check, newRefreshRotation
    | Rotating(key: Digest, prior: RefreshToken, rotation: Rotation)                  // RotateRefreshToken
    | Answering(key: Digest, rotation: Rotation)                                      // token response
    | Storing(key: Digest, token: RefreshToken)                                       // PutRefreshToken of a new family

  datatype Answer = Answer(key: Digest, heir: Digest, userID: string, clientID: string, scope: string)

  /** What has ever been stored; nothing here is part of the program's own state. */
  datatype History = History(
    minted: map<Digest, RefreshToken>,   // every refresh token ever stored
    rotated: map<Digest, Tombstone>,     // every tombstone ever written
    heir: map<Digest, Digest>,           // the token each rotation put in place of the old one
    root: map<Digest, Digest>            // the token a family started from
  )

  datatype State = State(
    now: int,
    active: map<Digest, RefreshToken>,
    consumed: map<Digest, Tombstone>,
    procs: map<nat, Proc>,
    drawn: set<string>,                  // every random string handed out
    past: History,
    revoked: map<string, Digest>,        // families revoked for reuse, with the replayed token
    answers: seq<Answer>                 // successful refresh responses
  )

  datatype Action =
    | Tick(t: int)
    | Sweep(t: int)
    | Abort(h: nat)
    | Present(h: nat, client: string, token: string, scope: string)
    | Judge(h: nat)
    | RevokeFamily(h: nat)
    | Load(h: nat)
    | Check(h: nat)
    | CheckAgain(h: nat)
    | Burn(h: nat)
    | Prepare(h: nat, secret: string, family: string)
    | Rotate(h: nat)
    | Respond(h: nat)
    | DrawRoot(h: nat, userID: string, client: string, scope: string, authTime: int, amr: seq<string>, secret: string,
               family: string)
    | StoreRoot(h: nat)
    | LoadForRevocation(h: nat, client: string, token: string)

  predicate Fresh(s: State, secret: string) {
    Base64Url(secret) && secret !in s.drawn
  }

  predicate Enabled(s: State, a: Action) {
    match a
    case Tick(t) => t >= s.now
    case Sweep(t) => t <= s.now
    case Abort(h) => h in s.procs
    case Present(h, _, _, _) => h !in s.procs
    case Judge(h) => h in s.procs && s.procs[h].Judging?
    case RevokeFamily(h) => h in s.procs && s.procs[h].Revoking?
    case Load(h) => h in s.procs && s.procs[h].Loading?
    case Check(h) => h in s.procs && s.procs[h].Checking?
    case CheckAgain(h) => h in s.procs && s.procs[h].Failing?
    case Burn(h) => h in s.procs && s.procs[h].Burning?
    case Prepare(h, secret, family) => h in s.procs && s.procs[h].Preparing? && Fresh(s, secret) && Fresh(s, family)
    case Rotate(h) => h in s.procs && s.procs[h].Rotating?
    case Respond(h) => h in s.procs && s.procs[h].Answering?
    case DrawRoot(h, _, _, _, _, _, secret, family) => h !in s.procs && Fresh(s, secret) && Fresh(s, family)
    case StoreRoot(h) => h in s.procs && s.procs[h].Storing?
    case LoadForRevocation(h, _, _) => h !in s.procs
  }

  function Goto(s: State, h: nat, p: Proc): State {
    s.(procs := s.procs[h := p])
  }

  function Done(s: State, h: nat): State {
    s.(procs := s.procs - {h})
  }

  function Succession(past: History, key: Digest, r: Rotation): History {
    History(past.minted[r.key := r.next], past.rotated[key := r.tombstone], past.heir[key := r.key],
            past.root[r.key := if key in past.root then past.root[key] else key])
  }

  function Founded(past: History, key: Digest, token: RefreshToken): History {
    past.(minted := past.minted[key := token], root := past.root[key := key])
  }

  function Step(ttl: int, s: State, a: Action): State
    requires Enabled(s, a)
  {
    match a
    case Tick(t) => s.(now := t)
    case Sweep(t) =>
      s.(active := Swept(s.active, (v: RefreshToken) => v.expiresAt, t),
         consumed := Swept(s.consumed, (v: Tombstone) => v.expiresAt, t))
    case Abort(h) => Done(s, h)
    case Present(h, client, token, scope) =>
      var key := Digest(token);
      Goto(s, h, Judging(client, key, TrimSpace(scope), if key in s.consumed then Some(s.consumed[key]) else None))
    case Judge(h) =>
      var p := s.procs[h];
      if p.found.Some? && !(s.now > p.found.value.expiresAt) then
        if p.found.value.clientID == p.client then Goto(s, h, Revoking(p.key, p.found.value)) else Done(s, h)
      else Goto(s, h, Loading(p.client, p.key, p.scope))
    case RevokeFamily(h) =>
      var p := s.procs[h];
      Done(s, h).(active := WithoutFamily(s.active, p.tombstone.familyID),
                  revoked := s.revoked[p.tombstone.familyID := p.key])
    case Load(h) =>
      var p := s.procs[h];
      if p.key in s.active then Goto(s, h, Checking(p.client, p.key, p.scope, s.active[p.key])) else Done(s, h)
    case Check(h) =>
      var p := s.procs[h];
      if !(s.now > p.prior.expiresAt) && p.prior.clientID == p.client then
        Goto(s, h, Preparing(p.client, p.key, p.scope, p.prior))
      else Goto(s, h, Failing(p.key, p.prior))
    case CheckAgain(h) =>
      var p := s.procs[h];
      if s.now > p.prior.expiresAt then Goto(s, h, Burning(p.key)) else Done(s, h)
    case Burn(h) => Done(s, h).(active := s.active - {s.procs[h].key})
    case Prepare(h, secret, family) =>
      var p := s.procs[h];
      if p.scope != "" && !(Tokens(p.scope) <= Tokens(p.prior.scope)) then Done(s, h)
      else
        var scope := if p.scope == "" then p.prior.scope else p.scope;
        var rotation := NewRotation(p.prior, p.client, scope, secret, family, s.now, ttl);
        Goto(s, h, Rotating(p.key, p.prior, rotation)).(drawn := s.drawn + {secret, family})
    case Rotate(h) =>
      var p := s.procs[h];
      if p.key !in s.active then Done(s, h)
      else
        Goto(s, h, Answering(p.key, p.rotation))
        .(active := (s.active - {p.key})[p.rotation.key := p.rotation.next],
          consumed := s.consumed[p.key := p.rotation.tombstone],
          past := Succession(s.past, p.key, p.rotation))
    case Respond(h) =>
      var p := s.procs[h];
      Done(s, h).(answers := s.answers + [Answer(p.key, p.rotation.key, p.rotation.next.userID,
                                                 p.rotation.next.clientID, p.rotation.next.scope)])
    case DrawRoot(h, userID, client, scope, authTime, amr, secret, family) =>
      var token := RefreshToken(userID, client, scope, authTime, s.now + ttl, amr, family, 0);
      Goto(s, h, Storing(Digest(secret), token)).(drawn := s.drawn + {secret, family})
    case StoreRoot(h) =>
      var p := s.procs[h];
      Done(s, h).(active := s.active[p.key := p.token], past := Founded(s.past, p.key, p.token))
    case LoadForRevocation(h, client, token) =>
      var key := Digest(token);
      if token != "" && key in s.active && s.active[key].clientID == client then Goto(s, h, Burning(key)) else s
  }

  // ---- Invariants ----

  // The token a request in flight will store under a key nobody else knows
  function Pending(p: Proc): Option<Digest> {
    if p.Rotating? then Some(p.rotation.key) else if p.Storing? then Some(p.key) else None
  }

  // The family a request in flight will start
  function Founding(p: Proc): Option<string> {
    if p.Rotating? && p.prior.familyID == "" then Some(p.rotation.next.familyID)
    else if p.Storing? then Some(p.token.familyID) else None
  }

  ghost predicate Buckets(active: map<Digest, RefreshToken>, consumed: map<Digest, Tombstone>, past: History) {
    && (forall k :: k in active ==> k in past.minted && active[k] == past.minted[k] && k !in past.rotated)
    && (forall k :: k in consumed ==> k in past.rotated && consumed[k] == past.rotated[k])
  }

  // No tombstone is dropped before the rotated token's own expiry
  ghost predicate Tombstones(now: int, consumed: map<Digest, Tombstone>, rotated: map<Digest, Tombstone>) {
    forall k :: k in rotated && now <= rotated[k].expiresAt ==> k in consumed
  }

  ghost predicate Drawn(drawn: set<string>, past: History) {
    && (forall k :: k in past.minted ==>
          && k.secret in drawn && Base64Url(k.secret)
          && (past.minted[k].familyID != "" ==> past.minted[k].familyID in drawn))
    && (forall k :: k in past.rotated ==>
          k in past.minted && past.rotated[k].familyID in drawn && past.rotated[k].familyID != "")
  }

  ghost predicate NewKey(past: History, key: Digest) {
    Base64Url(key.secret) && key !in past.minted && key !in past.rotated
  }

  ghost predicate NewFamily(past: History, family: string) {
    && family != ""
    && (forall k :: k in past.minted ==> past.minted[k].familyID != family)
    && (forall k :: k in past.rotated ==> past.rotated[k].familyID != family)
  }

  // What a request in flight drew is still its own
  ghost predicate OwnDraws(drawn: set<string>, past: History, p: Proc) {
    && (Pending(p).Some? ==> Pending(p).value.secret in drawn && NewKey(past, Pending(p).value))
    && (Founding(p).Some? ==> Founding(p).value in drawn && NewFamily(past, Founding(p).value))
  }

  predicate SameGrant(a: RefreshToken, b: RefreshToken) {
    a.userID == b.userID && a.clientID == b.clientID && a.authTime == b.authTime && a.amr == b.amr
  }

  predicate IsRotationOf(prior: RefreshToken, r: Rotation) {
    && SameGrant(prior, r.next)
    && r.next.generation == prior.generation + 1
    && Tokens(r.next.scope) <= Tokens(prior.scope)
    && r.next.familyID != ""
    && (prior.familyID != "" ==> r.next.familyID == prior.familyID)
    && r.tombstone == Tombstone(prior.userID, prior.clientID, r.next.familyID, prior.expiresAt)
  }

  ghost predicate Knows(past: History, p: Proc) {
    match p
    case Judging(_, key, _, found) => found.Some? ==> key in past.rotated && past.rotated[key] == found.value
    case Revoking(key, tombstone) => key in past.rotated && past.rotated[key] == tombstone
    case Checking(_, key, _, prior) => key in past.minted && past.minted[key] == prior
    case Failing(key, prior) => key in past.minted && past.minted[key] == prior
    case Burning(key) => key in past.minted
    case Preparing(client, key, _, prior) => key in past.minted && past.minted[key] == prior && prior.clientID == client
    case Rotating(key, prior, rotation) => key in past.minted && past.minted[key] == prior &&
      IsRotationOf(prior, rotation)
    case Answering(key, rotation) =>
      && key in past.heir && past.heir[key] == rotation.key
      && rotation.key in past.minted && past.minted[rotation.key] == rotation.next
    case Storing(_, token) => token.generation == 0
    case _ => true
  }

  ghost predicate ProcsOk(procs: map<nat, Proc>, drawn: set<string>, past: History) {
    forall h :: h in procs ==> Knows(past, procs[h]) && OwnDraws(drawn, past, procs[h])
  }

  // Requests in flight never share what they drew, nor a rotation they have yet to answer
  predicate Apart(p: Proc, q: Proc) {
    && (Pending(p).Some? ==> Pending(p) != Pending(q))
    && (Founding(p).Some? ==> Founding(p) != Founding(q))
    && (p.Answering? && q.Answering? ==> p.key != q.key)
  }

  ghost predicate AllApart(procs: map<nat, Proc>) {
    forall g, h :: g in procs && h in procs && g != h ==> Apart(procs[g], procs[h])
  }

  // The tokens of a family form one chain, of which only the last may still be unrotated
  ghost predicate Chains(past: History) {
    forall j, k :: j in past.minted && k in past.minted && SameFamily(past.minted[j], past.minted[k]) ==>
      && SameGrant(past.minted[j], past.minted[k])
      && (j == k || j in past.rotated || k in past.rotated)
  }

  predicate SameFamily(a: RefreshToken, b: RefreshToken) {
    a.familyID != "" && a.familyID == b.familyID
  }

  // Each rotation leaves one tombstone and one heir, a generation later and no wider in scope
  ghost predicate Heirs(past: History) {
    && past.heir.Keys == past.rotated.Keys <= past.minted.Keys
    && (forall k :: k in past.heir ==> past.heir[k] in past.minted)
    && (forall k :: k in past.heir ==>
          IsRotationOf(past.minted[k], Rotation(past.heir[k], past.minted[past.heir[k]], past.rotated[k])))
  }

  function Rotations(rotated: map<Digest, Tombstone>, family: string): set<Digest> {
    set k | k in rotated && rotated[k].familyID == family
  }

  // The unrotated token of a family counts the rotations of that family
  ghost predicate Generations(past: History) {
    forall k :: k in past.minted && k !in past.rotated ==>
      past.minted[k].generation ==
        if past.minted[k].familyID == "" then 0 else |Rotations(past.rotated, past.minted[k].familyID)|
  }

  predicate UnderRoot(token: RefreshToken, root: RefreshToken) {
    Tokens(token.scope) <= Tokens(root.scope) && SameGrant(token, root)
  }

  ghost predicate Roots(past: History) {
    && (forall k :: k in past.minted ==> k in past.root)
    && (forall k {:trigger past.root[k]} :: k in past.minted ==>
          past.root[k] in past.minted && UnderRoot(past.minted[k], past.minted[past.root[k]]))
  }

  // A revoked family has a tombstone on record and nothing active
  ghost predicate Revocations(revoked: map<string, Digest>, active: map<Digest, RefreshToken>,
                              rotated: map<Digest, Tombstone>) {
    && (forall f :: f in revoked ==> f != "" && revoked[f] in rotated && rotated[revoked[f]].familyID == f)
    && (forall k :: k in active ==> active[k].familyID !in revoked)
  }

  // A rotation is answered at most once, with the token it stored
  ghost predicate Answered(answers: seq<Answer>, past: History) {
    && (forall i, j :: 0 <= i < j < |answers| ==> answers[i].key != answers[j].key)
    && (forall i :: 0 <= i < |answers| ==> AnswerOk(past, answers[i]))
  }

  ghost predicate Unanswered(answers: seq<Answer>, procs: map<nat, Proc>) {
    forall i, h :: 0 <= i < |answers| && h in procs && procs[h].Answering? ==> procs[h].key != answers[i].key
  }

  ghost predicate AnswerOk(past: History, a: Answer) {
    && a.key in past.heir && past.heir[a.key] == a.heir && a.heir in past.minted
    && past.minted[a.heir].userID == a.userID && past.minted[a.heir].clientID == a.clientID
    && past.minted[a.heir].scope == a.scope
  }

  ghost predicate PastInv(past: History) {
    Chains(past) && Heirs(past) && Generations(past) && Roots(past)
  }

  ghost predicate StoreInv(s: State) {
    && Buckets(s.active, s.consumed, s.past) && Tombstones(s.now, s.consumed, s.past.rotated)
    && Revocations(s.revoked, s.active, s.past.rotated) && Drawn(s.drawn, s.past) && Answered(s.answers, s.past)
  }

  ghost predicate FlightInv(s: State) {
    ProcsOk(s.procs, s.drawn, s.past) && AllApart(s.procs) && Unanswered(s.answers, s.procs)
  }

  ghost predicate Inv(s: State) {
    PastInv(s.past) && StoreInv(s) && FlightInv(s)
  }

  // A fresh deployment, or one whose tokens predate families
  ghost predicate Init(s: State) {
    && s.consumed == map[] && s.procs == map[] && s.revoked == map[] && s.answers == []
    && s.past == History(s.active, map[], map[], map k | k in s.active :: k)
    && (forall k :: k in s.active ==>
          Base64Url(k.secret) && k.secret in s.drawn && s.active[k].familyID == "" && s.active[k].generation == 0)
  }

  lemma InitInv(s: State)
    requires Init(s)
    ensures Inv(s)
  {
    hide Tokens, Base64Url;
  }

  // ---- Steps that touch only the requests in flight ----

  lemma ProcsOkGoto(procs: map<nat, Proc>, drawn: set<string>, past: History, h: nat, p: Proc)
    requires ProcsOk(procs, drawn, past) && Knows(past, p) && OwnDraws(drawn, past, p)
    ensures ProcsOk(procs[h := p], drawn, past)
  {
  }

  lemma ApartGoto(procs: map<nat, Proc>, h: nat, p: Proc)
    requires AllApart(procs) && forall g :: g in procs && g != h ==> Apart(procs[g], p) && Apart(p, procs[g])
    ensures AllApart(procs[h := p])
  {
    var next := procs[h := p];
    forall g, g' | g in next && g' in next && g != g'
      ensures Apart(next[g], next[g'])
    {
    }
  }

  lemma GotoFlight(s: State, h: nat, p: Proc)
    requires FlightInv(s) && Knows(s.past, p) && Pending(p).None? && Founding(p).None? && !p.Answering?
    ensures FlightInv(Goto(s, h, p))
  {
    ProcsOkGoto(s.procs, s.drawn, s.past, h, p);
    forall g | g in s.procs && g != h
      ensures Apart(s.procs[g], p) && Apart(p, s.procs[g])
    {
    }
    ApartGoto(s.procs, h, p);
  }

  lemma GotoInv(s: State, h: nat, p: Proc)
    requires Inv(s) && Knows(s.past, p) && Pending(p).None? && Founding(p).None? && !p.Answering?
    ensures Inv(Goto(s, h, p))
  {
    GotoFlight(s, h, p);
  }

  lemma DoneInv(s: State, h: nat)
    requires Inv(s)
    ensures Inv(Done(s, h))
  {
    hide Chains, Heirs, Generations, Roots, Buckets, Tombstones, Revocations, Drawn, Answered, Base64Url, Tokens, Knows;
  }

  // ---- Steps that draw random strings ----

  lemma DrawFlight(s: State, h: nat, p: Proc, secret: string, family: string)
    requires FlightInv(s) && Drawn(s.drawn, s.past) && Fresh(s, secret) && Fresh(s, family)
    requires Knows(s.past, p) && Pending(p) == Some(Digest(secret)) && Founding(p) in {None, Some(family)}
    ensures FlightInv(Goto(s, h, p).(drawn := s.drawn + {secret, family}))
  {
    var drawn := s.drawn + {secret, family};
    assert NewKey(s.past, Digest(secret)) && NewFamily(s.past, family);
    assert ProcsOk(s.procs, drawn, s.past);
    ProcsOkGoto(s.procs, drawn, s.past, h, p);
    forall g | g in s.procs && g != h
      ensures Apart(s.procs[g], p) && Apart(p, s.procs[g])
    {
      assert OwnDraws(s.drawn, s.past, s.procs[g]);
    }
    ApartGoto(s.procs, h, p);
  }

  lemma DrawInv(s: State, h: nat, p: Proc, secret: string, family: string)
    requires Inv(s) && Fresh(s, secret) && Fresh(s, family)
    requires Knows(s.past, p) && Pending(p) == Some(Digest(secret)) && Founding(p) in {None, Some(family)}
    ensures Inv(Goto(s, h, p).(drawn := s.drawn + {secret, family}))
  {
    DrawFlight(s, h, p, secret, family);
  }

  // ---- Steps that only remove or age bucket entries ----

  lemma ShrinkStore(s: State, active: map<Digest, RefreshToken>)
    requires StoreInv(s) && forall k :: k in active ==> k in s.active && active[k] == s.active[k]
    ensures StoreInv(s.(active := active))
  {
  }

  lemma ShrinkInv(s: State, active: map<Digest, RefreshToken>)
    requires Inv(s) && forall k :: k in active ==> k in s.active && active[k] == s.active[k]
    ensures Inv(s.(active := active))
  {
    ShrinkStore(s, active);
  }

  lemma AgeStore(s: State, now: int, consumed: map<Digest, Tombstone>)
    requires StoreInv(s) && now >= s.now
    requires forall k :: k in consumed ==> k in s.consumed && consumed[k] == s.consumed[k]
    requires forall k :: k in s.consumed && s.now <= s.consumed[k].expiresAt ==> k in consumed
    ensures StoreInv(s.(now := now, consumed := consumed))
  {
  }

  lemma AgeInv(s: State, now: int, consumed: map<Digest, Tombstone>)
    requires Inv(s) && now >= s.now
    requires forall k :: k in consumed ==> k in s.consumed && consumed[k] == s.consumed[k]
    requires forall k :: k in s.consumed && s.now <= s.consumed[k].expiresAt ==> k in consumed
    ensures Inv(s.(now := now, consumed := consumed))
  {
    AgeStore(s, now, consumed);
  }

  lemma RevokeStore(s: State, key: Digest, tombstone: Tombstone)
    requires StoreInv(s) && key in s.past.rotated && s.past.rotated[key] == tombstone
    ensures StoreInv(s.(active := WithoutFamily(s.active, tombstone.familyID),
                        revoked := s.revoked[tombstone.familyID := key]))
  {
    ShrinkStore(s, WithoutFamily(s.active, tombstone.familyID));
  }

  lemma RevokeInv(s: State, key: Digest, tombstone: Tombstone)
    requires Inv(s) && key in s.past.rotated && s.past.rotated[key] == tombstone
    ensures Inv(s.(active := WithoutFamily(s.active, tombstone.familyID),
                   revoked := s.revoked[tombstone.familyID := key]))
  {
    RevokeStore(s, key, tombstone);
  }

  // ---- Steps that store a token ----

  // A rotation may take the place of an unrotated token
  ghost predicate MaySucceed(past: History, key: Digest, r: Rotation) {
    && key in past.minted && key !in past.rotated
    && IsRotationOf(past.minted[key], r)
    && NewKey(past, r.key)
    && (past.minted[key].familyID == "" ==> NewFamily(past, r.next.familyID))
  }

  lemma SuccessionChains(past: History, key: Digest, r: Rotation)
    requires Chains(past) && MaySucceed(past, key, r)
    ensures Chains(Succession(past, key, r))
  {
    hide Tokens, Base64Url;
    var later := Succession(past, key, r);
    forall j, k | j in later.minted && k in later.minted && SameFamily(later.minted[j], later.minted[k])
      ensures SameGrant(later.minted[j], later.minted[k]) && (j == k || j in later.rotated || k in later.rotated)
    {
      if j == r.key && k != r.key {
        assert SameFamily(past.minted[key], past.minted[k]);
      } else if k == r.key && j != r.key {
        assert SameFamily(past.minted[j], past.minted[key]);
      }
    }
  }

  lemma SuccessionHeirs(past: History, key: Digest, r: Rotation)
    requires Heirs(past) && MaySucceed(past, key, r)
    ensures Heirs(Succession(past, key, r))
  {
    hide Tokens, Base64Url;
    var later := Succession(past, key, r);
    forall k | k in later.heir
      ensures later.heir[k] in later.minted
      ensures IsRotationOf(later.minted[k], Rotation(later.heir[k], later.minted[later.heir[k]], later.rotated[k]))
    {
      assert k != key ==> k in past.heir && past.heir[k] in past.minted && k in past.minted;
    }
  }

  lemma RotationsGrow(rotated: map<Digest, Tombstone>, key: Digest, t: Tombstone, family: string)
    requires key !in rotated
    ensures |Rotations(rotated[key := t], family)| ==
            |Rotations(rotated, family)| + if t.familyID == family then 1 else 0
  {
    var later := rotated[key := t];
    assert Rotations(later, family) == Rotations(rotated, family) + if t.familyID == family then {key} else {};
  }

  lemma SuccessionGenerations(past: History, key: Digest, r: Rotation)
    requires Chains(past) && Generations(past) && MaySucceed(past, key, r)
    ensures Generations(Succession(past, key, r))
  {
    var later := Succession(past, key, r);
    forall k | k in later.minted && k !in later.rotated
      ensures later.minted[k].generation ==
        if later.minted[k].familyID == "" then 0 else |Rotations(later.rotated, later.minted[k].familyID)|
    {
      var family := later.minted[k].familyID;
      RotationsGrow(past.rotated, key, r.tombstone, family);
      if k == r.key {
        if past.minted[key].familyID == "" {
          assert Rotations(past.rotated, family) == {};
        }
      } else if family != "" && family == r.next.familyID {
        assert SameFamily(past.minted[k], past.minted[key]);
      }
    }
  }

  lemma RotationUnderRoot(prior: RefreshToken, r: Rotation, root: RefreshToken)
    requires IsRotationOf(prior, r) && UnderRoot(prior, root)
    ensures UnderRoot(r.next, root)
  {
  }

  lemma SuccessionRoots(past: History, key: Digest, r: Rotation)
    requires Roots(past) && MaySucceed(past, key, r)
    ensures Roots(Succession(past, key, r))
  {
    hide Tokens, Base64Url, UnderRoot, IsRotationOf, NewFamily;
    var later := Succession(past, key, r);
    forall k | k in later.minted
      ensures k in later.root && later.root[k] in later.minted
      ensures UnderRoot(later.minted[k], later.minted[later.root[k]])
    {
      var root := past.root[if k == r.key then key else k];
      if k == r.key {
        RotationUnderRoot(past.minted[key], r, past.minted[root]);
      }
    }
  }

  lemma SuccessionPast(past: History, key: Digest, r: Rotation)
    requires PastInv(past) && MaySucceed(past, key, r)
    ensures PastInv(Succession(past, key, r))
  {
    SuccessionChains(past, key, r);
    SuccessionHeirs(past, key, r);
    SuccessionGenerations(past, key, r);
    SuccessionRoots(past, key, r);
  }

  // A new family may be founded on a key and a family name nobody used
  ghost predicate MayFound(past: History, key: Digest, token: RefreshToken) {
    NewKey(past, key) && NewFamily(past, token.familyID) && token.generation == 0
  }

  lemma FoundedChains(past: History, key: Digest, token: RefreshToken)
    requires Chains(past) && Generations(past) && MayFound(past, key, token)
    ensures Chains(Founded(past, key, token)) && Generations(Founded(past, key, token))
  {
    assert Rotations(past.rotated, token.familyID) == {};
  }

  lemma FoundedHeirs(past: History, key: Digest, token: RefreshToken)
    requires Heirs(past) && MayFound(past, key, token)
    ensures Heirs(Founded(past, key, token))
  {
    hide Tokens, Base64Url, IsRotationOf;
    var later := Founded(past, key, token);
    forall k | k in later.heir
      ensures later.heir[k] in later.minted
      ensures IsRotationOf(later.minted[k], Rotation(later.heir[k], later.minted[later.heir[k]], later.rotated[k]))
    {
      assert k in past.heir && past.heir[k] in past.minted;
    }
  }

  lemma FoundedRoots(past: History, key: Digest, token: RefreshToken)
    requires Roots(past) && MayFound(past, key, token)
    ensures Roots(Founded(past, key, token))
  {
    hide Tokens, Base64Url, NewFamily;
    var later := Founded(past, key, token);
    forall k | k in later.minted
      ensures k in later.root && later.root[k] in later.minted
      ensures UnderRoot(later.minted[k], later.minted[later.root[k]])
    {
      if k != key {
        var root := past.root[k];
      }
    }
  }

  lemma FoundedPast(past: History, key: Digest, token: RefreshToken)
    requires PastInv(past) && MayFound(past, key, token)
    ensures PastInv(Founded(past, key, token))
  {
    FoundedChains(past, key, token);
    FoundedHeirs(past, key, token);
    FoundedRoots(past, key, token);
  }

  // Records only ever grow
  ghost predicate Extends(later: History, past: History) {
    && (forall k :: k in past.minted ==> k in later.minted && later.minted[k] == past.minted[k])
    && (forall k :: k in past.rotated ==> k in later.rotated && later.rotated[k] == past.rotated[k])
    && (forall k :: k in past.heir ==> k in later.heir && later.heir[k] == past.heir[k])
  }

  lemma KnowsStill(past: History, later: History, p: Proc)
    requires Knows(past, p) && Extends(later, past)
    ensures Knows(later, p)
  {
  }

  lemma AnsweredStill(answers: seq<Answer>, past: History, later: History)
    requires Answered(answers, past) && Extends(later, past)
    ensures Answered(answers, later)
  {
  }

  lemma RotateMay(s: State, p: Proc)
    requires p.Rotating? && Knows(s.past, p) && OwnDraws(s.drawn, s.past, p)
    requires p.key !in s.past.rotated && p.key !in s.past.heir
    ensures MaySucceed(s.past, p.key, p.rotation) && Extends(Succession(s.past, p.key, p.rotation), s.past)
  {
    hide Tokens, Base64Url, IsRotationOf;
  }

  // Another request keeps what it drew when h's rotation commits
  lemma DrawsStill(s: State, h: nat, g: nat)
    requires FlightInv(s) && h in s.procs && g in s.procs && g != h && s.procs[h].Rotating?
    requires MaySucceed(s.past, s.procs[h].key, s.procs[h].rotation)
    ensures OwnDraws(s.drawn, Succession(s.past, s.procs[h].key, s.procs[h].rotation), s.procs[g])
  {
    assert Apart(s.procs[g], s.procs[h]);
    assert Knows(s.past, s.procs[h]) && OwnDraws(s.drawn, s.past, s.procs[g]);
  }

  lemma RotateFlight(s: State, h: nat)
    requires FlightInv(s) && Heirs(s.past) && Answered(s.answers, s.past)
    requires h in s.procs && s.procs[h].Rotating?
    requires MaySucceed(s.past, s.procs[h].key, s.procs[h].rotation)
    requires Extends(Succession(s.past, s.procs[h].key, s.procs[h].rotation), s.past)
    ensures FlightInv(Goto(s, h, Answering(s.procs[h].key, s.procs[h].rotation))
                      .(past := Succession(s.past, s.procs[h].key, s.procs[h].rotation)))
  {
    hide Tokens, Base64Url, IsRotationOf;
    var p := s.procs[h];
    var later := Succession(s.past, p.key, p.rotation);
    var q := Answering(p.key, p.rotation);
    var others := s.procs - {h};
    forall g | g in others
      ensures Knows(later, others[g]) && OwnDraws(s.drawn, later, others[g])
    {
      KnowsStill(s.past, later, s.procs[g]);
      DrawsStill(s, h, g);
    }
    ProcsOkGoto(others, s.drawn, later, h, q);
    forall g | g in others
      ensures Apart(others[g], q) && Apart(q, others[g])
    {
      assert Knows(s.past, s.procs[g]);
    }
    ApartGoto(others, h, q);
    assert others[h := q] == s.procs[h := q];
    assert forall i :: 0 <= i < |s.answers| ==> AnswerOk(s.past, s.answers[i]) && s.answers[i].key in s.past.heir;
  }

  lemma RotateBuckets(s: State, h: nat)
    requires Buckets(s.active, s.consumed, s.past) && Tombstones(s.now, s.consumed, s.past.rotated)
    requires h in s.procs && s.procs[h].Rotating? && s.procs[h].key in s.active
    requires MaySucceed(s.past, s.procs[h].key, s.procs[h].rotation)
    ensures var t := Step(0, s, Rotate(h));
            Buckets(t.active, t.consumed, t.past) && Tombstones(t.now, t.consumed, t.past.rotated)
  {
    hide Tokens, Base64Url, IsRotationOf;
  }

  // The live token of a revoked family is gone, so no rotation of it can commit
  lemma RotateRevocations(s: State, h: nat)
    requires Revocations(s.revoked, s.active, s.past.rotated) && Buckets(s.active, s.consumed, s.past)
    requires h in s.procs && s.procs[h].Rotating? && s.procs[h].key in s.active
    requires MaySucceed(s.past, s.procs[h].key, s.procs[h].rotation)
    ensures var t := Step(0, s, Rotate(h)); Revocations(t.revoked, t.active, t.past.rotated)
  {
    hide Tokens, Base64Url;
  }

  lemma RotateDrawn(s: State, p: Proc)
    requires Drawn(s.drawn, s.past)
    requires p.Rotating? && Knows(s.past, p) && OwnDraws(s.drawn, s.past, p)
    ensures Drawn(s.drawn, Succession(s.past, p.key, p.rotation))
  {
    hide Tokens, Base64Url;
  }

  lemma RotateReady(s: State, h: nat)
    requires ProcsOk(s.procs, s.drawn, s.past) && Buckets(s.active, s.consumed, s.past) && Heirs(s.past)
    requires h in s.procs && s.procs[h].Rotating? && s.procs[h].key in s.active
    ensures Knows(s.past, s.procs[h]) && OwnDraws(s.drawn, s.past, s.procs[h])
    ensures s.procs[h].key !in s.past.rotated && s.procs[h].key !in s.past.heir
  {
    hide Knows, OwnDraws;
  }

  lemma RotateInv(s: State, h: nat)
    requires Enabled(s, Rotate(h)) && s.procs[h].key in s.active
    requires Inv(s)
    ensures Inv(Step(0, s, Rotate(h)))
  {
    hide Chains, Heirs, Generations, Roots, Buckets, Tombstones, Revocations, Drawn, Answered;
    hide ProcsOk, AllApart, Unanswered, MaySucceed, Extends;
    var p := s.procs[h];
    assert Knows(s.past, p) && OwnDraws(s.drawn, s.past, p) && p.key !in s.past.rotated && p.key !in s.past.heir by {
      RotateReady(s, h);
    }
    RotateMay(s, p);
    SuccessionPast(s.past, p.key, p.rotation);
    RotateBuckets(s, h);
    RotateRevocations(s, h);
    RotateDrawn(s, p);
    AnsweredStill(s.answers, s.past, Succession(s.past, p.key, p.rotation));
    RotateFlight(s, h);
  }

  lemma StoreFlight(s: State, h: nat)
    requires FlightInv(s) && h in s.procs && s.procs[h].Storing?
    requires MayFound(s.past, s.procs[h].key, s.procs[h].token)
    requires Extends(Founded(s.past, s.procs[h].key, s.procs[h].token), s.past)
    ensures FlightInv(Done(s, h).(past := Founded(s.past, s.procs[h].key, s.procs[h].token)))
  {
    hide Tokens, Base64Url, IsRotationOf;
    var later := Founded(s.past, s.procs[h].key, s.procs[h].token);
    forall g | g in s.procs - {h}
      ensures Knows(later, s.procs[g]) && OwnDraws(s.drawn, later, s.procs[g])
    {
      assert Apart(s.procs[g], s.procs[h]) && OwnDraws(s.drawn, s.past, s.procs[g]);
      KnowsStill(s.past, later, s.procs[g]);
    }
  }

  lemma StoreMay(s: State, h: nat)
    requires ProcsOk(s.procs, s.drawn, s.past) && h in s.procs && s.procs[h].Storing?
    ensures MayFound(s.past, s.procs[h].key, s.procs[h].token)
    ensures Extends(Founded(s.past, s.procs[h].key, s.procs[h].token), s.past)
  {
    hide Tokens, Base64Url;
    assert Knows(s.past, s.procs[h]) && OwnDraws(s.drawn, s.past, s.procs[h]);
  }

  lemma StoreBuckets(s: State, h: nat)
    requires Buckets(s.active, s.consumed, s.past) && Revocations(s.revoked, s.active, s.past.rotated)
    requires h in s.procs && s.procs[h].Storing? && MayFound(s.past, s.procs[h].key, s.procs[h].token)
    ensures var t := Step(0, s, StoreRoot(h));
            Buckets(t.active, t.consumed, t.past) && Revocations(t.revoked, t.active, t.past.rotated)
  {
    hide Tokens, Base64Url;
  }

  lemma StoreDrawn(s: State, h: nat)
    requires Drawn(s.drawn, s.past) && ProcsOk(s.procs, s.drawn, s.past) && h in s.procs && s.procs[h].Storing?
    ensures Drawn(s.drawn, Step(0, s, StoreRoot(h)).past)
  {
    hide Tokens, Base64Url;
    assert OwnDraws(s.drawn, s.past, s.procs[h]);
  }

  lemma StoreRootInv(s: State, h: nat)
    requires Enabled(s, StoreRoot(h))
    requires Inv(s)
    ensures Inv(Step(0, s, StoreRoot(h)))
  {
    hide Chains, Heirs, Generations, Roots, Buckets, Tombstones, Revocations, Drawn, Answered;
    hide ProcsOk, AllApart, Unanswered, MayFound, Extends;
    StoreMay(s, h);
    FoundedPast(s.past, s.procs[h].key, s.procs[h].token);
    StoreBuckets(s, h);
    StoreDrawn(s, h);
    AnsweredStill(s.answers, s.past, Founded(s.past, s.procs[h].key, s.procs[h].token));
    StoreFlight(s, h);
  }

  lemma RespondInv(s: State, h: nat)
    requires Enabled(s, Respond(h))
    requires Inv(s)
    ensures Inv(Step(0, s, Respond(h)))
  {
    hide Chains, Heirs, Generations, Roots, Buckets, Tombstones, Revocations, Drawn, Tokens, Base64Url;
    var p := s.procs[h];
    assert Knows(s.past, p);
    DoneInv(s, h);
    forall g | g in s.procs && g != h && s.procs[g].Answering?
      ensures s.procs[g].key != p.key
    {
      assert Apart(s.procs[g], p);
    }
  }

  lemma PrepareInv(ttl: int, s: State, a: Action)
    requires a.Prepare? && Enabled(s, a)
    requires Inv(s)
    ensures Inv(Step(ttl, s, a))
  {
    hide Chains, Heirs, Generations, Roots, Buckets, Tombstones, Revocations, Drawn, Answered, AllApart, Unanswered;
    var p := s.procs[a.h];
    assert Knows(s.past, p);
    if p.scope != "" && !(Tokens(p.scope) <= Tokens(p.prior.scope)) {
      DoneInv(s, a.h);
    } else {
      var scope := if p.scope == "" then p.prior.scope else p.scope;
      var rotation := NewRotation(p.prior, p.client, scope, a.secret, a.family, s.now, ttl);
      DrawInv(s, a.h, Rotating(p.key, p.prior, rotation), a.secret, a.family);
    }
  }

  lemma SweepInv(s: State, t: int)
    requires t <= s.now && Inv(s)
    ensures Inv(Step(0, s, Sweep(t)))
  {
    hide Chains, Heirs, Generations, Roots, Buckets, Tombstones, Revocations, Drawn, Answered, ProcsOk, AllApart,
      Unanswered;
    var active := Swept(s.active, (v: RefreshToken) => v.expiresAt, t);
    var consumed := Swept(s.consumed, (v: Tombstone) => v.expiresAt, t);
    ShrinkInv(s, active);
    forall k | k in s.consumed && s.now <= s.consumed[k].expiresAt
      ensures k in consumed
    {
    }
    AgeInv(s.(active := active), s.now, consumed);
  }

  // A request that only reads goes on knowing what it read
  lemma BeginInv(ttl: int, s: State, a: Action)
    requires a.Present? || a.LoadForRevocation?
    requires Enabled(s, a)
    requires Inv(s)
    ensures Inv(Step(ttl, s, a))
  {
    hide Chains, Heirs, Generations, Roots, Tombstones, Revocations, Drawn, Answered, AllApart, Unanswered, Base64Url,
      Tokens;
    hide TrimSpace;
    var later := Step(ttl, s, a);
    if later != s {
      GotoInv(s, a.h, later.procs[a.h]);
    }
  }

  // The request goes on to know something on record, or is done
  ghost predicate GoesOn(s: State, h: nat, later: State) {
    || later == Done(s, h)
    || (h in later.procs && later == Goto(s, h, later.procs[h]) && Knows(s.past, later.procs[h])
        && Pending(later.procs[h]).None? && Founding(later.procs[h]).None? && !later.procs[h].Answering?)
  }

  lemma LookupGoesOn(ttl: int, s: State, a: Action)
    requires a.Judge? || a.Load?
    requires Enabled(s, a) && Knows(s.past, s.procs[a.h]) && Buckets(s.active, s.consumed, s.past)
    ensures GoesOn(s, a.h, Step(ttl, s, a))
  {
    hide IsRotationOf, NewRotation, Tokens, TrimSpace, WithoutFamily, Succession, Founded, Swept, Fresh;
  }

  lemma CheckGoesOn(ttl: int, s: State, a: Action)
    requires a.Check? || a.CheckAgain? || a.Abort?
    requires Enabled(s, a) && Knows(s.past, s.procs[a.h])
    ensures GoesOn(s, a.h, Step(ttl, s, a))
  {
    hide IsRotationOf, NewRotation, Tokens, TrimSpace, WithoutFamily, Succession, Founded, Swept, Fresh;
  }

  lemma InvKnows(s: State, h: nat)
    requires Inv(s) && h in s.procs
    ensures Knows(s.past, s.procs[h]) && Buckets(s.active, s.consumed, s.past)
  {
    hide Knows, Buckets, Chains, Heirs, Generations, Roots, Tombstones, Revocations, Drawn, Answered, AllApart,
      Unanswered;
  }

  lemma GoesOnInv(s: State, h: nat, later: State)
    requires Inv(s) && GoesOn(s, h, later)
    ensures Inv(later)
  {
    hide Inv, Knows, Goto, Done, Pending, Founding;
    DoneInv(s, h);
    if h in later.procs && later == Goto(s, h, later.procs[h]) && later != Done(s, h) {
      GotoInv(s, h, later.procs[h]);
    }
  }

  lemma ReadInv(ttl: int, s: State, a: Action)
    requires a.Judge? || a.Load? || a.Check? || a.CheckAgain? || a.Abort?
    requires Enabled(s, a)
    requires Inv(s)
    ensures Inv(Step(ttl, s, a))
  {
    hide Inv, Step, Knows, Buckets, GoesOn;
    InvKnows(s, a.h);
    if a.Judge? || a.Load? {
      LookupGoesOn(ttl, s, a);
    } else {
      CheckGoesOn(ttl, s, a);
    }
    GoesOnInv(s, a.h, Step(ttl, s, a));
  }

  /** Every step keeps the invariant. */
  lemma StepInv(ttl: int, s: State, a: Action)
    requires Enabled(s, a)
    requires Inv(s)
    ensures Inv(Step(ttl, s, a))
  {
    hide Chains, Heirs, Generations, Roots, Buckets, Tombstones, Revocations, Drawn, Answered, AllApart, Unanswered;
    hide Base64Url, Tokens;
    match a
    case Tick(t) => AgeInv(s, t, s.consumed);
    case Sweep(t) => SweepInv(s, t);
    case RevokeFamily(h) =>
      assert Knows(s.past, s.procs[h]);
      DoneInv(s, h);
      RevokeInv(Done(s, h), s.procs[h].key, s.procs[h].tombstone);
    case Burn(h) =>
      DoneInv(s, h);
      ShrinkInv(Done(s, h), s.active - {s.procs[h].key});
    case Prepare(_, _, _) => PrepareInv(ttl, s, a);
    case Rotate(h) =>
      if s.procs[h].key in s.active {
        RotateInv(s, h);
      } else {
        DoneInv(s, h);
      }
    case Respond(h) => RespondInv(s, h);
    case DrawRoot(h, userID, client, scope, authTime, amr, secret, family) =>
      var token := RefreshToken(userID, client, scope, authTime, s.now + ttl, amr, family, 0);
      DrawInv(s, h, Storing(Digest(secret), token), secret, family);
    case StoreRoot(h) => StoreRootInv(s, h);
    case Present(_, _, _, _) => BeginInv(ttl, s, a);
    case LoadForRevocation(_, _, _) => BeginInv(ttl, s, a);
    case _ => ReadInv(ttl, s, a);
  }
}
