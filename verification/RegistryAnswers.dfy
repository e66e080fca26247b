/** What the registry answers, and what an admitted proof changes. */
module RegistryAnswers {
  import opened Outcomes
  import opened Lease
  import opened Registry
  import opened LeaseProtocol
  import opened LeaseProtocolTheorems
  import opened LeaseProtocolSafety

  /** A page of this login session has this registration, and its lease is not over. */
  predicate Holds(s: Server, session: nat, registrationId: nat) {
    registrationId in s.bindings && s.bindings[registrationId].session == session && s.now < s.bindings[registrationId].registration.expiresAt
  }

  /** Bindings and challenges that are over are forgotten; the others stay, beside the challenge that was issued, if any. */
  ghost predicate Forgets(s: Server, s1: Server, issued: set<nat>) {
    && s1.now == s.now && s1.processId == s.processId
    && (forall r :: r in s1.bindings <==> r in s.bindings && s.now < s.bindings[r].registration.expiresAt)
    && (forall r :: r in s1.bindings ==> s1.bindings[r] == s.bindings[r])
    && (forall c :: c in s1.challenges && c !in issued <==> c in s.challenges && s.now < s.challenges[c].challenge.challengeExpiresAt && c !in issued)
    && (forall c :: c in s1.challenges && c !in issued ==> s1.challenges[c] == s.challenges[c])
  }

  /** The challenge can be proved in this login session for five seconds, for a lease of a minute. */
  predicate Issued(s: Server, s1: Server, c: Challenge, session: nat) {
    && c.challengeId in s1.challenges && s1.challenges[c.challengeId].challenge == c && s1.challenges[c.challengeId].session == session
    && c.challengeExpiresAt == s.now + 5000 && c.binding.expiresAt == s.now + 60000
    && s.nextId <= c.challengeId < s1.nextId
  }

  /** A registration is challenged unless it is refused, with names that were never drawn before. */
  lemma RegistrationBegins(s: Server, session: nat, identity: Identity, key: Key, refusal: Option<Reason>)
    ensures
      var a := BeginRegistration(s, session, identity, key, refusal);
      && (refusal.Some? ==> a.answer == Err(refusal.value) && Forgets(s, a.server, {}))
      && (refusal.None? ==>
            && a.answer.Ok? && Forgets(s, a.server, {a.answer.value.challengeId}) && Issued(s, a.server, a.answer.value, session)
            && a.answer.value.kind == Register && a.answer.value.key == key && a.answer.value.binding.identity == identity
            && var ref := a.answer.value.binding.ref;
               ref.processId == s.processId && s.nextId <= ref.registrationId < a.server.nextId && s.nextId <= ref.registrationEpoch < a.server.nextId
               && ref.registrationId != ref.registrationEpoch && a.answer.value.challengeId !in {ref.registrationId, ref.registrationEpoch})
  {}

  /** A renewal is challenged for a binding that is held in this login session, for the same document, with the same key. */
  lemma RenewalBegins(s: Server, session: nat, registrationId: nat, identity: Identity, refusal: Option<Reason>)
    ensures
      var a := BeginRenewal(s, session, registrationId, identity, refusal);
      if !Holds(s, session, registrationId) then a.answer == Err(StaleRegistration) && Forgets(s, a.server, {})
      else
        var held := s.bindings[registrationId];
        if identity.documentId != held.registration.identity.documentId || identity.documentEpoch != held.registration.identity.documentEpoch then
          a.answer == Err(StaleDocument) && Forgets(s, a.server, {})
        else if refusal.Some? then a.answer == Err(refusal.value) && Forgets(s, a.server, {})
        else
          && a.answer.Ok? && Forgets(s, a.server, {a.answer.value.challengeId}) && Issued(s, a.server, a.answer.value, session)
          && a.answer.value.kind == Renew && a.answer.value.key == held.key
          && a.answer.value.binding.identity == identity && a.answer.value.binding.ref == held.registration.ref
  {}

  /** A proof is looked at exactly for an open challenge of the same login session, and a renewal only for a binding held in it. */
  lemma ProofBegins(s: Server, session: nat, challengeId: nat)
    ensures
      var open := challengeId in s.challenges && s.challenges[challengeId].session == session
                  && s.now < s.challenges[challengeId].challenge.challengeExpiresAt;
      BeginProof(s, session, challengeId) ==
      if !open then Some(StaleChallenge)
      else if s.challenges[challengeId].challenge.kind == Register || Holds(s, session, s.challenges[challengeId].challenge.binding.ref.registrationId) then None
      else Some(StaleRegistration)
  {}

  /** No renewal was admitted for the binding since the challenge was issued, and its lease is not over. */
  predicate Renewable(s: Server, entry: Entry) {
    var id := entry.challenge.binding.ref.registrationId;
    id in s.bindings && s.now < s.bindings[id].registration.expiresAt && s.bindings[id].revision == entry.baseRevision
  }

  /**
   * A verified proof is admitted exactly while its challenge is open, a renewal for a binding unrenewed since, and a
   * registration with room left. It uses the challenge up, and binds what was challenged: a renewal keeps the name, the
   * key and the login session. A proof that is not admitted changes nothing.
   */
  lemma ProofDecides(s: Server, challengeId: nat, verified: bool, room: bool)
    ensures
      var a := FinishProof(s, challengeId, verified, room);
      var open := challengeId in s.challenges && s.now < s.challenges[challengeId].challenge.challengeExpiresAt;
      var admitted := verified && open && if s.challenges[challengeId].challenge.kind == Renew then Renewable(s, s.challenges[challengeId]) else room;
      && (a.answer.Ok? <==> admitted)
      && (!admitted ==> a.server == s && a.answer == Err(
            if !verified then Other("invalid_signature") else if !open then StaleChallenge
            else if s.challenges[challengeId].challenge.kind == Renew then StaleRegistration else Other("registration_capacity")))
      && (admitted ==>
            var entry := s.challenges[challengeId];
            var id := entry.challenge.binding.ref.registrationId;
            && a.server == s.(challenges := s.challenges - {challengeId}, bindings := a.server.bindings)
            && a.server.bindings.Keys == s.bindings.Keys + {id} && (forall r :: r in s.bindings && r != id ==> a.server.bindings[r] == s.bindings[r])
            && a.answer.value == a.server.bindings[id].registration
            && a.answer.value.identity == entry.challenge.binding.identity && a.answer.value.expiresAt == entry.challenge.binding.expiresAt
            && if entry.challenge.kind == Renew then
                 a.answer.value.ref == s.bindings[id].registration.ref && a.server.bindings[id].key == s.bindings[id].key
                 && a.server.bindings[id].session == s.bindings[id].session && a.server.bindings[id].revision > s.bindings[id].revision
               else
                 a.answer.value.ref == entry.challenge.binding.ref && a.server.bindings[id].key == entry.challenge.key
                 && a.server.bindings[id].session == entry.session)
  {}

  /** After a restart no renewal is challenged and no proof looked at, whatever was held or issued before. */
  lemma RestartForgets(s: Server, session: nat, registrationId: nat, identity: Identity, refusal: Option<Reason>, challengeId: nat)
    ensures BeginRenewal(Restart(s), session, registrationId, identity, refusal).answer == Err(StaleRegistration)
    ensures BeginProof(Restart(s), session, challengeId) == Some(StaleChallenge) && Restart(s).processId != s.processId
  {}

  // ---- Several proofs, over whole runs

  /** No registration under this name is open any more, nor will be. */
  ghost predicate Closed(s: Server, registrationId: nat) {
    registrationId < s.nextId && forall c :: c in s.challenges && IdOf(s.challenges[c]) == registrationId ==> s.challenges[c].challenge.kind == Renew
  }

  /** A renewal is challenged for a name that no registration can take, at a revision the binding has had. */
  ghost predicate RevisedAt(s: Server, c: nat)
    requires c in s.challenges
  {
    var entry := s.challenges[c];
    entry.challenge.kind == Renew ==>
      Closed(s, IdOf(entry)) && (IdOf(entry) in s.bindings ==> entry.baseRevision <= s.bindings[IdOf(entry)].revision)
  }

  ghost predicate Revised(s: Server) {
    forall c :: c in s.challenges ==> c < s.nextId && RevisedAt(s, c)
  }

  /** The proof of this challenge cannot be admitted any more: it was, or another renewal of its binding came first. */
  ghost predicate Beaten(s: Server, c: nat) {
    && c < s.nextId
    && (c in s.challenges ==>
          var entry := s.challenges[c];
          && entry.challenge.kind == Renew && Closed(s, IdOf(entry))
          && (IdOf(entry) in s.bindings ==> s.bindings[IdOf(entry)].revision > entry.baseRevision))
  }

  /** Challenges are used up or fresh, closed names stay closed, and the bindings under them are only renewed or over. */
  ghost predicate Onward(s: Server, s1: Server) {
    && s.nextId <= s1.nextId
    && (forall c :: c in s1.challenges && c < s.nextId ==> c in s.challenges && s1.challenges[c] == s.challenges[c])
    && (forall c :: c in s1.challenges && s.nextId <= c ==> c < s1.nextId && RevisedAt(s1, c))
    && (forall r :: Closed(s, r) ==> Closed(s1, r) && (r in s1.bindings ==> r in s.bindings && s.bindings[r].revision <= s1.bindings[r].revision))
  }

  lemma OnwardKeeps(s: Server, s1: Server, c: nat)
    requires Onward(s, s1) && Revised(s)
    ensures Revised(s1) && (Beaten(s, c) ==> Beaten(s1, c))
  {
    forall d | d in s1.challenges ensures d < s1.nextId && RevisedAt(s1, d) {
      if d < s.nextId { assert RevisedAt(s, d); }
    }
    hide Closed;
  }

  lemma PruneOnward(s: Server)
    requires Revised(s)
    ensures Onward(s, Prune(s))
  {}

  lemma ClosedStays(s: Server, s1: Server, entry: Entry, id: nat, r: nat)
    requires s1 == s.(challenges := s.challenges[id := entry], nextId := s1.nextId) && s.nextId <= s1.nextId
    requires Closed(s, r) && (entry.challenge.kind == Register ==> IdOf(entry) != r)
    ensures Closed(s1, r)
  {}

  lemma HeldIsClosed(s: Server, login: nat, r: nat)
    requires ServerOk(s, login) && r in s.bindings
    ensures Closed(s, r)
  {}

  /** One challenge more: for a fresh name, or for a binding that is held, at its revision. */
  lemma IssueOnward(s: Server, login: nat, s1: Server, entry: Entry, id: nat)
    requires ServerOk(s, login)
    requires s1 == s.(challenges := s.challenges[id := entry], nextId := s1.nextId) && s.nextId <= id < s1.nextId
    requires if entry.challenge.kind == Register then s.nextId <= IdOf(entry) < s1.nextId
             else IdOf(entry) in s.bindings && entry.baseRevision == s.bindings[IdOf(entry)].revision
    ensures Onward(s, s1)
  {
    assert forall c :: c in s.challenges ==> c < s.nextId;
    assert forall r: nat :: Closed(s, r) ==> r < s.nextId;
    if entry.challenge.kind == Renew {
      HeldIsClosed(s, login, IdOf(entry));
      ClosedStays(s, s1, entry, id, IdOf(entry));
    }
    hide ServerOk, Closed;
    forall r: nat | Closed(s, r) ensures Closed(s1, r) { ClosedStays(s, s1, entry, id, r); }
    forall c | c in s1.challenges && s.nextId <= c ensures c < s1.nextId && RevisedAt(s1, c) { assert c == id; }
  }

  lemma FinishOnward(s: Server, login: nat, proved: nat, verified: bool, room: bool)
    requires ServerOk(s, login)
    ensures Onward(s, FinishProof(s, proved, verified, room).server)
  {
    var s1 := FinishProof(s, proved, verified, room).server;
    assert s1.nextId == s.nextId && forall c :: c in s1.challenges ==> c < s.nextId && c in s.challenges && s1.challenges[c] == s.challenges[c];
    hide ServerOk;
    assert forall r :: Closed(s, r) ==> Closed(s1, r);
  }

  /** What every step keeps of a challenge. */
  ghost predicate Keeps(s: Server, s1: Server, c: nat) {
    Revised(s1) && (Beaten(s, c) ==> Beaten(s1, c))
  }

  lemma BeginsKeep(s: Server, login: nat, session: nat, c: nat, post: Post, refusal: Option<Reason>)
    requires ServerOk(s, login) && Revised(s)
    ensures post.BeginRegister? ==> Keeps(s, BeginRegistration(s, session, post.identity, post.key, refusal).server, c)
    ensures post.BeginRenew? ==> Keeps(s, BeginRenewal(s, session, post.registrationId, post.identity, refusal).server, c)
  {
    hide ServerOk, Prune, Revised, Beaten, Onward;
    var p := Prune(s);
    PruneOnward(s);
    OnwardKeeps(s, p, c);
    PruneMoves(s, login);
    if post.BeginRegister? && refusal.None? {
      var s1 := BeginRegistration(s, session, post.identity, post.key, refusal).server;
      IssueOnward(p, login, s1, s1.challenges[p.nextId + 2], p.nextId + 2);
      OnwardKeeps(p, s1, c);
    }
    if post.BeginRenew? && BeginRenewal(s, session, post.registrationId, post.identity, refusal).answer.Ok? {
      var s1 := BeginRenewal(s, session, post.registrationId, post.identity, refusal).server;
      OwnRef(p, login, post.registrationId);
      IssueOnward(p, login, s1, s1.challenges[p.nextId], p.nextId);
      OnwardKeeps(p, s1, c);
    }
  }

  lemma StepKeepsIt(w: World, e: WorldEvent, c: nat)
    requires ServerOk(w.server, w.session) && Revised(w.server)
    ensures Keeps(w.server, WorldStep(w, e).server, c)
  {
    hide LeaseStep, ChallengeArrives, AdmissionArrives, BeginRegistration, BeginRenewal, FinishProof, ServerOk, Prune, BeginProof, Onward;
    PruneOnward(w.server);
    OnwardKeeps(w.server, Prune(w.server), c);
    match e
    case ServerBegins(m, refusal) =>
      if m in w.letters { BeginsKeep(w.server, w.session, w.letters[m].session, c, w.letters[m].post, refusal); }
    case ServerFinishes(m, verified, room) =>
      if m in w.letters && w.letters[m].post.Prove? {
        FinishOnward(w.server, w.session, w.letters[m].post.challengeId, verified, room);
        OnwardKeeps(w.server, FinishProof(w.server, w.letters[m].post.challengeId, verified, room).server, c);
      }
    case _ =>
  }

  lemma {:induction false} RunKeepsIt(w: World, events: seq<WorldEvent>, c: nat)
    requires WorldInv(w) && Revised(w.server)
    ensures Keeps(w.server, WorldExec(w, events).server, c)
    decreases |events|
  {
    if events != [] {
      StepKeepsIt(w, events[0], c);
      hide WorldStep, WorldInv, Revised, Beaten;
      WorldStepKeeps(w, events[0]);
      RunKeepsIt(WorldStep(w, events[0]), events[1..], c);
    }
  }

  lemma ReachableRevised(w: World)
    requires ReachableWorld(w)
    ensures Revised(w.server)
  {
    var start, events :| WorldInit(start) && w == WorldExec(start, events);
    InitHolds(start);
    hide WorldInv;
    RunKeepsIt(start, events, 0);
  }

  /** The proof of this challenge reaches its end at the registry. */
  predicate Finishes(w: World, e: WorldEvent, c: nat) {
    WorldEnabled(w, e) && e.ServerFinishes? && w.letters[e.letter].post == Prove(c)
  }

  /** The proof that was admitted is beaten, and so is every other one for the same renewal. */
  lemma AdmittedBeats(s: Server, c: nat, d: nat, verified: bool, room: bool)
    requires Revised(s) && FinishProof(s, c, verified, room).answer.Ok?
    requires c == d || (d in s.challenges && s.challenges[d].challenge.kind == Renew && s.challenges[c].challenge.kind == Renew
                        && IdOf(s.challenges[d]) == IdOf(s.challenges[c]))
    ensures Beaten(FinishProof(s, c, verified, room).server, d)
  {
    assert RevisedAt(s, c) && RevisedAt(s, d);
    assert c in s.challenges && s.challenges[c].challenge.kind == Renew ==> FinishProof(s, c, verified, room).server.bindings.Keys == s.bindings.Keys;
  }

  /**
   * A challenge counts once, and of several renewals of one binding that were open together at most one is admitted:
   * in every run after an admission, the same proof and the others are refused, however they are timed.
   */
  lemma OneIsAdmitted(w: World, e: WorldEvent, events: seq<WorldEvent>, c: nat, d: nat, verified: bool, room: bool)
    requires ReachableWorld(w) && Finishes(w, e, c) && FinishProof(w.server, c, e.verified, e.room).answer.Ok?
    requires c == d || (d in w.server.challenges && w.server.challenges[d].challenge.kind == Renew && w.server.challenges[c].challenge.kind == Renew
                        && IdOf(w.server.challenges[d]) == IdOf(w.server.challenges[c]))
    ensures
      var later := WorldExec(WorldStep(w, e), events).server;
      FinishProof(later, d, verified, room).answer.Err? && FinishProof(later, d, verified, room).server == later
  {
    ReachableRevised(w);
    ReachableWorldInv(w);
    AdmittedBeats(w.server, c, d, e.verified, e.room);
    assert WorldStep(w, e).server == FinishProof(w.server, c, e.verified, e.room).server;
    hide WorldInv, FinishProof, Revised, Beaten, ReachableWorld;
    WorldStepKeeps(w, e);
    StepRevised(w, e);
    hide WorldStep;
    RunKeepsIt(WorldStep(w, e), events, d);
    BeatenFails(WorldExec(WorldStep(w, e), events).server, d, verified, room);
  }

  lemma StepRevised(w: World, e: WorldEvent)
    requires WorldInv(w) && Revised(w.server)
    ensures Revised(WorldStep(w, e).server)
  {
    StepKeepsIt(w, e, 0);
    hide WorldStep;
  }

  lemma BeatenFails(s: Server, d: nat, verified: bool, room: bool)
    requires Beaten(s, d)
    ensures FinishProof(s, d, verified, room).answer.Err? && FinishProof(s, d, verified, room).server == s
  {}

  /** A renewal that is proved in time makes the lease end a minute after it was asked for, and changes nothing else of it. */
  lemma RenewalExtends(s: Server, session: nat, registrationId: nat, identity: Identity, passed: nat, room: bool, now: int)
    requires Holds(s, session, registrationId) && s.now + passed < s.bindings[registrationId].registration.expiresAt && passed < 5000
    requires s.bindings[registrationId].registration.ref.registrationId == registrationId
    requires identity.documentId == s.bindings[registrationId].registration.identity.documentId
    requires identity.documentEpoch == s.bindings[registrationId].registration.identity.documentEpoch
    ensures
      var begun := BeginRenewal(s, session, registrationId, identity, None);
      var proving := begun.server.(now := s.now + passed);
      && begun.answer.Ok? && BeginProof(proving, session, begun.answer.value.challengeId).None?
      && var done := FinishProof(proving, begun.answer.value.challengeId, true, room);
         && done.answer == Ok(Registration(identity, s.bindings[registrationId].registration.ref, s.now + 60000))
         && (Holds(done.server.(now := now), session, registrationId) <==> now < s.now + 60000)
         && done.server.bindings[registrationId].key == s.bindings[registrationId].key
  {
    RenewalBegins(s, session, registrationId, identity, None);
    var begun := BeginRenewal(s, session, registrationId, identity, None);
    var proving := begun.server.(now := s.now + passed);
    ProofBegins(proving, session, begun.answer.value.challengeId);
    ProofDecides(proving, begun.answer.value.challengeId, true, room);
    assert proving.challenges[begun.answer.value.challengeId].baseRevision == s.bindings[registrationId].revision;
    hide BeginRenewal, FinishProof, BeginProof;
  }
}
