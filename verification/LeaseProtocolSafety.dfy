/**
 * What the page, the registry and the network between them keep together. The joint invariant says what every proof on
 * its way, every challenge the registry holds and every live binding has to do with the page's registration and its
 * candidates, and with the two clocks. It is kept by the quiet steps, in which the page does nothing, and by each segment
 * of the page.
 */
module LeaseProtocolSafety {
  import opened Outcomes
  import opened Lease
  import opened Registry
  import opened LeaseProtocol
  import opened LeaseSafety

  // ---- The server's side

  function IdOf(entry: Entry): nat {
    entry.challenge.binding.ref.registrationId
  }

  /** No challenge that could still create this registration is open. */
  ghost predicate Spent(s: Server, registrationId: nat) {
    forall c :: c in s.challenges && Opens(s.challenges[c], registrationId) ==> s.challenges[c].challenge.challengeExpiresAt <= s.now
  }

  /** The id was drawn, and its challenge is used up. */
  ghost predicate Used(s: Server, registrationId: nat) {
    registrationId < s.nextId && Spent(s, registrationId)
  }

  /** The id was drawn already, and everything under it belongs to a login session up to the given one. */
  ghost predicate Known(s: Server, registrationId: nat, session: nat) {
    && registrationId < s.nextId
    && (forall c :: c in s.challenges && IdOf(s.challenges[c]) == registrationId ==> s.challenges[c].session <= session)
    && (registrationId in s.bindings ==> s.bindings[registrationId].session <= session)
  }

  predicate SameRegistration(e: Entry, f: Entry) {
    e.challenge.kind == Register && f.challenge.kind == Register && IdOf(e) == IdOf(f)
  }

  ghost predicate ServerOk(s: Server, session: nat) {
    && (forall c :: c in s.challenges ==>
          var e := s.challenges[c];
          && e.challenge.challengeId == c < s.nextId && IdOf(e) < s.nextId && e.session <= session
          && e.challenge.challengeExpiresAt <= s.now + DEADLINE_MS
          && (e.challenge.kind == Register ==> IdOf(e) !in s.bindings))
    && (forall c, d | c in s.challenges && d in s.challenges && SameRegistration(s.challenges[c], s.challenges[d]) :: c == d)
    && (forall r :: r in s.bindings ==> r < s.nextId && s.bindings[r].registration.ref.registrationId == r && s.bindings[r].session <= session)
  }

  /** How the server may change: what it holds is old, freshly drawn, or admitted from an open challenge. */
  ghost predicate ServerMoves(s: Server, s1: Server) {
    && s.nextId <= s1.nextId && s.now <= s1.now
    && (forall c :: c in s1.challenges ==>
          || (c in s.challenges && s1.challenges[c] == s.challenges[c])
          || (c >= s.nextId && s1.challenges[c].challenge.kind == Register && IdOf(s1.challenges[c]) >= s.nextId)
          || (c >= s.nextId && s1.challenges[c].challenge.kind == Renew && IdOf(s1.challenges[c]) in s.bindings && s1.challenges[c].session == s.bindings[IdOf(s1.challenges[c])].session))
    && (forall r :: r in s1.bindings ==>
          || (r in s.bindings && s1.bindings[r].session == s.bindings[r].session)
          || (exists c :: c in s.challenges && Opens(s.challenges[c], r) && s.challenges[c].session == s1.bindings[r].session
                          && s.challenges[c].challenge.challengeExpiresAt > s.now))
  }

  lemma FactsLast(s: Server, s1: Server, registrationId: nat, session: nat)
    requires ServerMoves(s, s1) && registrationId < s.nextId
    ensures Spent(s, registrationId) ==> Spent(s1, registrationId)
    ensures Known(s, registrationId, session) ==> Known(s1, registrationId, session)
  {}

  lemma PruneMoves(s: Server, session: nat)
    requires ServerOk(s, session)
    ensures ServerOk(Prune(s), session) && ServerMoves(s, Prune(s))
    ensures forall r, a :: Owned(Prune(s), a, r) <==> Owned(s, a, r)
  {}

  /** Pruning forgets; it changes nothing else. */
  lemma PruneForgets(s: Server)
    ensures Prune(s).now == s.now && Prune(s).nextId == s.nextId
    ensures forall k :: k in Prune(s).challenges ==> k in s.challenges && Prune(s).challenges[k] == s.challenges[k]
    ensures forall q :: q in Prune(s).bindings ==> q in s.bindings && Prune(s).bindings[q] == s.bindings[q]
    ensures forall r, a :: Owned(Prune(s), a, r) <==> Owned(s, a, r)
  {}

  lemma BeginRegistrationOk(s: Server, session: nat, own: nat, identity: Identity, key: Key, refusal: Option<Reason>)
    requires ServerOk(s, session) && own <= session
    ensures ServerOk(BeginRegistration(s, own, identity, key, refusal).server, session)
  {
    PruneMoves(s, session);
    PruneForgets(s);
    hide ServerMoves, Prune;
  }

  lemma BeginRegistrationMoves(s: Server, own: nat, identity: Identity, key: Key, refusal: Option<Reason>)
    ensures ServerMoves(s, BeginRegistration(s, own, identity, key, refusal).server)
  {}

  /** A new challenge for a binding that is held. */
  lemma IssueRenewal(s: Server, session: nat, challenge: Challenge, own: nat, revision: nat)
    requires ServerOk(s, session) && own <= session && challenge.kind == Renew && challenge.challengeId == s.nextId
    requires challenge.challengeExpiresAt == s.now + DEADLINE_MS
    requires challenge.binding.ref.registrationId in s.bindings && s.bindings[challenge.binding.ref.registrationId].session == own
    ensures
      var s1 := Issue(s.(nextId := s.nextId + 1), challenge, own, revision).server;
      ServerOk(s1, session) && ServerMoves(s, s1)
  {}

  lemma BeginRenewalMoves(s: Server, session: nat, own: nat, registrationId: nat, identity: Identity, refusal: Option<Reason>)
    requires ServerOk(s, session) && own <= session
    ensures var done := BeginRenewal(s, own, registrationId, identity, refusal); ServerOk(done.server, session) && ServerMoves(s, done.server)
  {
    hide ServerOk, ServerMoves, Prune, Issue;
    PruneMoves(s, session);
    var p := Prune(s);
    if Owned(p, own, registrationId) {
      OwnRef(p, session, registrationId);
      var next := Registration(identity, p.bindings[registrationId].registration.ref, p.now + LEASE_MS);
      var challenge := Challenge(Renew, next, p.nextId, p.now + DEADLINE_MS, p.bindings[registrationId].key);
      IssueRenewal(p, session, challenge, own, p.bindings[registrationId].revision);
      PrunedFirst(s, Issue(p.(nextId := p.nextId + 1), challenge, own, p.bindings[registrationId].revision).server);
    }
  }

  lemma OwnRef(s: Server, session: nat, registrationId: nat)
    requires ServerOk(s, session) && registrationId in s.bindings
    ensures s.bindings[registrationId].registration.ref.registrationId == registrationId
  {}

  lemma PrunedFirst(s: Server, s1: Server)
    requires ServerMoves(Prune(s), s1)
    ensures ServerMoves(s, s1)
  {}

  lemma FinishProofOk(s: Server, session: nat, challengeId: nat, verified: bool, room: bool)
    requires ServerOk(s, session)
    ensures ServerOk(FinishProof(s, challengeId, verified, room).server, session)
  {}

  lemma FinishProofMoves(s: Server, session: nat, challengeId: nat, verified: bool, room: bool)
    requires ServerOk(s, session)
    ensures ServerMoves(s, FinishProof(s, challengeId, verified, room).server)
  {
    var s1 := FinishProof(s, challengeId, verified, room).server;
    assert forall c :: c in s1.challenges ==> c in s.challenges && s1.challenges[c] == s.challenges[c];
    if challengeId in s.challenges {
      var entry := s.challenges[challengeId];
      assert forall r :: r in s1.bindings && r != IdOf(entry) ==> r in s.bindings && s1.bindings[r] == s.bindings[r];
    }
    hide ServerOk;
  }

  // ---- The joint invariant

  ghost predicate LetterOk(w: World, m: nat)
    requires m in w.letters
  {
    var letter := w.letters[m];
    && m < w.nextLetter && letter.session <= w.session
    && (letter.started ==> letter.post.Prove?)
    && match letter.post
       case Prove(c) => c < w.server.nextId
       case BeginRenew(r, _) => Spent(w.server, r) && Known(w.server, r, letter.session)
       case BeginRegister(_, _) => true
  }

  ghost predicate LettersOk(w: World) {
    && (forall m :: m in w.letters ==> LetterOk(w, m))
    && (forall m, n :: m in w.letters && n in w.letters && w.letters[m].post.Prove? && w.letters[m].post == w.letters[n].post ==> m == n)
  }

  /**
   * By the page's clock the candidate was submitted with `DEADLINE_MS` to its horizon, by the server's the challenge
   * was issued with as much to its end, and no later; since then the server's clock ran at least 5/6 as fast.
   */
  ghost predicate Horizon(w: World, c: Candidate) {
    forall k :: k in w.server.challenges && Opens(w.server.challenges[k], c.ref.registrationId) ==>
      || w.server.challenges[k].challenge.challengeExpiresAt <= w.server.now
      || 5 * (w.env.now - c.localHorizon + DEADLINE_MS) <= 6 * (w.server.now - w.server.challenges[k].challenge.challengeExpiresAt + DEADLINE_MS)
  }

  ghost predicate PageKnown(w: World) {
    && (w.page.registration.Some? ==>
          var r := w.page.registration.value.ref.registrationId;
          Spent(w.server, r) && Known(w.server, r, w.session))
    && (forall c :: c in w.page.candidates ==>
          c.challengeId < w.server.nextId && Known(w.server, c.ref.registrationId, w.session) && Horizon(w, c))
  }

  predicate Proves(w: World, m: nat, challengeId: nat) {
    m in w.letters && w.letters[m].post == Prove(challengeId)
  }

  /** A challenge the page holds or is about to hear: it is the only one for its id, and no proof of it was sent. */
  ghost predicate ChallengeOk(w: World, ch: Challenge) {
    var r := ch.binding.ref.registrationId;
    && ch.challengeId < w.server.nextId && Known(w.server, r, w.session)
    && ch.challengeExpiresAt <= w.server.now + DEADLINE_MS
    && (ch.challengeId in w.server.challenges ==> w.server.challenges[ch.challengeId].challenge == ch)
    && (forall k :: k in w.server.challenges && Opens(w.server.challenges[k], r) ==>
          k == ch.challengeId && w.server.challenges[k].challenge.challengeExpiresAt == ch.challengeExpiresAt)
    && (ch.kind == Register ==> r !in w.server.bindings)
    && (forall m :: !Proves(w, m, ch.challengeId))
    && (forall c :: c in w.page.candidates ==> c.challengeId != ch.challengeId)
  }

  ghost predicate StageKnown(w: World, stage: Stage) {
    !stage.Fresh? ==> Spent(w.server, stage.target.registrationId)
  }

  predicate PostFits(post: Post, stage: Stage) {
    if stage.Fresh? then post.BeginRegister? else post.BeginRenew? && post.registrationId == stage.target.registrationId
  }

  ghost predicate AwaitsChallenge(w: World, stage: Stage) {
    && w.awaited.Some? && w.awaited.value < w.nextLetter
    && (w.awaited.value in w.letters ==> w.reply.None? && PostFits(w.letters[w.awaited.value].post, stage))
    && StageKnown(w, stage)
    && (w.reply == Some(ChallengeReply(Err(StaleRegistration))) && !stage.Fresh? ==> !MayBeLive(w, stage.target.registrationId))
    && (w.reply.Some? && w.reply.value.ChallengeReply? && w.reply.value.challenge.Ok? ==> ChallengeOk(w, w.reply.value.challenge.value))
  }

  /** The awaited proof is still on its way, or was refused. */
  predicate NotAdmitted(w: World)
    requires w.awaited.Some?
  {
    w.awaited.value in w.letters || (w.reply.Some? && w.reply.value.AdmissionReply? && w.reply.value.admission.Err?)
  }

  ghost predicate AwaitsAdmission(w: World, stage: Stage, ch: Challenge) {
    var r := ch.binding.ref.registrationId;
    && w.awaited.Some? && w.awaited.value < w.nextLetter
    && (w.awaited.value in w.letters ==> w.reply.None? && w.letters[w.awaited.value].post == Prove(ch.challengeId))
    && (w.awaited.value !in w.letters ==> forall m :: !Proves(w, m, ch.challengeId))
    && StageKnown(w, stage)
    && Known(w.server, r, w.session)
    && (forall k :: k in w.server.challenges && Opens(w.server.challenges[k], r) ==> k == ch.challengeId)
    && (stage.Fresh? && NotAdmitted(w) ==> r !in w.server.bindings)
    && (w.reply.Some? && w.reply.value.AdmissionReply? && w.reply.value.admission.Ok? ==>
          Used(w.server, w.reply.value.admission.value.ref.registrationId))
    && (stage.Recover? ==> exists c :: c in w.page.candidates && c.challengeId != ch.challengeId)
  }

  ghost predicate PassKnown(w: World) {
    match w.page.pass
    case AwaitChallenge(stage, _, _) => AwaitsChallenge(w, stage)
    case AwaitSignature(stage, _, _, ch) => StageKnown(w, stage) && ChallengeOk(w, ch)
    case AwaitAdmission(stage, _, _, ch) => AwaitsAdmission(w, stage, ch)
    case Reconciled(stage, _, binding) =>
      && StageKnown(w, stage)
      && (binding.Some? ==> Spent(w.server, binding.value.ref.registrationId) && Known(w.server, binding.value.ref.registrationId, w.session))
      && (binding.None? && !stage.Fresh? ==> !MayBeLive(w, stage.target.registrationId))
    case _ => true
  }

  /** Every binding that is or may become live is one the page remembers. */
  ghost predicate Covered(w: World) {
    forall r :: MayBeLive(w, r) ==> Tracks(w.page, r)
  }

  ghost predicate Unique(w: World) {
    forall r, q :: MayBeLive(w, r) && MayBeLive(w, q) ==> r == q
  }

  ghost predicate WorldInv(w: World) {
    && LeaseInv(w.page) && ServerOk(w.server, w.session) && LettersOk(w) && Unique(w)
    && (w.page.alive ==> PageKnown(w) && PassKnown(w) && Covered(w))
  }

  // ---- Steps of the server, the network and the clocks

  /** What the server's answer to a letter means, in the world after it. */
  ghost predicate ReplyMeans(w: World, w1: World, letter: Letter, reply: Reply) {
    match letter.post
    case Prove(_) =>
      && reply.AdmissionReply?
      && (reply.admission.Ok? ==> Used(w1.server, reply.admission.value.ref.registrationId))
      && (reply.admission.Err? ==> w1.server.bindings.Keys <= w.server.bindings.Keys)
    case BeginRenew(r, _) =>
      && reply.ChallengeReply?
      && (reply.challenge.Ok? ==> ChallengeOk(w1, reply.challenge.value))
      && (reply.challenge == Err(StaleRegistration) ==> !MayBeLive(w1, r))
    case BeginRegister(_, _) =>
      reply.ChallengeReply? && (reply.challenge.Ok? ==> ChallengeOk(w1, reply.challenge.value))
  }

  /** A step the page has no part in; `done` is the letter the server is done with, if any. */
  ghost predicate Quiet(w: World, w1: World, done: Option<nat>) {
    && w1.page == w.page && w.session <= w1.session && w1.nextLetter == w.nextLetter && w1.awaited == w.awaited
    && ServerOk(w1.server, w1.session) && ServerMoves(w.server, w1.server)
    && 5 * (w1.env.now - w.env.now) <= 6 * (w1.server.now - w.server.now)
    && (forall m :: m in w1.letters ==> m in w.letters && w1.letters[m].post == w.letters[m].post && w1.letters[m].session == w.letters[m].session
                                         && (w1.letters[m].started ==> w1.letters[m].post.Prove?))
    && (done.Some? ==> done.value in w.letters && done.value !in w1.letters)
    && (forall r :: r in w1.server.bindings && r !in w.server.bindings ==>
          && done.Some? && w.letters[done.value].post.Prove? && w.letters[done.value].post.challengeId in w.server.challenges
          && Opens(w.server.challenges[w.letters[done.value].post.challengeId], r))
    && (forall r :: MayBeLive(w1, r) ==> MayBeLive(w, r))
    && (w1.reply == w.reply
        || (done.Some? && w.awaited == done && w1.reply.Some? && (w.page.alive ==> ReplyMeans(w, w1, w.letters[done.value], w1.reply.value))))
  }

  lemma QuietLetters(w: World, w1: World, done: Option<nat>)
    requires ServerOk(w.server, w.session) && LettersOk(w) && Quiet(w, w1, done)
    ensures LettersOk(w1)
  {
    hide MayBeLive, ReplyMeans, ServerOk, Spent, Known;
    forall m | m in w1.letters ensures LetterOk(w1, m) {
      assert LetterOk(w, m);
      if w.letters[m].post.BeginRenew? { KnownInRange(w.server, w.letters[m].post.registrationId, w.letters[m].session);
        FactsLast(w.server, w1.server, w.letters[m].post.registrationId, w.letters[m].session); }
    }
    hide ServerMoves;
  }

  lemma KnownInRange(s: Server, r: nat, session: nat)
    requires Known(s, r, session)
    ensures r < s.nextId
  {}

  lemma QuietPage(w: World, w1: World, done: Option<nat>)
    requires PageKnown(w) && Quiet(w, w1, done)
    ensures PageKnown(w1)
  {}

  lemma KeepFacts(w: World, w1: World, r: nat, done: Option<nat>)
    requires Quiet(w, w1, done) && Known(w.server, r, w.session)
    ensures Known(w1.server, r, w1.session) && (Spent(w.server, r) ==> Spent(w1.server, r))
  {}

  /** While no proof of the only challenge for an id is on its way, the id does not become bound. */
  lemma StaysUnbound(w: World, w1: World, done: Option<nat>, r: nat, challengeId: nat)
    requires Quiet(w, w1, done) && r !in w.server.bindings
    requires forall k :: k in w.server.challenges && Opens(w.server.challenges[k], r) ==> k == challengeId
    requires done.Some? ==> !Proves(w, done.value, challengeId)
    ensures r !in w1.server.bindings
  {}

  /** The challenges for an id that was drawn already do not change, except to disappear. */
  lemma OpenLasts(w: World, w1: World, done: Option<nat>, r: nat, k: nat)
    requires Quiet(w, w1, done) && r < w.server.nextId && k in w1.server.challenges && Opens(w1.server.challenges[k], r)
    ensures k in w.server.challenges && w.server.challenges[k] == w1.server.challenges[k]
  {}

  lemma ChallengeLasts(w: World, w1: World, done: Option<nat>, ch: Challenge)
    requires Quiet(w, w1, done) && ChallengeOk(w, ch)
    ensures ChallengeOk(w1, ch)
  {
    hide MayBeLive, ReplyMeans, ServerOk, ServerMoves;
    var r := ch.binding.ref.registrationId;
    KeepFacts(w, w1, r, done);
    KnownInRange(w.server, r, w.session);
    hide Known;
    forall k | k in w1.server.challenges && Opens(w1.server.challenges[k], r)
      ensures k == ch.challengeId && w1.server.challenges[k].challenge.challengeExpiresAt == ch.challengeExpiresAt
    {
      OpenLasts(w, w1, done, r, k);
    }
    if ch.kind == Register { StaysUnbound(w, w1, done, r, ch.challengeId); }
    if ch.challengeId in w1.server.challenges { EntryLasts(w, w1, done, ch); }
    assert forall m :: Proves(w1, m, ch.challengeId) ==> Proves(w, m, ch.challengeId);
    IdsGrow(w, w1, done);
  }

  lemma EntryLasts(w: World, w1: World, done: Option<nat>, ch: Challenge)
    requires Quiet(w, w1, done) && ch.challengeId < w.server.nextId && ch.challengeId in w1.server.challenges
    ensures ch.challengeId in w.server.challenges && w1.server.challenges[ch.challengeId] == w.server.challenges[ch.challengeId]
  {}

  lemma IdsGrow(w: World, w1: World, done: Option<nat>)
    requires Quiet(w, w1, done)
    ensures w.server.nextId <= w1.server.nextId && w.server.now <= w1.server.now
  {}

  lemma StageLasts(w: World, w1: World, done: Option<nat>, stage: Stage)
    requires Quiet(w, w1, done) && StageKnown(w, stage) && (!stage.Fresh? ==> stage.target.registrationId < w.server.nextId)
    ensures StageKnown(w1, stage)
  {}

  lemma UsedLasts(w: World, w1: World, done: Option<nat>, r: nat)
    requires Quiet(w, w1, done) && Used(w.server, r)
    ensures Used(w1.server, r)
  {}

  lemma AwaitsChallengeLasts(w: World, w1: World, done: Option<nat>, stage: Stage)
    requires Quiet(w, w1, done) && w.page.alive && AwaitsChallenge(w, stage) && (!stage.Fresh? ==> stage.target.registrationId < w.server.nextId)
    ensures AwaitsChallenge(w1, stage)
  {
    hide MayBeLive, ServerOk, ServerMoves, ChallengeOk, StageKnown;
    StageLasts(w, w1, done, stage);
    if w1.reply == w.reply && w.reply.Some? && w.reply.value.ChallengeReply? && w.reply.value.challenge.Ok? {
      ChallengeLasts(w, w1, done, w.reply.value.challenge.value);
    }
  }

  lemma AwaitsAdmissionLasts(w: World, w1: World, done: Option<nat>, stage: Stage, ch: Challenge)
    requires ServerOk(w.server, w.session) && LettersOk(w) && Quiet(w, w1, done) && w.page.alive && AwaitsAdmission(w, stage, ch)
    requires !stage.Fresh? ==> stage.target.registrationId < w.server.nextId
    ensures AwaitsAdmission(w1, stage, ch)
  {
    hide MayBeLive, ServerOk, ServerMoves, StageKnown, LetterOk;
    var r := ch.binding.ref.registrationId;
    StageLasts(w, w1, done, stage);
    KeepFacts(w, w1, r, done);
    KnownInRange(w.server, r, w.session);
    hide Known;
    forall k | k in w1.server.challenges && Opens(w1.server.challenges[k], r) ensures k == ch.challengeId {
      OpenLasts(w, w1, done, r, k);
    }
    assert forall m :: Proves(w1, m, ch.challengeId) ==> Proves(w, m, ch.challengeId);
    if stage.Fresh? && NotAdmitted(w1) {
      if done.Some? && done == w.awaited && done.value in w.letters {
        assert r !in w.server.bindings;
      } else {
        StaysUnbound(w, w1, done, r, ch.challengeId);
      }
    }
    if w1.reply == w.reply && w.reply.Some? && w.reply.value.AdmissionReply? && w.reply.value.admission.Ok? {
      UsedLasts(w, w1, done, w.reply.value.admission.value.ref.registrationId);
    }
  }

  /** The target of a suspended renewal is tracked, so its id is a drawn one. */
  lemma TargetDrawn(w: World, stage: Stage)
    requires PageKnown(w) && StageFits(w.page, stage) && !stage.Fresh?
    ensures stage.target.registrationId < w.server.nextId
  {
    if stage.Recover? { assert w.page.candidates[0] in w.page.candidates; }
    hide Horizon, Spent;
  }

  lemma QuietPass(w: World, w1: World, done: Option<nat>)
    requires WorldInv(w) && w.page.alive && Quiet(w, w1, done)
    ensures PassKnown(w1)
  {
    hide ServerOk, Covered, Unique, MayBeLive;
    assert PassFits(w.page) by { hide Books, Scheduled, OneTarget; }
    hide LeaseInv;
    match w.page.pass
    case AwaitChallenge(stage, _, _) =>
      if !stage.Fresh? { TargetDrawn(w, stage); }
      hide PageKnown, AwaitsChallenge;
      AwaitsChallengeLasts(w, w1, done, stage);
    case AwaitSignature(stage, _, _, ch) =>
      if !stage.Fresh? { TargetDrawn(w, stage); }
      hide PageKnown, ChallengeOk, StageKnown;
      StageLasts(w, w1, done, stage);
      ChallengeLasts(w, w1, done, ch);
    case AwaitAdmission(stage, _, _, ch) =>
      if !stage.Fresh? { TargetDrawn(w, stage); }
      hide PageKnown, AwaitsAdmission;
      AwaitsAdmissionLasts(w, w1, done, stage, ch);
    case Reconciled(stage, _, binding) =>
      if !stage.Fresh? { TargetDrawn(w, stage); }
      hide PageKnown, StageKnown;
      StageLasts(w, w1, done, stage);
      if binding.Some? { KeepFacts(w, w1, binding.value.ref.registrationId, done); }
    case _ =>
  }

  lemma QuietKeeps(w: World, w1: World, done: Option<nat>)
    requires WorldInv(w) && Quiet(w, w1, done)
    ensures WorldInv(w1)
  {
    hide MayBeLive, ReplyMeans, ServerMoves, ServerOk, LeaseInv, PageKnown, PassKnown, LetterOk, Tracks;
    QuietLetters(w, w1, done);
    if w.page.alive {
      QuietPage(w, w1, done);
      QuietPass(w, w1, done);
    }
  }

  // ---- Each quiet step

  /** When bindings and challenges come from before, so does everything that is or may become live. */
  lemma OlderServer(w: World, w1: World, r: nat)
    requires w1.session == w.session && w.server.now <= w1.server.now
    requires forall k :: k in w1.server.challenges ==>
      (k in w.server.challenges && w1.server.challenges[k] == w.server.challenges[k]) || (forall m :: !Proves(w1, m, k))
    requires forall m :: m in w1.letters ==> m in w.letters && w1.letters[m].post == w.letters[m].post
    requires Live(w1.server, w.session, r) ==> Live(w.server, w.session, r)
    ensures MayBeLive(w1, r) ==> MayBeLive(w, r)
  {
    if MayBeLive(w1, r) && !Live(w1.server, w1.session, r) {
      var c, m :| c in w1.server.challenges && Opens(w1.server.challenges[c], r) && w1.server.challenges[c].session == w1.session
        && w1.server.challenges[c].challenge.challengeExpiresAt > w1.server.now && m in w1.letters && w1.letters[m].post == Prove(c);
      assert Proves(w1, m, c);
      assert w.letters[m].post == Prove(c);
    }
  }

  /** The registry answered a begin request without binding anything. */
  lemma BeganQuiet(w: World, m: nat, server: Server, reply: Reply)
    requires m in w.letters && !w.letters[m].post.Prove? && (forall n :: n in w.letters && w.letters[n].started ==> w.letters[n].post.Prove?)
    requires ServerOk(server, w.session) && ServerMoves(w.server, server) && server.now == w.server.now
    requires forall r :: r in server.bindings ==> r in w.server.bindings
    requires forall r :: MayBeLive(Respond(w, m, server, reply), r) ==> MayBeLive(w, r)
    requires w.page.alive ==> ReplyMeans(w, Respond(w, m, server, reply), w.letters[m], reply)
    ensures Quiet(w, Respond(w, m, server, reply), Some(m))
  {}

  /** Issuing a challenge or refusing makes nothing live. */
  lemma BeganShrinks(w: World, m: nat, server: Server, reply: Reply, r: nat)
    requires LettersOk(w) && server.now == w.server.now
    requires forall k :: k in server.challenges ==> k >= w.server.nextId || (k in w.server.challenges && server.challenges[k] == w.server.challenges[k])
    requires forall q :: q in server.bindings ==> q in w.server.bindings && server.bindings[q] == w.server.bindings[q]
    ensures MayBeLive(Respond(w, m, server, reply), r) ==> MayBeLive(w, r)
  {}

  lemma IssuedRegistrationOk(w: World, m: nat, done: Answered<Challenge>, identity: Identity, key: Key)
    requires ServerOk(w.server, w.session) && LettersOk(w) && PageKnown(w) && m in w.letters
    requires done == BeginRegistration(w.server, w.letters[m].session, identity, key, None)
    ensures ChallengeOk(Respond(w, m, done.server, ChallengeReply(done.answer)), done.answer.value)
  {}

  lemma IssuedRenewalOk(w: World, m: nat, done: Answered<Challenge>, registrationId: nat, identity: Identity, refusal: Option<Reason>)
    requires ServerOk(w.server, w.session) && LettersOk(w) && PageKnown(w) && m in w.letters
    requires done == BeginRenewal(w.server, w.letters[m].session, registrationId, identity, refusal) && done.answer.Ok?
    ensures ChallengeOk(Respond(w, m, done.server, ChallengeReply(done.answer)), done.answer.value)
  {}

  /** A "gone" answer means that the binding is not live and cannot become so. */
  lemma GoneIsDead(w: World, m: nat, server: Server, registrationId: nat, reply: Reply)
    requires LettersOk(w) && m in w.letters && w.letters[m].post.BeginRenew? && w.letters[m].post.registrationId == registrationId
    requires !Owned(w.server, w.letters[m].session, registrationId) && server == Prune(w.server)
    ensures !MayBeLive(Respond(w, m, server, reply), registrationId)
  {}

  /** A begin request leaves the clock and the bindings, and adds at most a fresh challenge. */
  ghost predicate OnlyIssues(s: Server, s1: Server) {
    && s1.now == s.now
    && (forall k :: k in s1.challenges ==> k >= s.nextId || (k in s.challenges && s1.challenges[k] == s.challenges[k]))
    && (forall q :: q in s1.bindings ==> q in s.bindings && s1.bindings[q] == s.bindings[q])
  }

  lemma RenewalOnlyIssues(s: Server, own: nat, registrationId: nat, identity: Identity, refusal: Option<Reason>)
    requires refusal != Some(StaleRegistration)
    ensures
      var done := BeginRenewal(s, own, registrationId, identity, refusal);
      OnlyIssues(s, done.server) && (done.answer == Err(StaleRegistration) ==> !Owned(s, own, registrationId) && done.server == Prune(s))
  {}

  /** Every letter the server started on is a proof. */
  lemma StartedProves(w: World)
    requires LettersOk(w)
    ensures forall n :: n in w.letters && w.letters[n].started ==> w.letters[n].post.Prove?
  {}

  lemma BeginRegisterQuiet(w: World, m: nat, refusal: Option<Reason>)
    requires WorldInv(w) && m in w.letters && w.letters[m].post.BeginRegister?
    ensures Quiet(w, ServerBeginsStep(w, m, refusal), Some(m))
  {
    hide LeaseInv, Unique, PassKnown, Covered;
    var post, own := w.letters[m].post, w.letters[m].session;
    assert LetterOk(w, m);
    BeginRegistrationOk(w.server, w.session, own, post.identity, post.key, refusal);
    BeginRegistrationMoves(w.server, own, post.identity, post.key, refusal);
    var done := BeginRegistration(w.server, own, post.identity, post.key, refusal);
    var reply := ChallengeReply(done.answer);
    forall r ensures MayBeLive(Respond(w, m, done.server, reply), r) ==> MayBeLive(w, r) { BeganShrinks(w, m, done.server, reply, r); }
    if w.page.alive && refusal.None? { IssuedRegistrationOk(w, m, done, post.identity, post.key); }
    StartedProves(w);
    hide MayBeLive, ServerOk, ServerMoves, PageKnown, LettersOk, ChallengeOk;
    BeganQuiet(w, m, done.server, reply);
  }

  lemma BeginRenewQuiet(w: World, m: nat, refusal: Option<Reason>)
    requires WorldInv(w) && m in w.letters && w.letters[m].post.BeginRenew? && refusal != Some(StaleRegistration)
    ensures Quiet(w, ServerBeginsStep(w, m, refusal), Some(m))
  {
    hide LeaseInv, Unique, PassKnown, Covered;
    var post, own := w.letters[m].post, w.letters[m].session;
    assert LetterOk(w, m);
    BeginRenewalMoves(w.server, w.session, own, post.registrationId, post.identity, refusal);
    var done := BeginRenewal(w.server, own, post.registrationId, post.identity, refusal);
    RenewalOnlyIssues(w.server, own, post.registrationId, post.identity, refusal);
    hide BeginRenewal;
    var reply := ChallengeReply(done.answer);
    forall r ensures MayBeLive(Respond(w, m, done.server, reply), r) ==> MayBeLive(w, r) { BeganShrinks(w, m, done.server, reply, r); }
    if w.page.alive && done.answer.Ok? { IssuedRenewalOk(w, m, done, post.registrationId, post.identity, refusal); }
    if done.answer == Err(StaleRegistration) { GoneIsDead(w, m, done.server, post.registrationId, reply); }
    StartedProves(w);
    hide MayBeLive, ServerOk, ServerMoves, PageKnown, LettersOk, ChallengeOk;
    BeganQuiet(w, m, done.server, reply);
  }

  // ---- Proofs

  /** The registry only pruned while a proof moved on. */
  lemma PrunedQuiet(w: World, w1: World, done: Option<nat>)
    requires WorldInv(w) && w1.server == Prune(w.server) && w1.page == w.page && w1.session == w.session && w1.env == w.env
    requires w1.nextLetter == w.nextLetter && w1.awaited == w.awaited && LettersOk(w)
    requires forall m | m in w1.letters ::
      m in w.letters && w1.letters[m].post == w.letters[m].post && w1.letters[m].session == w.letters[m].session && (w1.letters[m].started ==> w1.letters[m].post.Prove?)
    requires done.Some? ==> done.value in w.letters && done.value !in w1.letters
    requires w1.reply == w.reply || (done.Some? && w.awaited == done && w1.reply.Some? && ReplyMeans(w, w1, w.letters[done.value], w1.reply.value))
    ensures Quiet(w, w1, done)
  {
    assert ServerOk(w.server, w.session);
    hide WorldInv, LettersOk;
    PruneMoves(w.server, w.session);
    PruneForgets(w.server);
    hide ServerOk, ServerMoves, Prune, Owned, ReplyMeans;
    forall r ensures MayBeLive(w1, r) ==> MayBeLive(w, r) { OlderServer(w, w1, r); }
    hide MayBeLive;
  }

  lemma VerifiesQuiet(w: World, m: nat)
    requires WorldInv(w) && m in w.letters && w.letters[m].post.Prove?
    ensures Quiet(w, ServerVerifiesStep(w, m), if m in ServerVerifiesStep(w, m).letters then None else Some(m))
  {
    StartedProves(w);
    PruneForgets(w.server);
    hide WorldInv, LettersOk, Prune, BeginProof, Quiet;
    var w1 := ServerVerifiesStep(w, m);
    PrunedQuiet(w, w1, if m in w1.letters then None else Some(m));
  }

  /** What is live after a proof was live before, or was what the proof opened. */
  lemma FinishShrinks(w: World, m: nat, verified: bool, room: bool, r: nat)
    requires ServerOk(w.server, w.session) && m in w.letters && w.letters[m].post.Prove?
    ensures MayBeLive(ServerFinishesStep(w, m, verified, room), r) ==> MayBeLive(w, r)
  {}

  lemma AdmittedIsUsed(s: Server, session: nat, challengeId: nat, verified: bool, room: bool)
    requires ServerOk(s, session) && FinishProof(s, challengeId, verified, room).answer.Ok?
    ensures var done := FinishProof(s, challengeId, verified, room); Used(done.server, done.answer.value.ref.registrationId)
  {}

  /** A refused proof binds nothing; an admitted one binds at most what its challenge was for. */
  lemma FinishBinds(s: Server, challengeId: nat, verified: bool, room: bool)
    ensures
      var done := FinishProof(s, challengeId, verified, room);
      && done.server.now == s.now
      && (done.answer.Err? ==> done.server == s)
      && (forall r :: r in done.server.bindings && r !in s.bindings ==> challengeId in s.challenges && Opens(s.challenges[challengeId], r))
  {}

  lemma FinishesQuiet(w: World, m: nat, verified: bool, room: bool)
    requires WorldInv(w) && m in w.letters && w.letters[m].post.Prove?
    ensures Quiet(w, ServerFinishesStep(w, m, verified, room), Some(m))
  {
    hide LeaseInv, Unique, PassKnown, Covered, PageKnown;
    var w1 := ServerFinishesStep(w, m, verified, room);
    var c := w.letters[m].post.challengeId;
    FinishProofOk(w.server, w.session, c, verified, room);
    FinishProofMoves(w.server, w.session, c, verified, room);
    StartedProves(w);
    forall r ensures MayBeLive(w1, r) ==> MayBeLive(w, r) { FinishShrinks(w, m, verified, room, r); }
    if FinishProof(w.server, c, verified, room).answer.Ok? { AdmittedIsUsed(w.server, w.session, c, verified, room); }
    FinishBinds(w.server, c, verified, room);
    hide MayBeLive, ServerOk, ServerMoves, LettersOk, FinishProof;
  }

  lemma RefusesQuiet(w: World, m: nat, reason: Reason)
    requires WorldInv(w) && m in w.letters && reason != StaleRegistration
    ensures Quiet(w, WorldStep(w, RouteRefuses(m, reason)), if w.letters[m].started then None else Some(m))
  {
    hide LeaseInv, Unique, PassKnown, Covered, PageKnown;
    var w1 := WorldStep(w, RouteRefuses(m, reason));
    StartedProves(w);
    hide ServerOk, LettersOk;
    forall r ensures MayBeLive(w1, r) ==> MayBeLive(w, r) { OlderServer(w, w1, r); }
    hide MayBeLive;
  }

  lemma PrunesQuiet(w: World)
    requires WorldInv(w)
    ensures Quiet(w, WorldStep(w, ServerPrunes), None)
  {
    StartedProves(w);
    hide WorldInv, LettersOk, Prune, Quiet;
    PrunedQuiet(w, WorldStep(w, ServerPrunes), None);
  }

  lemma RestartsQuiet(w: World)
    requires WorldInv(w)
    ensures Quiet(w, WorldStep(w, ServerRestarts), None)
  {
    hide LeaseInv, Unique, PassKnown, Covered, PageKnown;
    var w1 := WorldStep(w, ServerRestarts);
    StartedProves(w);
    hide LettersOk;
    forall r ensures MayBeLive(w1, r) ==> MayBeLive(w, r) { OlderServer(w, w1, r); }
    hide MayBeLive;
  }

  lemma TimeQuiet(w: World, pageMs: nat, serverMs: nat)
    requires WorldInv(w) && 5 * pageMs <= 6 * serverMs
    ensures Quiet(w, WorldStep(w, TimePasses(pageMs, serverMs)), None)
  {
    hide LeaseInv, Unique, PassKnown, Covered, PageKnown;
    var w1 := WorldStep(w, TimePasses(pageMs, serverMs));
    StartedProves(w);
    hide LettersOk;
    forall r ensures MayBeLive(w1, r) ==> MayBeLive(w, r) { OlderServer(w, w1, r); }
    hide MayBeLive;
  }

  lemma PageChangesQuiet(w: World, mounted: bool, identity: Result<Identity, Reason>, connected: bool)
    requires WorldInv(w)
    ensures Quiet(w, WorldStep(w, PageChanges(mounted, identity, connected)), None)
  {
    hide LeaseInv, Unique, PassKnown, Covered, PageKnown;
    var w1 := WorldStep(w, PageChanges(mounted, identity, connected));
    StartedProves(w);
    hide ServerOk, LettersOk;
    forall r ensures MayBeLive(w1, r) ==> MayBeLive(w, r) { OlderServer(w, w1, r); }
    hide MayBeLive;
  }

  /** Nothing belongs to a new login session yet. */
  lemma LoginQuiet(w: World)
    requires WorldInv(w)
    ensures Quiet(w, WorldStep(w, LoginChanges), None)
  {
    hide LeaseInv, Unique, PassKnown, Covered, PageKnown;
    var w1 := WorldStep(w, LoginChanges);
    StartedProves(w);
    assert forall r :: !MayBeLive(w1, r);
    hide LettersOk, MayBeLive;
  }

  // ---- Steps of the page

  /** What may be live depends only on the server, the letters and the login session. */
  lemma SameElsewhere(w: World, w1: World, r: nat)
    requires w1.server == w.server && w1.letters == w.letters && w1.session == w.session
    ensures MayBeLive(w1, r) <==> MayBeLive(w, r)
  {}

  /** The page moved without posting, and remembers what it did before. */
  ghost predicate Still(w: World, w1: World) {
    && w1.server == w.server && w1.letters == w.letters && w1.session == w.session && w1.env == w.env && w1.nextLetter == w.nextLetter
    && w1.page.registration == w.page.registration && w1.page.candidates == w.page.candidates && w1.page.alive == w.page.alive
  }

  lemma StillKeeps(w: World, w1: World)
    requires WorldInv(w) && Still(w, w1) && LeaseInv(w1.page) && (w1.page.alive ==> PassKnown(w1))
    ensures WorldInv(w1)
  {
    hide LeaseInv, PassKnown, MayBeLive, ServerOk, Spent, Known;
    forall r ensures MayBeLive(w1, r) <==> MayBeLive(w, r) { SameElsewhere(w, w1, r); }
    assert LettersOk(w1) by { assert forall m :: m in w.letters ==> LetterOk(w, m) && LetterOk(w1, m); }
    hide LettersOk;
    if w.page.alive {
      assert PageKnown(w1) by { assert forall c :: Horizon(w, c) ==> Horizon(w1, c); }
      hide PageKnown;
    }
  }

  /** Where a begin answer can leave the page. */
  lemma ChallengeOutcome(l: LeaseState, env: PageEnv, answer: Result<Challenge, Error>)
    requires l.pass.AwaitChallenge?
    ensures
      var moved := ChallengeArrives(l, env, answer);
      var stage := l.pass.stage;
      && moved.post.None? && moved.state == l.(pass := moved.state.pass, log := moved.state.log)
      && (|| moved.state.pass.PassOver?
          || (moved.state.pass == Reconciled(stage, l.pass.expected, None) && !stage.Fresh? && answer == Err(Refused(StaleRegistration)))
          || (answer.Ok? && moved.state.pass == AwaitSignature(stage, l.pass.captured, l.pass.expected, answer.value)))
  {}

  /** The page is still for the same registration and candidates, so what it holds of a challenge still stands. */
  lemma ChallengeStays(w: World, w1: World, ch: Challenge)
    requires Still(w, w1) && ChallengeOk(w, ch)
    ensures ChallengeOk(w1, ch)
  {
    assert forall m :: Proves(w1, m, ch.challengeId) ==> Proves(w, m, ch.challengeId);
    hide Known;
  }

  lemma ChallengeHeardPass(w: World, w1: World, answer: Result<Challenge, Error>)
    requires w.page.pass.AwaitChallenge? && AwaitsChallenge(w, w.page.pass.stage) && Still(w, w1)
    requires (answer.Err? && Lost(answer.error)) || (w.reply.Some? && w.reply.value.ChallengeReply? && answer == Lift(w.reply.value.challenge))
    requires w1.page == ChallengeArrives(w.page, w.env, answer).state
    ensures PassKnown(w1)
  {
    ChallengeOutcome(w.page, w.env, answer);
    hide ChallengeArrives, ChallengeOk, MayBeLive;
    if w1.page.pass.Reconciled? { SameElsewhere(w, w1, w.page.pass.stage.target.registrationId); }
    if w1.page.pass.AwaitSignature? { ChallengeStays(w, w1, answer.value); }
  }

  /** An answer to a begin request, or its loss. */
  lemma ChallengeHeard(w: World, answer: Result<Challenge, Error>)
    requires WorldInv(w) && w.page.pass.AwaitChallenge?
    requires (answer.Err? && Lost(answer.error)) || (w.reply.Some? && w.reply.value.ChallengeReply? && answer == Lift(w.reply.value.challenge))
    ensures WorldInv(Deliver(w.(awaited := None, reply := None), ChallengeArrives(w.page, w.env, answer)))
  {
    var w1 := Deliver(w.(awaited := None, reply := None), ChallengeArrives(w.page, w.env, answer));
    ChallengeKeeps(w.page, w.env, answer);
    ChallengeOutcome(w.page, w.env, answer);
    hide ChallengeArrives, LeaseInv, ServerOk, LettersOk, PageKnown, Covered, Unique, AwaitsChallenge;
    if w.page.alive {
      assert PassKnown(w);
      ChallengeHeardPass(w, w1, answer);
    }
    hide PassKnown, WorldInv;
    StillKeeps(w, w1);
  }

  /** Where an admission answer can leave the page. */
  lemma AdmissionOutcome(l: LeaseState, env: PageEnv, answer: Result<Registration, Error>)
    requires l.pass.AwaitAdmission?
    ensures
      var moved := AdmissionArrives(l, env, answer);
      var ch := l.pass.challenge;
      && moved.post.None? && moved.state == l.(pass := moved.state.pass, candidates := moved.state.candidates)
      && (moved.state.pass.PassOver? || (moved.state.pass == Reconciled(l.pass.stage, l.pass.expected, Some(ch.binding)) && answer == Ok(ch.binding)))
      && (moved.state.candidates == l.candidates
          || (answer.Err? && !Lost(answer.error) && moved.state.pass.PassOver? && moved.state.candidates == WithoutChallenge(l.candidates, ch.challengeId)))
  {}

  /** Dropping a refused proof's candidate never loses a binding that is or may become live. */
  lemma DroppingIsSafe(w: World, stage: Stage, ch: Challenge, r: nat)
    requires Covered(w) && AwaitsAdmission(w, stage, ch) && NotAdmitted(w) && w.awaited.value !in w.letters
    requires PassFits(w.page) && w.page.pass.AwaitAdmission? && w.page.pass.stage == stage && w.page.pass.challenge == ch
    requires MayBeLive(w, r)
    ensures Tracks(w.page.(candidates := WithoutChallenge(w.page.candidates, ch.challengeId)), r)
  {
    var kept := WithoutChallenge(w.page.candidates, ch.challengeId);
    WithoutChallengeMembers(w.page.candidates, ch.challengeId);
    assert Tracks(w.page, r);
    if stage.Fresh? {
      assert w.page.candidates == [w.page.candidates[0]];
      assert r == ch.binding.ref.registrationId;
      UnprovedUnbound(w, r, ch.challengeId);
    } else if stage.Recover? {
      var c :| c in w.page.candidates && c.challengeId != ch.challengeId;
      assert c in kept && c.ref == stage.target;
    }
  }

  /** An unbound id whose only challenge has no proof on its way is dead. */
  lemma UnprovedUnbound(w: World, r: nat, challengeId: nat)
    requires r !in w.server.bindings
    requires forall k :: k in w.server.challenges && Opens(w.server.challenges[k], r) ==> k == challengeId
    requires forall m :: !Proves(w, m, challengeId)
    ensures !MayBeLive(w, r)
  {
    if Admissible(w, w.session, r) {
      var c, m :| c in w.server.challenges && Opens(w.server.challenges[c], r) && w.server.challenges[c].session == w.session
        && w.server.challenges[c].challenge.challengeExpiresAt > w.server.now && m in w.letters && w.letters[m].post == Prove(c);
      assert Proves(w, m, challengeId);
    }
  }

  lemma DroppedKeeps(w: World, w1: World)
    requires WorldInv(w) && w.page.pass.AwaitAdmission? && w.page.alive
    requires Denied(w)
    requires w1 == w.(awaited := None, reply := None, page := w1.page) && w1.page.pass.PassOver? && LeaseInv(w1.page)
    requires w1.page == w.page.(pass := w1.page.pass, candidates := WithoutChallenge(w.page.candidates, w.page.pass.challenge.challengeId))
    ensures WorldInv(w1)
  {
    var stage, ch := w.page.pass.stage, w.page.pass.challenge;
    assert PassFits(w.page) && AwaitsAdmission(w, stage, ch);
    forall r ensures MayBeLive(w1, r) <==> MayBeLive(w, r) { SameElsewhere(w, w1, r); }
    forall r | MayBeLive(w1, r) ensures Tracks(w1.page, r) { DroppingIsSafe(w, stage, ch, r); }
    hide LeaseInv, MayBeLive, PassFits, AwaitsAdmission, Spent, Known, ServerOk;
    assert LettersOk(w1) by { assert forall m :: m in w.letters ==> LetterOk(w, m) && LetterOk(w1, m); }
    WithoutChallengeMembers(w.page.candidates, ch.challengeId);
    assert PageKnown(w1) by { assert forall c :: Horizon(w, c) ==> Horizon(w1, c); }
    hide PageKnown, LettersOk;
  }

  /** The server refused the awaited proof, and is done with it. */
  predicate Denied(w: World) {
    w.awaited.Some? && w.awaited.value !in w.letters && NotAdmitted(w)
  }

  lemma AdmissionHeard(w: World, answer: Result<Registration, Error>)
    requires WorldInv(w) && w.page.pass.AwaitAdmission?
    requires (answer.Err? && Lost(answer.error)) || (w.reply.Some? && w.reply.value.AdmissionReply? && answer == Lift(w.reply.value.admission))
    ensures WorldInv(Deliver(w.(awaited := None, reply := None), AdmissionArrives(w.page, w.env, answer)))
  {
    var w1 := Deliver(w.(awaited := None, reply := None), AdmissionArrives(w.page, w.env, answer));
    AdmissionKeeps(w.page, w.env, answer);
    AdmissionOutcome(w.page, w.env, answer);
    hide AdmissionArrives, LeaseInv, ServerOk, LettersOk, PageKnown, Covered, Unique, Spent, Known;
    if w1.page.candidates == w.page.candidates {
      assert w.page.alive ==> PassKnown(w1);
      hide PassKnown, WorldInv;
      StillKeeps(w, w1);
    } else {
      hide PassKnown;
      DroppedKeeps(w, w1);
    }
  }

  // ---- Posts

  /** A letter joins the others. */
  ghost predicate Sent(w: World, w1: World, post: Post) {
    w1 == w.(page := w1.page, letters := w.letters[w.nextLetter := Letter(w.session, post, false)], nextLetter := w.nextLetter + 1,
             awaited := Some(w.nextLetter), reply := None)
  }

  lemma SentLetters(w: World, w1: World, post: Post)
    requires LettersOk(w) && Sent(w, w1, post)
    requires post.Prove? ==> post.challengeId < w.server.nextId && forall m :: !Proves(w, m, post.challengeId)
    requires post.BeginRenew? ==> Spent(w.server, post.registrationId) && Known(w.server, post.registrationId, w.session)
    ensures LettersOk(w1)
  {
    hide Spent, Known;
    forall m | m in w1.letters ensures LetterOk(w1, m) {
      if m in w.letters { assert LetterOk(w, m); }
    }
    NextIsFree(w);
    assert forall m :: m in w.letters && w.letters[m].post == post && post.Prove? ==> Proves(w, m, post.challengeId);
  }

  /** Only a proof can make something live, and only what its challenge is for. */
  lemma SentMayBeLive(w: World, w1: World, post: Post, r: nat)
    requires Sent(w, w1, post) && w.nextLetter !in w.letters && MayBeLive(w1, r)
    ensures MayBeLive(w, r) || (post.Prove? && post.challengeId in w.server.challenges && Opens(w.server.challenges[post.challengeId], r))
  {}

  lemma NextIsFree(w: World)
    requires LettersOk(w)
    ensures w.nextLetter !in w.letters
  {}

  /** The page posts a begin request while it remembers everything that may be live. */
  lemma BeginSent(w: World, w1: World, post: Post, stage: Stage)
    requires ServerOk(w.server, w.session) && LettersOk(w) && Unique(w) && Sent(w, w1, post) && !post.Prove? && PostFits(post, stage)
    requires LeaseInv(w1.page) && w1.page.alive && w1.page.pass.AwaitChallenge? && w1.page.pass.stage == stage
    requires PageKnown(w.(page := w1.page)) && Covered(w.(page := w1.page))
    requires !stage.Fresh? ==> Spent(w.server, stage.target.registrationId) && Known(w.server, stage.target.registrationId, w.session)
    ensures WorldInv(w1)
  {
    var held := w.(page := w1.page);
    hide LeaseInv, ServerOk, Spent, Known;
    NextIsFree(w);
    SentLetters(w, w1, post);
    hide LettersOk;
    forall r | MayBeLive(w1, r) ensures MayBeLive(w, r) && Tracks(w1.page, r) {
      SentMayBeLive(w, w1, post, r);
      SameElsewhere(w, held, r);
    }
    hide MayBeLive;
    assert PageKnown(w1) by { assert forall c :: Horizon(held, c) ==> Horizon(w1, c); }
    hide PageKnown, Unique, Covered;
    assert Unique(w1) && Covered(w1) by { hide Spent; UniqueFrom(w, w1); }
    assert PassKnown(w1);
  }

  lemma UniqueFrom(w: World, w1: World)
    requires Unique(w) && forall r :: MayBeLive(w1, r) ==> MayBeLive(w, r) && Tracks(w1.page, r)
    ensures Unique(w1) && Covered(w1)
  {}

  /** Where a signature can leave the page that posts its proof. */
  lemma ProofOutcome(l: LeaseState, env: PageEnv)
    requires l.pass.AwaitSignature? && SignatureArrives(l, env, true).post.Some?
    ensures
      var moved := SignatureArrives(l, env, true);
      var ch := l.pass.challenge;
      && l.alive && moved.post == Some(Prove(ch.challengeId))
      && moved.state == l.(pass := AwaitAdmission(l.pass.stage, l.pass.captured, l.pass.expected, ch), log := moved.state.log,
                           candidates := WithCandidate(l.candidates, Candidate(ch.challengeId, ch.binding.ref, ch.challengeExpiresAt, ch.binding.expiresAt, env.now + DEADLINE_MS)))
  {}

  /** Once the proof is sent, the registration it is for is the only one that is or may become live. */
  lemma ProofAlone(w: World, w1: World, stage: Stage, ch: Challenge, r: nat)
    requires Covered(w) && LettersOk(w) && Sent(w, w1, Prove(ch.challengeId)) && ChallengeOk(w, ch) && MayBeLive(w1, r)
    requires StageFits(w.page, stage) && (!stage.Fresh? ==> ch.binding.ref == stage.target)
    ensures r == ch.binding.ref.registrationId
  {
    NextIsFree(w);
    hide LettersOk;
    SentMayBeLive(w, w1, Prove(ch.challengeId), r);
    assert MayBeLive(w, r) ==> Tracks(w.page, r);
    hide MayBeLive;
  }

  /** The candidate's horizon is sound from the start. */
  lemma ProofKnown(w: World, w1: World, ch: Challenge, c: Candidate)
    requires PageKnown(w) && ChallengeOk(w, ch) && w1.server == w.server && w1.env == w.env && w1.session == w.session
    requires w1.page.registration == w.page.registration && w1.page.candidates == w.page.candidates + [c]
    requires c.challengeId == ch.challengeId && c.ref == ch.binding.ref && c.localHorizon == w.env.now + DEADLINE_MS
    ensures PageKnown(w1)
  {}

  /** The page posts its proof: the one binding that may now become live is the one it tracks. */
  lemma ProofSent(w: World)
    requires WorldInv(w) && w.page.pass.AwaitSignature? && SignatureArrives(w.page, w.env, true).post.Some?
    ensures WorldInv(Deliver(w, SignatureArrives(w.page, w.env, true)))
  {
    var w1 := Deliver(w, SignatureArrives(w.page, w.env, true));
    var stage, ch := w.page.pass.stage, w.page.pass.challenge;
    ProofOutcome(w.page, w.env);
    SignatureKeeps(w.page, w.env, true);
    assert PassFits(w.page) && PassKnown(w);
    hide SignatureArrives, LeaseInv, PassFits;
    var c := Candidate(ch.challengeId, ch.binding.ref, ch.challengeExpiresAt, ch.binding.expiresAt, w.env.now + DEADLINE_MS);
    WithCandidateMembers(w.page.candidates, c);
    ProofKnown(w, w1, ch, c);
    NextIsFree(w);
    SentLetters(w, w1, Prove(ch.challengeId));
    forall r | MayBeLive(w1, r) ensures r == ch.binding.ref.registrationId { ProofAlone(w, w1, stage, ch, r); }
    assert c in w1.page.candidates && c.ref == ch.binding.ref;
    hide MayBeLive, ServerOk, PageKnown, LettersOk, Covered, Unique;
    ProofAwaits(w, w1, stage, ch);
    OneIsUnique(w1, ch.binding.ref.registrationId);
  }

  lemma OneIsUnique(w: World, r: nat)
    requires (forall q :: MayBeLive(w, q) ==> q == r) && Tracks(w.page, r)
    ensures Unique(w) && Covered(w)
  {}

  lemma ProofAwaits(w: World, w1: World, stage: Stage, ch: Challenge)
    requires StageKnown(w, stage) && ChallengeOk(w, ch) && Sent(w, w1, Prove(ch.challengeId)) && w.nextLetter !in w.letters
    requires stage.Fresh? ==> ch.kind == Register
    requires stage.Recover? ==> w.page.candidates != []
    requires w.page.candidates <= w1.page.candidates
    ensures AwaitsAdmission(w1, stage, ch)
  {
    hide Known, Spent;
    if stage.Recover? {
      assert w.page.candidates[0] in w.page.candidates;
      assert w1.page.candidates[0] == w.page.candidates[0];
    }
  }

  // ---- Passes begin, resume and end

  /** What a pass that begins can post, and when. */
  lemma StartOutcome(l: LeaseState, env: PageEnv)
    requires OneTarget(l)
    ensures
      var moved := StartPass(l, env);
      && moved.state.registration == l.registration && moved.state.candidates == l.candidates && moved.state.alive == l.alive
      && (moved.post.None? ==> moved.state.pass.PassOver?)
      && (moved.post.Some? ==>
            && moved.state.pass.AwaitChallenge? && !moved.post.value.Prove? && PostFits(moved.post.value, moved.state.pass.stage)
            && (moved.state.pass.stage.Current? ==> l.registration.Some? && l.registration.value.ref == moved.state.pass.stage.target)
            && (moved.state.pass.stage.Recover? ==>
                  && l.candidates != [] && AllFor(l.candidates, moved.state.pass.stage.target)
                  && l.candidates[0].localHorizon + HORIZON_MARGIN_MS <= env.now)
            && (moved.state.pass.stage.Fresh? ==> l.registration.None? && l.candidates == []))
  {}

  /** Past a candidate's horizon, by the page's clock and with the margin, its challenge is over by the server's. */
  lemma HorizonPassed(w: World, c: Candidate)
    requires Horizon(w, c) && c.localHorizon + HORIZON_MARGIN_MS <= w.env.now
    ensures Spent(w.server, c.ref.registrationId)
  {}

  /** The page remembers the same registration and candidates, so it still remembers everything. */
  lemma SameMemory(w: World, l1: LeaseState)
    requires PageKnown(w) && Covered(w) && l1.registration == w.page.registration && l1.candidates == w.page.candidates
    ensures PageKnown(w.(page := l1)) && Covered(w.(page := l1))
  {
    var held := w.(page := l1);
    assert forall c :: Horizon(w, c) ==> Horizon(held, c);
    hide Horizon, Spent, Known;
    forall r | MayBeLive(held, r) ensures Tracks(held.page, r) {
      SameElsewhere(w, held, r);
      assert Tracks(w.page, r);
    }
    hide MayBeLive, Covered;
  }

  lemma PassBegins(w: World, l: LeaseState)
    requires WorldInv(w) && w.page.alive && l.alive && l.registration == w.page.registration && l.candidates == w.page.candidates && OneTarget(l)
    requires LeaseInv(StartPass(l, w.env).state)
    ensures WorldInv(Deliver(w, StartPass(l, w.env)))
  {
    var moved := StartPass(l, w.env);
    var w1 := Deliver(w, moved);
    StartOutcome(l, w.env);
    hide StartPass, LeaseInv;
    if moved.post.None? {
      hide WorldInv, OneTarget;
      StillKeeps(w, w1);
    } else {
      var stage := moved.state.pass.stage;
      SameMemory(w, w1.page);
      if stage.Recover? {
        var c := w.page.candidates[0];
        assert c in w.page.candidates;
        HorizonPassed(w, c);
      }
      hide MayBeLive, Horizon, LettersOk, ServerOk, Unique, PassKnown, Covered, Spent, Known;
      BeginSent(w, w1, moved.post.value, stage);
    }
  }

  /** `runMaintenance`, from a page that differs from the world's only in its timers, counters and log. */
  lemma WakeWorld(w: World, l: LeaseState)
    requires WorldInv(w) && l.alive == w.page.alive && l.registration == w.page.registration && l.candidates == w.page.candidates
    requires l.pass == w.page.pass || (l.pass == Idle && w.page.pass == Unwinding)
    requires LeaseInv(Wake(l, w.env).state)
    ensures WorldInv(Deliver(w, Wake(l, w.env)))
  {
    var w1 := Deliver(w, Wake(l, w.env));
    if l.started && l.alive && l.pass == Idle {
      assert OneTarget(w.page);
      hide LeaseInv;
      PassBegins(w, l);
    } else {
      hide LeaseInv, ServerOk, LettersOk, Covered, Unique, PageKnown;
      if w.page.alive { SamePass(w, w1); }
      hide WorldInv, PassKnown;
      StillKeeps(w, w1);
    }
  }

  /** What is known of a suspended pass does not depend on the page's timers, counters and log. */
  lemma SamePass(w: World, w1: World)
    requires PassKnown(w) && w1.server == w.server && w1.letters == w.letters && w1.session == w.session && w1.nextLetter == w.nextLetter
    requires w1.awaited == w.awaited && w1.reply == w.reply && w1.page.candidates == w.page.candidates && w1.page.registration == w.page.registration
    requires w1.page.pass == w.page.pass || w1.page.pass == Idle || w1.page.pass == Unwinding || w1.page.pass.PassOver?
    ensures PassKnown(w1)
  {
    hide Known, Spent, MayBeLive;
    assert forall m, k :: Proves(w1, m, k) <==> Proves(w, m, k);
    forall r ensures MayBeLive(w1, r) <==> MayBeLive(w, r) { SameElsewhere(w, w1, r); }
  }

  /** After a "gone" answer nothing is or may become live, and nothing is tracked. */
  lemma GoneWorld(w: World)
    requires WorldInv(w) && w.page.alive && w.page.pass.Reconciled? && w.page.pass.binding.None?
    ensures forall r :: !MayBeLive(w, r)
  {}

  /** A page that tracks nothing, in a world where nothing may be live. */
  lemma ForgetfulOk(w: World, l1: LeaseState)
    requires (forall r :: !MayBeLive(w, r)) && l1.registration.None? && l1.candidates == []
    ensures PageKnown(w.(page := l1)) && Covered(w.(page := l1)) && Unique(w.(page := l1))
  {
    forall r ensures !MayBeLive(w.(page := l1), r) { SameElsewhere(w, w.(page := l1), r); }
    hide MayBeLive;
  }

  lemma GoneOutcome(l: LeaseState, env: PageEnv)
    requires LeaseInv(l) && l.pass.Reconciled? && l.pass.binding.None? && !l.pass.stage.Fresh?
    ensures
      var moved := Resume(l, env);
      && moved.state.alive == l.alive
      && (l.alive ==> moved.state.registration.None? && moved.state.candidates == [])
      && (moved.post.None? ==> moved.state.pass.PassOver?)
      && (moved.post.Some? ==> l.alive && moved.state.pass.AwaitChallenge? && moved.state.pass.stage == Fresh && moved.post.value.BeginRegister?)
  {
    GoneClears(l);
    hide LeaseInv;
  }

  lemma ResumeWorld(w: World)
    requires WorldInv(w) && LeaseEnabled(w.page, Resumes(w.env))
    ensures WorldInv(Deliver(w, Resume(w.page, w.env)))
  {
    var w1 := Deliver(w, Resume(w.page, w.env));
    ResumeKeeps(w.page, w.env);
    if w.page.pass.binding.Some? {
      AdoptWorld(w, w1);
    } else {
      GoneOutcome(w.page, w.env);
      hide Resume;
      if !w.page.alive {
        hide LeaseInv, MayBeLive;
        RetiredWorld(w, w1);
      } else {
        GoneWorld(w);
        ForgetfulOk(w, w1.page);
        if w1.page.pass.PassOver? {
          assert w1 == w.(page := w1.page);
          assert LettersOk(w1) by { assert forall m :: m in w.letters ==> LetterOk(w, m) && LetterOk(w1, m); }
          hide LeaseInv, ServerOk, LettersOk, Covered, Unique, PageKnown, MayBeLive;
        } else {
          hide LeaseInv, ServerOk, LettersOk, Covered, Unique, PageKnown, MayBeLive, PassKnown;
          BeginSent(w, w1, Resume(w.page, w.env).post.value, Fresh);
        }
      }
    }
  }

  /** For a retired page only the server's side matters. */
  lemma RetiredWorld(w: World, w1: World)
    requires WorldInv(w) && w1.server == w.server && w1.letters == w.letters && w1.session == w.session && w1.nextLetter == w.nextLetter
    requires LeaseInv(w1.page) && !w1.page.alive
    ensures WorldInv(w1)
  {
    hide LeaseInv, PageKnown, PassKnown, Covered, ServerOk;
    forall r ensures MayBeLive(w1, r) <==> MayBeLive(w, r) { SameElsewhere(w, w1, r); }
    hide MayBeLive;
    assert LettersOk(w1) by { assert forall m :: m in w.letters ==> LetterOk(w, m) && LetterOk(w1, m); }
    hide LettersOk;
  }

  lemma AdoptWorld(w: World, w1: World)
    requires WorldInv(w) && w.page.pass.Reconciled? && w.page.pass.binding.Some?
    requires w1 == Deliver(w, Resume(w.page, w.env)) && LeaseInv(w1.page)
    ensures WorldInv(w1)
  {
    var binding := w.page.pass.binding.value;
    if !w.page.alive {
      hide LeaseInv, MayBeLive;
      RetiredWorld(w, w1);
    } else {
      assert PassFits(w.page) && PassKnown(w);
      assert AllFor(w.page.candidates, binding.ref) && (w.page.registration.Some? ==> w.page.registration.value.ref == binding.ref);
      WithoutRegistrationOfAll(w.page.candidates, binding.ref);
      hide LeaseInv, PassFits, ServerOk;
      forall r | MayBeLive(w1, r) ensures MayBeLive(w, r) && r == binding.ref.registrationId {
        SameElsewhere(w, w1, r);
        assert Tracks(w.page, r);
      }
      hide MayBeLive, Spent, Known;
      assert LettersOk(w1) by { assert forall m :: m in w.letters ==> LetterOk(w, m) && LetterOk(w1, m); }
      hide LettersOk, Covered, Unique;
      OneIsUnique(w1, binding.ref.registrationId);
    }
  }

  // ---- Every step, every run

  lemma PageMoveKeeps(w: World, move: PageMove)
    requires WorldInv(w) && LeaseEnabled(w.page, LeaseEventOf(move, w.env))
    ensures WorldInv(Deliver(w, LeaseStep(w.page, LeaseEventOf(move, w.env))))
  {
    hide WorldInv, Wake, Resume, SignatureArrives, Deliver, Settle, RetirePage, PassEnds, Refresh;
    if move == MStart || move == MRefresh || move == MTimer {
      WakingWorld(w, move);
    } else if move == MUnwind {
      UnwindWorld(w);
    } else if move.MSigned? {
      SignedWorld(w, move.ok);
    } else if move == MResume {
      ResumeWorld(w);
    } else if move == MRetire {
      RetireWorld(w);
    } else if move == MSettle {
      SettleWorld(w);
    } else {
      ReportWorld(w, move.reason);
    }
  }

  /** The moves that may start a first or a further pass. */
  lemma WakingWorld(w: World, move: PageMove)
    requires WorldInv(w) && LeaseEnabled(w.page, LeaseEventOf(move, w.env)) && (move == MStart || move == MRefresh || move == MTimer)
    ensures WorldInv(Deliver(w, LeaseStep(w.page, LeaseEventOf(move, w.env))))
  {
    var l := w.page;
    assert LeaseInv(l);
    hide WorldInv, Deliver;
    LeaseStepKeeps(l, LeaseEventOf(move, w.env));
    hide LeaseInv, Wake;
    if move == MStart {
      WakeWorld(w, l.(started := true));
    } else if move == MRefresh {
      WakeWorld(w, l.(attempts := 0, log := l.log + [AttemptsReset]));
    } else {
      WakeWorld(w, l.(timer := None));
    }
  }

  lemma SettleWorld(w: World)
    requires WorldInv(w) && w.page.pass.PassOver?
    ensures WorldInv(Deliver(w, Moved(Settle(w.page), None)))
  {
    assert LeaseInv(w.page);
    hide WorldInv;
    SettleKeeps(w.page);
    hide LeaseInv;
    QuietMove(w, Deliver(w, Moved(Settle(w.page), None)));
  }

  lemma ReportWorld(w: World, reason: Reason)
    requires WorldInv(w)
    ensures WorldInv(Deliver(w, Moved(ReportReason(w.page, reason), None)))
  {
    assert LeaseInv(w.page);
    hide WorldInv;
    LeaseStepKeeps(w.page, ReceiveFails(reason));
    hide LeaseInv;
    QuietMove(w, Deliver(w, Moved(ReportReason(w.page, reason), None)));
  }

  lemma RetireWorld(w: World)
    requires WorldInv(w)
    ensures WorldInv(Deliver(w, Moved(RetirePage(w.page), None)))
  {
    assert LeaseInv(w.page);
    hide WorldInv;
    RetireKeeps(w.page);
    hide LeaseInv;
    RetiredWorld(w, Deliver(w, Moved(RetirePage(w.page), None)));
  }

  lemma UnwindWorld(w: World)
    requires WorldInv(w) && w.page.pass == Unwinding
    ensures WorldInv(Deliver(w, PassEnds(w.page, w.env)))
  {
    var l := w.page;
    assert LeaseInv(l);
    hide WorldInv, Wake;
    PassEndsKeeps(l, w.env);
    hide LeaseInv;
    if l.again && l.alive {
      WakeWorld(w, l.(pass := Idle, log := l.log + [PassEnded], again := false));
    } else {
      QuietMove(w, Deliver(w, PassEnds(w.page, w.env)));
    }
  }

  lemma QuietMove(w: World, w1: World)
    requires WorldInv(w) && w1 == w.(page := w1.page) && LeaseInv(w1.page)
    requires w1.page.registration == w.page.registration && w1.page.candidates == w.page.candidates && w1.page.alive == w.page.alive
    requires w1.page.pass == w.page.pass || w1.page.pass == Idle || w1.page.pass == Unwinding || w1.page.pass.PassOver?
    ensures WorldInv(w1)
  {
    hide LeaseInv, ServerOk, LettersOk, Covered, Unique, PageKnown, PassKnown;
    if w.page.alive { SamePass(w, w1); }
    hide WorldInv;
    StillKeeps(w, w1);
  }

  lemma SignedWorld(w: World, ok: bool)
    requires WorldInv(w) && w.page.pass.AwaitSignature?
    ensures WorldInv(Deliver(w, SignatureArrives(w.page, w.env, ok)))
  {
    SignatureKeeps(w.page, w.env, ok) by { hide ServerOk, LettersOk, Covered, Unique, PageKnown, PassKnown; }
    if SignatureArrives(w.page, w.env, ok).post.Some? {
      ProofSent(w);
    } else {
      hide WorldInv, LeaseInv;
      QuietMove(w, Deliver(w, SignatureArrives(w.page, w.env, ok)));
    }
  }

  lemma WorldStepKeeps(w: World, e: WorldEvent)
    requires WorldInv(w)
    ensures WorldInv(WorldStep(w, e))
  {
    if WorldEnabled(w, e) {
      var w1 := WorldStep(w, e);
      hide WorldInv, Quiet, ServerVerifiesStep, ServerFinishesStep, ServerBeginsStep, ChallengeArrives, AdmissionArrives, LeaseEnabled, Deliver;
      match e
      case PageMoves(move) => PageMoveKeeps(w, move);
      case PageHears =>
        if w.page.pass.AwaitChallenge? { ChallengeHeard(w, Lift(w.reply.value.challenge)); } else { AdmissionHeard(w, Lift(w.reply.value.admission)); }
      case PageGivesUp(error) =>
        if w.page.pass.AwaitChallenge? { ChallengeHeard(w, Err(error)); } else { AdmissionHeard(w, Err(error)); }
      case ServerBegins(m, refusal) =>
        if w.letters[m].post.BeginRegister? { BeginRegisterQuiet(w, m, refusal); } else { BeginRenewQuiet(w, m, refusal); }
        QuietKeeps(w, w1, Some(m));
      case ServerVerifies(m) => VerifiesQuiet(w, m); QuietKeeps(w, w1, if m in w1.letters then None else Some(m));
      case ServerFinishes(m, verified, room) => FinishesQuiet(w, m, verified, room); QuietKeeps(w, w1, Some(m));
      case RouteRefuses(m, reason) => RefusesQuiet(w, m, reason); QuietKeeps(w, w1, Some(m));
      case ServerPrunes => PrunesQuiet(w); QuietKeeps(w, w1, None);
      case ServerRestarts => RestartsQuiet(w); QuietKeeps(w, w1, None);
      case TimePasses(pageMs, serverMs) => TimeQuiet(w, pageMs, serverMs); QuietKeeps(w, w1, None);
      case PageChanges(mounted, identity, connected) => PageChangesQuiet(w, mounted, identity, connected); QuietKeeps(w, w1, None);
      case LoginChanges => LoginQuiet(w); QuietKeeps(w, w1, None);
    }
  }

  lemma {:induction false} WorldRunKeeps(w: World, events: seq<WorldEvent>)
    requires WorldInv(w)
    ensures WorldInv(WorldExec(w, events))
    decreases |events|
  {
    hide WorldInv, WorldStep;
    if events != [] {
      WorldStepKeeps(w, events[0]);
      WorldRunKeeps(WorldStep(w, events[0]), events[1..]);
    }
  }
}
