/** What each pass asks, how it ends and when the next one comes. */
module LeaseAnswers {
  import opened Outcomes
  import opened Lease
  import opened LeaseSafety
  import opened LeaseTheorems

  /** The failures that may pass by themselves: no answer that can be read, or one of five reasons. */
  predicate MayPass(error: Error) {
    || error == Thrown
    || error.reason == TransportFailed || error.reason == LiveDocumentUnavailable || error.reason == StaleSession
    || error.reason == StaleRegistration || error.reason == StaleChallenge
  }

  /**
   * A failed pass is retried exactly when its failure may pass and fewer than two retries came since the last reset, after
   * one second and then after two; otherwise it leaves no timer, and shows the reason or that recovery is exhausted.
   */
  lemma RetriesExactly(l: LeaseState)
    requires ReachableLease(l) && l.alive && l.pass.PassOver? && l.pass.end.FailedWith?
    ensures
      var error, retries, s := l.pass.end.error, RetriesSinceReset(l.log), Settle(l);
      && s.timer == (if MayPass(error) && retries == 0 then Some(1000) else if MayPass(error) && retries == 1 then Some(2000) else None)
      && s.log == (if MayPass(error) && retries < 2 then l.log + [RetryScheduled] else l.log)
      && s.failure == Some(if MayPass(error) && retries >= 2 then RecoveryExhausted else if error == Thrown then TransportFailed else error.reason)
      && s.registration == l.registration && s.candidates == l.candidates && s.generation == l.generation && s.pass == Unwinding
  {
    hide ReachableLease;
    ReachableLeaseInv(l);
    hide Running, WakePending, OneTarget, PassFits, SingleFlight, SilentAfterRetirement;
  }

  /** The same of any state that the segments keep, in terms of the counter. */
  lemma SettleFacts(l: LeaseState)
    requires LeaseInv(l) && l.pass.PassOver?
    ensures LeaseInv(Settle(l)) && (l.alive ==> Settle(l).timer.Some? || Settle(l).failure.Some? || Settle(l).again)
    ensures l.alive && l.pass.end.FailedWith? ==>
      Settle(l).timer == if MayPass(l.pass.end.error) && l.attempts < 2 then Some(if l.attempts == 0 then 1000 else 2000) else None
  {
    SettleKeeps(l);
    Timing(l);
    Timing(Settle(l));
    hide LeaseInv;
  }

  /** A binding that came back is held, and renewed again twenty seconds later; all failures are forgotten. */
  lemma HeldAndRenewed(l: LeaseState, env: PageEnv)
    requires ReachableLease(l) && l.alive && l.pass.Reconciled? && l.pass.binding.Some?
    ensures
      var s := Settle(Resume(l, env).state);
      && Resume(l, env).post.None? && s.registration == l.pass.binding && s.timer == Some(20000)
      && s.failure.None? && RetriesSinceReset(s.log) == 0 && s.candidates == []
  {
    hide ReachableLease;
    ReachableLeaseInv(l);
    WithoutRegistrationOfAll(l.candidates, l.pass.binding.value.ref);
    Recording(l.log, AttemptsReset);
    hide Running, WakePending, SingleFlight, SilentAfterRetirement;
  }

  /** When a binding is gone, a fresh one is asked for at once, if the page is still the same. */
  lemma GoneAsksAfresh(l: LeaseState, env: PageEnv)
    requires ReachableLease(l) && l.alive && l.pass.Reconciled? && l.pass.binding.None?
    ensures !l.pass.stage.Fresh?
    ensures Resume(l, env).post == if env.mounted && env.identity == Ok(l.pass.expected) then Some(BeginRegister(l.pass.expected, l.key)) else None
    ensures Resume(l, env).state.registration.None? && Resume(l, env).state.candidates == []
  {
    hide ReachableLease;
    ReachableLeaseInv(l);
    GoneClears(l);
    hide LeaseInv;
  }

  /** A proof of this candidate may still be admitted, for all the page knows. */
  predicate OpenHorizon(c: Candidate, now: int) {
    c.challengeExpiresAt + 1000 > now || c.localHorizon + 1000 > now
  }

  /**
   * What a pass begins with: nothing on an unmounted, unidentified or unconnected page; the renewal of the registration,
   * if there is one; else waiting while a candidate's horizon is open; else the renewal of the candidate with the latest
   * lease; and a fresh registration only when there is no candidate at all.
   */
  lemma PassBegins(l: LeaseState, env: PageEnv)
    requires ReachableLease(l) && l.alive && l.started && l.pass == Idle
    ensures
      var m := Wake(l, env);
      && m.state.timer.None?
      && (!env.mounted ==> m.post.None? && m.state.pass == PassOver(FailedWith(Refused(UnmountedDocument))))
      && (env.mounted && env.identity.Err? ==> m.post.None? && m.state.pass == PassOver(FailedWith(Refused(env.identity.error))))
      && (env.mounted && env.identity.Ok? && !env.connected ==> m.post.None? && m.state.pass == PassOver(FailedWith(Refused(LiveDocumentUnavailable))))
      && (env.mounted && env.identity.Ok? && env.connected && l.registration.Some? ==>
            var ref := l.registration.value.ref;
            m.post == Some(BeginRenew(ref.registrationId, env.identity.value)) && m.state.pass == AwaitChallenge(Current(ref), l.generation, env.identity.value))
      && (env.mounted && env.identity.Ok? && env.connected && l.registration.None? ==> Searches(l, env, env.identity.value, m))
  {
    hide ReachableLease;
    ReachableLeaseInv(l);
    var l1 := l.(timer := None, log := l.log + [PassStarted]);
    if env.mounted && env.identity.Ok? { SearchesSo(l1, env, env.identity.value); }
    hide LeaseInv, AfterCurrent;
  }

  /** How a pass without a registration goes on. */
  ghost predicate Searches(l: LeaseState, env: PageEnv, expected: Identity, m: Moved) {
    && ((exists c :: c in l.candidates && OpenHorizon(c, env.now)) ==>
          && m.post.None? && m.state.pass.PassOver? && m.state.pass.end.NextIn?
          && WaitsFor(l.candidates, env.now, m.state.pass.end.delay) && Settle(m.state).timer == Some(m.state.pass.end.delay))
    && ((forall c :: c in l.candidates ==> !OpenHorizon(c, env.now)) && l.candidates != [] ==>
          exists c :: c in l.candidates && (forall other :: other in l.candidates ==> other.expiresAt <= c.expiresAt)
            && m.post == Some(BeginRenew(c.ref.registrationId, expected)) && m.state.pass == AwaitChallenge(Recover(c.ref), l.generation, expected))
    && (l.candidates == [] ==> m.post == Some(BeginRegister(expected, l.key)) && m.state.pass == AwaitChallenge(Fresh, l.generation, expected))
  }

  /** The delay after which the last horizon has just passed. */
  ghost predicate WaitsFor(candidates: seq<Candidate>, now: int, delay: int) {
    && (forall c :: c in candidates ==> c.challengeExpiresAt + 1000 <= now + delay && c.localHorizon + 1000 <= now + delay)
    && (exists c :: c in candidates && (c.challengeExpiresAt + 1000 == now + delay || c.localHorizon + 1000 == now + delay))
  }

  lemma SearchesSo(l: LeaseState, env: PageEnv, expected: Identity)
    requires l.alive && env.mounted && env.identity == Ok(expected)
    ensures Searches(l, env, expected, AfterCurrent(l, env, expected))
  {
    var waiting := Waiting(l.candidates, env.now);
    if c :| c in l.candidates && OpenHorizon(c, env.now) {
      assert waiting > 0;
      assert WaitsFor(l.candidates, env.now, waiting);
    }
    if l.candidates != [] { assert Latest(l.candidates) in l.candidates; }
    hide Waiting, Latest;
  }

  /** Of candidates with equally late leases the one submitted first is picked. */
  lemma {:induction false} LatestIsFirst(candidates: seq<Candidate>) returns (i: nat)
    requires candidates != []
    ensures i < |candidates| && candidates[i] == Latest(candidates)
    ensures forall j :: 0 <= j < |candidates| ==> candidates[j].expiresAt <= candidates[i].expiresAt
    ensures forall j :: 0 <= j < i ==> candidates[j].expiresAt < candidates[i].expiresAt
  {
    if |candidates| == 1 || candidates[0].expiresAt >= Latest(candidates[1..]).expiresAt {
      i := 0;
      assert forall j :: 0 <= j < |candidates| ==> candidates[j] in candidates;
    } else {
      var k := LatestIsFirst(candidates[1..]);
      i := k + 1;
      assert forall j :: 0 < j < |candidates| ==> candidates[j] == candidates[1..][j - 1];
    }
    hide Latest;
  }

  // ---- Answers

  /** The page is still the one for which the pass began. */
  predicate Here(env: PageEnv, expected: Identity) {
    env.mounted && env.identity == Ok(expected)
  }

  function NotHere(env: PageEnv): Reason {
    if !env.mounted then UnmountedDocument else if env.identity.Err? then env.identity.error else StaleSession
  }

  /** What the page lets itself sign: a challenge for its own key and identity, and for the registration it asked about. */
  predicate Signable(l: LeaseState, env: PageEnv, stage: Stage, expected: Identity, challenge: Challenge) {
    && challenge.kind == (if stage == Fresh then Register else Renew) && challenge.key == l.key
    && env.now < challenge.challengeExpiresAt <= env.now + 5000 && env.now < challenge.binding.expiresAt <= env.now + 60000
    && challenge.binding.identity == expected && (stage != Fresh ==> challenge.binding.ref == stage.target)
  }

  /** The reason for which another challenge is not signed. */
  function Unsignable(l: LeaseState, env: PageEnv, stage: Stage, expected: Identity, challenge: Challenge): Reason {
    if challenge.kind != (if stage == Fresh then Register else Renew) || challenge.key != l.key
       || challenge.challengeExpiresAt > env.now + 5000 || challenge.binding.expiresAt > env.now + 60000 then InvalidChallenge
    else if challenge.challengeExpiresAt <= env.now || challenge.binding.expiresAt <= env.now then StaleChallenge
    else if challenge.binding.identity != expected then StaleDocument
    else StaleRegistration
  }

  /** A challenge is signed exactly when it may be; a renewal learns that its binding is gone exactly from that refusal. */
  lemma ChallengeDecides(l: LeaseState, env: PageEnv, answer: Result<Challenge, Error>)
    requires ReachableLease(l) && l.alive && l.pass.AwaitChallenge?
    ensures
      var AwaitChallenge(stage, captured, expected) := l.pass;
      var m := ChallengeArrives(l, env, answer);
      && m.post.None? && m.state == l.(pass := m.state.pass, log := m.state.log)
      && m.state.pass == (
           if answer.Err? && (stage == Fresh || answer.error != Refused(StaleRegistration)) then PassOver(FailedWith(answer.error))
           else if !Here(env, expected) then PassOver(FailedWith(Refused(NotHere(env))))
           else if answer.Err? then Reconciled(stage, expected, None)
           else if Signable(l, env, stage, expected, answer.value) then AwaitSignature(stage, captured, expected, answer.value)
           else PassOver(FailedWith(Refused(Unsignable(l, env, stage, expected, answer.value)))))
      && m.state.log == if m.state.pass.AwaitSignature? then l.log + [SigningStarted(if stage == Fresh then Register else Renew)] else l.log
  {
    hide ReachableLease;
    ReachableLeaseInv(l);
    LivePass(l);
    hide LeaseInv, OneTarget, AllFor;
  }

  /** A signed proof is posted exactly while the page is the same, and is a candidate from then on. */
  lemma SignatureDecides(l: LeaseState, env: PageEnv, signed: bool)
    requires ReachableLease(l) && l.alive && l.pass.AwaitSignature?
    ensures
      var AwaitSignature(stage, captured, expected, challenge) := l.pass;
      var m := SignatureArrives(l, env, signed);
      var candidate := Candidate(challenge.challengeId, challenge.binding.ref, challenge.challengeExpiresAt, challenge.binding.expiresAt, env.now + 5000);
      && (signed && Here(env, expected) ==>
            && m.post == Some(Prove(challenge.challengeId)) && m.state.pass == AwaitAdmission(stage, captured, expected, challenge)
            && candidate in m.state.candidates && (forall c :: c in m.state.candidates && c != candidate ==> c in l.candidates))
      && (!(signed && Here(env, expected)) ==>
            && m.post.None? && m.state.candidates == l.candidates
            && m.state.pass == PassOver(FailedWith(if !signed then Thrown else Refused(NotHere(env)))))
  {
    hide ReachableLease;
    ReachableLeaseInv(l);
    LivePass(l);
    var challenge := l.pass.challenge;
    WithCandidateMembers(l.candidates, Candidate(challenge.challengeId, challenge.binding.ref, challenge.challengeExpiresAt,
                                                 challenge.binding.expiresAt, env.now + 5000));
    hide LeaseInv, OneTarget, AllFor, WithCandidate;
  }

  /** A binding is taken over exactly when it is the one of the challenge and the page is the same. */
  lemma AdmissionDecides(l: LeaseState, env: PageEnv, answer: Result<Registration, Error>)
    requires ReachableLease(l) && l.alive && l.pass.AwaitAdmission?
    ensures
      var AwaitAdmission(stage, captured, expected, challenge) := l.pass;
      var m := AdmissionArrives(l, env, answer);
      && m.post.None?
      && m.state.pass == (
           if answer.Err? then PassOver(FailedWith(answer.error))
           else if answer.value != challenge.binding then PassOver(FailedWith(Refused(InvalidRegistration)))
           else if !Here(env, expected) then PassOver(FailedWith(Refused(NotHere(env))))
           else Reconciled(stage, expected, Some(challenge.binding)))
      && (forall c :: c in m.state.candidates <==>
            c in l.candidates && (answer.Err? && answer.error != Thrown && answer.error != Refused(TransportFailed) ==> c.challengeId != challenge.challengeId))
  {
    hide ReachableLease;
    ReachableLeaseInv(l);
    LivePass(l);
    WithoutChallengeMembers(l.candidates, l.pass.challenge.challengeId);
    hide LeaseInv, OneTarget, AllFor, WithoutChallenge;
  }
}
