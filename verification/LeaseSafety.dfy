/**
 * What the page's lease maintenance keeps on its own, whatever answers arrive and however they interleave: the registration
 * and every candidate name one registration, the log tells at any time whether a pass runs or is owed, and the running
 * pass holds what the next segment of it relies on.
 */
module LeaseSafety {
  import opened Outcomes
  import opened Lease

  // ---- Candidate lists

  predicate AllFor(candidates: seq<Candidate>, ref: Ref) {
    forall c :: c in candidates ==> c.ref == ref
  }

  lemma {:induction false} WithoutRegistrationMembers(candidates: seq<Candidate>, registrationId: nat)
    ensures forall c :: c in WithoutRegistration(candidates, registrationId) <==> c in candidates && c.ref.registrationId != registrationId
  {
    if candidates != [] {
      WithoutRegistrationMembers(candidates[1..], registrationId);
      assert candidates == [candidates[0]] + candidates[1..];
    }
  }

  lemma {:induction false} WithoutRegistrationOfAll(candidates: seq<Candidate>, ref: Ref)
    requires AllFor(candidates, ref)
    ensures WithoutRegistration(candidates, ref.registrationId) == []
  {
    if candidates != [] {
      assert AllFor(candidates[1..], ref);
      WithoutRegistrationOfAll(candidates[1..], ref);
    }
  }

  lemma {:induction false} WithoutChallengeMembers(candidates: seq<Candidate>, challengeId: nat)
    ensures forall c :: c in WithoutChallenge(candidates, challengeId) <==> c in candidates && c.challengeId != challengeId
  {
    if candidates != [] {
      WithoutChallengeMembers(candidates[1..], challengeId);
      assert candidates == [candidates[0]] + candidates[1..];
    }
  }

  // ---- One registration at a time

  /** The registration and every candidate are for one and the same registration. */
  ghost predicate OneTarget(l: LeaseState) {
    && (l.registration.Some? ==> AllFor(l.candidates, l.registration.value.ref))
    && (l.candidates != [] ==> AllFor(l.candidates, l.candidates[0].ref))
  }

  /** What a suspended pass is working on is exactly what the page tracks. */
  ghost predicate StageFits(l: LeaseState, stage: Stage) {
    match stage
    case Current(target) => l.registration.Some? && l.registration.value.ref == target && AllFor(l.candidates, target)
    case Recover(target) => l.registration.None? && l.candidates != [] && AllFor(l.candidates, target)
    case Fresh => l.registration.None? && l.candidates == []
  }

  ghost predicate PassFits(l: LeaseState) {
    match l.pass
    case AwaitChallenge(stage, captured, _) => captured == l.generation && StageFits(l, stage)
    case AwaitSignature(stage, captured, _, challenge) =>
      && captured == l.generation && StageFits(l, stage) && challenge.kind == KindOf(stage)
      && (!stage.Fresh? ==> challenge.binding.ref == stage.target)
    case AwaitAdmission(stage, captured, _, challenge) =>
      && captured == l.generation && challenge.kind == KindOf(stage)
      && (if stage.Fresh? then
            l.registration.None? && |l.candidates| == 1 && l.candidates[0].challengeId == challenge.challengeId && l.candidates[0].ref == challenge.binding.ref
          else
            StageFits(l, stage) && challenge.binding.ref == stage.target)
    case Reconciled(stage, _, binding) =>
      if stage.Fresh? then l.registration.None? && binding.Some? && AllFor(l.candidates, binding.value.ref)
      else StageFits(l, stage) && (binding.Some? ==> binding.value.ref == stage.target)
    case _ => true
  }

  // ---- Wake-ups, retries, posts

  /** Whether the passes recorded so far leave one running. */
  predicate Running(log: seq<LeaseAct>) {
    if log == [] then false
    else match log[|log| - 1]
      case PassStarted => true
      case PassEnded => false
      case _ => Running(log[..|log| - 1])
  }

  /** Whether a wake-up came during a pass and no pass has started since. */
  predicate WakePending(log: seq<LeaseAct>) {
    if log == [] then false
    else match log[|log| - 1]
      case PassStarted => false
      case WokenDuringPass => true
      case _ => WakePending(log[..|log| - 1])
  }

  function RetriesSinceReset(log: seq<LeaseAct>): nat {
    if log == [] then 0
    else match log[|log| - 1]
      case AttemptsReset => 0
      case RetryScheduled => RetriesSinceReset(log[..|log| - 1]) + 1
      case _ => RetriesSinceReset(log[..|log| - 1])
  }

  /** A pass starts only when none is running. */
  ghost predicate SingleFlight(log: seq<LeaseAct>) {
    forall i :: 0 <= i < |log| && log[i] == PassStarted ==> !Running(log[..i])
  }

  predicate Speaks(act: LeaseAct) {
    act.Posted? || act.SigningStarted?
  }

  ghost predicate SilentAfterRetirement(log: seq<LeaseAct>) {
    forall i, j :: 0 <= i < j < |log| && log[i] == PageRetired ==> !Speaks(log[j])
  }

  /** The log agrees with the counters, while a pass is running or not. */
  ghost predicate Ledger(l: LeaseState, running: bool) {
    && Running(l.log) == running
    && RetriesSinceReset(l.log) == (if l.attempts < 2 then l.attempts else 2)
    && SingleFlight(l.log)
    && SilentAfterRetirement(l.log)
    && (l.alive <==> PageRetired !in l.log)
  }

  ghost predicate BooksWith(l: LeaseState, running: bool) {
    Ledger(l, running) && WakePending(l.log) == l.again
  }

  ghost predicate Books(l: LeaseState) {
    BooksWith(l, l.pass != Idle)
  }

  ghost predicate Scheduled(l: LeaseState) {
    && (l.timer.Some? ==> l.alive && l.started)
    && (l.pass != Idle && l.pass != Unwinding ==> l.timer.None?)
    && (!l.started ==> l.pass == Idle)
    && (!l.alive ==> l.candidates == [])
    && (l.again && l.alive ==> l.pass != Idle)
    && (l.alive && l.started && l.pass == Idle ==> l.timer.Some? || l.failure.Some?)
    && (l.pass == Unwinding && l.alive ==> l.timer.Some? || l.failure.Some? || l.again)
  }

  ghost predicate LeaseInv(l: LeaseState) {
    && Books(l) && Scheduled(l)
    && (l.alive ==> OneTarget(l) && PassFits(l))
  }

  /** What a segment of a live page may rely on. */
  lemma LivePass(l: LeaseState)
    requires LeaseInv(l) && l.alive
    ensures OneTarget(l) && PassFits(l)
  {}

  lemma Timing(l: LeaseState)
    requires LeaseInv(l)
    ensures Scheduled(l)
  {}

  lemma Append1(log: seq<LeaseAct>, act: LeaseAct)
    ensures (log + [act])[..|log|] == log && (log + [act])[|log|] == act
  {}

  /** Recording one more act. */
  lemma Recording(log: seq<LeaseAct>, act: LeaseAct)
    ensures Running(log + [act]) == (act == PassStarted || (act != PassEnded && Running(log)))
    ensures WakePending(log + [act]) == (act == WokenDuringPass || (act != PassStarted && WakePending(log)))
    ensures RetriesSinceReset(log + [act]) == (if act == AttemptsReset then 0 else RetriesSinceReset(log) + if act == RetryScheduled then 1 else 0)
    ensures SingleFlight(log) && (act == PassStarted ==> !Running(log)) ==> SingleFlight(log + [act])
    ensures SilentAfterRetirement(log) && (Speaks(act) ==> PageRetired !in log) ==> SilentAfterRetirement(log + [act])
    ensures PageRetired in log + [act] <==> PageRetired in log || act == PageRetired
  {
    Append1(log, act);
    assert forall i :: 0 <= i < |log| ==> (log + [act])[..i] == log[..i];
  }

  // ---- Segments

  /** In the middle of a segment of a running pass, with no registration held. */
  ghost predicate Searching(l: LeaseState) {
    && BooksWith(l, true) && l.started
    && l.timer.None?
    && (if l.alive then l.registration.None? && OneTarget(l) else l.candidates == [])
  }

  lemma PostsKeeps(l: LeaseState, pass: Pass, post: Post)
    requires BooksWith(l, true) && l.started && l.alive && l.timer.None? && OneTarget(l)
    requires PassFits(l.(pass := pass)) && pass != Idle && pass != Unwinding
    ensures LeaseInv(Posts(l, pass, post).state)
  {
    Recording(l.log, Posted(post));
  }

  lemma EndKeeps(l: LeaseState, end: PassEnd)
    requires BooksWith(l, true) && l.started && l.timer.None?
    requires if l.alive then OneTarget(l) else l.candidates == []
    ensures LeaseInv(End(l, end).state)
  {}

  lemma RegisterFreshKeeps(l: LeaseState, env: PageEnv, expected: Identity)
    requires Searching(l) && l.candidates == []
    ensures LeaseInv(RegisterFresh(l, env, expected).state)
  {
    var stale := Fence(l, env, l.generation, expected);
    if stale.Some? {
      EndKeeps(l, FailedWith(Refused(stale.value)));
    } else {
      PostsKeeps(l, AwaitChallenge(Fresh, l.generation, expected), BeginRegister(expected, l.key));
    }
  }

  lemma RecoverNextKeeps(l: LeaseState, env: PageEnv, expected: Identity)
    requires Searching(l)
    ensures LeaseInv(RecoverNext(l, env, expected).state)
  {
    if l.candidates == [] {
      RegisterFreshKeeps(l, env, expected);
    } else {
      var target := Latest(l.candidates).ref;
      PostsKeeps(l, AwaitChallenge(Recover(target), l.generation, expected), BeginRenew(target.registrationId, expected));
    }
  }

  lemma AfterCurrentKeeps(l: LeaseState, env: PageEnv, expected: Identity)
    requires Searching(l)
    ensures LeaseInv(AfterCurrent(l, env, expected).state)
  {
    var waiting := Waiting(l.candidates, env.now);
    if waiting > 0 { EndKeeps(l, NextIn(waiting)); } else { RecoverNextKeeps(l, env, expected); }
  }

  lemma StartPassKeeps(l0: LeaseState, env: PageEnv)
    requires Ledger(l0, false) && l0.alive && l0.started && !l0.again && OneTarget(l0)
    ensures LeaseInv(StartPass(l0, env).state)
  {
    var l := l0.(timer := None, log := l0.log + [PassStarted]);
    Recording(l0.log, PassStarted);
    StartedBooks(l0);
    match IdentityNow(l, env)
    case Err(reason) => EndKeeps(l, FailedWith(Refused(reason)));
    case Ok(expected) =>
      if !env.connected {
        EndKeeps(l, FailedWith(Refused(LiveDocumentUnavailable)));
      } else if l.registration.Some? {
        var target := l.registration.value.ref;
        PostsKeeps(l, AwaitChallenge(Current(target), l.generation, expected), BeginRenew(target.registrationId, expected));
      } else {
        AfterCurrentKeeps(l, env, expected);
      }
  }

  lemma StartedBooks(l0: LeaseState)
    requires Ledger(l0, false) && l0.alive && !l0.again
    ensures BooksWith(l0.(timer := None, log := l0.log + [PassStarted]), true)
  {
    Recording(l0.log, PassStarted);
  }

  /** A pass that only moves on to another suspension point. */
  lemma MovesOn(l: LeaseState, pass: Pass)
    requires LeaseInv(l) && l.pass != Idle && l.pass != Unwinding && pass != Idle && pass != Unwinding
    requires l.alive ==> PassFits(l.(pass := pass))
    ensures LeaseInv(l.(pass := pass))
  {}

  lemma ChallengeShape(l: LeaseState, env: PageEnv, answer: Result<Challenge, Error>)
    requires l.pass.AwaitChallenge?
    ensures
      var l1 := ChallengeArrives(l, env, answer).state;
      && l1 == l.(pass := l1.pass, log := if l1.pass.AwaitSignature? then l.log + [SigningStarted(KindOf(l.pass.stage))] else l.log)
      && l1.pass != Idle && l1.pass != Unwinding && (l1.pass.AwaitSignature? ==> l.alive)
  {
    hide CheckedChallenge;
  }

  lemma CheckedMeans(l: LeaseState, env: PageEnv, stage: Stage, expected: Identity, challenge: Challenge)
    requires CheckedChallenge(l, env, stage, expected, challenge).None?
    ensures challenge.kind == KindOf(stage) && (!stage.Fresh? ==> challenge.binding.ref == stage.target)
  {}

  lemma ChallengePass(l: LeaseState, env: PageEnv, answer: Result<Challenge, Error>)
    requires l.pass.AwaitChallenge? && PassFits(l)
    ensures PassFits(l.(pass := ChallengeArrives(l, env, answer).state.pass))
  {
    if answer.Ok? && CheckedChallenge(l, env, l.pass.stage, l.pass.expected, answer.value).None? {
      CheckedMeans(l, env, l.pass.stage, l.pass.expected, answer.value);
    }
    hide Fence, CheckedChallenge, AllFor;
  }

  lemma SigningKeeps(l: LeaseState, kind: ProofKind)
    requires LeaseInv(l) && l.alive && l.pass != Idle && l.pass != Unwinding
    ensures LeaseInv(l.(log := l.log + [SigningStarted(kind)]))
  {
    Recording(l.log, SigningStarted(kind));
    hide Running, WakePending, RetriesSinceReset, OneTarget, PassFits, SingleFlight, SilentAfterRetirement;
    assert PassFits(l.(log := l.log + [SigningStarted(kind)])) <==> PassFits(l) by { PassIgnoresLog(l, SigningStarted(kind)); }
    assert OneTarget(l.(log := l.log + [SigningStarted(kind)])) <==> OneTarget(l) by { PassIgnoresLog(l, SigningStarted(kind)); }
  }

  lemma PassIgnoresLog(l: LeaseState, act: LeaseAct)
    ensures PassFits(l.(log := l.log + [act])) <==> PassFits(l)
    ensures OneTarget(l.(log := l.log + [act])) <==> OneTarget(l)
  {}

  lemma ChallengeKeeps(l: LeaseState, env: PageEnv, answer: Result<Challenge, Error>)
    requires LeaseInv(l) && l.pass.AwaitChallenge?
    ensures LeaseInv(ChallengeArrives(l, env, answer).state)
  {
    hide ChallengeArrives, PassFits, OneTarget, Books, Scheduled;
    ChallengeShape(l, env, answer);
    if l.alive { ChallengePass(l, env, answer); }
    var l1 := ChallengeArrives(l, env, answer).state;
    MovesOn(l, l1.pass);
    if l1.pass.AwaitSignature? { SigningKeeps(l.(pass := l1.pass), KindOf(l.pass.stage)); }
  }

  lemma {:induction false} WithCandidateMembers(candidates: seq<Candidate>, candidate: Candidate)
    ensures candidate in WithCandidate(candidates, candidate)
    ensures forall c :: c in WithCandidate(candidates, candidate) ==> c in candidates || c == candidate
    ensures (forall c :: c in candidates ==> c.challengeId != candidate.challengeId) ==> WithCandidate(candidates, candidate) == candidates + [candidate]
  {
    if candidates != [] {
      WithCandidateMembers(candidates[1..], candidate);
      assert candidates == [candidates[0]] + candidates[1..];
    }
  }

  /** The signed proof becomes a candidate for the same registration. */
  lemma ProofPosts(l: LeaseState, candidate: Candidate)
    requires LeaseInv(l) && l.pass.AwaitSignature? && l.alive
    requires candidate.challengeId == l.pass.challenge.challengeId && candidate.ref == l.pass.challenge.binding.ref
    ensures
      var AwaitSignature(stage, captured, expected, challenge) := l.pass;
      LeaseInv(Posts(l.(candidates := WithCandidate(l.candidates, candidate)), AwaitAdmission(stage, captured, expected, challenge),
                     Prove(challenge.challengeId)).state)
  {
    var AwaitSignature(stage, captured, expected, challenge) := l.pass;
    var l1 := l.(candidates := WithCandidate(l.candidates, candidate));
    WithCandidateMembers(l.candidates, candidate);
    assert AllFor(l.candidates, candidate.ref) ==> AllFor(l1.candidates, candidate.ref);
    hide WithCandidate, Running, WakePending, RetriesSinceReset, SingleFlight, SilentAfterRetirement;
    PostsKeeps(l1, AwaitAdmission(stage, captured, expected, challenge), Prove(challenge.challengeId));
  }

  lemma SignatureKeeps(l: LeaseState, env: PageEnv, signed: bool)
    requires LeaseInv(l) && l.pass.AwaitSignature?
    ensures LeaseInv(SignatureArrives(l, env, signed).state)
  {
    hide Running, WakePending, RetriesSinceReset, SingleFlight, SilentAfterRetirement, PassFits;
    if signed && Fence(l, env, l.pass.captured, l.pass.expected).None? {
      var ch := l.pass.challenge;
      ProofPosts(l, Candidate(ch.challengeId, ch.binding.ref, ch.challengeExpiresAt, ch.binding.expiresAt, env.now + DEADLINE_MS));
    } else {
      EndKeeps(l, SignatureArrives(l, env, signed).state.pass.end);
    }
  }

  /** Fewer candidates for the same registration. */
  lemma FewerCandidates(l: LeaseState, challengeId: nat)
    requires if l.alive then OneTarget(l) else l.candidates == []
    ensures var l1 := l.(candidates := WithoutChallenge(l.candidates, challengeId)); if l.alive then OneTarget(l1) else l1.candidates == []
  {
    WithoutChallengeMembers(l.candidates, challengeId);
    hide WithoutChallenge;
    var kept := WithoutChallenge(l.candidates, challengeId);
    assert kept != [] ==> kept[0] in l.candidates;
    assert kept == [] || l.candidates != [];
  }

  lemma AdmissionKeeps(l: LeaseState, env: PageEnv, answer: Result<Registration, Error>)
    requires LeaseInv(l) && l.pass.AwaitAdmission?
    ensures LeaseInv(AdmissionArrives(l, env, answer).state)
  {
    if answer.Err? {
      FewerCandidates(l, l.pass.challenge.challengeId);
      hide WithoutChallenge, OneTarget, PassFits, Ledger;
      EndKeeps(l.(candidates := AdmissionArrives(l, env, answer).state.candidates), FailedWith(answer.error));
    } else {
      hide WithoutChallenge;
      MovesOn(l, AdmissionArrives(l, env, answer).state.pass);
    }
  }

  lemma AdoptKeeps(l: LeaseState, binding: Registration)
    requires BooksWith(l, true) && l.started && l.timer.None?
    requires if l.alive then AllFor(l.candidates, binding.ref) else l.candidates == []
    ensures LeaseInv(End(Adopt(l, binding), NextIn(RENEW_INTERVAL_MS)).state)
  {
    Recording(l.log, AttemptsReset);
    if l.alive { WithoutRegistrationOfAll(l.candidates, binding.ref); }
    EndKeeps(Adopt(l, binding), NextIn(RENEW_INTERVAL_MS));
  }

  /** After a "gone" answer nothing is tracked any more. */
  lemma GoneClears(l: LeaseState)
    requires LeaseInv(l) && l.pass.Reconciled? && l.pass.binding.None?
    ensures !l.pass.stage.Fresh? || !l.alive
    ensures !l.pass.stage.Fresh? ==>
              var l1 := RetireRegistration(l, l.pass.stage.target.registrationId);
              Searching(l1) && l1.candidates == [] && (l.alive ==> l1.registration.None?)
  {
    if l.alive { WithoutRegistrationOfAll(l.candidates, l.pass.stage.target); }
  }

  lemma ResumeKeeps(l: LeaseState, env: PageEnv)
    requires LeaseInv(l) && l.pass.Reconciled? && (l.pass.stage.Fresh? ==> l.pass.binding.Some?)
    ensures LeaseInv(Resume(l, env).state)
  {
    var Reconciled(stage, expected, binding) := l.pass;
    if binding.Some? {
      AdoptKeeps(l, binding.value);
    } else {
      GoneClears(l);
      var l1 := RetireRegistration(l, stage.target.registrationId);
      if stage.Current? { AfterCurrentKeeps(l1, env, expected); } else { RecoverNextKeeps(l1, env, expected); }
    }
  }

  lemma SettleKeeps(l: LeaseState)
    requires LeaseInv(l) && l.pass.PassOver?
    ensures LeaseInv(Settle(l))
  {
    Recording(l.log, RetryScheduled);
    hide Running, WakePending, RetriesSinceReset;
  }

  lemma WakeKeeps(l: LeaseState, env: PageEnv)
    requires LeaseInv(l)
    ensures LeaseInv(Wake(l, env).state)
  {
    if l.started && l.alive {
      if l.pass != Idle { Recording(l.log, WokenDuringPass); } else { StartPassKeeps(l, env); }
    }
  }

  lemma PassEndsKeeps(l: LeaseState, env: PageEnv)
    requires LeaseInv(l) && l.pass == Unwinding
    ensures LeaseInv(PassEnds(l, env).state)
  {
    Recording(l.log, PassEnded);
    if l.again && l.alive { StartPassKeeps(l.(pass := Idle, log := l.log + [PassEnded], again := false), env); }
  }

  /** The first wake-up, and one from the timer: the pass starts whatever the timer and `started` were. */
  lemma FirstWakeKeeps(l: LeaseState, env: PageEnv)
    requires LeaseInv(l)
    ensures !l.started ==> LeaseInv(Wake(l.(started := true), env).state)
    ensures l.timer.Some? ==> LeaseInv(Wake(l.(timer := None), env).state)
  {
    if !l.started && l.alive { StartPassKeeps(l.(started := true), env); }
    if l.timer.Some? {
      if l.pass == Idle { StartPassKeeps(l.(timer := None), env); } else { Recording(l.log, WokenDuringPass); }
    }
  }

  lemma RefreshKeeps(l: LeaseState, env: PageEnv)
    requires LeaseInv(l)
    ensures LeaseInv(Refresh(l, env).state)
  {
    Recording(l.log, AttemptsReset);
    WakeKeeps(l.(attempts := 0, log := l.log + [AttemptsReset]), env);
  }

  lemma RetireKeeps(l: LeaseState)
    requires LeaseInv(l)
    ensures LeaseInv(RetirePage(l))
  {
    Recording(l.log, PageRetired);
  }

  lemma LeaseStepKeeps(l: LeaseState, e: LeaseEvent)
    requires LeaseInv(l)
    ensures LeaseInv(LeaseStep(l, e).state)
  {
    if LeaseEnabled(l, e) {
      match e
      case Starts(env) => FirstWakeKeeps(l, env);
      case Refreshes(env) => RefreshKeeps(l, env);
      case TimerRings(env) => FirstWakeKeeps(l, env);
      case GetsChallenge(env, challenge) => ChallengeKeeps(l, env, challenge);
      case GetsSignature(env, signed) => SignatureKeeps(l, env, signed);
      case GetsAdmission(env, admission) => AdmissionKeeps(l, env, admission);
      case Resumes(env) => ResumeKeeps(l, env);
      case Settles => SettleKeeps(l);
      case Unwinds(env) => PassEndsKeeps(l, env);
      case ReceiveFails(_) =>
      case Retires => RetireKeeps(l);
    }
  }

  lemma {:induction false} LeaseRunKeeps(l: LeaseState, events: seq<LeaseEvent>)
    requires LeaseInv(l)
    ensures LeaseInv(LeaseExec(l, events))
    decreases |events|
  {
    hide LeaseInv, LeaseStep;
    if events != [] {
      LeaseStepKeeps(l, events[0]);
      LeaseRunKeeps(LeaseStep(l, events[0]).state, events[1..]);
    }
  }
}
