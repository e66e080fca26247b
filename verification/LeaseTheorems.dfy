/** The promises of lease maintenance, over every run of one page. */
module LeaseTheorems {
  import opened Outcomes
  import opened Lease
  import opened LeaseSafety

  ghost predicate ReachableLease(l: LeaseState) {
    exists key, events :: l == LeaseExec(InitLease(key), events)
  }

  lemma ReachableLeaseInv(l: LeaseState)
    requires ReachableLease(l)
    ensures LeaseInv(l)
  {
    var key, events :| l == LeaseExec(InitLease(key), events);
    LeaseRunKeeps(InitLease(key), events);
  }

  /** At most one maintenance pass runs at a time, and its running is exactly what the page remembers. */
  lemma OnePassAtATime(l: LeaseState, i: nat)
    requires ReachableLease(l) && i < |l.log| && l.log[i] == PassStarted
    ensures !Running(l.log[..i])
    ensures Running(l.log) <==> l.pass != Idle
  {
    ReachableLeaseInv(l);
  }

  /** A wake-up that comes during a pass is never lost: an alive page without a running pass has none left to answer. */
  lemma NoWakeUpIsLost(l: LeaseState)
    requires ReachableLease(l) && l.alive && l.pass == Idle
    ensures !WakePending(l.log)
  {
    ReachableLeaseInv(l);
  }

  /** An alive started page with no pass running is going to try again, or has failed visibly. */
  lemma NeverStuckSilently(l: LeaseState)
    requires ReachableLease(l) && l.alive && l.started && l.pass == Idle
    ensures l.timer.Some? || l.failure.Some?
  {
    ReachableLeaseInv(l);
  }

  /** Between resets at most two retries follow a failed pass, so at most three attempts in a row fail by themselves. */
  lemma RetriesAreBounded(l: LeaseState)
    requires ReachableLease(l)
    ensures RetriesSinceReset(l.log) <= 2
    ensures l.attempts >= 2 ==> RetriesSinceReset(l.log) == 2
  {
    ReachableLeaseInv(l);
  }

  /** The third transient failure in a row is reported as exhausted, and schedules nothing. */
  lemma ExhaustionStops(l: LeaseState)
    requires ReachableLease(l) && l.alive && l.pass.PassOver? && l.pass.end.FailedWith? && RetriesSinceReset(l.log) == 2
    requires l.pass.end.error == Thrown || Transient(l.pass.end.error.reason)
    ensures Settle(l).failure == Some(RecoveryExhausted) && Settle(l).timer == l.timer && Settle(l).log == l.log
  {
    ReachableLeaseInv(l);
  }

  /** After `retire()` no request of any kind is posted and no signature is started. */
  lemma RetiredPageIsSilent(l: LeaseState, i: nat, j: nat)
    requires ReachableLease(l) && i < j < |l.log| && l.log[i] == PageRetired
    ensures !l.log[j].Posted? && !l.log[j].SigningStarted?
  {
    ReachableLeaseInv(l);
  }

  /**
   * The registration and all candidates always share one registration id, so a pass that learns it is gone has
   * nothing left to recover: it posts no further renewal and goes straight to a fresh registration.
   */
  lemma GoneMeansFresh(l: LeaseState, env: PageEnv)
    requires ReachableLease(l) && l.alive && l.pass.Reconciled? && l.pass.binding.None?
    ensures !l.pass.stage.Fresh?
    ensures Resume(l, env).post.Some? ==> Resume(l, env).post.value.BeginRegister?
    ensures Resume(l, env).state.registration.None? && Resume(l, env).state.candidates == []
  {
    ReachableLeaseInv(l);
    GoneClears(l);
  }

  function RegistrationId(l: LeaseState): Option<nat> {
    if l.registration.Some? then Some(l.registration.value.ref.registrationId) else None
  }

  predicate SameBinding(before: LeaseState, after: LeaseState) {
    after.generation == before.generation && after.registration == before.registration && after.alive == before.alive
  }

  lemma SearchKeepsBinding(l: LeaseState, env: PageEnv, expected: Identity)
    ensures SameBinding(l, AfterCurrent(l, env, expected).state) && SameBinding(l, RecoverNext(l, env, expected).state)
  {}

  lemma WakeKeepsBinding(l: LeaseState, env: PageEnv)
    ensures SameBinding(l, Wake(l, env).state)
  {}

  lemma ResumeGeneration(l: LeaseState, env: PageEnv)
    requires LeaseEnabled(l, Resumes(env))
    ensures Resume(l, env).state.generation >= l.generation && Resume(l, env).state.alive == l.alive
    ensures Resume(l, env).state.generation == l.generation ==> RegistrationId(Resume(l, env).state) == RegistrationId(l)
  {
    if l.pass.binding.None? {
      SearchKeepsBinding(RetireRegistration(l, l.pass.stage.target.registrationId), env, l.pass.expected);
      hide AfterCurrent, RecoverNext;
    }
  }

  lemma ChallengeKeepsBinding(l: LeaseState, env: PageEnv, answer: Result<Challenge, Error>)
    requires l.pass.AwaitChallenge?
    ensures SameBinding(l, ChallengeArrives(l, env, answer).state)
  {
    hide Fence, CheckedChallenge;
  }

  lemma SignatureKeepsBinding(l: LeaseState, env: PageEnv, signed: bool)
    requires l.pass.AwaitSignature?
    ensures SameBinding(l, SignatureArrives(l, env, signed).state)
  {
    hide Fence, CheckedChallenge, WithCandidate;
  }

  lemma AdmissionKeepsBinding(l: LeaseState, env: PageEnv, answer: Result<Registration, Error>)
    requires l.pass.AwaitAdmission?
    ensures SameBinding(l, AdmissionArrives(l, env, answer).state)
  {
    hide Fence, WithoutChallenge;
  }

  lemma GenerationStep(l: LeaseState, e: LeaseEvent)
    ensures LeaseStep(l, e).state.generation >= l.generation
    ensures LeaseStep(l, e).state.generation == l.generation ==> RegistrationId(LeaseStep(l, e).state) == RegistrationId(l)
  {
    hide Wake, Resume, ChallengeArrives, SignatureArrives, AdmissionArrives;
    if LeaseEnabled(l, e) {
      match e
      case Starts(env) => WakeKeepsBinding(l.(started := true), env);
      case Refreshes(env) => WakeKeepsBinding(l.(attempts := 0, log := l.log + [AttemptsReset]), env);
      case TimerRings(env) => WakeKeepsBinding(l.(timer := None), env);
      case GetsChallenge(env, answer) => ChallengeKeepsBinding(l, env, answer);
      case GetsSignature(env, signed) => SignatureKeepsBinding(l, env, signed);
      case GetsAdmission(env, answer) => AdmissionKeepsBinding(l, env, answer);
      case Resumes(env) => ResumeGeneration(l, env);
      case Unwinds(env) => WakeKeepsBinding(l.(pass := Idle, log := l.log + [PassEnded], again := false), env);
      case _ =>
    }
  }

  /** The generation names the registration: two moments of a page with the same generation hold the same registration id. */
  lemma {:induction false} SameGenerationSameRegistration(l: LeaseState, events: seq<LeaseEvent>)
    ensures LeaseExec(l, events).generation >= l.generation
    ensures LeaseExec(l, events).generation == l.generation ==> RegistrationId(LeaseExec(l, events)) == RegistrationId(l)
    decreases |events|
  {
    hide LeaseStep;
    if events != [] {
      GenerationStep(l, events[0]);
      SameGenerationSameRegistration(LeaseStep(l, events[0]).state, events[1..]);
    }
  }
}
