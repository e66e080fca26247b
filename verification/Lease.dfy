/** Lease maintenance of the page transport: one challenged registration kept alive through lost answers. */
module Lease {
  import opened Outcomes

  const DEADLINE_MS := 5000
  const LEASE_MS := 60000
  const RENEW_INTERVAL_MS := 20000
  const HORIZON_MARGIN_MS := 1000

  /** The delays after the first, second, ... transient failure in a row. */
  function RetryDelay(attempts: nat): Option<nat> {
    if attempts == 0 then Some(1000) else if attempts == 1 then Some(2000) else None
  }

  predicate Transient(reason: Reason) {
    reason in {TransportFailed, LiveDocumentUnavailable, StaleSession, StaleRegistration, StaleChallenge}
  }

  /** A public key, identified with its digest. */
  type Key(==, !new)

  datatype Identity = Identity(documentId: string, documentEpoch: string, session: Session)
  datatype Ref = Ref(registrationId: nat, registrationEpoch: nat, processId: nat)
  datatype Registration = Registration(identity: Identity, ref: Ref, expiresAt: int)
  datatype ProofKind = Register | Renew
  datatype Challenge = Challenge(kind: ProofKind, binding: Registration, challengeId: nat, challengeExpiresAt: int, key: Key)

  /** A submitted proof without a confirmed answer. */
  datatype Candidate = Candidate(challengeId: nat, ref: Ref, challengeExpiresAt: int, expiresAt: int, localHorizon: int)

  /** What a reconciliation is for: the adopted registration, a candidate, or a fresh one. */
  datatype Stage = Current(target: Ref) | Recover(target: Ref) | Fresh

  datatype Post = BeginRenew(registrationId: nat, identity: Identity) | BeginRegister(identity: Identity, key: Key) | Prove(challengeId: nat)

  /** How a pass ended: a delay until the next one, or a failure. */
  datatype PassEnd = NextIn(delay: int) | FailedWith(error: Error)

  /** Where the single maintenance pass is suspended. */
  datatype Pass =
    | Idle
    | AwaitChallenge(stage: Stage, captured: nat, expected: Identity)
    | AwaitSignature(stage: Stage, captured: nat, expected: Identity, challenge: Challenge)
    | AwaitAdmission(stage: Stage, captured: nat, expected: Identity, challenge: Challenge)
    | Reconciled(stage: Stage, expected: Identity, binding: Option<Registration>)
    | PassOver(end: PassEnd)
    | Unwinding

  datatype LeaseAct =
    | PassStarted | PassEnded | WokenDuringPass
    | AttemptsReset | RetryScheduled
    | SigningStarted(kind: ProofKind) | Posted(post: Post) | PageRetired

  datatype LeaseState = LeaseState(key: Key, alive: bool, started: bool, registration: Option<Registration>, generation: nat, candidates: seq<Candidate>,
                                   failure: Option<Reason>, attempts: nat, again: bool, timer: Option<int>, pass: Pass, log: seq<LeaseAct>)

  /** What the page's ports answer while one segment runs. */
  datatype PageEnv = PageEnv(now: int, mounted: bool, identity: Result<Identity, Reason>, connected: bool)

  /** The state after a segment, and the request it posts, if any. */
  datatype Moved = Moved(state: LeaseState, post: Option<Post>)

  function InitLease(key: Key): LeaseState {
    LeaseState(key, true, false, None, 0, [], None, 0, false, None, Idle, [])
  }

  // ---- Candidates

  function WithoutRegistration(candidates: seq<Candidate>, registrationId: nat): seq<Candidate> {
    if candidates == [] then []
    else if candidates[0].ref.registrationId == registrationId then WithoutRegistration(candidates[1..], registrationId)
    else [candidates[0]] + WithoutRegistration(candidates[1..], registrationId)
  }

  function WithoutChallenge(candidates: seq<Candidate>, challengeId: nat): seq<Candidate> {
    if candidates == [] then []
    else if candidates[0].challengeId == challengeId then WithoutChallenge(candidates[1..], challengeId)
    else [candidates[0]] + WithoutChallenge(candidates[1..], challengeId)
  }

  /** A candidate submitted under a challenge id that is already there takes its place. */
  function WithCandidate(candidates: seq<Candidate>, candidate: Candidate): seq<Candidate> {
    if candidates == [] then [candidate]
    else if candidates[0].challengeId == candidate.challengeId then [candidate] + candidates[1..]
    else [candidates[0]] + WithCandidate(candidates[1..], candidate)
  }

  function Max(a: int, b: int): int {
    if a < b then b else a
  }

  /** How long until every candidate's challenge horizon has passed, with the margin. */
  function Waiting(candidates: seq<Candidate>, now: int): (wait: int)
    ensures wait >= 0
    ensures forall c :: c in candidates ==> Max(c.challengeExpiresAt, c.localHorizon) + 1000 - now <= wait
    ensures wait == 0 || exists c :: c in candidates && Max(c.challengeExpiresAt, c.localHorizon) + 1000 - now == wait
  {
    if candidates == [] then 0
    else Max(Max(candidates[0].challengeExpiresAt, candidates[0].localHorizon) + HORIZON_MARGIN_MS - now, Waiting(candidates[1..], now))
  }

  /** The candidate with the latest lease; of equals, the one submitted first. */
  function Latest(candidates: seq<Candidate>): (c: Candidate)
    requires candidates != []
    ensures c in candidates && forall other :: other in candidates ==> other.expiresAt <= c.expiresAt
  {
    if |candidates| == 1 then candidates[0]
    else
      var rest := Latest(candidates[1..]);
      if candidates[0].expiresAt >= rest.expiresAt then candidates[0] else rest
  }

  // ---- Checks

  function IdentityNow(l: LeaseState, env: PageEnv): Result<Identity, Reason> {
    if !l.alive || !env.mounted then Err(UnmountedDocument) else env.identity
  }

  /** `fence`: the alive mount, the exact identity and the generation the pass started with. */
  function Fence(l: LeaseState, env: PageEnv, captured: nat, expected: Identity): Option<Reason> {
    if !l.alive then Some(StaleSession)
    else match IdentityNow(l, env)
      case Err(reason) => Some(reason)
      case Ok(identity) =>
        if identity != expected then Some(StaleSession)
        else if l.generation != captured then Some(StaleRegistration)
        else None
  }

  function KindOf(stage: Stage): ProofKind {
    if stage.Fresh? then Register else Renew
  }

  function CheckedChallenge(l: LeaseState, env: PageEnv, stage: Stage, expected: Identity, challenge: Challenge): Option<Reason> {
    if challenge.kind != KindOf(stage) || challenge.key != l.key || challenge.challengeExpiresAt > env.now + DEADLINE_MS
       || challenge.binding.expiresAt > env.now + LEASE_MS then Some(InvalidChallenge)
    else if challenge.challengeExpiresAt <= env.now || challenge.binding.expiresAt <= env.now then Some(StaleChallenge)
    else if challenge.binding.identity != expected then Some(StaleDocument)
    else if !stage.Fresh? && challenge.binding.ref != stage.target then Some(StaleRegistration)
    else match IdentityNow(l, env)
      case Err(reason) => Some(reason)
      case Ok(identity) => if identity != expected then Some(StaleSession) else None
  }

  // ---- Segments of one pass

  function End(l: LeaseState, end: PassEnd): Moved {
    Moved(l.(pass := PassOver(end)), None)
  }

  function Fails(l: LeaseState, reason: Reason): Moved {
    End(l, FailedWith(Refused(reason)))
  }

  function Posts(l: LeaseState, pass: Pass, post: Post): Moved {
    Moved(l.(pass := pass, log := l.log + [Posted(post)]), Some(post))
  }

  function RegisterFresh(l: LeaseState, env: PageEnv, expected: Identity): Moved {
    var stale := Fence(l, env, l.generation, expected);
    if stale.Some? then Fails(l, stale.value)
    else Posts(l, AwaitChallenge(Fresh, l.generation, expected), BeginRegister(expected, l.key))
  }

  /** The candidate loop: reconcile the latest one, or register once there is none. */
  function RecoverNext(l: LeaseState, env: PageEnv, expected: Identity): Moved {
    if l.candidates == [] then RegisterFresh(l, env, expected)
    else
      var target := Latest(l.candidates).ref;
      Posts(l, AwaitChallenge(Recover(target), l.generation, expected), BeginRenew(target.registrationId, expected))
  }

  function AfterCurrent(l: LeaseState, env: PageEnv, expected: Identity): Moved {
    var waiting := Waiting(l.candidates, env.now);
    if waiting > 0 then End(l, NextIn(waiting)) else RecoverNext(l, env, expected)
  }

  /** The synchronous head of `maintain`. */
  function StartPass(l0: LeaseState, env: PageEnv): Moved {
    var l := l0.(timer := None, log := l0.log + [PassStarted]);
    match IdentityNow(l, env)
    case Err(reason) => Fails(l, reason)
    case Ok(expected) =>
      if !env.connected then Fails(l, LiveDocumentUnavailable)
      else if l.registration.Some? then
        var target := l.registration.value.ref;
        Posts(l, AwaitChallenge(Current(target), l.generation, expected), BeginRenew(target.registrationId, expected))
      else AfterCurrent(l, env, expected)
  }

  /** The answer to a begin request: a challenge to sign, or the news that the binding is gone. */
  function ChallengeArrives(l: LeaseState, env: PageEnv, answer: Result<Challenge, Error>): Moved
    requires l.pass.AwaitChallenge?
  {
    var AwaitChallenge(stage, captured, expected) := l.pass;
    var stale := Fence(l, env, captured, expected);
    match answer
    case Err(error) =>
      if stage.Fresh? || error != Refused(StaleRegistration) then End(l, FailedWith(error))
      else if stale.Some? then Fails(l, stale.value)
      else Moved(l.(pass := Reconciled(stage, expected, None)), None)
    case Ok(challenge) =>
      if stale.Some? then Fails(l, stale.value)
      else
        var invalid := CheckedChallenge(l, env, stage, expected, challenge);
        if invalid.Some? then Fails(l, invalid.value)
        else Moved(l.(pass := AwaitSignature(stage, captured, expected, challenge), log := l.log + [SigningStarted(KindOf(stage))]), None)
  }

  /** `signed` is false when signing failed. The proof becomes a candidate before it is posted. */
  function SignatureArrives(l: LeaseState, env: PageEnv, signed: bool): Moved
    requires l.pass.AwaitSignature?
  {
    var AwaitSignature(stage, captured, expected, challenge) := l.pass;
    var stale := Fence(l, env, captured, expected);
    if !signed then End(l, FailedWith(Thrown))
    else if stale.Some? then Fails(l, stale.value)
    else
      var candidate := Candidate(challenge.challengeId, challenge.binding.ref, challenge.challengeExpiresAt, challenge.binding.expiresAt, env.now + DEADLINE_MS);
      Posts(l.(candidates := WithCandidate(l.candidates, candidate)), AwaitAdmission(stage, captured, expected, challenge), Prove(challenge.challengeId))
  }

  /** A refusal proves the proof was not admitted; a lost or failed answer proves nothing. */
  function AdmissionArrives(l: LeaseState, env: PageEnv, answer: Result<Registration, Error>): Moved
    requires l.pass.AwaitAdmission?
  {
    var AwaitAdmission(stage, captured, expected, challenge) := l.pass;
    match answer
    case Err(error) =>
      var kept := if error.Refused? && error.reason != TransportFailed then WithoutChallenge(l.candidates, challenge.challengeId) else l.candidates;
      End(l.(candidates := kept), FailedWith(error))
    case Ok(binding) =>
      var stale := Fence(l, env, captured, expected);
      if binding != challenge.binding then Fails(l, InvalidRegistration)
      else if stale.Some? then Fails(l, stale.value)
      else Moved(l.(pass := Reconciled(stage, expected, Some(binding))), None)
  }

  function Adopt(l: LeaseState, binding: Registration): LeaseState {
    var same := l.registration.Some? && l.registration.value.ref.registrationId == binding.ref.registrationId;
    l.(candidates := WithoutRegistration(l.candidates, binding.ref.registrationId), generation := if same then l.generation else l.generation + 1,
       registration := Some(binding), failure := None, attempts := 0, log := l.log + [AttemptsReset])
  }

  function RetireRegistration(l: LeaseState, registrationId: nat): LeaseState {
    var own := l.registration.Some? && l.registration.value.ref.registrationId == registrationId;
    l.(candidates := WithoutRegistration(l.candidates, registrationId), registration := if own then None else l.registration,
       generation := if own then l.generation + 1 else l.generation)
  }

  /** `maintain` resumes with the answer of a reconciliation. */
  function Resume(l: LeaseState, env: PageEnv): Moved
    requires l.pass.Reconciled? && (l.pass.stage.Fresh? ==> l.pass.binding.Some?)
  {
    var Reconciled(stage, expected, binding) := l.pass;
    if binding.Some? then End(Adopt(l, binding.value), NextIn(RENEW_INTERVAL_MS))
    else
      var l1 := RetireRegistration(l, stage.target.registrationId);
      if stage.Current? then AfterCurrent(l1, env, expected) else RecoverNext(l1, env, expected)
  }

  // ---- Scheduling

  /** `timer` holds the delay of the pending timer. */
  function Schedule(l: LeaseState, delay: int): LeaseState {
    l.(timer := if l.alive then Some(delay) else None)
  }

  function ReportReason(l: LeaseState, reason: Reason): LeaseState {
    l.(failure := Some(reason))
  }

  function ReasonOf(error: Error): Reason {
    if error.Refused? then error.reason else TransportFailed
  }

  /** The pass settles: schedule the next one, retry a transient failure, or stop visibly. */
  function Settle(l: LeaseState): LeaseState
    requires l.pass.PassOver?
  {
    var u := l.(pass := Unwinding);
    match l.pass.end
    case NextIn(delay) => Schedule(u, delay)
    case FailedWith(error) =>
      if !l.alive then u
      else
        var reported := ReportReason(u, ReasonOf(error));
        if error.Refused? && !Transient(error.reason) then reported
        else
          var counted := reported.(attempts := l.attempts + 1);
          if RetryDelay(l.attempts).None? then ReportReason(counted, RecoveryExhausted)
          else Schedule(counted.(log := counted.log + [RetryScheduled]), RetryDelay(l.attempts).value)
  }

  /** `runMaintenance`. */
  function Wake(l: LeaseState, env: PageEnv): Moved {
    if !l.started || !l.alive then Moved(l, None)
    else if l.pass != Idle then Moved(l.(again := true, log := l.log + [WokenDuringPass]), None)
    else StartPass(l, env)
  }

  /** The `finally` of a pass. */
  function PassEnds(l: LeaseState, env: PageEnv): Moved
    requires l.pass == Unwinding
  {
    var idle := l.(pass := Idle, log := l.log + [PassEnded]);
    if l.again && l.alive then Wake(idle.(again := false), env) else Moved(idle, None)
  }

  /** `refresh`, and the existing channel's `reconnected` event. */
  function Refresh(l: LeaseState, env: PageEnv): Moved {
    Wake(l.(attempts := 0, log := l.log + [AttemptsReset]), env)
  }

  function RetirePage(l: LeaseState): LeaseState {
    l.(alive := false, timer := None, registration := None, generation := l.generation + 1, candidates := [], log := l.log + [PageRetired])
  }

  // ---- Steps

  datatype LeaseEvent =
    | Starts(env: PageEnv)
    | Refreshes(env: PageEnv)
    | TimerRings(env: PageEnv)
    | GetsChallenge(env: PageEnv, challenge: Result<Challenge, Error>)
    | GetsSignature(env: PageEnv, signed: bool)
    | GetsAdmission(env: PageEnv, admission: Result<Registration, Error>)
    | Resumes(env: PageEnv)
    | Settles
    | Unwinds(env: PageEnv)
    | ReceiveFails(reason: Reason)
    | Retires

  predicate LeaseEnabled(l: LeaseState, e: LeaseEvent) {
    match e
    case Starts(_) => !l.started
    case Refreshes(_) => true
    case TimerRings(_) => l.timer.Some?
    case GetsChallenge(_, _) => l.pass.AwaitChallenge?
    case GetsSignature(_, _) => l.pass.AwaitSignature?
    case GetsAdmission(_, _) => l.pass.AwaitAdmission?
    case Resumes(_) => l.pass.Reconciled? && (l.pass.stage.Fresh? ==> l.pass.binding.Some?)
    case Settles => l.pass.PassOver?
    case Unwinds(_) => l.pass == Unwinding
    case ReceiveFails(_) => true
    case Retires => true
  }

  function LeaseStep(l: LeaseState, e: LeaseEvent): Moved {
    if !LeaseEnabled(l, e) then Moved(l, None) else
    match e
    case Starts(env) => Wake(l.(started := true), env)
    case Refreshes(env) => Refresh(l, env)
    case TimerRings(env) => Wake(l.(timer := None), env)
    case GetsChallenge(env, challenge) => ChallengeArrives(l, env, challenge)
    case GetsSignature(env, signed) => SignatureArrives(l, env, signed)
    case GetsAdmission(env, admission) => AdmissionArrives(l, env, admission)
    case Resumes(env) => Resume(l, env)
    case Settles => Moved(Settle(l), None)
    case Unwinds(env) => PassEnds(l, env)
    case ReceiveFails(reason) => Moved(ReportReason(l, reason), None)
    case Retires => Moved(RetirePage(l), None)
  }

  function LeaseExec(l: LeaseState, events: seq<LeaseEvent>): LeaseState
    decreases |events|
  {
    if events == [] then l else LeaseExec(LeaseStep(l, events[0]).state, events[1..])
  }
}
