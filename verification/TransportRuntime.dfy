/**
 * The transport closure of one page as an object. Its methods are the synchronous segments between two awaits; each moves
 * the fields as the function of the same name moves the state, and says what it promises its caller.
 */
module TransportRuntime {
  import opened Outcomes
  import opened Lease
  import opened Commands
  import D = Document
  import DocumentRuntime
  import CommandsSafety
  import DocumentSafety
  import LeaseAnswers
  import LeaseSafety

  lemma LeaseParts(t: Tab)
    requires CommandsSafety.TabInv(t)
    ensures LeaseSafety.LeaseInv(t.lease) && DocumentSafety.Inv(t.doc)
  {}

  /** One turn of the loop over the candidates: the next one is dropped or kept. */
  lemma ForgetsNext(candidates: seq<Candidate>, i: nat, registrationId: nat)
    requires i < |candidates|
    ensures
      var left, all := candidates[..i] + candidates[i + 1..], candidates[..i] + WithoutRegistration(candidates[i..], registrationId);
      if candidates[i].ref.registrationId == registrationId then left[..i] + WithoutRegistration(left[i..], registrationId) == all
      else candidates[..i + 1] + WithoutRegistration(candidates[i + 1..], registrationId) == all
  {
    var left := candidates[..i] + candidates[i + 1..];
    assert left[..i] == candidates[..i] && left[i..] == candidates[i + 1..];
    assert candidates[i..][0] == candidates[i] && candidates[i..][1..] == candidates[i + 1..];
    assert candidates[..i + 1] == candidates[..i] + [candidates[i]];
  }

  /** What the single segments keep, said of each by its name. */
  lemma SegmentsKeep(t: Tab, command: Command, now: int)
    requires CommandsSafety.TabInv(t)
    ensures CommandsSafety.TabInv(TakeCommand(t, command, now)) && CommandsSafety.TabInv(TakeCancellation(t, command, now))
  {
    hide CommandsSafety.TabInv, TakeCommand, TakeCancellation;
    CommandsSafety.TabStepOk(t, GetsCommand(command, now));
    CommandsSafety.TabStepOk(t, GetsCancellation(command, now));
  }

  lemma RetiringKeeps(t: Tab)
    requires CommandsSafety.TabInv(t)
    ensures CommandsSafety.TabInv(RetireTransport(t))
  {
    hide CommandsSafety.TabInv, RetireTransport;
    CommandsSafety.TabStepOk(t, RetiresTransport);
  }

  lemma FlightsKeep(t: Tab, e: TabEvent)
    requires CommandsSafety.TabInv(t) && TabEnabled(t, e)
    ensures e.GetsDigest? ==> CommandsSafety.TabInv(Commands.DigestArrives(t, e.nonce, e.digest, e.env))
    ensures e.GetsReceipt? ==> CommandsSafety.TabInv(Commands.ReceiptArrives(t, e.nonce, e.wellFormed, e.env))
    ensures e.GetsReceiptSignature? ==> CommandsSafety.TabInv(Commands.SignedReceipt(t, e.nonce, e.signed))
  {
    hide CommandsSafety.TabInv, Commands.DigestArrives, Commands.ReceiptArrives, Commands.SignedReceipt;
    CommandsSafety.TabStepOk(t, e);
  }

  /** What is signed is the receipt the document settled for exactly this request, or says why it was turned away. */
  lemma SigningFits(t: Tab, nonce: Nonce, wellFormed: bool, env: PageEnv)
    requires CommandsSafety.TabInv(t) && TabEnabled(t, GetsReceipt(nonce, wellFormed, env))
    ensures
      var t1 := Commands.ReceiptArrives(t, nonce, wellFormed, env);
      t1.flights[nonce].phase.Signing? ==> CommandsSafety.ReceiptFits(t.doc, t.flights[nonce].command.request, t1.flights[nonce].phase.receipt)
  {
    var t1 := Commands.ReceiptArrives(t, nonce, wellFormed, env);
    hide CommandsSafety.TabInv, CommandsSafety.ReceiptFits, SigningRefusal, SettledAnswer;
    FlightsKeep(t, GetsReceipt(nonce, wellFormed, env));
    if t1.flights[nonce].phase.Signing? { CommandsSafety.SignsSettled(t1, nonce); }
  }

  /** A retired page has a later generation than every flight was received under. */
  lemma CapturedBefore(t: Tab)
    requires CommandsSafety.TabInv(t) && !t.lease.alive
    ensures forall nonce :: nonce in t.flights ==> t.flights[nonce].captured < t.lease.generation
  {
    assert forall nonce :: nonce in t.flights ==> CommandsSafety.FlightOk(t, nonce);
  }

  /** A command whose nonce was cancelled before it is executed is dead at once. */
  lemma ExecutedDead(t: Tab, nonce: Nonce)
    requires CommandsSafety.TabInv(t) && nonce in t.flights && t.flights[nonce].phase == Hashing && nonce in t.cancelled
    ensures CommandsSafety.Dead(Commands.ExecuteCommand(t, nonce).doc, t.flights[nonce].command.request.requestId)
  {
    hide CommandsSafety.TabInv, DocumentSafety.Inv;
    CommandsSafety.TabParts(t);
    hide D.Execute, D.Cancel;
    CommandsSafety.ExecutedMoves(t.doc, t.flights[nonce].command.request, true);
  }

  class BrowserTransport {
    const document: DocumentRuntime.AppActionsDocument
    const key: Key
    var alive: bool
    var started: bool
    var registration: Option<Registration>
    var generation: nat
    var candidates: seq<Candidate>
    var failure: Option<Reason>
    var attempts: nat
    var again: bool
    var timer: Option<int>
    var pass: Pass
    ghost var leaseLog: seq<LeaseAct>
    var flights: map<Nonce, Flight>
    var byNonce: set<Nonce>
    var observed: map<RequestId, Command>
    var cancelled: map<Nonce, Command>
    var inFlight: set<RequestId>
    ghost var commandLog: seq<CommandAct>

    ghost function Held(): LeaseState
      reads this
    {
      LeaseState(key, alive, started, registration, generation, candidates, failure, attempts, again, timer, pass, leaseLog)
    }

    ghost function State(): Tab
      reads this, document
    {
      Tab(document.State(), Held(), flights, byNonce, observed, cancelled, inFlight, commandLog)
    }

    /** What the segments of lease maintenance keep. */
    ghost predicate Leased()
      reads this
    {
      LeaseSafety.LeaseInv(Held())
    }

    /** What every segment keeps of the document, the lease and the commands together. */
    ghost predicate Valid()
      reads this, document
    {
      CommandsSafety.TabInv(State())
    }

    constructor (document: DocumentRuntime.AppActionsDocument, key: Key)
      requires document.Valid()
      ensures this.document == document && Valid()
      ensures State() == InitTab("", "", key).(doc := document.State())
    {
      this.document, this.key := document, key;
      alive, started, registration, generation, candidates := true, false, None, 0, [];
      failure, attempts, again, timer, pass, leaseLog := None, 0, false, None, Idle, [];
      flights, byNonce, observed, cancelled, inFlight, commandLog := map[], {}, map[], map[], {}, [];
      new;
      CommandsSafety.NewTabInv(document.State(), key);
    }

    // ---- Checks

    method CurrentIdentity(env: PageEnv) returns (identity: Result<Identity, Reason>)
      ensures identity == IdentityNow(Held(), env)
      ensures identity.Ok? <==> alive && env.mounted && env.identity.Ok?
      ensures identity.Ok? ==> identity == env.identity
    {
      if !alive || !env.mounted { return Err(UnmountedDocument); }
      return env.identity;
    }

    /** Under a suspended pass the generation never moves, so for its answers only the mount and the identity decide. */
    method Fenced(env: PageEnv, captured: nat, expected: Identity) returns (stale: Option<Reason>)
      ensures stale == Fence(Held(), env, captured, expected)
      ensures stale.None? <==> alive && env.mounted && env.identity == Ok(expected) && generation == captured
      ensures Leased() && (pass.AwaitChallenge? || pass.AwaitSignature? || pass.AwaitAdmission?) && captured == pass.captured ==>
        (stale.None? <==> alive && env.mounted && env.identity == Ok(expected))
    {
      hide LeaseSafety.LeaseInv;
      if Leased() && alive { LeaseSafety.LivePass(Held()); }
      if !alive { return Some(StaleSession); }
      var current := CurrentIdentity(env);
      if current.Err? { return Some(current.error); }
      if current.value != expected { return Some(StaleSession); }
      if generation != captured { return Some(StaleRegistration); }
      return None;
    }

    /** What is signed for a renewal is for exactly the registration that the page and all its candidates name. */
    method CheckChallenge(env: PageEnv, stage: Stage, expected: Identity, challenge: Challenge) returns (invalid: Option<Reason>)
      ensures invalid == CheckedChallenge(Held(), env, stage, expected, challenge)
      ensures invalid.None? <==>
        && challenge.kind == KindOf(stage) && challenge.key == key
        && env.now < challenge.challengeExpiresAt <= env.now + DEADLINE_MS
        && env.now < challenge.binding.expiresAt <= env.now + LEASE_MS
        && challenge.binding.identity == expected && (!stage.Fresh? ==> challenge.binding.ref == stage.target)
        && alive && env.mounted && env.identity == Ok(expected)
      ensures invalid.None? && !stage.Fresh? && LeaseSafety.StageFits(Held(), stage) ==>
        && (forall c :: c in candidates ==> c.ref == challenge.binding.ref)
        && (registration.Some? ==> registration.value.ref == challenge.binding.ref)
    {
      if challenge.kind != KindOf(stage) || challenge.key != key || challenge.challengeExpiresAt > env.now + DEADLINE_MS
         || challenge.binding.expiresAt > env.now + LEASE_MS { return Some(InvalidChallenge); }
      if challenge.challengeExpiresAt <= env.now || challenge.binding.expiresAt <= env.now { return Some(StaleChallenge); }
      if challenge.binding.identity != expected { return Some(StaleDocument); }
      if !stage.Fresh? && challenge.binding.ref != stage.target { return Some(StaleRegistration); }
      var current := CurrentIdentity(env);
      if current.Err? { return Some(current.error); }
      if current.value != expected { return Some(StaleSession); }
      return None;
    }

    // ---- Candidates

    method ForgetCandidates(registrationId: nat)
      modifies `candidates
      ensures candidates == WithoutRegistration(old(candidates), registrationId)
    {
      var i := 0;
      while i < |candidates|
        invariant 0 <= i <= |candidates|
        invariant candidates[..i] + WithoutRegistration(candidates[i..], registrationId) == WithoutRegistration(old(candidates), registrationId)
        decreases |candidates| - i
      {
        ForgetsNext(candidates, i, registrationId);
        if candidates[i].ref.registrationId == registrationId {
          candidates := candidates[..i] + candidates[i + 1..];
        } else {
          i := i + 1;
        }
      }
    }

    method WaitingTime(now: int) returns (wait: int)
      ensures wait == Waiting(candidates, now)
    {
      wait := 0;
      for i := 0 to |candidates|
        invariant Max(wait, Waiting(candidates[i..], now)) == Waiting(candidates, now)
        invariant wait >= 0
      {
        wait := Max(wait, Max(candidates[i].challengeExpiresAt, candidates[i].localHorizon) + HORIZON_MARGIN_MS - now);
        assert candidates[i..][1..] == candidates[i + 1..];
      }
    }

    // ---- One pass

    method Fail(reason: Reason)
      modifies `pass
      ensures Held() == Fails(old(Held()), reason).state
    {
      pass := PassOver(FailedWith(Refused(reason)));
    }

    method Await(next: Pass, request: Post) returns (post: Option<Post>)
      modifies `pass, `leaseLog
      ensures Moved(Held(), post) == Posts(old(Held()), next, request)
    {
      pass := next;
      leaseLog := leaseLog + [Posted(request)];
      return Some(request);
    }

    method RegisterCurrent(env: PageEnv, expected: Identity) returns (post: Option<Post>)
      modifies `pass, `leaseLog
      ensures Moved(Held(), post) == RegisterFresh(old(Held()), env, expected)
    {
      var stale := Fenced(env, generation, expected);
      if stale.Some? { Fail(stale.value); return None; }
      post := Await(AwaitChallenge(Fresh, generation, expected), BeginRegister(expected, key));
    }

    method RecoverOrRegister(env: PageEnv, expected: Identity) returns (post: Option<Post>)
      modifies `pass, `leaseLog
      ensures Moved(Held(), post) == RecoverNext(old(Held()), env, expected)
    {
      if candidates == [] {
        post := RegisterCurrent(env, expected);
      } else {
        var target := Latest(candidates).ref;
        post := Await(AwaitChallenge(Recover(target), generation, expected), BeginRenew(target.registrationId, expected));
      }
    }

    method WaitOrRecover(env: PageEnv, expected: Identity) returns (post: Option<Post>)
      modifies `pass, `leaseLog
      ensures Moved(Held(), post) == AfterCurrent(old(Held()), env, expected)
    {
      var waiting := WaitingTime(env.now);
      if waiting > 0 { pass := PassOver(NextIn(waiting)); return None; }
      post := RecoverOrRegister(env, expected);
    }

    method Maintain(env: PageEnv) returns (post: Option<Post>)
      modifies `pass, `leaseLog, `timer
      ensures Moved(Held(), post) == StartPass(old(Held()), env)
    {
      timer := None;
      leaseLog := leaseLog + [PassStarted];
      var expected := CurrentIdentity(env);
      if expected.Err? { Fail(expected.error); return None; }
      if !env.connected { Fail(LiveDocumentUnavailable); return None; }
      if registration.Some? {
        var target := registration.value.ref;
        post := Await(AwaitChallenge(Current(target), generation, expected.value), BeginRenew(target.registrationId, expected.value));
      } else {
        post := WaitOrRecover(env, expected.value);
      }
    }

    method ChallengeArrives(env: PageEnv, answer: Result<Challenge, Error>) returns (post: Option<Post>)
      requires Leased() && pass.AwaitChallenge?
      modifies `pass, `leaseLog
      ensures Leased() && Moved(Held(), post) == Lease.ChallengeArrives(old(Held()), env, answer)
      ensures post.None? && (pass.PassOver? || pass.Reconciled? || pass.AwaitSignature?)
      ensures pass.AwaitSignature? ==> alive && env.identity == Ok(pass.expected) && answer == Ok(pass.challenge) && pass.challenge.key == key
      ensures pass.Reconciled? ==> alive && answer == Err(Refused(StaleRegistration)) && !pass.stage.Fresh?
    {
      hide LeaseSafety.LeaseInv;
      LeaseSafety.ChallengeKeeps(Held(), env, answer);
      var AwaitChallenge(stage, captured, expected) := pass;
      if answer.Err? && (stage.Fresh? || answer.error != Refused(StaleRegistration)) {
        pass := PassOver(FailedWith(answer.error));
        return None;
      }
      var stale := Fenced(env, captured, expected);
      if stale.Some? { Fail(stale.value); return None; }
      if answer.Err? { pass := Reconciled(stage, expected, None); return None; }
      var invalid := CheckChallenge(env, stage, expected, answer.value);
      if invalid.Some? { Fail(invalid.value); return None; }
      pass := AwaitSignature(stage, captured, expected, answer.value);
      leaseLog := leaseLog + [SigningStarted(KindOf(stage))];
      return None;
    }

    method SignatureArrives(env: PageEnv, signed: bool) returns (post: Option<Post>)
      requires Leased() && pass.AwaitSignature?
      modifies `pass, `leaseLog, `candidates
      ensures Leased() && Moved(Held(), post) == Lease.SignatureArrives(old(Held()), env, signed)
      ensures post.Some? ==> alive && old(pass).challenge.challengeId == post.value.challengeId
      ensures post.Some? ==> exists c :: c in candidates && c.challengeId == post.value.challengeId && c.localHorizon == env.now + DEADLINE_MS
      ensures post.None? ==> candidates == old(candidates) && pass.PassOver?
    {
      hide LeaseSafety.LeaseInv;
      LeaseSafety.SignatureKeeps(Held(), env, signed);
      var AwaitSignature(stage, captured, expected, challenge) := pass;
      if !signed { pass := PassOver(FailedWith(Thrown)); return None; }
      var stale := Fenced(env, captured, expected);
      if stale.Some? { Fail(stale.value); return None; }
      var candidate := Candidate(challenge.challengeId, challenge.binding.ref, challenge.challengeExpiresAt, challenge.binding.expiresAt, env.now + DEADLINE_MS);
      LeaseSafety.WithCandidateMembers(candidates, candidate);
      candidates := WithCandidate(candidates, candidate);
      post := Await(AwaitAdmission(stage, captured, expected, challenge), Prove(challenge.challengeId));
    }

    method AdmissionArrives(env: PageEnv, answer: Result<Registration, Error>)
      requires Leased() && pass.AwaitAdmission?
      modifies `pass, `candidates
      ensures Leased() && Moved(Held(), None) == Lease.AdmissionArrives(old(Held()), env, answer)
      ensures var refused := answer.Err? && answer.error.Refused? && answer.error.reason != TransportFailed;
        forall c :: c in candidates <==> c in old(candidates) && (refused ==> c.challengeId != old(pass).challenge.challengeId)
      ensures pass.Reconciled? ==> alive && answer == Ok(old(pass).challenge.binding) && pass.binding == Some(answer.value)
    {
      hide LeaseSafety.LeaseInv;
      LeaseSafety.AdmissionKeeps(Held(), env, answer);
      LeaseSafety.WithoutChallengeMembers(candidates, pass.challenge.challengeId);
      var AwaitAdmission(stage, captured, expected, challenge) := pass;
      if answer.Err? {
        if answer.error.Refused? && answer.error.reason != TransportFailed { candidates := WithoutChallenge(candidates, challenge.challengeId); }
        pass := PassOver(FailedWith(answer.error));
        return;
      }
      if answer.value != challenge.binding { Fail(InvalidRegistration); return; }
      var stale := Fenced(env, captured, expected);
      if stale.Some? { Fail(stale.value); return; }
      pass := Reconciled(stage, expected, Some(answer.value));
    }

    method Adopt(binding: Registration)
      modifies `candidates, `generation, `registration, `failure, `attempts, `leaseLog
      ensures Held() == Lease.Adopt(old(Held()), binding)
      ensures registration == Some(binding) && failure.None? && attempts == 0
      ensures forall c :: c in candidates <==> c in old(candidates) && c.ref.registrationId != binding.ref.registrationId
    {
      LeaseSafety.WithoutRegistrationMembers(candidates, binding.ref.registrationId);
      ForgetCandidates(binding.ref.registrationId);
      if registration.None? || registration.value.ref.registrationId != binding.ref.registrationId { generation := generation + 1; }
      registration, failure, attempts := Some(binding), None, 0;
      leaseLog := leaseLog + [AttemptsReset];
    }

    method RetireRegistration(registrationId: nat)
      modifies `candidates, `generation, `registration
      ensures Held() == Lease.RetireRegistration(old(Held()), registrationId)
      ensures registration.None? || (registration == old(registration) && registration.value.ref.registrationId != registrationId)
      ensures forall c :: c in candidates <==> c in old(candidates) && c.ref.registrationId != registrationId
    {
      LeaseSafety.WithoutRegistrationMembers(candidates, registrationId);
      ForgetCandidates(registrationId);
      if registration.Some? && registration.value.ref.registrationId == registrationId {
        registration, generation := None, generation + 1;
      }
    }

    method Resume(env: PageEnv) returns (post: Option<Post>)
      requires Leased() && pass.Reconciled? && (pass.stage.Fresh? ==> pass.binding.Some?)
      modifies `candidates, `generation, `registration, `failure, `attempts, `leaseLog, `pass
      ensures Leased() && Moved(Held(), post) == Lease.Resume(old(Held()), env)
      ensures old(pass).binding.Some? ==> post.None? && registration == old(pass).binding
      ensures alive && old(pass).binding.None? ==> registration.None? && candidates == []
      ensures post.Some? ==> alive && registration.None? && candidates == [] && post.value.BeginRegister?
    {
      hide LeaseSafety.LeaseInv;
      LeaseSafety.ResumeKeeps(Held(), env);
      if pass.binding.None? { LeaseSafety.GoneClears(Held()); }
      var Reconciled(stage, expected, binding) := pass;
      if binding.Some? {
        Adopt(binding.value);
        pass := PassOver(NextIn(RENEW_INTERVAL_MS));
        return None;
      }
      RetireRegistration(stage.target.registrationId);
      if stage.Current? { post := WaitOrRecover(env, expected); } else { post := RecoverOrRegister(env, expected); }
    }

    // ---- Scheduling

    method Settle()
      requires Leased() && pass.PassOver?
      modifies `pass, `timer, `failure, `attempts, `leaseLog
      ensures Leased() && Held() == Lease.Settle(old(Held()))
      ensures pass == Unwinding && (alive ==> timer.Some? || failure.Some? || again)
      ensures alive && old(pass).end.FailedWith? ==>
        timer == if LeaseAnswers.MayPass(old(pass).end.error) && old(attempts) < 2 then Some(if old(attempts) == 0 then 1000 else 2000) else None
    {
      hide LeaseSafety.LeaseInv, LeaseAnswers.MayPass, ReasonOf, Transient;
      LeaseAnswers.SettleFacts(Held());
      var end := pass.end;
      pass := Unwinding;
      if end.NextIn? {
        timer := if alive then Some(end.delay) else None;
        return;
      }
      if !alive { return; }
      failure := Some(ReasonOf(end.error));
      if end.error.Refused? && !Transient(end.error.reason) { return; }
      var delay := RetryDelay(attempts);
      attempts := attempts + 1;
      if delay.None? { failure := Some(RecoveryExhausted); return; }
      leaseLog := leaseLog + [RetryScheduled];
      timer := if alive then delay else None;
    }

    method RunMaintenance(env: PageEnv) returns (post: Option<Post>)
      modifies `pass, `leaseLog, `timer, `again
      ensures Moved(Held(), post) == Wake(old(Held()), env)
      ensures started && alive && old(pass) != Idle ==> again && post.None? && pass == old(pass)
    {
      if !started || !alive { return None; }
      if pass != Idle {
        again := true;
        leaseLog := leaseLog + [WokenDuringPass];
        return None;
      }
      post := Maintain(env);
    }

    method PassEnds(env: PageEnv) returns (post: Option<Post>)
      requires Leased() && pass == Unwinding
      modifies `pass, `leaseLog, `timer, `again
      ensures Leased() && Moved(Held(), post) == Lease.PassEnds(old(Held()), env)
      ensures alive && old(again) ==> pass != Idle && !again
      ensures alive && pass == Idle ==> timer.Some? || failure.Some?
    {
      hide LeaseSafety.LeaseInv;
      LeaseSafety.PassEndsKeeps(Held(), env);
      LeaseSafety.Timing(Held());
      LeaseSafety.Timing(Lease.PassEnds(Held(), env).state);
      pass := Idle;
      leaseLog := leaseLog + [PassEnded];
      if again && alive {
        again := false;
        post := RunMaintenance(env);
      } else {
        post := None;
      }
    }

    method Start(env: PageEnv) returns (post: Option<Post>)
      requires Leased() && !started
      modifies `started, `pass, `leaseLog, `timer, `again
      ensures Leased() && Moved(Held(), post) == LeaseStep(old(Held()), Starts(env))
      ensures alive ==> pass != Idle
    {
      hide LeaseSafety.LeaseInv;
      LeaseSafety.LeaseStepKeeps(Held(), Starts(env));
      LeaseSafety.Timing(Held());
      started := true;
      post := RunMaintenance(env);
    }

    method Refresh(env: PageEnv) returns (post: Option<Post>)
      requires Leased()
      modifies `attempts, `pass, `leaseLog, `timer, `again
      ensures Leased() && Moved(Held(), post) == Lease.Refresh(old(Held()), env)
      ensures attempts == 0 && (started && alive ==> pass != Idle && (old(pass) != Idle ==> again))
    {
      hide LeaseSafety.LeaseInv;
      LeaseSafety.RefreshKeeps(Held(), env);
      attempts := 0;
      leaseLog := leaseLog + [AttemptsReset];
      post := RunMaintenance(env);
    }

    method RetireLease()
      requires Leased()
      modifies `alive, `timer, `registration, `generation, `candidates, `leaseLog
      ensures Leased() && Held() == RetirePage(old(Held()))
      ensures !alive && timer.None? && registration.None? && candidates == [] && generation > old(generation)
    {
      hide LeaseSafety.LeaseInv;
      LeaseSafety.RetireKeeps(Held());
      alive, timer, registration, generation, candidates := false, None, None, generation + 1, [];
      leaseLog := leaseLog + [PageRetired];
    }

    method Retire()
      requires Valid()
      modifies `alive, `timer, `registration, `generation, `candidates, `leaseLog, `byNonce, `observed, `cancelled, `commandLog
      ensures Valid() && State() == RetireTransport(old(State()))
      ensures !alive && observed == map[] && cancelled == map[] && byNonce == {}
      ensures forall nonce :: nonce in flights ==> flights[nonce].captured < generation
    {
      hide CommandsSafety.TabInv, LeaseSafety.LeaseInv, DocumentSafety.Inv;
      ghost var t := State();
      LeaseParts(t);
      RetiringKeeps(t);
      CapturedBefore(RetireTransport(t));
      RetireLease();
      hide RetirePage;
      byNonce, cancelled, observed := {}, map[], map[];
      commandLog := commandLog + [TransportRetired];
    }

    // ---- Commands

    /** A command is taken when it is for exactly the live registration and new under its nonce and its request id. */
    method Hear(command: Command, now: int) returns (hearing: Hearing)
      requires Valid()
      ensures hearing == HearCommand(State(), command, now)
      ensures hearing == Taken <==>
        && alive && registration.Some? && command.ref == registration.value.ref && now < registration.value.expiresAt
        && SameDocument(command, registration.value) && |flights| < MAX_COMMANDS
        && command.nonce !in flights && command.request.requestId !in observed
        && (command.nonce in cancelled ==> cancelled[command.nonce] == command)
    {
      hide CommandsSafety.TabInv;
      CommandsSafety.TabParts(State());
      if command.request.requestId in observed { CommandsSafety.KnownFlight(State(), command.request.requestId); }
      assert alive ==> byNonce == flights.Keys && |flights.Keys| == |flights|;
      hide CommandsSafety.MapsOk, LeaseSafety.LeaseInv, DocumentSafety.Inv;
      if !alive || registration.None? { return Ignored; }
      var current := registration.value;
      if command.ref.registrationId != current.ref.registrationId { return Ignored; }
      if command.ref != current.ref || current.expiresAt <= now || !SameDocument(command, current) { return Rejected(StaleRegistration); }
      if command.nonce in byNonce { return Ignored; }
      if |byNonce| >= MAX_COMMANDS { return Rejected(ReceiptCapacity); }
      var id := command.request.requestId;
      if id in observed && observed[id] != command { return Rejected(CommandMismatch); }
      if command.nonce in cancelled && cancelled[command.nonce] != command { return Rejected(CommandMismatch); }
      return Taken;
    }

    method Receive(command: Command, now: int) returns (hearing: Hearing)
      requires Valid()
      modifies `observed, `flights, `byNonce, `commandLog
      ensures Valid() && hearing == HearCommand(old(State()), command, now) && State() == TakeCommand(old(State()), command, now)
      ensures hearing == Taken <==> command.nonce !in old(flights) && command.nonce in flights
      ensures hearing == Taken ==> command.request.requestId !in old(observed) && observed[command.request.requestId] == command
                                   && flights[command.nonce] == Flight(command, generation, false, Hashing)
    {
      hide CommandsSafety.TabInv, HearCommand, SameDocument, TakeCancellation;
      SegmentsKeep(State(), command, now);
      hearing := Hear(command, now);
      if hearing == Taken {
        observed := observed[command.request.requestId := command];
        flights := flights[command.nonce := Flight(command, generation, false, Hashing)];
        byNonce := byNonce + {command.nonce};
        commandLog := commandLog + [CommandTaken(command)];
      }
    }

    method ReceiveCancellation(command: Command, now: int) returns (hearing: Hearing)
      requires Valid()
      modifies `cancelled, `commandLog, document
      ensures Valid() && hearing == HearCancellation(old(State()), command, now) && State() == TakeCancellation(old(State()), command, now)
      ensures hearing == Taken ==> cancelled == old(cancelled)[command.nonce := command]
      ensures hearing == Taken && command.request.requestId in observed && command.request.requestId in document.receipts ==>
        command.request.requestId in document.cancelled
    {
      hide CommandsSafety.TabInv;
      hide LeaseSafety.LeaseInv, DocumentSafety.Inv, D.Cancel;
      ghost var t := State();
      LeaseParts(t);
      SegmentsKeep(t, command, now);
      if !alive || registration.None? { return Ignored; }
      var current := registration.value;
      if command.ref.registrationId != current.ref.registrationId { return Ignored; }
      if command.ref != current.ref || !SameDocument(command, current) { return Rejected(StaleRegistration); }
      if now >= command.request.expiresAt { return Rejected(ExpiredRequest); }
      var id := command.request.requestId;
      if id in observed && observed[id] != command { return Rejected(CommandMismatch); }
      if command.nonce in cancelled { return if cancelled[command.nonce] != command then Rejected(CommandMismatch) else Ignored; }
      if |cancelled| >= MAX_COMMANDS { return Rejected(ReceiptCapacity); }
      cancelled := cancelled[command.nonce := command];
      commandLog := commandLog + [CancellationTaken(command)];
      if id in observed { var _ := document.Cancel(id); }
      return Taken;
    }

    method EndFlight(nonce: Nonce, failure: Option<Error>)
      requires nonce in flights
      modifies `flights, `inFlight
      ensures State() == Commands.EndFlight(old(State()), nonce, failure)
    {
      var flight := flights[nonce];
      flights := flights[nonce := flight.(phase := Over(failure))];
      if flight.executed { inFlight := inFlight - {flight.command.request.requestId}; }
    }

    /** Only the digest, the deadline, the page and its registration decide: the request id is never already in flight. */
    method RefuseExecution(nonce: Nonce, digest: Option<Digest>, env: PageEnv) returns (refusal: Option<Error>)
      requires Valid() && nonce in flights && flights[nonce].phase == Hashing
      ensures refusal == ExecutionRefusal(State(), flights[nonce], digest, env)
      ensures refusal.None? <==>
        var flight := flights[nonce];
        && digest == Some(flight.command.actionHash)
        && env.now < flight.command.request.expiresAt <= env.now + DEADLINE_MS
        && alive && env.mounted && env.identity.Ok? && generation == flight.captured
      ensures refusal.None? ==> registration.Some? && registration.value.ref == flights[nonce].command.ref
    {
      hide CommandsSafety.TabInv;
      CommandsSafety.ReceivedUnder(State(), nonce);
      var flight := flights[nonce];
      var request := flight.command.request;
      if digest.None? { return Some(Thrown); }
      if digest.value != flight.command.actionHash { return Some(Refused(CommandMismatch)); }
      if env.now >= request.expiresAt || request.expiresAt > env.now + DEADLINE_MS { return Some(Refused(ExpiredRequest)); }
      var current := CurrentIdentity(env);
      if current.Err? { return Some(Refused(current.error)); }
      if generation != flight.captured { return Some(Refused(StaleRegistration)); }
      if request.requestId in inFlight { return Some(Refused(RequestIdConflict)); }
      return None;
    }

    method ExecuteCommand(nonce: Nonce)
      requires nonce in flights && document.Valid()
      modifies `flights, `inFlight, `commandLog, document
      ensures document.Valid() && State() == Commands.ExecuteCommand(old(State()), nonce)
    {
      hide DocumentSafety.Inv, D.Execute, D.ExecuteAnswer, D.Cancel;
      var flight := flights[nonce];
      inFlight := inFlight + {flight.command.request.requestId};
      commandLog := commandLog + [CommandExecuted(flight.command)];
      var answer := document.Execute(flight.command.request);
      if nonce in cancelled { var _ := document.Cancel(flight.command.request.requestId); }
      flights := flights[nonce := flight.(executed := true, phase := Executing(answer))];
    }

    method DigestArrives(nonce: Nonce, digest: Option<Digest>, env: PageEnv)
      requires Valid() && TabEnabled(State(), GetsDigest(nonce, digest, env))
      modifies `flights, `inFlight, `commandLog, document
      ensures Valid() && State() == Commands.DigestArrives(old(State()), nonce, digest, env)
      ensures nonce in flights && (flights[nonce].phase.Executing? || flights[nonce].phase.Over?)
      ensures flights[nonce].phase.Executing? ==> flights[nonce].executed && Under(Held()) == Some(flights[nonce].command.ref)
      ensures flights[nonce].phase.Executing? && nonce in cancelled ==> CommandsSafety.Dead(document.State(), flights[nonce].command.request.requestId)
    {
      hide CommandsSafety.TabInv, DocumentSafety.Inv, LeaseSafety.LeaseInv;
      ghost var t := State();
      LeaseParts(t);
      FlightsKeep(t, GetsDigest(nonce, digest, env));
      if nonce in cancelled { ExecutedDead(t, nonce); }
      var refusal := RefuseExecution(nonce, digest, env);
      hide CommandsSafety.Dead, ExecutionRefusal, Commands.EndFlight, Commands.ExecuteCommand;
      if refusal.Some? { EndFlight(nonce, refusal); } else { ExecuteCommand(nonce); }
    }

    /** What passes is signed for the registration the page holds at that very moment, which is the one the command names. */
    method RefuseSigning(nonce: Nonce, receipt: Receipt, wellFormed: bool, env: PageEnv) returns (refusal: Option<Error>)
      requires Valid() && nonce in flights
      ensures refusal == SigningRefusal(State(), flights[nonce], receipt, wellFormed, env)
      ensures refusal.None? <==>
        var flight := flights[nonce];
        var request := flight.command.request;
        && receipt.requestId == Some(request.requestId) && receipt.actionId == Some(request.actionId) && wellFormed
        && document.documentId == request.documentId && document.documentEpoch == request.documentEpoch
        && alive && env.now < request.expiresAt && env.mounted && env.identity.Ok?
        && env.identity.value.documentId == request.documentId && env.identity.value.documentEpoch == request.documentEpoch
        && generation == flight.captured
      ensures refusal.None? ==> registration.Some? && registration.value.ref == flights[nonce].command.ref
    {
      hide CommandsSafety.TabInv;
      CommandsSafety.ReceivedUnder(State(), nonce);
      var flight := flights[nonce];
      var request := flight.command.request;
      if receipt.requestId != Some(request.requestId) || receipt.actionId != Some(request.actionId)
         || document.documentId != request.documentId || document.documentEpoch != request.documentEpoch {
        return Some(Refused(Other("receipt_mismatch")));
      }
      if !wellFormed { return Some(Refused(Other("invalid_receipt"))); }
      if !alive || env.now >= request.expiresAt { return Some(Refused(ExpiredRequest)); }
      var current := CurrentIdentity(env);
      if current.Err? { return Some(Refused(current.error)); }
      if current.value.documentId != request.documentId || current.value.documentEpoch != request.documentEpoch { return Some(Refused(StaleDocument)); }
      if generation != flight.captured { return Some(Refused(StaleRegistration)); }
      return None;
    }

    /** `receipt` is what the awaited promise of the document settled with. */
    method ReceiptArrives(nonce: Nonce, receipt: Receipt, wellFormed: bool, env: PageEnv)
      requires Valid() && TabEnabled(State(), GetsReceipt(nonce, wellFormed, env))
      requires SettledAnswer(document.State(), flights[nonce].phase.answer) == Some(receipt)
      modifies `flights, `inFlight, `commandLog
      ensures Valid() && State() == Commands.ReceiptArrives(old(State()), nonce, wellFormed, env)
      ensures nonce in flights && (flights[nonce].phase == Signing(receipt) || flights[nonce].phase.Over?)
      ensures flights[nonce].phase.Signing? ==> CommandsSafety.ReceiptFits(document.State(), flights[nonce].command.request, receipt)
      ensures flights[nonce].phase.Signing? ==> Under(Held()) == Some(flights[nonce].command.ref)
    {
      hide CommandsSafety.TabInv, CommandsSafety.ReceiptFits, SigningRefusal;
      ghost var t := State();
      FlightsKeep(t, GetsReceipt(nonce, wellFormed, env));
      SigningFits(t, nonce, wellFormed, env);
      var flight := flights[nonce];
      var refusal := RefuseSigning(nonce, receipt, wellFormed, env);
      if refusal.Some? { EndFlight(nonce, refusal); return; }
      flights := flights[nonce := flight.(phase := Signing(receipt))];
      commandLog := commandLog + [ReceiptSigning(flight.command, receipt, Under(Held()))];
    }

    method SignedReceipt(nonce: Nonce, signed: bool)
      requires Valid() && nonce in flights && flights[nonce].phase.Signing?
      modifies `flights, `inFlight, `commandLog
      ensures Valid() && State() == Commands.SignedReceipt(old(State()), nonce, signed)
      ensures nonce in flights
      ensures flights[nonce].phase.Posting? <==> signed && alive && generation == flights[nonce].captured
      ensures flights[nonce].phase.Posting? ==> flights[nonce].phase.receipt == old(flights[nonce].phase.receipt)
                                                && Under(Held()) == Some(flights[nonce].command.ref)
    {
      hide CommandsSafety.TabInv;
      ghost var t := State();
      FlightsKeep(t, GetsReceiptSignature(nonce, signed));
      CommandsSafety.ReceivedUnder(t, nonce);
      var flight := flights[nonce];
      if !signed { EndFlight(nonce, Some(Thrown)); return; }
      if !alive || generation != flight.captured { EndFlight(nonce, Some(Refused(StaleRegistration))); return; }
      flights := flights[nonce := flight.(phase := Posting(flight.phase.receipt))];
      commandLog := commandLog + [ReceiptPosted(flight.command, flight.phase.receipt, Under(Held()))];
    }

    /** What an awaited promise of the document has settled with, if it has. */
    method Settled(answer: D.Answer) returns (receipt: Option<Receipt>)
      ensures receipt == SettledAnswer(document.State(), answer)
    {
      match answer
      case Now(known) => receipt := Some(known);
      case Promised(id) =>
        receipt := if id in document.receipts && document.receipts[id].phase.Settled? then Some(document.receipts[id].phase.settlement.receipt) else None;
    }

    // ---- Runs

    /** The pass hears an answer, if it is waiting for one of that kind. */
    method DispatchAnswer(e: LeaseEvent) returns (post: Option<Post>)
      requires Leased() && (e.GetsChallenge? || e.GetsSignature? || e.GetsAdmission? || e.Resumes?)
      modifies `pass, `leaseLog, `candidates, `generation, `registration, `failure, `attempts
      ensures Leased() && Moved(Held(), post) == LeaseStep(old(Held()), e)
    {
      hide LeaseSafety.LeaseInv, Lease.ChallengeArrives, Lease.SignatureArrives, Lease.AdmissionArrives, Lease.Resume;
      post := None;
      match e
      case GetsChallenge(env, challenge) => if pass.AwaitChallenge? { post := ChallengeArrives(env, challenge); }
      case GetsSignature(env, signed) => if pass.AwaitSignature? { post := SignatureArrives(env, signed); }
      case GetsAdmission(env, admission) => if pass.AwaitAdmission? { AdmissionArrives(env, admission); }
      case Resumes(env) => if pass.Reconciled? && (pass.stage.Fresh? ==> pass.binding.Some?) { post := Resume(env); }
    }

    /** One pending callback of lease maintenance runs; an event whose callback is not pending does nothing. */
    method DispatchLease(e: LeaseEvent) returns (post: Option<Post>)
      requires Leased()
      modifies `alive, `started, `timer, `again, `pass, `leaseLog, `candidates, `generation, `registration, `failure, `attempts
      ensures Leased() && Moved(Held(), post) == LeaseStep(old(Held()), e)
    {
      hide LeaseSafety.LeaseInv;
      LeaseSafety.LeaseStepKeeps(Held(), e);
      hide Lease.Settle, Lease.PassEnds, Lease.Refresh, Wake, RetirePage;
      post := None;
      match e
      case Starts(env) => if !started { post := Start(env); }
      case Refreshes(env) => post := Refresh(env);
      case TimerRings(env) => if timer.Some? { timer := None; post := RunMaintenance(env); }
      case Settles => if pass.PassOver? { Settle(); }
      case Unwinds(env) => if pass == Unwinding { post := PassEnds(env); }
      case ReceiveFails(reason) => failure := Some(reason);
      case Retires => RetireLease();
      case GetsChallenge(_, _) => post := DispatchAnswer(e);
      case GetsSignature(_, _) => post := DispatchAnswer(e);
      case GetsAdmission(_, _) => post := DispatchAnswer(e);
      case Resumes(_) => post := DispatchAnswer(e);
    }

    method SeesDocument(env: PageEnv) returns (own: bool)
      ensures own == Sees(State(), env)
    {
      own := env.mounted == document.mounted
             && (env.identity.Ok? ==> env.identity.value.documentId == document.documentId && env.identity.value.documentEpoch == document.documentEpoch);
    }

    /** A flight goes on, if it waits for what the event brings. */
    method DispatchFlight(e: TabEvent)
      requires Valid() && (e.GetsDigest? || e.GetsReceipt? || e.GetsReceiptSignature? || e.GetsReceiptAnswer?)
      modifies `flights, `inFlight, `commandLog, document
      ensures Valid() && State() == TabStep(old(State()), e)
    {
      hide CommandsSafety.TabInv;
      CommandsSafety.TabStepOk(State(), e);
      hide CommandsSafety.Dead, CommandsSafety.ReceiptFits;
      hide Commands.DigestArrives, Commands.ReceiptArrives, Commands.SignedReceipt, Commands.EndFlight, D.Step, LeaseStep;
      match e
      case GetsDigest(nonce, digest, env) =>
        var own := SeesDocument(env);
        if own && nonce in flights && flights[nonce].phase == Hashing { DigestArrives(nonce, digest, env); }
      case GetsReceipt(nonce, wellFormed, env) =>
        var own := SeesDocument(env);
        if own && nonce in flights && flights[nonce].phase.Executing? {
          var receipt := Settled(flights[nonce].phase.answer);
          if receipt.Some? { ReceiptArrives(nonce, receipt.value, wellFormed, env); }
        }
      case GetsReceiptSignature(nonce, signed) => if nonce in flights && flights[nonce].phase.Signing? { SignedReceipt(nonce, signed); }
      case GetsReceiptAnswer(nonce, error) => if nonce in flights && flights[nonce].phase.Posting? { EndFlight(nonce, error); }
    }

    /** A command or a cancellation is heard, or the transport retires. */
    method DispatchCommand(e: TabEvent)
      requires Valid() && (e.GetsCommand? || e.GetsCancellation? || e.RetiresTransport?)
      modifies this, document
      ensures Valid() && State() == TabStep(old(State()), e)
    {
      hide CommandsSafety.TabInv, HearCommand, HearCancellation, TakeCommand, TakeCancellation, RetireTransport;
      match e
      case GetsCommand(command, now) => var _ := Receive(command, now);
      case GetsCancellation(command, now) => var _ := ReceiveCancellation(command, now);
      case RetiresTransport => Retire();
    }

    method Dispatch(e: TabEvent)
      requires Valid()
      modifies this, document
      ensures Valid() && State() == TabStep(old(State()), e)
    {
      hide CommandsSafety.TabInv, DocumentSafety.Inv, LeaseSafety.LeaseInv;
      if e.OnDocument? || e.OnLease? {
        LeaseParts(State());
        CommandsSafety.TabStepOk(State(), e);
        hide D.Step, LeaseStep;
        match e
        case OnDocument(documentEvent) => document.Dispatch(documentEvent);
        case OnLease(leaseEvent) => if leaseEvent != Retires { var _ := DispatchLease(leaseEvent); }
      } else {
        hide TabStep;
        if e.GetsCommand? || e.GetsCancellation? || e.RetiresTransport? { DispatchCommand(e); } else { DispatchFlight(e); }
      }
    }
  }

  /** A page driven by any sequence of events is always in a reachable state, so every theorem about those holds of it. */
  method Drive(documentId: string, documentEpoch: string, key: Key, events: seq<TabEvent>) returns (page: BrowserTransport)
    ensures page.State() == TabExec(InitTab(documentId, documentEpoch, key), events)
    ensures page.Valid() && CommandsSafety.ReachableTab(page.State())
  {
    hide CommandsSafety.TabInv, TabStep, DocumentSafety.Inv;
    var document := new DocumentRuntime.AppActionsDocument(documentId, documentEpoch);
    page := new BrowserTransport(document, key);
    ghost var start := InitTab(documentId, documentEpoch, key);
    assert page.State() == start;
    for i := 0 to |events|
      invariant TabExec(start, events) == TabExec(page.State(), events[i..])
      invariant fresh(page) && fresh(page.document) && page.Valid()
    {
      page.Dispatch(events[i]);
      assert events[i..][1..] == events[i + 1..];
    }
    assert page.State() == TabExec(start, events);
  }
}
