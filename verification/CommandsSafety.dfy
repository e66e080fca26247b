/**
 * What every step of the whole page keeps of its commands. The document and the lease keep their own invariants and only
 * move forward (`DocMoves`, `LeaseMoves`); `CommandsOk` ties the flights, the maps and the log of the transport to them.
 * A segment of one flight shows `Touches`, and all segments of that kind keep the rest alike.
 */
module CommandsSafety {
  import opened Outcomes
  import opened Lease
  import opened Commands
  import D = Document
  import S = DocumentSafety
  import LeaseSafety
  import LeaseTheorems

  // ---- The document under the transport

  /** No work for this id can happen any more: it is cancelled, or was not admitted and never can be. */
  predicate Dead(d: D.Doc, id: RequestId) {
    id in d.cancelled || (id !in d.receipts && |d.receipts| >= D.MAX_RECEIPTS)
  }

  ghost predicate DocMoves(d: D.Doc, d1: D.Doc) {
    && S.Evolves(d, d1)
    && (forall id :: Dead(d, id) ==> Dead(d1, id))
    && |d.receipts| <= |d1.receipts|
  }

  lemma CancelledLasts(d: D.Doc, d1: D.Doc, id: RequestId)
    requires S.Inv(d) && S.Inv(d1) && S.Evolves(d, d1) && id in d.cancelled
    ensures id in d1.cancelled
  {
    assert D.CancelAccepted(id) in d.log;
    var i :| 0 <= i < |d.log| && d.log[i] == D.CancelAccepted(id);
    assert d1.log[i] == d.log[i];
    assert S.ActOk(d1, d1.log[i]);
  }

  lemma Fuller(d: D.Doc, d1: D.Doc)
    requires d.receipts.Keys <= d1.receipts.Keys
    ensures |d.receipts| <= |d1.receipts|
    ensures |d.receipts| == |d1.receipts| ==> d.receipts.Keys == d1.receipts.Keys
  {
    var extra := d1.receipts.Keys - d.receipts.Keys;
    assert d1.receipts.Keys == d.receipts.Keys + extra;
    assert |d1.receipts.Keys| == |d.receipts.Keys| + |extra|;
  }

  lemma Moved(d: D.Doc, d1: D.Doc)
    requires S.Inv(d) && S.Inv(d1) && S.Evolves(d, d1)
    ensures DocMoves(d, d1)
  {
    Fuller(d, d1);
    forall id | Dead(d, id) ensures Dead(d1, id) {
      if id in d.cancelled { CancelledLasts(d, d1, id); }
    }
  }

  lemma DocStepMoves(d: D.Doc, e: D.Event)
    requires S.Inv(d)
    ensures S.Inv(D.Step(d, e)) && DocMoves(d, D.Step(d, e))
  {
    hide S.Inv, D.Step, DocMoves;
    S.StepKeeps(d, e);
    Moved(d, D.Step(d, e));
  }

  /** `document.execute`, followed by `document.cancel` when the command was cancelled meanwhile. */
  function Executed(d: D.Doc, request: Request, cancelled: bool): D.Doc {
    var executed := D.Execute(d, request);
    if cancelled then D.Cancel(executed, request.requestId) else executed
  }

  lemma ExecutedMoves(d: D.Doc, request: Request, cancelled: bool)
    requires S.Inv(d)
    ensures
      var d1 := Executed(d, request, cancelled);
      && S.Inv(d1) && DocMoves(d, d1)
      && (cancelled ==> Dead(d1, request.requestId))
      && (request.requestId in d1.receipts || |d1.receipts| >= D.MAX_RECEIPTS)
      && AnswerFits(d1, request, D.ExecuteAnswer(d, request))
  {
    hide S.Inv, D.Step, D.Execute, D.Cancel, AnswerFits, DocMoves, Dead;
    var d0 := D.Execute(d, request);
    ExecutedSteps(d, request);
    DocStepMoves(d, D.DoExecute(request));
    DocStepMoves(d0, D.DoCancel(request.requestId));
    CancelKills(d0, request.requestId);
    DocMovesOn(d, d0, D.Cancel(d0, request.requestId));
    ExecutedAnswer(d, d0, request);
    ExecutedAnswer(d, D.Cancel(d0, request.requestId), request);
  }

  lemma DocMovesOn(d: D.Doc, d1: D.Doc, d2: D.Doc)
    requires DocMoves(d, d1) && DocMoves(d1, d2)
    ensures DocMoves(d, d2)
  {}

  lemma ExecutedSteps(d: D.Doc, request: Request)
    ensures D.Step(d, D.DoExecute(request)) == D.Execute(d, request)
    ensures request.requestId in D.Execute(d, request).receipts || |D.Execute(d, request).receipts| >= D.MAX_RECEIPTS
  {}

  lemma CancelKills(d: D.Doc, id: RequestId)
    requires id in d.receipts || |d.receipts| >= D.MAX_RECEIPTS
    ensures D.Step(d, D.DoCancel(id)) == D.Cancel(d, id) && Dead(D.Cancel(d, id), id)
    ensures D.Cancel(d, id).receipts.Keys == d.receipts.Keys && |D.Cancel(d, id).receipts| == |d.receipts|
  {}

  lemma ExecutedAnswer(d: D.Doc, d1: D.Doc, request: Request)
    requires DocMoves(D.Execute(d, request), d1) || d1 == D.Execute(d, request)
    ensures AnswerFits(d1, request, D.ExecuteAnswer(d, request))
  {}

  /** The answer is the promise of exactly this request, or says why it was turned away. */
  predicate AnswerFits(d: D.Doc, request: Request, answer: D.Answer) {
    match answer
    case Promised(id) => id == request.requestId && id in d.receipts && d.receipts[id].request == request && d.receipts[id].kind == D.View
    case Now(receipt) => TurnedAway(request, receipt)
  }

  predicate TurnedAway(request: Request, receipt: Receipt) {
    receipt == D.BlockedReceipt(request, RequestIdConflict) || receipt == D.BlockedReceipt(request, ReceiptCapacity)
  }

  /** The receipt is the one the document settled for exactly this request, or says why it was turned away. */
  predicate ReceiptFits(d: D.Doc, request: Request, receipt: Receipt) {
    || TurnedAway(request, receipt)
    || (request.requestId in d.receipts && d.receipts[request.requestId].phase.Settled?
        && d.receipts[request.requestId].phase.settlement.receipt == receipt && d.receipts[request.requestId].request == request)
  }

  // ---- The lease under the commands

  ghost predicate LeaseMoves(l: LeaseState, l1: LeaseState) {
    && l.generation <= l1.generation
    && (l1.alive ==> l.alive && (l.generation == l1.generation ==> Under(l1) == Under(l)))
    && (l.alive && !l1.alive ==> l.generation < l1.generation)
  }

  /** Renewing keeps the whole reference, not only the registration id. */
  lemma AdoptKeepsRef(l: LeaseState, env: PageEnv)
    requires LeaseSafety.LeaseInv(l) && l.alive && l.pass.Reconciled? && l.pass.binding.Some? && l.registration.Some?
    ensures Under(Resume(l, env).state) == Under(l)
  {}

  lemma ResumeRef(l: LeaseState, env: PageEnv)
    requires LeaseSafety.LeaseInv(l) && l.alive && LeaseEnabled(l, Resumes(env)) && Resume(l, env).state.generation == l.generation
    ensures Under(Resume(l, env).state) == Under(l)
  {
    LeaseTheorems.ResumeGeneration(l, env);
    if l.pass.binding.Some? {
      if l.registration.Some? { AdoptKeepsRef(l, env); }
    } else {
      var l1 := RetireRegistration(l, l.pass.stage.target.registrationId);
      LeaseTheorems.SearchKeepsBinding(l1, env, l.pass.expected);
      hide AfterCurrent, RecoverNext;
    }
  }

  lemma OtherRef(l: LeaseState, e: LeaseEvent)
    requires !e.Resumes? && e != Retires
    ensures LeaseTheorems.SameBinding(l, LeaseStep(l, e).state)
  {
    hide Wake, Resume, ChallengeArrives, SignatureArrives, AdmissionArrives;
    if LeaseEnabled(l, e) {
      match e
      case Starts(env) => LeaseTheorems.WakeKeepsBinding(l.(started := true), env);
      case Refreshes(env) => LeaseTheorems.WakeKeepsBinding(l.(attempts := 0, log := l.log + [AttemptsReset]), env);
      case TimerRings(env) => LeaseTheorems.WakeKeepsBinding(l.(timer := None), env);
      case GetsChallenge(env, answer) => LeaseTheorems.ChallengeKeepsBinding(l, env, answer);
      case GetsSignature(env, signed) => LeaseTheorems.SignatureKeepsBinding(l, env, signed);
      case GetsAdmission(env, answer) => LeaseTheorems.AdmissionKeepsBinding(l, env, answer);
      case Unwinds(env) => LeaseTheorems.WakeKeepsBinding(l.(pass := Idle, log := l.log + [PassEnded], again := false), env);
      case _ =>
    }
  }

  lemma LeaseStepMoves(l: LeaseState, e: LeaseEvent)
    requires LeaseSafety.LeaseInv(l) && e != Retires
    ensures LeaseSafety.LeaseInv(LeaseStep(l, e).state) && LeaseMoves(l, LeaseStep(l, e).state)
    ensures LeaseStep(l, e).state.alive == l.alive
  {
    LeaseSafety.LeaseStepKeeps(l, e);
    if e.Resumes? {
      if LeaseEnabled(l, e) {
        LeaseTheorems.ResumeGeneration(l, e.env);
        if l.alive && Resume(l, e.env).state.generation == l.generation { ResumeRef(l, e.env); }
      }
      hide LeaseSafety.LeaseInv, Resume;
    } else {
      OtherRef(l, e);
      hide LeaseSafety.LeaseInv, LeaseStep;
    }
  }

  lemma RetireMoves(l: LeaseState)
    requires LeaseSafety.LeaseInv(l)
    ensures LeaseSafety.LeaseInv(RetirePage(l)) && LeaseMoves(l, RetirePage(l))
  {
    assert LeaseStep(l, Retires).state == RetirePage(l);
    LeaseSafety.LeaseStepKeeps(l, Retires);
    hide LeaseSafety.LeaseInv;
  }

  // ---- One flight

  function IdOf(f: Flight): RequestId {
    f.command.request.requestId
  }

  predicate Underway(f: Flight) {
    f.phase.Executing? || f.phase.Signing? || f.phase.Posting?
  }

  function Rank(f: Flight): nat {
    match f.phase
    case Hashing => 0
    case Executing(_) => 1
    case Signing(_) => 2
    case Posting(_) => 3
    case Over(_) => 4
  }

  /** The cancellation of exactly this command was taken. */
  predicate Cancelled(t: Tab, f: Flight) {
    f.command.nonce in t.cancelled && t.cancelled[f.command.nonce] == f.command
  }

  predicate PhaseFits(d: D.Doc, f: Flight) {
    match f.phase
    case Hashing => !f.executed
    case Executing(answer) => f.executed && AnswerFits(d, f.command.request, answer)
    case Signing(receipt) => f.executed && ReceiptFits(d, f.command.request, receipt)
    case Posting(receipt) => f.executed && ReceiptFits(d, f.command.request, receipt)
    case Over(_) => true
  }

  ghost predicate FlightOk(t: Tab, nonce: Nonce)
    requires nonce in t.flights
  {
    var f := t.flights[nonce];
    && f.command.nonce == nonce
    && f.captured <= t.lease.generation
    && (!t.lease.alive ==> f.captured < t.lease.generation)
    && (t.lease.alive && f.captured == t.lease.generation ==> Under(t.lease) == Some(f.command.ref))
    && (Underway(f) <==> IdOf(f) in t.inFlight)
    && (f.executed ==> IdOf(f) in t.doc.receipts || |t.doc.receipts| >= D.MAX_RECEIPTS)
    && (f.executed && Cancelled(t, f) ==> Dead(t.doc, IdOf(f)))
    && PhaseFits(t.doc, f)
  }

  ghost predicate Distinct(t: Tab) {
    forall n, m :: n in t.flights && m in t.flights && IdOf(t.flights[n]) == IdOf(t.flights[m]) ==> n == m
  }

  ghost predicate ObservedOk(t: Tab, id: RequestId)
    requires id in t.observed
  {
    var command := t.observed[id];
    command.request.requestId == id && command.nonce in t.flights && t.flights[command.nonce].command == command
  }

  ghost predicate FlightObserved(t: Tab, nonce: Nonce)
    requires nonce in t.flights
  {
    var command := t.flights[nonce].command;
    command.request.requestId in t.observed && t.observed[command.request.requestId] == command
  }

  /** While the transport is alive its maps describe exactly the flights; a retired one remembers nothing. */
  ghost predicate MapsOk(t: Tab) {
    if t.lease.alive then
      && t.byNonce == t.flights.Keys && |t.byNonce| <= MAX_COMMANDS && |t.cancelled| <= MAX_COMMANDS && t.inFlight <= t.observed.Keys
      && (forall id :: id in t.observed ==> ObservedOk(t, id))
      && (forall n :: n in t.flights ==> FlightObserved(t, n))
      && (forall n :: n in t.cancelled ==> t.cancelled[n].nonce == n)
    else
      t.byNonce == {} && t.observed == map[] && t.cancelled == map[]
  }

  // ---- The log

  /** Both acts are the same step of the same command. */
  predicate Repeats(first: CommandAct, second: CommandAct) {
    match first
    case CommandTaken(c) => second.CommandTaken? && second.command.nonce == c.nonce
    case CommandExecuted(c) => second.CommandExecuted? && second.command.nonce == c.nonce
    case ReceiptSigning(c, _, _) => second.ReceiptSigning? && second.command.nonce == c.nonce
    case ReceiptPosted(c, _, _) => second.ReceiptPosted? && second.command.nonce == c.nonce
    case _ => false
  }

  ghost predicate ActHolds(t: Tab, act: CommandAct) {
    match act
    case CommandTaken(c) => c.nonce in t.flights && t.flights[c.nonce].command == c
    case CancellationTaken(c) => t.lease.alive ==> c.nonce in t.cancelled && t.cancelled[c.nonce] == c
    case CommandExecuted(c) => c.nonce in t.flights && t.flights[c.nonce].command == c && t.flights[c.nonce].executed
    case ReceiptSigning(c, receipt, under) =>
      && c.nonce in t.flights && t.flights[c.nonce].command == c && Rank(t.flights[c.nonce]) >= 2
      && under == Some(c.ref) && ReceiptFits(t.doc, c.request, receipt)
    case ReceiptPosted(c, receipt, under) =>
      && c.nonce in t.flights && t.flights[c.nonce].command == c && Rank(t.flights[c.nonce]) >= 3
      && under == Some(c.ref) && ReceiptFits(t.doc, c.request, receipt)
    case TransportRetired => !t.lease.alive
  }

  ghost predicate LogHolds(t: Tab) {
    && (forall i :: 0 <= i < |t.log| ==> ActHolds(t, t.log[i]))
    && (forall i, j :: 0 <= i < j < |t.log| ==> !Repeats(t.log[i], t.log[j]) && (t.log[i] == TransportRetired ==> t.log[j] == TransportRetired))
  }

  /** What holds of the commands, whatever the document and the lease do. */
  ghost predicate CommandsOk(t: Tab) {
    && (forall n :: n in t.flights ==> FlightOk(t, n))
    && Distinct(t) && MapsOk(t) && LogHolds(t)
  }

  ghost predicate TabInv(t: Tab) {
    S.Inv(t.doc) && LeaseSafety.LeaseInv(t.lease) && CommandsOk(t)
  }

  /** What a segment of the transport may rely on. */
  lemma TabParts(t: Tab)
    requires TabInv(t)
    ensures S.Inv(t.doc) && LeaseSafety.LeaseInv(t.lease) && MapsOk(t)
  {}

  /** A flight whose generation is still the present one is for the registration the page holds. */
  lemma ReceivedUnder(t: Tab, nonce: Nonce)
    requires TabInv(t) && nonce in t.flights
    ensures t.flights[nonce].command.nonce == nonce
    ensures t.lease.alive && t.flights[nonce].captured == t.lease.generation ==> Under(t.lease) == Some(t.flights[nonce].command.ref)
    ensures t.flights[nonce].phase == Hashing ==> IdOf(t.flights[nonce]) !in t.inFlight
  {
    assert FlightOk(t, nonce);
    hide S.Inv, LeaseSafety.LeaseInv, MapsOk, LogHolds, Distinct;
  }

  lemma SignsSettled(t: Tab, nonce: Nonce)
    requires TabInv(t) && nonce in t.flights && t.flights[nonce].phase.Signing?
    ensures ReceiptFits(t.doc, t.flights[nonce].command.request, t.flights[nonce].phase.receipt)
  {
    assert FlightOk(t, nonce);
    hide S.Inv, LeaseSafety.LeaseInv, MapsOk, LogHolds, Distinct;
  }

  lemma KnownFlight(t: Tab, id: RequestId)
    requires MapsOk(t) && id in t.observed
    ensures t.lease.alive && t.observed[id].nonce in t.byNonce
  {
    assert ObservedOk(t, id);
  }

  // ---- One step

  predicate FlightMoves(f: Flight, f1: Flight) {
    f1.command == f.command && f1.captured == f.captured && (f.executed ==> f1.executed) && Rank(f) <= Rank(f1)
  }

  /** The act a step records was not recorded before. */
  ghost predicate ActIsNew(t: Tab, act: CommandAct) {
    match act
    case CommandTaken(c) => c.nonce !in t.flights && t.lease.alive
    case CommandExecuted(c) => c.nonce in t.flights && !t.flights[c.nonce].executed && t.lease.alive
    case ReceiptSigning(c, _, _) => c.nonce in t.flights && Rank(t.flights[c.nonce]) < 2 && t.lease.alive
    case ReceiptPosted(c, _, _) => c.nonce in t.flights && Rank(t.flights[c.nonce]) < 3 && t.lease.alive
    case CancellationTaken(_) => t.lease.alive
    case TransportRetired => true
  }

  ghost predicate TabMoves(t: Tab, t1: Tab, act: Option<CommandAct>) {
    && DocMoves(t.doc, t1.doc) && LeaseMoves(t.lease, t1.lease)
    && t.flights.Keys <= t1.flights.Keys
    && (forall n :: n in t.flights ==> FlightMoves(t.flights[n], t1.flights[n]))
    && (t1.lease.alive ==> forall n :: n in t.cancelled ==> n in t1.cancelled && t1.cancelled[n] == t.cancelled[n])
    && (!t1.lease.alive ==> forall n :: n in t1.flights && t1.flights[n].executed ==> n in t.flights && t.flights[n].executed)
    && t1.log == (if act.Some? then t.log + [act.value] else t.log)
    && (act.Some? ==> ActIsNew(t, act.value))
  }

  lemma ActStays(t: Tab, t1: Tab, act: Option<CommandAct>, old_: CommandAct)
    requires ActHolds(t, old_) && TabMoves(t, t1, act)
    ensures ActHolds(t1, old_)
  {}

  lemma NewActFits(t: Tab, first: CommandAct, act: CommandAct)
    requires ActHolds(t, first) && ActIsNew(t, act)
    ensures !Repeats(first, act) && (first == TransportRetired ==> act == TransportRetired)
  {}

  lemma LogMoves(t: Tab, t1: Tab, act: Option<CommandAct>)
    requires LogHolds(t) && TabMoves(t, t1, act) && (act.Some? ==> ActHolds(t1, act.value))
    ensures LogHolds(t1)
  {
    forall i | 0 <= i < |t1.log| ensures ActHolds(t1, t1.log[i]) {
      if i < |t.log| { ActStays(t, t1, act, t.log[i]); }
    }
    forall i, j | 0 <= i < j < |t1.log| ensures !Repeats(t1.log[i], t1.log[j]) && (t1.log[i] == TransportRetired ==> t1.log[j] == TransportRetired) {
      if j < |t.log| {
        assert t1.log[i] == t.log[i] && t1.log[j] == t.log[j];
      } else {
        assert t1.log[i] == t.log[i];
        NewActFits(t, t.log[i], act.value);
      }
    }
    hide ActHolds, Repeats, ActIsNew, TabMoves;
  }

  /** A flight that a step leaves alone stays sound. */
  lemma FlightStays(t: Tab, t1: Tab, nonce: Nonce)
    requires nonce in t.flights && nonce in t1.flights && FlightOk(t, nonce) && t1.flights[nonce] == t.flights[nonce]
    requires DocMoves(t.doc, t1.doc) && LeaseMoves(t.lease, t1.lease)
    requires var id := IdOf(t.flights[nonce]); id in t1.inFlight <==> id in t.inFlight
    requires
      var f := t.flights[nonce];
      f.executed && Cancelled(t1, f) ==> Cancelled(t, f) || Dead(t1.doc, IdOf(f))
    ensures FlightOk(t1, nonce)
  {}

  // ---- Segments

  lemma LeaseStill(l: LeaseState)
    ensures LeaseMoves(l, l)
  {}

  lemma DocStill(d: D.Doc)
    ensures DocMoves(d, d)
  {}

  /** How a segment of one flight changes the page: only that flight, its request's place among those in flight, and the document. */
  ghost predicate Touches(t: Tab, t1: Tab, nonce: Nonce, act: Option<CommandAct>) {
    && nonce in t.flights && nonce in t1.flights
    && t1 == t.(doc := t1.doc, flights := t.flights[nonce := t1.flights[nonce]], inFlight := t1.inFlight, log := t1.log)
    && t1.log == (if act.Some? then t.log + [act.value] else t.log)
    && FlightMoves(t.flights[nonce], t1.flights[nonce])
    && (t1.flights[nonce].executed ==> t.flights[nonce].executed || t.lease.alive)
    && (t1.inFlight == t.inFlight + {IdOf(t.flights[nonce])} || t1.inFlight == t.inFlight - {IdOf(t.flights[nonce])} || t1.inFlight == t.inFlight)
  }

  /** A segment of one flight leaves the others, the maps and the lease alone. */
  lemma TouchKeeps(t: Tab, t1: Tab, nonce: Nonce, act: Option<CommandAct>)
    requires CommandsOk(t) && Touches(t, t1, nonce, act) && FlightOk(t1, nonce) && DocMoves(t.doc, t1.doc)
    requires act.Some? ==> ActIsNew(t, act.value) && ActHolds(t1, act.value)
    ensures CommandsOk(t1) && TabMoves(t, t1, act)
  {
    hide DocMoves, LeaseMoves, ActIsNew, FlightOk, ActHolds, MapsOk, TabMoves, FlightMoves, LogHolds, Distinct;
    forall n | n in t1.flights ensures FlightOk(t1, n) {
      if n != nonce { TouchLeaves(t, t1, nonce, n, act); }
    }
    TouchMoves(t, t1, nonce, act);
    LogMoves(t, t1, act);
    TouchMaps(t, t1, nonce);
  }

  lemma TouchMoves(t: Tab, t1: Tab, nonce: Nonce, act: Option<CommandAct>)
    requires Touches(t, t1, nonce, act) && DocMoves(t.doc, t1.doc) && (act.Some? ==> ActIsNew(t, act.value))
    ensures TabMoves(t, t1, act)
  {}

  lemma TouchLeaves(t: Tab, t1: Tab, nonce: Nonce, n: Nonce, act: Option<CommandAct>)
    requires Touches(t, t1, nonce, act) && Distinct(t) && n in t.flights && n != nonce && FlightOk(t, n)
    requires DocMoves(t.doc, t1.doc)
    ensures FlightOk(t1, n)
  {
    hide DocMoves, FlightOk;
    LeaseStill(t.lease);
    hide LeaseMoves;
    assert IdOf(t.flights[n]) != IdOf(t.flights[nonce]);
    FlightStays(t, t1, n);
  }

  lemma TouchMaps(t: Tab, t1: Tab, nonce: Nonce)
    requires Distinct(t) && MapsOk(t) && nonce in t.flights && nonce in t1.flights
    requires t1 == t.(doc := t1.doc, flights := t.flights[nonce := t1.flights[nonce]], inFlight := t1.inFlight, log := t1.log)
    requires FlightMoves(t.flights[nonce], t1.flights[nonce])
    requires t1.inFlight <= t.inFlight + {IdOf(t.flights[nonce])}
    ensures Distinct(t1) && MapsOk(t1)
  {
    assert t1.flights.Keys == t.flights.Keys;
    SameCommands(t, t1, nonce);
    hide FlightMoves;
    assert Distinct(t1) by { hide MapsOk; }
    hide Distinct;
    if t.lease.alive {
      assert FlightObserved(t, nonce);
      forall id | id in t1.observed ensures ObservedOk(t1, id) { assert ObservedOk(t, id); }
      forall n | n in t1.flights ensures FlightObserved(t1, n) { assert FlightObserved(t, n); }
      hide ObservedOk, FlightObserved;
    }
  }

  lemma SameCommands(t: Tab, t1: Tab, nonce: Nonce)
    requires nonce in t.flights && nonce in t1.flights && t1.flights == t.flights[nonce := t1.flights[nonce]]
    requires FlightMoves(t.flights[nonce], t1.flights[nonce])
    ensures forall n :: n in t.flights ==> n in t1.flights && t1.flights[n].command == t.flights[n].command
  {}

  lemma EndFlightOk(t: Tab, nonce: Nonce, failure: Option<Error>)
    requires nonce in t.flights && FlightOk(t, nonce) && !t.flights[nonce].phase.Over?
    ensures FlightOk(EndFlight(t, nonce, failure), nonce) && Touches(t, EndFlight(t, nonce, failure), nonce, None)
  {}

  lemma EndKeeps(t: Tab, nonce: Nonce, failure: Option<Error>)
    requires CommandsOk(t) && nonce in t.flights && !t.flights[nonce].phase.Over?
    ensures CommandsOk(EndFlight(t, nonce, failure)) && TabMoves(t, EndFlight(t, nonce, failure), None)
  {
    DocStill(t.doc);
    hide DocMoves, MapsOk, LogHolds, Distinct, FlightOk, Touches;
    EndFlightOk(t, nonce, failure);
    assert DocMoves(t.doc, EndFlight(t, nonce, failure).doc);
    hide EndFlight, TabMoves, CommandsOk;
    TouchKeeps(t, EndFlight(t, nonce, failure), nonce, None);
  }

  lemma ExecutedFlight(t: Tab, t1: Tab, nonce: Nonce, answer: D.Answer)
    requires nonce in t.flights && FlightOk(t, nonce) && t.lease.alive
    requires nonce in t1.flights && t1.flights[nonce] == t.flights[nonce].(executed := true, phase := Executing(answer))
    requires t1.lease == t.lease && t1.cancelled == t.cancelled && IdOf(t.flights[nonce]) in t1.inFlight
    requires IdOf(t.flights[nonce]) in t1.doc.receipts || |t1.doc.receipts| >= D.MAX_RECEIPTS
    requires nonce in t.cancelled ==> Dead(t1.doc, IdOf(t.flights[nonce]))
    requires AnswerFits(t1.doc, t.flights[nonce].command.request, answer)
    ensures FlightOk(t1, nonce)
  {}

  lemma ExecutesOk(t: Tab, nonce: Nonce)
    requires nonce in t.flights && FlightOk(t, nonce) && S.Inv(t.doc) && t.flights[nonce].phase == Hashing && t.lease.alive
    ensures
      var t1 := ExecuteCommand(t, nonce);
      && FlightOk(t1, nonce) && S.Inv(t1.doc) && DocMoves(t.doc, t1.doc)
  {
    var f := t.flights[nonce];
    assert f.command.nonce == nonce && !f.executed;
    hide S.Inv, DocMoves, Dead, AnswerFits, FlightOk, D.Execute, D.Cancel, D.ExecuteAnswer;
    ExecutedMoves(t.doc, f.command.request, nonce in t.cancelled);
    ExecutedFlight(t, ExecuteCommand(t, nonce), nonce, D.ExecuteAnswer(t.doc, f.command.request));
  }

  lemma ExecutesTouches(t: Tab, nonce: Nonce)
    requires nonce in t.flights && t.flights[nonce].phase == Hashing && !t.flights[nonce].executed && t.flights[nonce].command.nonce == nonce && t.lease.alive
    ensures
      var t1 := ExecuteCommand(t, nonce);
      var act := CommandExecuted(t.flights[nonce].command);
      Touches(t, t1, nonce, Some(act)) && ActIsNew(t, act) && ActHolds(t1, act)
  {}

  lemma Executable(t: Tab, nonce: Nonce, digest: Option<Digest>, env: PageEnv)
    requires nonce in t.flights && FlightOk(t, nonce) && t.flights[nonce].phase == Hashing
    requires ExecutionRefusal(t, t.flights[nonce], digest, env).None?
    ensures t.lease.alive && !t.flights[nonce].executed && t.flights[nonce].command.nonce == nonce
  {}

  lemma DigestKeeps(t: Tab, nonce: Nonce, digest: Option<Digest>, env: PageEnv) returns (act: Option<CommandAct>)
    requires S.Inv(t.doc) && CommandsOk(t) && TabEnabled(t, GetsDigest(nonce, digest, env))
    ensures var t1 := DigestArrives(t, nonce, digest, env); S.Inv(t1.doc) && CommandsOk(t1) && TabMoves(t, t1, act)
  {
    var f := t.flights[nonce];
    act := None;
    hide S.Inv, DocMoves, MapsOk, LogHolds, Distinct, FlightOk, Touches, TabMoves, ActHolds, ActIsNew, ExecutionRefusal, D.Execute, D.Cancel;
    if ExecutionRefusal(t, f, digest, env).Some? {
      EndKeeps(t, nonce, ExecutionRefusal(t, f, digest, env));
    } else {
      act := Some(CommandExecuted(f.command));
      assert t.lease.alive && !f.executed && f.command.nonce == nonce by { assert FlightOk(t, nonce); Executable(t, nonce, digest, env); }
      ExecutesOk(t, nonce);
      ExecutesTouches(t, nonce);
      hide ExecuteCommand;
      TouchKeeps(t, DigestArrives(t, nonce, digest, env), nonce, act);
    }
    hide CommandsOk;
  }

  lemma SigningOk(t: Tab, nonce: Nonce, wellFormed: bool, env: PageEnv)
    requires TabEnabled(t, GetsReceipt(nonce, wellFormed, env)) && FlightOk(t, nonce)
    requires SigningRefusal(t, t.flights[nonce], SettledAnswer(t.doc, t.flights[nonce].phase.answer).value, wellFormed, env).None?
    ensures
      var t1 := ReceiptArrives(t, nonce, wellFormed, env);
      var f := t.flights[nonce];
      var act := ReceiptSigning(f.command, SettledAnswer(t.doc, f.phase.answer).value, Under(t.lease));
      && FlightOk(t1, nonce) && Touches(t, t1, nonce, Some(act)) && t1.doc == t.doc && ActIsNew(t, act) && ActHolds(t1, act)
  {}

  lemma ReceiptKeeps(t: Tab, nonce: Nonce, wellFormed: bool, env: PageEnv) returns (act: Option<CommandAct>)
    requires CommandsOk(t) && TabEnabled(t, GetsReceipt(nonce, wellFormed, env))
    ensures var t1 := ReceiptArrives(t, nonce, wellFormed, env); CommandsOk(t1) && TabMoves(t, t1, act)
  {
    var f := t.flights[nonce];
    var receipt := SettledAnswer(t.doc, f.phase.answer).value;
    act := None;
    hide DocMoves, MapsOk, LogHolds, Distinct, FlightOk, Touches, TabMoves, ActHolds, ActIsNew, SigningRefusal, SettledAnswer;
    if SigningRefusal(t, f, receipt, wellFormed, env).Some? {
      EndKeeps(t, nonce, SigningRefusal(t, f, receipt, wellFormed, env));
    } else {
      act := Some(ReceiptSigning(f.command, receipt, Under(t.lease)));
      SigningOk(t, nonce, wellFormed, env);
      DocStill(t.doc);
      TouchKeeps(t, ReceiptArrives(t, nonce, wellFormed, env), nonce, act);
    }
    hide CommandsOk;
  }

  lemma PostingOk(t: Tab, nonce: Nonce)
    requires nonce in t.flights && t.flights[nonce].phase.Signing? && FlightOk(t, nonce)
    requires t.lease.alive && t.lease.generation == t.flights[nonce].captured
    ensures
      var t1 := SignedReceipt(t, nonce, true);
      var f := t.flights[nonce];
      var act := ReceiptPosted(f.command, f.phase.receipt, Under(t.lease));
      && FlightOk(t1, nonce) && Touches(t, t1, nonce, Some(act)) && t1.doc == t.doc && ActIsNew(t, act) && ActHolds(t1, act)
  {}

  lemma SignedKeeps(t: Tab, nonce: Nonce, signed: bool) returns (act: Option<CommandAct>)
    requires CommandsOk(t) && nonce in t.flights && t.flights[nonce].phase.Signing?
    ensures CommandsOk(SignedReceipt(t, nonce, signed)) && TabMoves(t, SignedReceipt(t, nonce, signed), act)
  {
    var f := t.flights[nonce];
    act := None;
    hide DocMoves, MapsOk, LogHolds, Distinct, FlightOk, Touches, TabMoves, ActHolds, ActIsNew;
    if !signed {
      EndKeeps(t, nonce, Some(Thrown));
    } else if !t.lease.alive || t.lease.generation != f.captured {
      EndKeeps(t, nonce, Some(Refused(StaleRegistration)));
    } else {
      act := Some(ReceiptPosted(f.command, f.phase.receipt, Under(t.lease)));
      PostingOk(t, nonce);
      DocStill(t.doc);
      TouchKeeps(t, SignedReceipt(t, nonce, signed), nonce, act);
    }
    hide CommandsOk;
  }

  lemma CommandKeeps(t: Tab, command: Command, now: int) returns (act: Option<CommandAct>)
    requires CommandsOk(t)
    ensures CommandsOk(TakeCommand(t, command, now)) && TabMoves(t, TakeCommand(t, command, now), act)
  {
    hide DocMoves, LeaseMoves, MapsOk, LogHolds, Distinct, FlightOk, TabMoves, ActHolds, ActIsNew, HearCommand;
    act := None;
    if HearCommand(t, command, now) == Taken {
      var t1 := TakeCommand(t, command, now);
      act := Some(CommandTaken(command));
      CommandIsNew(t, command, now);
      CommandMaps(t, command, now);
      CommandMoves(t, command, now);
      forall n | n in t1.flights ensures FlightOk(t1, n) {
        if n == command.nonce { CommandFlight(t, command, now); } else { CommandLeaves(t, command, now, n); }
      }
      LogMoves(t, t1, act);
    } else {
      StillMoves(t);
    }
  }

  lemma CommandLeaves(t: Tab, command: Command, now: int, n: Nonce)
    requires HearCommand(t, command, now) == Taken && n in t.flights && n != command.nonce && FlightOk(t, n)
    ensures FlightOk(TakeCommand(t, command, now), n)
  {}

  lemma CommandFlight(t: Tab, command: Command, now: int)
    requires HearCommand(t, command, now) == Taken && command.request.requestId !in t.inFlight
    ensures FlightOk(TakeCommand(t, command, now), command.nonce)
  {}

  lemma CommandMoves(t: Tab, command: Command, now: int)
    requires HearCommand(t, command, now) == Taken && command.nonce !in t.flights
    ensures var t1 := TakeCommand(t, command, now); TabMoves(t, t1, Some(CommandTaken(command))) && ActHolds(t1, CommandTaken(command))
  {}

  /** A command that is taken is new under its nonce and under its request id. */
  lemma CommandIsNew(t: Tab, command: Command, now: int)
    requires MapsOk(t) && HearCommand(t, command, now) == Taken
    ensures
      && command.nonce !in t.flights && command.request.requestId !in t.observed && command.request.requestId !in t.inFlight
      && (forall n :: n in t.flights ==> IdOf(t.flights[n]) != command.request.requestId)
  {}

  lemma CommandMaps(t: Tab, command: Command, now: int)
    requires MapsOk(t) && Distinct(t) && HearCommand(t, command, now) == Taken
    ensures MapsOk(TakeCommand(t, command, now)) && Distinct(TakeCommand(t, command, now))
  {
    CommandIsNew(t, command, now);
    var flight := Flight(command, t.lease.generation, false, Hashing);
    CommandPairs(t, TakeCommand(t, command, now), flight);
    CommandDistinct(t, TakeCommand(t, command, now), flight);
    hide MapsOk, Distinct;
  }

  lemma CommandDistinct(t: Tab, t1: Tab, flight: Flight)
    requires Distinct(t) && (forall n :: n in t.flights ==> IdOf(t.flights[n]) != IdOf(flight))
    requires t1.flights == t.flights[flight.command.nonce := flight]
    ensures Distinct(t1)
  {}

  lemma CommandPairs(t: Tab, t1: Tab, flight: Flight)
    requires MapsOk(t) && t.lease.alive && |t.byNonce| < MAX_COMMANDS
    requires flight.command.nonce !in t.flights && IdOf(flight) !in t.observed
    requires t1 == t.(observed := t.observed[IdOf(flight) := flight.command], byNonce := t.byNonce + {flight.command.nonce},
                      flights := t.flights[flight.command.nonce := flight], log := t1.log)
    ensures MapsOk(t1)
  {
    assert t1.flights.Keys == t.flights.Keys + {flight.command.nonce};
    forall id | id in t1.observed ensures ObservedOk(t1, id) {
      if id != IdOf(flight) { assert ObservedOk(t, id); }
    }
    forall n | n in t1.flights ensures FlightObserved(t1, n) {
      if n != flight.command.nonce { assert FlightObserved(t, n); }
    }
    hide ObservedOk, FlightObserved;
  }

  lemma CancellationKeeps(t: Tab, command: Command, now: int) returns (act: Option<CommandAct>)
    requires S.Inv(t.doc) && CommandsOk(t)
    ensures S.Inv(TakeCancellation(t, command, now).doc) && CommandsOk(TakeCancellation(t, command, now)) && TabMoves(t, TakeCancellation(t, command, now), act)
  {
    hide S.Inv, DocMoves, LeaseMoves, MapsOk, LogHolds, FlightOk, TabMoves, ActHolds, ActIsNew, HearCancellation, D.Cancel;
    act := None;
    if HearCancellation(t, command, now) == Taken {
      var t1 := TakeCancellation(t, command, now);
      act := Some(CancellationTaken(command));
      CancellationDoc(t, command, now);
      forall n | n in t1.flights ensures FlightOk(t1, n) { CancellationFlight(t, command, now, n); }
      CancellationMaps(t, command, now);
      CancellationMoves(t, command, now);
      LogMoves(t, t1, act);
    } else {
      StillMoves(t);
    }
  }

  lemma CancellationMaps(t: Tab, command: Command, now: int)
    requires MapsOk(t) && HearCancellation(t, command, now) == Taken
    ensures MapsOk(TakeCancellation(t, command, now))
  {}

  lemma SameObserved(t: Tab, t1: Tab)
    requires t1.observed == t.observed && t1.flights == t.flights
    ensures forall id :: id in t.observed ==> (ObservedOk(t1, id) <==> ObservedOk(t, id))
    ensures forall n :: n in t.flights ==> (FlightObserved(t1, n) <==> FlightObserved(t, n))
  {}

  lemma CancellationMoves(t: Tab, command: Command, now: int)
    requires HearCancellation(t, command, now) == Taken && DocMoves(t.doc, TakeCancellation(t, command, now).doc)
    ensures
      var t1 := TakeCancellation(t, command, now);
      TabMoves(t, t1, Some(CancellationTaken(command))) && ActHolds(t1, CancellationTaken(command))
  {}

  lemma CancellationDoc(t: Tab, command: Command, now: int)
    requires S.Inv(t.doc)
    ensures S.Inv(TakeCancellation(t, command, now).doc) && DocMoves(t.doc, TakeCancellation(t, command, now).doc)
  {
    hide S.Inv, DocMoves, D.Cancel, HearCancellation;
    var id := command.request.requestId;
    DocStill(t.doc);
    DocStepMoves(t.doc, D.DoCancel(id));
    CancelStep(t.doc, id);
    hide D.Step;
  }

  lemma CancelStep(d: D.Doc, id: RequestId)
    ensures D.Step(d, D.DoCancel(id)) == D.Cancel(d, id)
  {}

  lemma CancellationFlight(t: Tab, command: Command, now: int, n: Nonce)
    requires S.Inv(t.doc) && MapsOk(t) && HearCancellation(t, command, now) == Taken && n in t.flights && FlightOk(t, n)
    ensures FlightOk(TakeCancellation(t, command, now), n)
  {
    hide S.Inv, DocMoves, LeaseMoves, D.Cancel, HearCancellation, MapsOk, Dead, FlightOk;
    CancellationDoc(t, command, now);
    LeaseStill(t.lease);
    if t.flights[n].executed && t.flights[n].command == command { CancellationKills(t, command, now, n); }
    FlightStays(t, TakeCancellation(t, command, now), n);
  }

  /** A cancellation of a command that was executed reaches the document at once. */
  lemma CancellationKills(t: Tab, command: Command, now: int, n: Nonce)
    requires MapsOk(t) && HearCancellation(t, command, now) == Taken && n in t.flights && FlightOk(t, n)
    requires t.flights[n].executed && t.flights[n].command == command
    ensures Dead(TakeCancellation(t, command, now).doc, IdOf(t.flights[n]))
  {}

  lemma DocumentKeeps(t: Tab, e: D.Event)
    requires S.Inv(t.doc) && CommandsOk(t)
    ensures var t1 := t.(doc := D.Step(t.doc, e)); S.Inv(t1.doc) && CommandsOk(t1) && TabMoves(t, t1, None)
  {
    hide S.Inv, D.Step, FlightOk, LogHolds, DocMoves, LeaseMoves, ActHolds, ObservedOk, FlightObserved;
    var t1 := t.(doc := D.Step(t.doc, e));
    DocStepMoves(t.doc, e);
    LeaseStill(t.lease);
    forall n | n in t1.flights ensures FlightOk(t1, n) { FlightStays(t, t1, n); }
    SameObserved(t, t1);
    LogMoves(t, t1, None);
  }

  lemma LeaseKeeps(t: Tab, e: LeaseEvent)
    requires LeaseSafety.LeaseInv(t.lease) && CommandsOk(t) && e != Retires
    ensures var t1 := t.(lease := LeaseStep(t.lease, e).state); LeaseSafety.LeaseInv(t1.lease) && CommandsOk(t1) && TabMoves(t, t1, None)
  {
    hide LeaseStep, LeaseSafety.LeaseInv, FlightOk, LogHolds, DocMoves, LeaseMoves, ActHolds, ObservedOk, FlightObserved;
    var t1 := t.(lease := LeaseStep(t.lease, e).state);
    LeaseStepMoves(t.lease, e);
    DocStill(t.doc);
    forall n | n in t1.flights ensures FlightOk(t1, n) { FlightStays(t, t1, n); }
    SameObserved(t, t1);
    LogMoves(t, t1, None);
  }

  lemma RetireKeeps(t: Tab)
    requires LeaseSafety.LeaseInv(t.lease) && CommandsOk(t)
    ensures LeaseSafety.LeaseInv(RetireTransport(t).lease) && CommandsOk(RetireTransport(t)) && TabMoves(t, RetireTransport(t), Some(TransportRetired))
  {
    hide LeaseSafety.LeaseInv;
    var t1 := RetireTransport(t);
    RetireMoves(t.lease);
    DocStill(t.doc);
    forall n | n in t1.flights ensures FlightOk(t1, n) { FlightStays(t, t1, n); }
    LogMoves(t, t1, Some(TransportRetired));
    hide FlightOk, LogHolds, DocMoves, LeaseMoves, ActHolds;
  }

  /** Only its own events move the lease, and only a digest, a cancellation or its own events the document. */
  lemma StaysPut(t: Tab, e: TabEvent)
    requires TabEnabled(t, e)
    ensures !e.OnLease? && !e.RetiresTransport? ==> TabStep(t, e).lease == t.lease
    ensures !e.OnDocument? && !e.GetsDigest? && !e.GetsCancellation? ==> TabStep(t, e).doc == t.doc
  {
    hide D.Step, D.Cancel, D.Execute, LeaseStep, HearCommand, HearCancellation, SigningRefusal, ExecutionRefusal, SettledAnswer;
  }

  lemma TabStepKeeps(t: Tab, e: TabEvent) returns (act: Option<CommandAct>)
    requires TabInv(t)
    ensures TabInv(TabStep(t, e)) && TabMoves(t, TabStep(t, e), act)
  {
    act := None;
    if TabEnabled(t, e) {
      StaysPut(t, e);
      hide S.Inv, LeaseSafety.LeaseInv, CommandsOk, TabMoves, DigestArrives, ReceiptArrives, SignedReceipt, EndFlight, TakeCommand, TakeCancellation, RetireTransport, LeaseStep, D.Step;
      match e
      case OnDocument(documentEvent) => DocumentKeeps(t, documentEvent);
      case OnLease(leaseEvent) => LeaseKeeps(t, leaseEvent);
      case GetsCommand(command, now) => act := CommandKeeps(t, command, now);
      case GetsCancellation(command, now) => act := CancellationKeeps(t, command, now);
      case GetsDigest(nonce, digest, env) => act := DigestKeeps(t, nonce, digest, env);
      case GetsReceipt(nonce, wellFormed, env) => act := ReceiptKeeps(t, nonce, wellFormed, env);
      case GetsReceiptSignature(nonce, signed) => act := SignedKeeps(t, nonce, signed);
      case GetsReceiptAnswer(nonce, failure) => EndKeeps(t, nonce, failure);
      case RetiresTransport => RetireKeeps(t); act := Some(TransportRetired);
    } else {
      StillMoves(t);
      hide TabInv;
    }
  }

  lemma TabStepOk(t: Tab, e: TabEvent)
    requires TabInv(t)
    ensures TabInv(TabStep(t, e))
  {
    hide TabInv, TabMoves, TabStep;
    var _ := TabStepKeeps(t, e);
  }

  lemma StillMoves(t: Tab)
    ensures TabMoves(t, t, None)
  {}

  ghost predicate ReachableTab(t: Tab) {
    exists documentId, documentEpoch, key, events :: t == TabExec(InitTab(documentId, documentEpoch, key), events)
  }

  lemma {:induction false} TabRunKeeps(t: Tab, events: seq<TabEvent>)
    requires TabInv(t)
    ensures TabInv(TabExec(t, events))
    decreases |events|
  {
    hide TabInv, TabStep, TabMoves;
    if events != [] {
      var _ := TabStepKeeps(t, events[0]);
      TabRunKeeps(TabStep(t, events[0]), events[1..]);
    }
  }

  lemma ReachableTabInv(t: Tab)
    requires ReachableTab(t)
    ensures TabInv(t)
  {
    hide TabInv, InitTab;
    var documentId, documentEpoch, key, events :| t == TabExec(InitTab(documentId, documentEpoch, key), events);
    InitTabInv(documentId, documentEpoch, key);
    TabRunKeeps(InitTab(documentId, documentEpoch, key), events);
  }

  lemma {:induction false} ExecAppends(t: Tab, first: seq<TabEvent>, second: seq<TabEvent>)
    ensures TabExec(t, first + second) == TabExec(TabExec(t, first), second)
    decreases |first|
  {
    hide TabStep;
    if first == [] {
      assert first + second == second;
    } else {
      assert (first + second)[1..] == first[1..] + second;
      ExecAppends(TabStep(t, first[0]), first[1..], second);
    }
  }

  lemma ReachableStep(t: Tab, e: TabEvent)
    requires ReachableTab(t)
    ensures ReachableTab(TabStep(t, e))
  {
    hide InitTab, TabStep;
    var documentId, documentEpoch, key, events :| t == TabExec(InitTab(documentId, documentEpoch, key), events);
    ExecAppends(InitTab(documentId, documentEpoch, key), events, [e]);
    assert [e][0] == e && [e][1..] == [];
    assert TabStep(t, e) == TabExec(InitTab(documentId, documentEpoch, key), events + [e]);
  }

  /** A transport that is created beside a document starts with nothing of its own. */
  lemma NewTabInv(doc: D.Doc, key: Key)
    requires S.Inv(doc)
    ensures TabInv(InitTab("", "", key).(doc := doc))
  {
    LeaseTheorems.ReachableLeaseInv(InitLease(key)) by { assert InitLease(key) == LeaseExec(InitLease(key), []); }
    hide S.Inv, LeaseSafety.LeaseInv;
  }

  lemma InitTabInv(documentId: string, documentEpoch: string, key: Key)
    ensures TabInv(InitTab(documentId, documentEpoch, key))
  {
    S.RunKeeps(D.Init(documentId, documentEpoch), []);
    LeaseTheorems.ReachableLeaseInv(InitLease(key)) by { assert InitLease(key) == LeaseExec(InitLease(key), []); }
  }
}
