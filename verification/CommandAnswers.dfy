/** What becomes of each event about a command. */
module CommandAnswers {
  import opened Outcomes
  import opened Lease
  import opened Commands
  import opened CommandsSafety
  import D = Document
  import S = DocumentSafety
  import LeaseSafety
  import ReceiptHistory
  import WholePage

  // ---- Hearing

  /** The event names the registration that the page holds. */
  predicate Addressed(t: Tab, command: Command) {
    t.lease.alive && t.lease.registration.Some? && command.ref.registrationId == t.lease.registration.value.ref.registrationId
  }

  /** It names the whole of it, and its document. */
  predicate Ours(t: Tab, command: Command)
    requires Addressed(t, command)
  {
    var registration := t.lease.registration.value;
    && command.ref.registrationEpoch == registration.ref.registrationEpoch && command.ref.processId == registration.ref.processId
    && command.request.documentId == registration.identity.documentId && command.request.documentEpoch == registration.identity.documentEpoch
  }

  /** Another command was taken under the same request id. */
  ghost predicate IdIsTaken(t: Tab, command: Command) {
    exists n :: n in t.flights && t.flights[n].command.request.requestId == command.request.requestId && t.flights[n].command != command
  }

  predicate OtherCancelled(t: Tab, command: Command) {
    command.nonce in t.cancelled && t.cancelled[command.nonce] != command
  }

  lemma ContradictsIs(t: Tab, command: Command)
    requires TabInv(t) && t.lease.alive
    ensures Contradicts(t, command) <==> IdIsTaken(t, command)
    ensures t.byNonce == t.flights.Keys && |t.byNonce| == |t.flights|
  {
    hide S.Inv, LeaseSafety.LeaseInv, FlightOk, LogHolds;
    if Contradicts(t, command) { assert ObservedOk(t, command.request.requestId); }
    if IdIsTaken(t, command) {
      var n :| n in t.flights && t.flights[n].command.request.requestId == command.request.requestId && t.flights[n].command != command;
      assert FlightObserved(t, n);
    }
    assert |t.flights.Keys| == |t.flights|;
  }

  /**
   * A command for another registration, or under a nonce that has a flight, is ignored. It is refused when the page's
   * registration is not the whole one it names, or is over; when 128 commands were taken; and when its request id, or
   * the cancellation of its nonce, belongs to another command. Otherwise its flight begins.
   */
  lemma CommandHeard(t: Tab, command: Command, now: int)
    requires ReachableTab(t)
    ensures
      var t1 := TabStep(t, GetsCommand(command, now));
      HearCommand(t, command, now) == (
        if !Addressed(t, command) then Ignored
        else if !Ours(t, command) || now >= t.lease.registration.value.expiresAt then Rejected(StaleRegistration)
        else if command.nonce in t.flights then Ignored
        else if |t.flights| >= 128 then Rejected(ReceiptCapacity)
        else if IdIsTaken(t, command) || OtherCancelled(t, command) then Rejected(CommandMismatch)
        else Taken)
      && t1 == if HearCommand(t, command, now) != Taken then t else
           t.(flights := t.flights[command.nonce := Flight(command, t.lease.generation, false, Hashing)], byNonce := t1.byNonce, observed := t1.observed,
              log := t.log + [CommandTaken(command)])
  {
    hide ReachableTab;
    ReachableTabInv(t);
    hide TabInv, Contradicts;
    if t.lease.alive { ContradictsIs(t, command); }
    hide IdIsTaken;
  }

  /**
   * A cancellation is taken for the same registration while its request has time left, whether or not its command has
   * come, unless the request id or the nonce belongs to another command or 128 were taken; it stops the request at once
   * when its command has come and the document has admitted it.
   */
  lemma CancellationHeard(t: Tab, command: Command, now: int)
    requires ReachableTab(t)
    ensures
      var t1 := TabStep(t, GetsCancellation(command, now));
      HearCancellation(t, command, now) == (
        if !Addressed(t, command) then Ignored
        else if !Ours(t, command) then Rejected(StaleRegistration)
        else if now >= command.request.expiresAt then Rejected(ExpiredRequest)
        else if IdIsTaken(t, command) || OtherCancelled(t, command) then Rejected(CommandMismatch)
        else if command.nonce in t.cancelled then Ignored
        else if |t.cancelled| >= 128 then Rejected(ReceiptCapacity)
        else Taken)
      && (HearCancellation(t, command, now) != Taken ==> t1 == t)
      && (HearCancellation(t, command, now) == Taken ==>
            var id, come := command.request.requestId, command.nonce in t.flights && t.flights[command.nonce].command == command;
            && t1 == t.(cancelled := t.cancelled[command.nonce := command], doc := t1.doc, log := t.log + [CancellationTaken(command)])
            && t1.doc == (if come then D.Step(t.doc, D.DoCancel(id)) else t.doc)
            && (id in t1.doc.cancelled <==> id in t.doc.cancelled || (come && id in t.doc.receipts)))
  {
    hide ReachableTab;
    ReachableTabInv(t);
    hide TabInv, Contradicts, IdIsTaken, D.Cancel, D.Step;
    if t.lease.alive {
      ContradictsIs(t, command);
      if !Contradicts(t, command) { CameIs(t, command); }
    }
    CancelMarks(t.doc, command.request.requestId);
  }

  lemma CancelMarks(d: D.Doc, id: RequestId)
    ensures D.Step(d, D.DoCancel(id)) == D.Cancel(d, id)
    ensures D.Cancel(d, id).cancelled == if id in d.receipts then d.cancelled + {id} else d.cancelled
  {}

  /** A request id that is known and not taken by another is that of this command, whose flight has begun. */
  lemma CameIs(t: Tab, command: Command)
    requires TabInv(t) && t.lease.alive && !Contradicts(t, command)
    ensures command.request.requestId in t.observed <==> command.nonce in t.flights && t.flights[command.nonce].command == command
  {
    hide S.Inv, LeaseSafety.LeaseInv, FlightOk, LogHolds;
    if command.request.requestId in t.observed { assert ObservedOk(t, command.request.requestId); }
    if command.nonce in t.flights { assert FlightObserved(t, command.nonce); }
  }

  // ---- One flight

  /** The request was turned away, for this reason. */
  predicate Turned(receipt: Receipt, request: Request, reason: Reason) {
    ReceiptHistory.For(receipt, request) && ReceiptHistory.SaysBlocked(receipt, reason)
  }

  /** What the document answers: the promise of this very request, or why it has none. */
  predicate Answers(d: D.Doc, request: Request, answer: D.Answer) {
    var id := request.requestId;
    if id in d.receipts && d.receipts[id].kind == D.View && d.receipts[id].request == request then answer == D.Promised(id)
    else if id in d.receipts then answer.Now? && Turned(answer.receipt, request, RequestIdConflict)
    else if |d.receipts| >= 128 then answer.Now? && Turned(answer.receipt, request, ReceiptCapacity)
    else answer == D.Promised(id)
  }

  lemma DocumentAnswers(d: D.Doc, request: Request)
    ensures Answers(d, request, D.ExecuteAnswer(d, request))
    ensures D.Step(d, D.DoExecute(request)) == D.Execute(d, request)
  {}

  /** Why a hashed command is not executed, in the order of the checks; its request id is never in the way. */
  function NotExecuted(t: Tab, flight: Flight, digest: Option<Digest>, env: PageEnv): Option<Error> {
    var request := flight.command.request;
    if digest.None? then Some(Thrown)
    else if digest.value != flight.command.actionHash then Some(Refused(CommandMismatch))
    else if !(env.now < request.expiresAt <= env.now + 5000) then Some(Refused(ExpiredRequest))
    else if !t.lease.alive || !env.mounted then Some(Refused(UnmountedDocument))
    else if env.identity.Err? then Some(Refused(env.identity.error))
    else if t.lease.generation != flight.captured then Some(Refused(StaleRegistration))
    else None
  }

  /**
   * With its digest a command either ends there, for the first reason there is, or is executed by the document: what the
   * flight waits for is the document's own answer, and the request is cancelled at once if its nonce was.
   */
  lemma DigestDecides(t: Tab, nonce: Nonce, digest: Option<Digest>, env: PageEnv)
    requires ReachableTab(t) && TabEnabled(t, GetsDigest(nonce, digest, env))
    ensures
      var t1, flight := TabStep(t, GetsDigest(nonce, digest, env)), t.flights[nonce];
      var request, refusal := flight.command.request, NotExecuted(t, flight, digest, env);
      if refusal.Some? then t1 == t.(flights := t.flights[nonce := flight.(phase := Over(refusal))])
      else
        && nonce in t1.flights && t1.flights[nonce].phase.Executing? && Answers(t.doc, request, t1.flights[nonce].phase.answer)
        && t1 == t.(flights := t.flights[nonce := flight.(executed := true, phase := t1.flights[nonce].phase)], inFlight := t.inFlight + {request.requestId},
                    doc := t1.doc, log := t.log + [CommandExecuted(flight.command)])
        && var executed := D.Step(t.doc, D.DoExecute(request));
           t1.doc == if nonce in t.cancelled then D.Step(executed, D.DoCancel(request.requestId)) else executed
  {
    hide TabInv, TabStep, D.Step, D.Execute, D.ExecuteAnswer, D.Cancel, Answers, DigestArrives;
    ReachableTabInv(t);
    hide ReachableTab;
    ReceivedUnder(t, nonce);
    FlightFacts(t, nonce);
    FlightStep(t, GetsDigest(nonce, digest, env));
    var request := t.flights[nonce].command.request;
    DocumentAnswers(t.doc, request);
    CancelMarks(D.Execute(t.doc, request), request.requestId);
    DigestMeans(t, nonce, digest, env);
  }

  lemma DigestMeans(t: Tab, nonce: Nonce, digest: Option<Digest>, env: PageEnv)
    requires nonce in t.flights && !t.flights[nonce].executed && IdOf(t.flights[nonce]) !in t.inFlight
    ensures ExecutionRefusal(t, t.flights[nonce], digest, env) == NotExecuted(t, t.flights[nonce], digest, env)
    ensures
      var flight, refusal := t.flights[nonce], NotExecuted(t, t.flights[nonce], digest, env);
      DigestArrives(t, nonce, digest, env) ==
      if refusal.Some? then t.(flights := t.flights[nonce := flight.(phase := Over(refusal))])
      else
        var executed := D.Execute(t.doc, flight.command.request);
        t.(flights := t.flights[nonce := flight.(executed := true, phase := Executing(D.ExecuteAnswer(t.doc, flight.command.request)))],
           inFlight := t.inFlight + {IdOf(flight)}, doc := if nonce in t.cancelled then D.Cancel(executed, IdOf(flight)) else executed,
           log := t.log + [CommandExecuted(flight.command)])
  {
    hide D.Execute, D.ExecuteAnswer, D.Cancel;
  }

  lemma FlightFacts(t: Tab, nonce: Nonce)
    requires TabInv(t) && nonce in t.flights
    ensures t.flights[nonce].phase == Hashing ==> !t.flights[nonce].executed
    ensures Underway(t.flights[nonce]) ==> t.flights[nonce].executed
  {
    assert FlightOk(t, nonce);
    hide S.Inv, LeaseSafety.LeaseInv, MapsOk, LogHolds, Distinct, AnswerFits, ReceiptFits, Dead;
  }

  /** An event about a flight that waits for it is the segment of that name. */
  lemma FlightStep(t: Tab, e: TabEvent)
    requires TabEnabled(t, e)
    ensures e.GetsDigest? ==> TabStep(t, e) == DigestArrives(t, e.nonce, e.digest, e.env)
    ensures e.GetsReceipt? ==> TabStep(t, e) == ReceiptArrives(t, e.nonce, e.wellFormed, e.env)
    ensures e.GetsReceiptSignature? ==> TabStep(t, e) == SignedReceipt(t, e.nonce, e.signed)
    ensures e.GetsReceiptAnswer? ==> TabStep(t, e) == EndFlight(t, e.nonce, e.failure)
  {
    hide DigestArrives, ReceiptArrives, SignedReceipt, EndFlight, D.Step;
  }

  /** Why a receipt is not signed, in the order of the checks; that it names the request and the page's document needs none. */
  function NotSigned(t: Tab, flight: Flight, wellFormed: bool, env: PageEnv): Option<Error> {
    var request := flight.command.request;
    if t.doc.documentId != request.documentId || t.doc.documentEpoch != request.documentEpoch then Some(Refused(Other("receipt_mismatch")))
    else if !wellFormed then Some(Refused(Other("invalid_receipt")))
    else if !t.lease.alive || env.now >= request.expiresAt then Some(Refused(ExpiredRequest))
    else if !env.mounted then Some(Refused(UnmountedDocument))
    else if env.identity.Err? then Some(Refused(env.identity.error))
    else if t.lease.generation != flight.captured then Some(Refused(StaleRegistration))
    else None
  }

  /** A receipt that arrives is signed as it is, or its flight ends, for the first reason there is. */
  lemma ReceiptDecides(t: Tab, nonce: Nonce, wellFormed: bool, env: PageEnv)
    requires ReachableTab(t) && TabEnabled(t, GetsReceipt(nonce, wellFormed, env))
    ensures
      var t1, flight := TabStep(t, GetsReceipt(nonce, wellFormed, env)), t.flights[nonce];
      var receipt, refusal := SettledAnswer(t.doc, flight.phase.answer).value, NotSigned(t, flight, wellFormed, env);
      && receipt.requestId == Some(flight.command.request.requestId) && receipt.actionId == Some(flight.command.request.actionId)
      && if refusal.Some? then t1 == t.(flights := t.flights[nonce := flight.(phase := Over(refusal))], inFlight := t.inFlight - {IdOf(flight)})
         else
           t1 == t.(flights := t.flights[nonce := flight.(phase := Signing(receipt))],
                    log := t.log + [ReceiptSigning(flight.command, receipt, Some(flight.command.ref))])
  {
    hide TabInv, TabStep, SettledAnswer;
    ReachableTabInv(t);
    WholePage.PageParts(t);
    hide ReachableTab, S.Reachable;
    ReceivedUnder(t, nonce);
    FlightFacts(t, nonce);
    SettledIsOurs(t, nonce);
    FlightStep(t, GetsReceipt(nonce, wellFormed, env));
  }

  lemma SettledIsOurs(t: Tab, nonce: Nonce)
    requires TabInv(t) && S.Reachable(t.doc) && nonce in t.flights && t.flights[nonce].phase.Executing?
    requires SettledAnswer(t.doc, t.flights[nonce].phase.answer).Some?
    ensures
      var receipt, request := SettledAnswer(t.doc, t.flights[nonce].phase.answer).value, t.flights[nonce].command.request;
      receipt.requestId == Some(request.requestId) && receipt.actionId == Some(request.actionId)
  {
    hide S.Inv, LeaseSafety.LeaseInv, MapsOk, LogHolds, Distinct, Dead, S.Reachable;
    assert FlightOk(t, nonce);
    var id := IdOf(t.flights[nonce]);
    if id in t.doc.receipts && t.doc.receipts[id].phase.Settled? { SettledNames(t.doc, id); }
  }

  lemma SettledNames(d: D.Doc, id: RequestId)
    requires S.Reachable(d) && id in d.receipts && d.receipts[id].phase.Settled?
    ensures d.receipts[id].phase.settlement.receipt.requestId == Some(d.receipts[id].request.requestId)
    ensures d.receipts[id].phase.settlement.receipt.actionId == Some(d.receipts[id].request.actionId)
  {
    hide S.Inv, S.Reachable, ReceiptHistory.LastReport, ReceiptHistory.OwnAnswer, ReceiptHistory.CaughtFits;
    ReceiptHistory.ReachableTold(d, id);
    var k: nat :| ReceiptHistory.SettledAt(d, id, k);
  }

  /** A signed receipt is posted exactly while the page has the registration it was signed under; its flight ends with the answer. */
  lemma SignatureDecides(t: Tab, nonce: Nonce, signed: bool, failure: Option<Error>)
    requires ReachableTab(t) && nonce in t.flights
    ensures
      var t1, flight := TabStep(t, GetsReceiptSignature(nonce, signed)), t.flights[nonce];
      var current := t.lease.alive && t.lease.generation == flight.captured;
      flight.phase.Signing? ==>
        if signed && current then
          t1 == t.(flights := t.flights[nonce := flight.(phase := Posting(flight.phase.receipt))],
                   log := t.log + [ReceiptPosted(flight.command, flight.phase.receipt, Some(flight.command.ref))])
        else
          t1 == t.(flights := t.flights[nonce := flight.(phase := Over(Some(if !signed then Thrown else Refused(StaleRegistration))))],
                   inFlight := t.inFlight - {IdOf(flight)})
    ensures
      var t1, flight := TabStep(t, GetsReceiptAnswer(nonce, failure)), t.flights[nonce];
      flight.phase.Posting? ==> t1 == t.(flights := t.flights[nonce := flight.(phase := Over(failure))], inFlight := t.inFlight - {IdOf(flight)})
  {
    hide TabInv, TabStep;
    ReachableTabInv(t);
    hide ReachableTab;
    ReceivedUnder(t, nonce);
    FlightFacts(t, nonce);
    if t.flights[nonce].phase.Signing? { FlightStep(t, GetsReceiptSignature(nonce, signed)); }
    if t.flights[nonce].phase.Posting? { FlightStep(t, GetsReceiptAnswer(nonce, failure)); }
  }
}
