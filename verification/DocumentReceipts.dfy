/** What a receipt says is what happened. */
module DocumentReceipts {
  import opened Outcomes
  import opened Document
  import opened DocumentSafety
  import DocumentTheorems
  import opened ReceiptHistory

  /** A run starts on a free page exactly inside the fence, with a deadline that is near enough, and with a handler. */
  lemma StartsExactly(d: Doc, id: RequestId, env: Env)
    requires Reachable(d) && AtPhase(d, id, Submitted)
    ensures
      var run, after := d.receipts[id], Step(d, DoStartRun(id, env)).receipts[id];
      && after.phase == (if after.phase.Settled? then after.phase else Racing)
      && (after.phase == Racing <==> !Taken(d) && Inside(d, run, env) && run.request.expiresAt <= env.now + 5000 && env.handled)
      && (Taken(d) ==> after.phase.settlement.TurnedAway? && SaysBlocked(after.phase.settlement.receipt, Busy))
      && (!Taken(d) && after.phase.Settled? ==>
            after.phase.settlement.Caught? && after.phase.settlement.error == Refused(
              if !Inside(d, run, env) then Check(d, run, env).value
              else if run.request.expiresAt > env.now + 5000 then ExpiredRequest else UnsupportedDocument))
  {
    hide LogOk, Recorded, Unmoved, Grouped, Reachable;
    ReachableInv(d);
    assert RunOk(d, id);
    FenceSays(d, d.receipts[id], env);
    hide Core, RunOk, Check, CaughtOutcome;
  }

  /** A prepared file starts under the same conditions, with a later deadline and its own handler. */
  lemma FileStartsExactly(d: Doc, id: RequestId, env: Env, intent: Text)
    requires Reachable(d) && AtPhase(d, id, Preparing)
    ensures
      var run, after := d.receipts[id], Step(d, DoFilePrepared(id, env, intent)).receipts[id];
      && (after.phase == Racing <==> Inside(d, run, env) && run.request.expiresAt <= env.now + 300000)
      && (after.phase != Racing ==>
            after.phase.Settled? && after.phase.settlement.Caught? && after.phase.settlement.error == Refused(
              if !Inside(d, run, env) then Check(d, run, env).value else ExpiredRequest))
  {
    hide LogOk, Recorded, Unmoved, Grouped, Reachable;
    ReachableInv(d);
    assert RunOk(d, id);
    FenceSays(d, d.receipts[id], env);
    FenceSays(d.(preparing := None), d.receipts[id].(intent := Some(Ok(intent))), env);
    hide Core, RunOk, CaughtOutcome;
  }

  /** A receipt with the owner's own result is that result: it is what the owner answered, in time, and nothing else. */
  lemma FinishedIsTheAnswer(d: Doc, id: RequestId)
    requires Reachable(d) && id in d.receipts && d.receipts[id].phase.Settled? && d.receipts[id].phase.settlement.Finished?
    ensures
      var run, receipt := d.receipts[id], d.receipts[id].phase.settlement.receipt;
      && receipt.requestId == Some(id) && receipt.actionId == Some(run.request.actionId)
      && run.owner == OwnerSettled(Returned(receipt.outcome), false)
      && (exists i, k :: 0 <= i < k < |d.log| && d.log[i] == OwnerAnswered(id, Returned(receipt.outcome)) && d.log[k] == ReceiptSettled(id))
      && (forall answer :: OwnerAnswered(id, answer) in d.log ==> answer == Returned(receipt.outcome))
  {
    ReachableTold(d, id);
    var outcome := d.receipts[id].phase.settlement.receipt.outcome;
    var k: nat :| SettledAt(d, id, k);
    AnswerInLog(d.log[..k], id, Returned(outcome));
    var i :| 0 <= i < k && d.log[..k][i] == OwnerAnswered(id, Returned(outcome));
    assert d.log[i] == OwnerAnswered(id, Returned(outcome));
    forall answer | OwnerAnswered(id, answer) in d.log ensures answer == Returned(outcome) { AnswerStands(d, id, answer); }
    hide Inv, LastReport, OwnAnswer, Reachable;
  }

  lemma AnswerStands(d: Doc, id: RequestId, answer: OwnerResult)
    requires Inv(d) && OwnerAnswered(id, answer) in d.log
    ensures id in d.receipts && AnswerIs(d.receipts[id], answer)
  {
    var i :| 0 <= i < |d.log| && d.log[i] == OwnerAnswered(id, answer);
    assert ActOk(d, d.log[i]);
  }

  /**
   * And conversely: a run that goes on after its race ends with the owner's outcome exactly when the owner won the race
   * with one and the run is still inside the fence; otherwise with what stopped it, the owner's exception, or the reason
   * the fence gives.
   */
  lemma FinishesExactly(d: Doc, id: RequestId, env: Env)
    requires Reachable(d) && Enabled(d, DoContinue(id, env))
    ensures
      var run, after := d.receipts[id], Step(d, DoContinue(id, env)).receipts[id];
      && after.phase.Settled? && !after.phase.settlement.TurnedAway?
      && (after.phase.settlement.Finished? <==> run.race.value.OwnerWon? && run.race.value.answer.Returned? && Inside(d, run, env))
      && (after.phase.settlement.Finished? ==>
            after.phase.settlement.receipt == Receipt(run.race.value.answer.outcome, Some(id), Some(run.request.actionId)))
      && (after.phase.settlement.Caught? ==>
            var error := after.phase.settlement.error;
            if run.race.value.Interrupted? then error.Refused? && run.aborted == Some(error.reason)
            else if run.race.value.answer.Raised? then error == run.race.value.answer.error && run.owner == OwnerSettled(Raised(error), false)
            else Check(d, run, env).Some? && error == Refused(Check(d, run, env).value))
  {
    ReachableTold(d, id);
    FenceSays(d, d.receipts[id], env);
    hide Inv, LastReport, OwnAnswer, Check, CaughtOutcome, SettledAt, Settles, Reachable;
  }

  /** So an owner that returns before anything stops the run has its outcome delivered, if the fence still lets it. */
  lemma InTimeFinishes(d: Doc, id: RequestId, env: Env, outcome: Outcome)
    requires Reachable(d) && AtPhase(d, id, Racing) && d.receipts[id].aborted.None?
    requires d.receipts[id].owner.OwnerSettled? && d.receipts[id].owner.answer == Returned(outcome) && Inside(d, d.receipts[id], env)
    ensures
      var d1 := Step(Step(d, DoOwnerDelivered(id)), DoContinue(id, env));
      id in d1.receipts && d1.receipts[id].phase == Settled(Finished(Receipt(outcome, Some(id), Some(d.receipts[id].request.actionId))))
  {
    var d1 := Delivered(d, id, outcome);
    hide Inv, LastReport, OwnAnswer, Check, Ended, Reachable, Told, Step;
    assert Enabled(d1, DoContinue(id, env)) && Inside(d1, d1.receipts[id], env);
    FinishesExactly(d1, id, env);
    ContinuesOn(d1, id, env);
  }

  lemma Delivered(d: Doc, id: RequestId, outcome: Outcome) returns (d1: Doc)
    requires Reachable(d) && AtPhase(d, id, Racing) && d.receipts[id].aborted.None?
    requires d.receipts[id].owner.OwnerSettled? && d.receipts[id].owner.answer == Returned(outcome)
    ensures d1 == Step(d, DoOwnerDelivered(id)) && Reachable(d1)
    ensures d1 == d.(receipts := d.receipts[id := d.receipts[id].(race := Some(OwnerWon(Returned(outcome))))])
  {
    ReachableTold(d, id);
    d1 := Step(d, DoOwnerDelivered(id));
    DocumentTheorems.ReachableOn(d, [DoOwnerDelivered(id)]);
    assert [DoOwnerDelivered(id)][1..] == [] && Exec(d, [DoOwnerDelivered(id)]) == Exec(d1, []);
    hide Inv, LastReport, OwnAnswer, Reachable, SettledAt, Settles;
  }

  lemma ContinuesOn(d: Doc, id: RequestId, env: Env)
    requires Enabled(d, DoContinue(id, env))
    ensures id in Step(d, DoContinue(id, env)).receipts
  {}

  /** A receipt of the catch block says what its exception, the grants and the last report before it make of it. */
  lemma CaughtTells(d: Doc, id: RequestId)
    requires Reachable(d) && id in d.receipts && d.receipts[id].phase.Settled? && d.receipts[id].phase.settlement.Caught?
    ensures
      var run, receipt, error := d.receipts[id], d.receipts[id].phase.settlement.receipt, d.receipts[id].phase.settlement.error;
      && receipt.requestId == Some(id) && receipt.actionId == Some(run.request.actionId)
      && Arose(d, run, error)
      && exists k :: 0 <= k < |d.log| && d.log[k] == ReceiptSettled(id)
           && CaughtFits(receipt.outcome, run.request, run.kind, error, HasGrant(d.log[..k], id), LastReport(d.log[..k], id))
  {
    ReachableTold(d, id);
    var k: nat :| SettledAt(d, id, k);
    hide Inv, LastReport, OwnAnswer, Reachable, HasGrant, CaughtFits, Arose;
    assert d.log[k] == ReceiptSettled(id);
  }

  /** A request that was turned away says so, with the reason its preparation failed for, or because the page was busy. */
  lemma TurnedAwayTells(d: Doc, id: RequestId)
    requires Reachable(d) && id in d.receipts && d.receipts[id].phase.Settled? && d.receipts[id].phase.settlement.TurnedAway?
    ensures
      var run, receipt := d.receipts[id], d.receipts[id].phase.settlement.receipt;
      && receipt.requestId == Some(id) && receipt.actionId == Some(run.request.actionId)
      && (SaysBlocked(receipt, Busy) || exists reason :: run.intent == Some(Err(reason)) && SaysBlocked(receipt, reason))
  {
    ReachableTold(d, id);
    var k: nat :| SettledAt(d, id, k);
    hide Inv, LastReport, OwnAnswer, Reachable, HasGrant;
  }

  /** Why a run was aborted: it was cancelled, moved on from, retired or timed out, each told by its own reason. */
  lemma AbortsTell(d: Doc, id: RequestId)
    requires Reachable(d) && id in d.receipts
    ensures
      var run := d.receipts[id];
      && (run.aborted.Some? ==> Stops(d, run, run.aborted.value) || (run.aborted == Some(SettledRequest) && run.phase.Settled?))
      && (run.phase == Racing && (id in d.cancelled || run.capturedRevision < d.revision || !d.mounted) ==> run.aborted.Some?)
  {
    ReachableTold(d, id);
    hide Inv, LastReport, OwnAnswer, Reachable, HasGrant, SettledAt, Settles;
  }

  // ---- Admission

  /** A view request with a new id is admitted exactly while there are fewer than 128. */
  lemma AdmitsExactly(d: Doc, request: Request)
    requires request.requestId !in d.receipts
    ensures
      var answer := ExecuteAnswer(d, request);
      && (answer == Promised(request.requestId) <==> |d.receipts| < 128)
      && (answer == Promised(request.requestId) <==> request.requestId in Step(d, DoExecute(request)).receipts)
      && (answer != Promised(request.requestId) ==> answer.Now? && For(answer.receipt, request) && SaysBlocked(answer.receipt, ReceiptCapacity))
  {}

  /** A file with a new id is prepared exactly on a free page of the request, in its session and time, while there is room. */
  lemma PreparesExactly(d: Doc, request: Request, env: Env, uncaptured: Option<Reason>)
    requires request.requestId !in d.receipts
    ensures
      var start := FileAnswer(d, request, env, uncaptured);
      && (start == Prepares <==>
            && d.mounted && request.documentId == d.documentId && request.documentEpoch == d.documentEpoch
            && request.expectedSession == env.session && env.now < request.expiresAt <= env.now + 300000
            && d.active.None? && d.preparing.None? && |d.receipts| < 128 && uncaptured.None?)
      && (start == Prepares <==> request.requestId in Step(d, DoExecuteFile(request, env, uncaptured)).receipts)
      && (start != Prepares ==> start.TurnedDown? && start.receipt.requestId.None? && start.receipt.actionId.None?)
      && (start.TurnedDown? ==>
            SaysBlocked(start.receipt,
              if !d.mounted then UnmountedDocument
              else if request.documentId != d.documentId || request.documentEpoch != d.documentEpoch then StaleDocument
              else if request.expectedSession != env.session then StaleSession
              else if env.now >= request.expiresAt || request.expiresAt > env.now + 300000 then ExpiredRequest
              else if d.active.Some? || d.preparing.Some? then Busy
              else if |d.receipts| >= 128 then ReceiptCapacity else uncaptured.value))
  {}
}
