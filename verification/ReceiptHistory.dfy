/**
 * What the page remembers of a run is what its log tells: the last report, the owner's answer, the grants, why it was
 * aborted and, once it has settled, what its receipt says. Every segment keeps this.
 */
module ReceiptHistory {
  import opened Outcomes
  import opened Document
  import opened DocumentSafety
  import OpenRequests

  // ---- Reading the log

  /** The last outcome that the context or the owner of the request reported. */
  function LastReport(log: seq<Act>, id: RequestId): Option<Outcome> {
    if log == [] then None
    else match log[|log| - 1]
      case Reported(other, outcome) => if other == id then Some(outcome) else LastReport(log[..|log| - 1], id)
      case OwnerAnswered(other, Returned(outcome)) => if other == id then Some(outcome) else LastReport(log[..|log| - 1], id)
      case _ => LastReport(log[..|log| - 1], id)
  }

  /** What the owner of the request answered, once it has. */
  function OwnAnswer(log: seq<Act>, id: RequestId): Option<OwnerResult> {
    if log == [] then None
    else if log[|log| - 1].OwnerAnswered? && log[|log| - 1].id == id then Some(log[|log| - 1].answer)
    else OwnAnswer(log[..|log| - 1], id)
  }

  predicate About(act: Act, id: RequestId) {
    !act.Navigated? && !act.Retired? && act.id == id
  }

  lemma Reading(log: seq<Act>, act: Act, id: RequestId)
    ensures LastReport(log + [act], id) ==
            (if act.Reported? && act.id == id then Some(act.outcome)
             else if act.OwnerAnswered? && act.id == id && act.answer.Returned? then Some(act.answer.outcome) else LastReport(log, id))
    ensures OwnAnswer(log + [act], id) == if act.OwnerAnswered? && act.id == id then Some(act.answer) else OwnAnswer(log, id)
  {
    assert (log + [act])[..|log|] == log;
  }

  lemma {:induction false} AnswerInLog(log: seq<Act>, id: RequestId, answer: OwnerResult)
    requires OwnAnswer(log, id) == Some(answer)
    ensures OwnerAnswered(id, answer) in log
  {
    if !(log[|log| - 1].OwnerAnswered? && log[|log| - 1].id == id) { AnswerInLog(log[..|log| - 1], id, answer); }
  }

  // ---- What a receipt says

  /** The receipt is for this request, and says this. */
  predicate For(receipt: Receipt, request: Request) {
    receipt.requestId == Some(request.requestId) && receipt.actionId == Some(request.actionId)
  }

  /** Nothing was touched, for this reason. */
  predicate SaysBlocked(receipt: Receipt, reason: Reason) {
    receipt.outcome == Outcome(Blocked, Some(reason), Some(Unchanged), Some(NotRequested), "")
  }

  /** Four failures are known to be over and done with when they come after an effect, two of them even without one. */
  predicate StatusFits(status: Status, error: Error, worked: bool) {
    if error == Refused(PanelLoadFailed) || error == Refused(ViewerLoadFailed) then status == Failed
    else if worked then
      if error == Refused(MissingEntity) || error == Refused(UnsupportedTarget) then status == Failed else status == UnknownOutcome
    else if error == Thrown then status == Failed
    else status == Blocked
  }

  /** What was reported last stands; else nothing is claimed beyond what the grants allow. */
  predicate CaughtFits(outcome: Outcome, request: Request, kind: Kind, error: Error, worked: bool, last: Option<Outcome>) {
    && outcome.reason == Some(if error == Thrown then OwnerFailed else error.reason)
    && StatusFits(outcome.status, error, worked)
    && outcome.visible == (if last.Some? && last.value.visible.Some? then last.value.visible else if worked then Some(UnknownView) else Some(Unchanged))
    && outcome.saved == (if last.Some? && last.value.saved.Some? then last.value.saved
                         else if worked && (kind == File || "goon." <= request.actionId) then Some(UnknownSave) else Some(NotRequested))
    && outcome.rest == if last.Some? then last.value.rest else ""
  }

  /** The settlement tells what the log had recorded when it was made. */
  ghost predicate Tells(log: seq<Act>, request: Request, kind: Kind, settlement: Settlement) {
    For(settlement.receipt, request) &&
    match settlement
    case Finished(receipt) => OwnAnswer(log, request.requestId) == Some(Returned(receipt.outcome))
    case Caught(receipt, error) =>
      CaughtFits(receipt.outcome, request, kind, error, HasGrant(log, request.requestId), LastReport(log, request.requestId))
    case TurnedAway(receipt) => exists reason :: SaysBlocked(receipt, reason)
  }

  /** What stops a run for good, as far as the page remembers it; the clock and the session it does not. */
  predicate Stops(d: Doc, run: Run, reason: Reason) {
    match reason
    case CallerStopped => run.request.requestId in d.cancelled
    case UserNavigation => run.capturedRevision < d.revision
    case UnmountedDocument => !d.mounted
    case ExpiredRequest => !run.timer
    case _ => false
  }

  /** Where the exception came from: an abort, the owner, or the fence. */
  predicate Arose(d: Doc, run: Run, error: Error) {
    || (error.Refused? && run.aborted == Some(error.reason) && error.reason != SettledRequest)
    || AnswerIs(run, Raised(error))
    || (error.Refused? && Stops(d, run, error.reason))
    || error == Refused(StaleSession)
    || (error == Refused(StaleDocument) && (run.request.documentId != d.documentId || run.request.documentEpoch != d.documentEpoch))
    || (error == Refused(UnsupportedDocument) && run.kind == View && run.owner == Absent)
  }

  ghost predicate SettledAt(d: Doc, id: RequestId, k: nat)
    requires id in d.receipts && d.receipts[id].phase.Settled?
  {
    k < |d.log| && d.log[k] == ReceiptSettled(id) && Tells(d.log[..k], d.receipts[id].request, d.receipts[id].kind, d.receipts[id].phase.settlement)
  }

  /** What the page remembers of one run is what the log tells of it. */
  ghost predicate Told(d: Doc, id: RequestId)
    requires id in d.receipts
  {
    var run := d.receipts[id];
    && run.request.requestId == id
    && run.lastOutcome == LastReport(d.log, id)
    && OwnAnswer(d.log, id) == (if run.owner.Answered? || run.owner.OwnerSettled? then Some(run.owner.answer) else None)
    && (run.race.Some? && run.race.value.Interrupted? ==> run.aborted == Some(run.race.value.reason) && run.race.value.reason != SettledRequest)
    && (run.race.Some? && run.race.value.OwnerWon? ==> run.owner == OwnerSettled(run.race.value.answer, false))
    && (run.aborted.Some? && run.aborted.value == SettledRequest ==> run.phase.Settled?)
    && (run.aborted.Some? && run.aborted.value != SettledRequest ==> Stops(d, run, run.aborted.value))
    && ((run.phase == Racing && run.aborted.Some?) || (run.phase.Settled? && run.owner != Absent) ==> run.race.Some?)
    && (run.phase == Racing && (id in d.cancelled || run.capturedRevision < d.revision || !d.mounted) ==> run.aborted.Some?)
    && (run.phase.Settled? ==> (exists k: nat :: SettledAt(d, id, k)) && Settles(d, run))
  }

  /** The settlement agrees with what the run and the page have become. */
  ghost predicate Settles(d: Doc, run: Run)
    requires run.phase.Settled?
  {
    && (run.phase.settlement.Finished? ==> run.owner == OwnerSettled(Returned(run.phase.settlement.receipt.outcome), false))
    && (run.phase.settlement.Caught? ==> Arose(d, run, run.phase.settlement.error))
    && (run.phase.settlement.TurnedAway? ==>
          SaysBlocked(run.phase.settlement.receipt, Busy) || exists reason :: run.intent == Some(Err(reason)) && SaysBlocked(run.phase.settlement.receipt, reason))
  }

  ghost predicate AllTold(d: Doc) {
    forall id :: id in d.receipts ==> Told(d, id)
  }

  // ---- The fence

  /** The fence gives the first reason that holds, in this order, and lets the run pass exactly when none does. */
  lemma FenceSays(d: Doc, run: Run, env: Env)
    ensures Check(d, run, env).None? <==> Inside(d, run, env)
    ensures !d.mounted ==> Check(d, run, env) == Some(UnmountedDocument)
    ensures d.mounted && run.request.requestId in d.cancelled ==> Check(d, run, env) == Some(CallerStopped)
    ensures
      var ours := run.request.documentId == d.documentId && run.request.documentEpoch == d.documentEpoch;
      d.mounted && run.request.requestId !in d.cancelled ==>
        && (!ours ==> Check(d, run, env) == Some(StaleDocument))
        && (ours && run.aborted.Some? ==> Check(d, run, env) == run.aborted)
        && (ours && run.aborted.None? && d.revision != run.capturedRevision ==> Check(d, run, env) == Some(UserNavigation))
        && (ours && run.aborted.None? && d.revision == run.capturedRevision ==>
              && (env.session != run.request.expectedSession ==> Check(d, run, env) == Some(StaleSession))
              && (env.session == run.request.expectedSession && env.now >= run.request.expiresAt ==> Check(d, run, env) == Some(ExpiredRequest)))
  {}

  // ---- Steps

  /** What a step leaves as it was, for a run that is not its own. */
  ghost predicate Beside(d: Doc, d1: Doc, id: RequestId) {
    && id in d.receipts && id in d1.receipts && d1.receipts[id] == d.receipts[id]
    && d1.documentId == d.documentId && d1.documentEpoch == d.documentEpoch
    && d1.mounted == d.mounted && d1.revision == d.revision && (id in d1.cancelled <==> id in d.cancelled)
    && (d1.log == d.log || (exists act :: d1.log == d.log + [act] && !About(act, id)))
  }

  lemma BesideTold(d: Doc, d1: Doc, id: RequestId)
    requires Beside(d, d1, id) && Told(d, id)
    ensures Told(d1, id)
  {
    if d1.log != d.log {
      var act :| d1.log == d.log + [act] && !About(act, id);
      Reading(d.log, act, id);
    }
    if d.receipts[id].phase.Settled? { StillSettled(d, d1, id); }
    hide Tells, Arose, SettledAt, LastReport, OwnAnswer;
    assert d.receipts[id].phase.Settled? && d.receipts[id].phase.settlement.Caught? ==> Arose(d1, d.receipts[id], d.receipts[id].phase.settlement.error) by {
      SameArose(d, d1, d.receipts[id]);
    }
  }

  lemma SameArose(d: Doc, d1: Doc, run: Run)
    requires d1.documentId == d.documentId && d1.documentEpoch == d.documentEpoch && (d1.mounted ==> d.mounted) && d.revision <= d1.revision
    requires run.request.requestId in d.cancelled ==> run.request.requestId in d1.cancelled
    ensures run.phase.Settled? && run.phase.settlement.Caught? && Arose(d, run, run.phase.settlement.error) ==> Arose(d1, run, run.phase.settlement.error)
  {}

  lemma StillSettled(d: Doc, d1: Doc, id: RequestId)
    requires id in d.receipts && d.receipts[id].phase.Settled? && (exists k: nat :: SettledAt(d, id, k)) && d.log <= d1.log
    requires id in d1.receipts && d1.receipts[id].phase == d.receipts[id].phase
    requires d1.receipts[id].request == d.receipts[id].request && d1.receipts[id].kind == d.receipts[id].kind
    ensures exists k: nat :: SettledAt(d1, id, k)
  {
    var k: nat :| SettledAt(d, id, k);
    assert d1.log[..k] == d.log[..k] && d1.log[k] == d.log[k];
    hide Tells;
    assert SettledAt(d1, id, k);
  }

  lemma SettlesNow(d: Doc, d1: Doc, id: RequestId)
    requires id in d1.receipts && d1.receipts[id].phase.Settled? && d1.log == d.log + [ReceiptSettled(id)]
    requires Tells(d.log, d1.receipts[id].request, d1.receipts[id].kind, d1.receipts[id].phase.settlement)
    ensures exists k: nat :: SettledAt(d1, id, k)
  {
    hide Tells;
    assert d1.log[..|d.log|] == d.log;
    assert SettledAt(d1, id, |d.log|);
  }

  lemma GrantsAre(d: Doc, id: RequestId)
    requires Inv(d) && id in d.receipts
    ensures d.receipts[id].effectStarted <==> HasGrant(d.log, id)
  {
    hide Core, Unmoved, Grouped;
    if HasGrant(d.log, id) {
      var i :| 0 <= i < |d.log| && d.log[i].Granted? && d.log[i].id == id;
      assert ActOk(d, d.log[i]);
    }
  }

  /** The receipt of the catch block, from what the run remembers. */
  lemma CatchTells(run: Run, error: Error)
    ensures
      var after := CaughtBy(run, error);
      && after.phase.Settled? && after.phase.settlement.Caught? && after.phase.settlement.error == error
      && For(after.phase.settlement.receipt, run.request)
      && CaughtFits(after.phase.settlement.receipt.outcome, run.request, run.kind, error, run.effectStarted, run.lastOutcome)
      && after == run.(phase := after.phase, aborted := if run.aborted.Some? then run.aborted else Some(SettledRequest), race := after.race, timer := false)
      && (run.aborted.Some? || run.phase != Racing || run.race.Some? ==> after.race == run.race)
  {}

  /** A reason that the fence gives is one it can stand by. */
  lemma RefusedArose(d: Doc, run: Run, env: Env)
    requires Check(d, run, env).Some? && run.capturedRevision <= d.revision
    requires run.aborted.Some? ==> run.aborted.value != SettledRequest
    ensures
      var after := CaughtBy(run, Refused(Check(d, run, env).value));
      Arose(d, after, Refused(Check(d, run, env).value)) || (run.aborted.None? && Check(d, run, env) == Some(SettledRequest))
  {}

  /** The run has not begun. */
  predicate Waits(run: Run) {
    BeforeRun(run.phase) && run.owner == Absent && run.aborted.None? && run.race.None? && !run.effectStarted && !run.timer
  }

  /** A run that was turned away, or caught before its owner existed. */
  lemma EndsAtOnce(d: Doc, d1: Doc, id: RequestId)
    requires id in d.receipts && Told(d, id) && Waits(d.receipts[id])
    requires id in d1.receipts && d1.receipts[id].phase.Settled? && d1.log == d.log + [ReceiptSettled(id)]
    requires var run, after := d.receipts[id], d1.receipts[id];
      && after == run.(phase := after.phase, aborted := after.aborted, timer := false)
      && (after.aborted.None? || after.aborted == Some(SettledRequest))
    requires Tells(d.log, d1.receipts[id].request, d1.receipts[id].kind, d1.receipts[id].phase.settlement) && Settles(d1, d1.receipts[id])
    ensures Told(d1, id)
  {
    Reading(d.log, ReceiptSettled(id), id);
    SettlesNow(d, d1, id);
    hide LastReport, OwnAnswer, Tells, Settles, SettledAt;
  }

  lemma StartTold(d: Doc, id: RequestId, env: Env)
    requires id in d.receipts && Told(d, id) && Waits(d.receipts[id]) && d.receipts[id].capturedRevision <= d.revision && !HasGrant(d.log, id)
    ensures Told(StartRun(d, id, env), id)
  {
    var run, d1 := d.receipts[id], StartRun(d, id, env);
    var after := d1.receipts[id];
    if Taken(d) {
      assert SaysBlocked(after.phase.settlement.receipt, Busy);
    } else if after.phase.Settled? {
      CatchTells(run, after.phase.settlement.error);
      if Check(d, run, env).Some? { RefusedArose(d, run, env); }
    }
    hide LastReport, OwnAnswer, Truthful, CaughtOutcome, CaughtFits, HasGrant;
    if after.phase.Settled? {
      assert For(after.phase.settlement.receipt, after.request);
      assert after.phase.settlement.Caught? ==>
        CaughtFits(after.phase.settlement.receipt.outcome, after.request, after.kind, after.phase.settlement.error, HasGrant(d.log, id), LastReport(d.log, id));
      assert Tells(d.log, after.request, after.kind, after.phase.settlement);
      assert Settles(d1, after);
      EndsAtOnce(d, d1, id);
    }
  }

  lemma WaitsBefore(d: Doc, id: RequestId)
    requires RunsOk(d, id) && BeforeRun(d.receipts[id].phase)
    ensures Waits(d.receipts[id]) && d.receipts[id].capturedRevision <= d.revision && !d.receipts[id].effectStarted
  {}

  lemma PreparedTold(d: Doc, id: RequestId, env: Env, intent: Text)
    requires RunsOk(d, id) && Told(d, id) && AtPhase(d, id, Preparing) && !HasGrant(d.log, id)
    ensures Told(FilePrepared(d, id, env, intent), id)
  {
    WaitsBefore(d, id);
    assert d.preparing == Some(id);
    hide RunOk, LastReport, OwnAnswer, HasGrant, StartRun;
    var known := d.(receipts := d.receipts[id := d.receipts[id].(intent := Some(Ok(intent)))], preparing := None);
    assert Told(known, id);
    StartTold(known, id, env);
  }

  lemma FileTold(d: Doc, id: RequestId, reason: Reason)
    requires RunsOk(d, id) && Told(d, id)
    ensures AtPhase(d, id, Preparing) ==> Told(FileUnprepared(d, id, reason), id)
    ensures d.receipts[id].phase.PreparationFailed? ==> Told(FileReleased(d, id, d.receipts[id].phase.reason), id)
  {
    if d.receipts[id].phase.PreparationFailed? {
      WaitsBefore(d, id);
      var d1 := FileReleased(d, id, d.receipts[id].phase.reason);
      assert SaysBlocked(d1.receipts[id].phase.settlement.receipt, d.receipts[id].phase.reason);
      assert IntentFits(d.receipts[id]);
      hide RunOk, LastReport, OwnAnswer, Told;
      EndsAtOnce(d, d1, id);
    } else if d.receipts[id].phase.Preparing? {
      WaitsBefore(d, id);
      hide RunOk, LastReport, OwnAnswer;
    }
  }

  /** One more act about the run, which changes nothing else that is told of it. */
  lemma RunMoves(d: Doc, d1: Doc, id: RequestId, act: Act)
    requires id in d.receipts && Told(d, id) && id in d1.receipts
    requires d1 == d.(receipts := d1.receipts, log := d.log + [act]) && !act.ReceiptSettled?
    requires var run, after := d.receipts[id], d1.receipts[id];
      && after == run.(owner := after.owner, called := after.called, effectStarted := after.effectStarted, lastOutcome := after.lastOutcome)
      && (after.owner == run.owner || (run.phase == Racing && !after.owner.OwnerSettled? && after.owner != Absent && (run.owner.Queued? || run.owner.Running?)))
      && after.lastOutcome == LastReport(d.log + [act], id)
      && OwnAnswer(d.log + [act], id) == (if after.owner.Answered? || after.owner.OwnerSettled? then Some(after.owner.answer) else None)
    ensures Told(d1, id)
  {
    if d.receipts[id].phase.Settled? {
      StillSettled(d, d1, id);
      assert Settles(d1, d1.receipts[id]);
    } else if d.receipts[id].aborted.Some? && d.receipts[id].aborted.value != SettledRequest {
      assert Stops(d1, d1.receipts[id], d.receipts[id].aborted.value);
    }
    hide LastReport, OwnAnswer, SettledAt, Settles;
  }

  lemma ReportTold(d: Doc, id: RequestId, outcome: Outcome, env: Env)
    requires RunsOk(d, id) && Told(d, id)
    ensures Told(Report(d, id, outcome), id) && Told(Effect(d, id, env), id)
  {
    Reading(d.log, Reported(id, outcome), id);
    Reading(d.log, Granted(id, env), id);
    assert OwnAnswer(d.log, id) == if d.receipts[id].owner.Answered? || d.receipts[id].owner.OwnerSettled? then Some(d.receipts[id].owner.answer) else None;
    assert d.receipts[id].lastOutcome == LastReport(d.log, id);
    hide LastReport, OwnAnswer, Told, RunOk, Check;
    RunMoves(d, Report(d, id, outcome), id, Reported(id, outcome));
    if Effect(d, id, env) != d { RunMoves(d, Effect(d, id, env), id, Granted(id, env)); }
  }

  lemma AnswerTold(d: Doc, d1: Doc, id: RequestId, act: Act)
    requires RunsOk(d, id) && Told(d, id) && (d.receipts[id].owner.Queued? || d.receipts[id].owner.Running?)
    requires id in d1.receipts && d1 == d.(receipts := d1.receipts, log := d.log + [act]) && !act.ReceiptSettled?
    requires var run, after := d.receipts[id], d1.receipts[id];
      && after == run.(owner := after.owner, called := after.called, lastOutcome := after.lastOutcome)
      && (after.owner.Running? || after.owner.Answered?)
      && after.lastOutcome == LastReport(d.log + [act], id)
      && OwnAnswer(d.log + [act], id) == (if after.owner.Answered? then Some(after.owner.answer) else None)
    ensures Told(d1, id)
  {
    if d.receipts[id].phase.Settled? { StillSettled(d, d1, id); }
    hide LastReport, OwnAnswer, SettledAt;
  }

  lemma OwnerTold(d: Doc, id: RequestId, env: Env, answer: OwnerResult)
    requires RunsOk(d, id) && Told(d, id)
    ensures d.receipts[id].owner.Queued? ==> Told(OwnerStart(d, id, env), id)
    ensures d.receipts[id].owner.Running? ==> Told(OwnerAnswers(d, id, answer), id)
  {
    hide RunOk, SettledAt, Settles;
    if d.receipts[id].owner.Queued? {
      var act := if Check(d, d.receipts[id], env).Some? then OwnerAnswered(id, Raised(Refused(Check(d, d.receipts[id], env).value))) else HandlerCalled(id);
      Reading(d.log, act, id);
      hide LastReport, OwnAnswer, Check;
      AnswerTold(d, OwnerStart(d, id, env), id, act);
    } else if d.receipts[id].owner.Running? {
      Reading(d.log, OwnerAnswered(id, answer), id);
      hide LastReport, OwnAnswer;
      AnswerTold(d, OwnerAnswers(d, id, answer), id, OwnerAnswered(id, answer));
    }
  }

  lemma FinallyTold(d: Doc, id: RequestId)
    requires RunsOk(d, id) && Told(d, id)
    ensures d.receipts[id].owner.Answered? ==> Told(OwnerFinally(d, id), id)
    ensures d.receipts[id].owner.OwnerSettled? ==> Told(OwnerDelivered(d, id), id)
  {
    if d.receipts[id].phase.Settled? {
      if d.receipts[id].owner.Answered? { StillSettled(d, OwnerFinally(d, id), id); }
    }
    hide LastReport, OwnAnswer, SettledAt, Truthful, CaughtOutcome;
  }

  /** How `run` ends: with its owner's outcome, or caught for a reason that stands. */
  lemma EndedSays(d: Doc, run: Run, env: Env)
    requires run.race.Some?
    ensures
      var after := Ended(d, run, env);
      && after.phase.Settled?
      && (after.phase.settlement.Finished? ==>
            && run.race == Some(OwnerWon(Returned(after.phase.settlement.receipt.outcome))) && For(after.phase.settlement.receipt, run.request)
            && after == run.(phase := after.phase, aborted := if run.aborted.Some? then run.aborted else Some(SettledRequest), timer := false))
      && !after.phase.settlement.TurnedAway?
      && (after.phase.settlement.Caught? ==>
            var error := after.phase.settlement.error;
            && after == CaughtBy(run, error)
            && (run.race == Some(OwnerWon(Raised(error))) || (error.Refused? && (run.race == Some(Interrupted(error.reason)) || Check(d, run, env) == Some(error.reason)))))
  {
    hide CaughtOutcome, Check;
  }

  /** What the end of a race is, from what the run remembers: its owner's outcome inside the fence, or what stopped it. */
  ghost predicate EndsAs(d: Doc, run: Run, env: Env, after: Run)
    requires run.race.Some?
  {
    && after.phase.Settled? && !after.phase.settlement.TurnedAway? && For(after.phase.settlement.receipt, run.request)
    && (after.phase.settlement.Finished? <==> run.race.value.OwnerWon? && run.race.value.answer.Returned? && Inside(d, run, env))
    && (after.phase.settlement.Finished? ==> after.phase.settlement.receipt.outcome == run.race.value.answer.outcome)
    && (after.phase.settlement.Caught? ==>
          && CaughtFits(after.phase.settlement.receipt.outcome, run.request, run.kind, after.phase.settlement.error, run.effectStarted, run.lastOutcome)
          && after.phase.settlement.error ==
               if run.race.value.Interrupted? then Refused(run.race.value.reason)
               else if run.race.value.answer.Raised? then run.race.value.answer.error
               else if Check(d, run, env).Some? then Refused(Check(d, run, env).value) else after.phase.settlement.error)
  }

  lemma EndedFits(d: Doc, run: Run, env: Env)
    requires run.race.Some?
    ensures EndsAs(d, run, env, Ended(d, run, env))
  {
    EndedSays(d, run, env);
    var after := Ended(d, run, env);
    if after.phase.settlement.Caught? { CatchTells(run, after.phase.settlement.error); }
    FenceSays(d, run, env);
    hide CaughtOutcome, CaughtFits, Check;
  }

  lemma ContinueFacts(d: Doc, id: RequestId, env: Env)
    requires Inv(d) && AtPhase(d, id, Racing) && d.receipts[id].race.Some?
    ensures
      var d1 := Continue(d, id, env);
      && Inv(d1) && d1.receipts[id].phase.Settled? && d1.receipts[id].aborted.Some? && Truthful(d1.receipts[id])
      && (d1.active == Some(id) <==> !d1.receipts[id].owner.OwnerSettled?) && EndsAs(d, d.receipts[id], env, d1.receipts[id])
  {
    hide Inv, Evolves, Ended, Check, CaughtBy;
    assert Step(d, DoContinue(id, env)) == Continue(d, id, env);
    hide Step;
    InvRun(d, id);
    StepKeeps(d, DoContinue(id, env));
    EndedCloses(d, d.receipts[id], env);
    EndedFits(d, d.receipts[id], env);
    hide EndsAs, Truthful, IntentFits;
  }

  lemma CaughtTold(d: Doc, id: RequestId, error: Error)
    requires id in d.receipts && Told(d, id) && AtPhase(d, id, Racing) && d.receipts[id].race.Some? && (d.receipts[id].effectStarted <==> HasGrant(d.log, id))
    requires var run := d.receipts[id];
      || run.race == Some(OwnerWon(Raised(error)))
      || (error.Refused? && (run.race == Some(Interrupted(error.reason)) || Arose(d, CaughtBy(run, error), error)))
    ensures
      var after := CaughtBy(d.receipts[id], error);
      && Arose(d, after, error) && Tells(d.log, after.request, after.kind, after.phase.settlement)
      && after == d.receipts[id].(phase := after.phase, aborted := after.aborted, timer := false)
      && after.aborted == if d.receipts[id].aborted.Some? then d.receipts[id].aborted else Some(SettledRequest)
  {
    CatchTells(d.receipts[id], error);
    hide LastReport, OwnAnswer, HasGrant, CaughtOutcome, CaughtFits;
  }

  /** What the end of a race makes of the run: its owner's answer, or what stopped it. */
  lemma EndsTold(d: Doc, id: RequestId, env: Env)
    requires RunsOk(d, id) && Told(d, id) && AtPhase(d, id, Racing) && d.receipts[id].race.Some? && (d.receipts[id].effectStarted <==> HasGrant(d.log, id))
    ensures
      var after := Continue(d, id, env).receipts[id];
      && after.phase.Settled? && Settles(d, after) && Tells(d.log, after.request, after.kind, after.phase.settlement)
      && after == d.receipts[id].(phase := after.phase, aborted := after.aborted, timer := false)
      && after.aborted == if d.receipts[id].aborted.Some? then d.receipts[id].aborted else Some(SettledRequest)
  {
    var run := d.receipts[id];
    EndedSays(d, run, env);
    var after := Ended(d, run, env);
    if after.phase.settlement.Caught? {
      var error := after.phase.settlement.error;
      if Check(d, run, env).Some? { RefusedArose(d, run, env); }
      hide Ended, CaughtBy, Arose, Tells, LastReport, OwnAnswer, HasGrant, RunOk, Check;
      CaughtTold(d, id, error);
    } else {
      hide Ended, Arose, LastReport, HasGrant, RunOk, Check;
    }
  }

  lemma ContinueTold(d: Doc, id: RequestId, env: Env)
    requires Inv(d) && RunsOk(d, id) && Told(d, id) && AtPhase(d, id, Racing) && d.receipts[id].race.Some?
    ensures Told(Continue(d, id, env), id)
  {
    GrantsAre(d, id);
    EndsTold(d, id, env);
    Reading(d.log, ReceiptSettled(id), id);
    var d1 := Continue(d, id, env);
    assert id in d1.receipts && d1.log == d.log + [ReceiptSettled(id)] && d1.receipts[id].phase.Settled?;
    assert Settles(d1, d1.receipts[id]) by {
      hide LastReport, OwnAnswer, HasGrant, RunOk, Tells, Ended, Told, Inv;
    }
    SettledTold(d, d1, id);
  }

  /** The run has settled, and the receipt tells what the log had recorded. */
  lemma SettledTold(d: Doc, d1: Doc, id: RequestId)
    requires id in d.receipts && Told(d, id) && AtPhase(d, id, Racing) && d.receipts[id].race.Some?
    requires id in d1.receipts && d1.receipts[id].phase.Settled? && d1.log == d.log + [ReceiptSettled(id)]
    requires d1 == d.(receipts := d1.receipts, active := d1.active, log := d1.log)
    requires var run, after := d.receipts[id], d1.receipts[id];
      && after == run.(phase := after.phase, aborted := after.aborted, timer := false)
      && after.aborted == if run.aborted.Some? then run.aborted else Some(SettledRequest)
    requires Tells(d.log, d1.receipts[id].request, d1.receipts[id].kind, d1.receipts[id].phase.settlement) && Settles(d1, d1.receipts[id])
    ensures Told(d1, id)
  {
    Reading(d.log, ReceiptSettled(id), id);
    SettlesNow(d, d1, id);
    hide LastReport, OwnAnswer, Tells, Settles, SettledAt;
  }

  // ---- The page's own steps

  lemma {:induction false} Silent(log: seq<Act>, id: RequestId)
    requires forall i :: 0 <= i < |log| ==> !(log[i].Reported? && log[i].id == id) && !(log[i].OwnerAnswered? && log[i].id == id)
    ensures LastReport(log, id).None? && OwnAnswer(log, id).None?
  {
    if log != [] { Silent(log[..|log| - 1], id); }
  }

  lemma UnknownSilent(d: Doc, id: RequestId)
    requires Inv(d) && id !in d.receipts
    ensures LastReport(d.log, id).None? && OwnAnswer(d.log, id).None?
  {
    forall i | 0 <= i < |d.log| ensures !(d.log[i].Reported? && d.log[i].id == id) && !(d.log[i].OwnerAnswered? && d.log[i].id == id) {
      assert ActOk(d, d.log[i]);
    }
    Silent(d.log, id);
  }

  lemma AdmitTold(d: Doc, request: Request, kind: Kind, id: RequestId)
    requires Inv(d) && AllTold(d) && request.requestId !in d.receipts && id in Admit(d, request, kind).receipts
    ensures Told(Admit(d, request, kind), id)
  {
    var d1 := Admit(d, request, kind);
    if id == request.requestId {
      UnknownSilent(d, id);
      InvRun(d, id);
      Reading(d.log, Admitted(id), id);
    } else {
      assert Told(d, id) && d1.log == d.log + [Admitted(request.requestId)] && !About(Admitted(request.requestId), id);
      hide Inv, Told, AllTold;
      BesideTold(d, d1, id);
    }
    hide Inv, LastReport, OwnAnswer;
  }

  /** The page is marked, and the run that has it aborted for that reason. */
  ghost predicate Marked(d: Doc, marked: Doc, act: Act, reason: Reason) {
    Marks(d, marked, act) && reason == if act.CancelAccepted? then CallerStopped else if act == Navigated then UserNavigation else UnmountedDocument
  }

  lemma RacingHolds(d: Doc, id: RequestId)
    requires RunsOk(d, id) && d.receipts[id].phase == Racing && d.receipts[id].aborted.None?
    ensures d.active == Some(id)
  {}

  ghost predicate MovesOn(d: Doc, d1: Doc, act: Act) {
    && d1.documentId == d.documentId && d1.documentEpoch == d.documentEpoch
    && d.cancelled <= d1.cancelled && (d1.mounted ==> d.mounted) && d.revision <= d1.revision
    && d1.log == d.log + [act] && (act.CancelAccepted? || act.Navigated? || act.Retired?)
  }

  /** A run that is left as it is, because nothing is to be stopped or it was stopped before. */
  lemma LeftTold(d: Doc, d1: Doc, act: Act, id: RequestId)
    requires id in d.receipts && Told(d, id) && MovesOn(d, d1, act) && id in d1.receipts && d1.receipts[id] == d.receipts[id]
    requires d.receipts[id].phase == Racing && d.receipts[id].aborted.None? ==>
      id !in d1.cancelled && d.receipts[id].capturedRevision >= d1.revision && d1.mounted
    ensures Told(d1, id)
  {
    Reading(d.log, act, id);
    if d.receipts[id].phase.Settled? {
      StillSettled(d, d1, id);
      SameArose(d, d1, d.receipts[id]);
    }
    hide LastReport, OwnAnswer, SettledAt, Arose;
  }

  lemma AbortedTold(d: Doc, d1: Doc, act: Act, reason: Reason, id: RequestId)
    requires id in d.receipts && Told(d, id) && MovesOn(d, d1, act) && id in d1.receipts && d1.receipts[id] == Abort(d.receipts[id], reason)
    requires Stops(d1, d.receipts[id], reason) && (d.receipts[id].aborted.None? ==> d.receipts[id].phase == Racing)
    ensures Told(d1, id)
  {
    Reading(d.log, act, id);
    if d.receipts[id].phase.Settled? {
      StillSettled(d, d1, id);
      SameArose(d, d1, d.receipts[id]);
    }
    hide LastReport, OwnAnswer, SettledAt, Arose;
  }

  lemma ActiveRaces(d: Doc, id: RequestId)
    requires RunsOk(d, id) && d.active == Some(id) && d.receipts[id].aborted.None?
    ensures d.receipts[id].phase == Racing
  {}

  lemma MarkTold(d: Doc, marked: Doc, act: Act, reason: Reason, id: RequestId)
    requires RunsOk(d, id) && Told(d, id) && Marked(d, marked, act, reason)
    ensures
      var d1 := if act.CancelAccepted? && d.active != Some(act.id) then marked else AbortActive(marked, reason);
      id in d1.receipts && Told(d1, id)
  {
    var d1 := if act.CancelAccepted? && d.active != Some(act.id) then marked else AbortActive(marked, reason);
    if d.receipts[id].phase == Racing && d.receipts[id].aborted.None? { RacingHolds(d, id); }
    assert MovesOn(d, d1, act);
    var run := d.receipts[id];
    assert run.request.requestId == id && run.capturedRevision <= d.revision;
    if d.active == Some(id) && !(act.CancelAccepted? && d.active != Some(act.id)) {
      if run.aborted.None? { ActiveRaces(d, id); }
      assert Stops(d1, run, reason);
      hide Told, RunOk, Marked, Marks;
      AbortedTold(d, d1, act, reason, id);
    } else {
      assert run.phase == Racing && run.aborted.None? ==> id !in d1.cancelled && run.capturedRevision >= d1.revision && d1.mounted;
      hide Told, RunOk;
      LeftTold(d, d1, act, id);
    }
  }

  lemma TimerTold(d: Doc, id: RequestId)
    requires RunsOk(d, id) && Told(d, id) && AtPhase(d, id, Racing)
    ensures Told(TimerFires(d, id), id)
  {
    hide LastReport, OwnAnswer, SettledAt;
  }

  // ---- Every step, every run

  lemma OwnStepTold(d: Doc, e: Event)
    requires Inv(d) && Enabled(d, e) && !OfThePage(e) && e.id in d.receipts && Told(d, e.id)
    ensures e.id in Step(d, e).receipts && Told(Step(d, e), e.id)
  {
    InvRun(d, e.id);
    GrantsAre(d, e.id);
    hide Inv, Told, RunOk, LastReport, OwnAnswer, HasGrant, StartRun, FilePrepared, Ended, Check;
    match e
    case DoStartRun(id, env) => WaitsBefore(d, id); StartTold(d, id, env);
    case DoFilePrepared(id, env, intent) => WaitsBefore(d, id); PreparedTold(d, id, env, intent);
    case DoFileUnprepared(id, reason) => FileTold(d, id, reason);
    case DoFileReleased(id) => FileTold(d, id, Busy);
    case DoOwnerStart(id, env) => OwnerTold(d, id, env, Raised(Thrown));
    case DoEffect(id, env) => ReportTold(d, id, BlockedOutcome(Busy), env);
    case DoReport(id, outcome) => ReportTold(d, id, outcome, Env(0, None, true));
    case DoOwnerAnswers(id, answer) => OwnerTold(d, id, Env(0, None, true), answer);
    case DoOwnerFinally(id) => FinallyTold(d, id);
    case DoOwnerDelivered(id) => FinallyTold(d, id);
    case DoContinue(id, env) => ContinueTold(d, id, env);
    case DoTimer(id) => TimerTold(d, id);
  }

  /** A segment of one run leaves the others alone. */
  lemma OthersBeside(d: Doc, e: Event, id: RequestId)
    requires Enabled(d, e) && !OfThePage(e) && e.id in d.receipts && id in d.receipts && id != e.id
    ensures Beside(d, Step(d, e), id)
  {
    OpenRequests.OthersReceipts(d, e);
    OwnActs(d, e, id);
    hide Step, Enabled;
  }

  lemma OwnActs(d: Doc, e: Event, id: RequestId)
    requires Enabled(d, e) && !OfThePage(e) && e.id in d.receipts && id != e.id
    ensures var d1 := Step(d, e); d1.log == d.log || (exists act :: d1.log == d.log + [act] && !About(act, id))
  {
    hide Check, Ended, Abort, CaughtBy;
    var d1 := Step(d, e);
    if d1.log != d.log { assert d1.log == d.log + [d1.log[|d.log|]] && !About(d1.log[|d.log|], id); }
  }

  lemma AdmissionTold(d: Doc, e: Event, id: RequestId)
    requires Inv(d) && AllTold(d) && Enabled(d, e) && (e.DoExecute? || e.DoExecuteFile?) && id in Step(d, e).receipts
    ensures Told(Step(d, e), id)
  {
    hide Inv, Told, FileRefusal;
    assert id in d.receipts ==> Told(d, id);
    if e.DoExecute? {
      if Step(d, e) != d { AdmitTold(d, e.request, View, id); }
    } else {
      if Step(d, e) != d { AdmitTold(d, e.request, File, id); }
    }
  }

  lemma StoppingTold(d: Doc, e: Event, id: RequestId)
    requires RunsOk(d, id) && Told(d, id) && Enabled(d, e) && (e.DoCancel? || e.DoNavigate? || e.DoRetire?)
    ensures id in Step(d, e).receipts && Told(Step(d, e), id)
  {
    hide Told, RunOk, AbortActive;
    match e
    case DoCancel(other) =>
      if other in d.receipts {
        var marked := d.(cancelled := d.cancelled + {other}, log := d.log + [CancelAccepted(other)]);
        StopsActive(d, other);
        MarkTold(d, marked, CancelAccepted(other), CallerStopped, id);
      }
    case DoNavigate => MarkTold(d, d.(revision := d.revision + 1, log := d.log + [Navigated]), Navigated, UserNavigation, id);
    case DoRetire => MarkTold(d, d.(mounted := false, revision := d.revision + 1, log := d.log + [Retired]), Retired, UnmountedDocument, id);
  }

  lemma StoppingKeys(d: Doc, e: Event)
    requires Enabled(d, e) && (e.DoCancel? || e.DoNavigate? || e.DoRetire?)
    ensures Step(d, e).receipts.Keys == d.receipts.Keys
  {}

  lemma PageStepTold(d: Doc, e: Event, id: RequestId)
    requires Inv(d) && AllTold(d) && Enabled(d, e) && OfThePage(e) && id in Step(d, e).receipts
    ensures Told(Step(d, e), id)
  {
    hide Inv, Told, Step, Enabled;
    if e.DoExecute? || e.DoExecuteFile? {
      AdmissionTold(d, e, id);
    } else {
      StoppingKeys(d, e);
      assert id in d.receipts.Keys;
      InvRun(d, id);
      StoppingTold(d, e, id);
    }
  }

  /** `activeRequestId` may be left over from a run that is over; then there is no run to abort. */
  lemma StopsActive(d: Doc, id: RequestId)
    requires SlotsOk(d) && id in d.receipts
    ensures
      var marked := d.(cancelled := d.cancelled + {id}, log := d.log + [CancelAccepted(id)]);
      Cancel(d, id) == if d.active != Some(id) then marked else AbortActive(marked, CallerStopped)
  {}

  lemma StepTold(d: Doc, e: Event)
    requires Inv(d) && AllTold(d)
    ensures AllTold(Step(d, e))
  {
    hide Inv, Told, Step;
    if Enabled(d, e) {
      forall id | id in Step(d, e).receipts ensures Told(Step(d, e), id) {
        if OfThePage(e) {
          PageStepTold(d, e, id);
        } else {
          OpenRequests.Named(d, e);
          OpenRequests.OthersReceipts(d, e);
          if id == e.id { OwnStepTold(d, e); } else { OthersBeside(d, e, id); BesideTold(d, Step(d, e), id); }
        }
      }
    } else {
      NotEnabled(d, e);
    }
  }

  lemma NotEnabled(d: Doc, e: Event)
    requires !Enabled(d, e)
    ensures Step(d, e) == d
  {}

  lemma {:induction false} RunTold(d: Doc, events: seq<Event>)
    requires Inv(d) && AllTold(d)
    ensures AllTold(Exec(d, events))
    decreases |events|
  {
    hide Inv, AllTold, Step;
    if events != [] {
      StepKeeps(d, events[0]);
      StepTold(d, events[0]);
      RunTold(Step(d, events[0]), events[1..]);
    }
  }

  lemma ReachableTold(d: Doc, id: RequestId)
    requires Reachable(d) && id in d.receipts
    ensures Inv(d) && Told(d, id)
  {
    var documentId, documentEpoch, events :| d == Exec(Init(documentId, documentEpoch), events);
    ReachableInv(d);
    RunTold(Init(documentId, documentEpoch), events);
    assert AllTold(d);
    hide Told, Inv;
  }
}
