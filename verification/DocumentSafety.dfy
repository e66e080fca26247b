/**
 * What every step of the page document keeps, and what that means for whole runs. `Core` is about the state, `LogOk` about
 * any two acts of the log; a segment that rewrites one run shows `Rewrites`, which is about that run alone, and the rest
 * follows for every such segment at once.
 */
module DocumentSafety {
  import opened Outcomes
  import opened Document

  /** Every condition of the fence, in one place. */
  predicate Inside(d: Doc, run: Run, env: Env) {
    && d.mounted && run.request.requestId !in d.cancelled
    && run.request.documentId == d.documentId && run.request.documentEpoch == d.documentEpoch
    && run.aborted.None? && d.revision == run.capturedRevision
    && env.session == run.request.expectedSession && env.now < run.request.expiresAt
  }

  // ---- The state invariant

  predicate BeforeRun(phase: Phase) {
    phase.Preparing? || phase.PreparationFailed? || phase.Submitted?
  }

  /** The owner promise exists, and it is not over or the run that awaits it is not; unless it ended after an abort. */
  predicate HoldsFlight(run: Run) {
    run.owner != Absent && !(run.owner.OwnerSettled? && (run.owner.late || run.phase.Settled?))
  }

  /** A receipt from the catch block never hides an effect, and claims uncertainty only after one. */
  predicate Truthful(run: Run) {
    run.phase.Settled? && run.phase.settlement.Caught? ==>
      var status := run.phase.settlement.receipt.outcome.status;
      && (run.effectStarted ==> status == Failed || status == UnknownOutcome)
      && (status == UnknownOutcome ==> run.effectStarted)
  }

  /** A file's intent has settled exactly when its preparation is over. */
  predicate IntentFits(run: Run) {
    && (run.intent.None? <==> run.kind == View || run.phase.Preparing?)
    && (run.phase.Preparing? || run.phase.PreparationFailed? ==> run.kind == File)
    && (run.phase.Submitted? ==> run.kind == View)
    && (run.phase.PreparationFailed? ==> run.intent == Some(Err(run.phase.reason)))
  }

  ghost predicate RunOk(d: Doc, id: RequestId)
    requires id in d.receipts
  {
    var run := d.receipts[id];
    && run.request.requestId == id
    && run.capturedRevision <= d.revision
    && (BeforeRun(run.phase) ==> run == NewRun(run.request, run.kind, run.capturedRevision).(phase := run.phase, intent := run.intent))
    && (run.phase == Racing ==> run.owner != Absent)
    && (run.phase.Settled? && run.owner != Absent ==> run.aborted.Some?)
    && (run.phase.Settled? && run.phase.settlement.TurnedAway? ==> run.owner == Absent)
    && (run.owner == Absent || run.owner == Queued ==> !run.called)
    && (run.owner == Running ==> run.called)
    && (run.owner.OwnerSettled? && run.owner.late ==> run.aborted.Some?)
    && (run.effectStarted ==> run.called)
    && Truthful(run) && IntentFits(run)
    && (run.race.Some? && run.race.value.OwnerWon? ==> run.owner.OwnerSettled?)
    && (d.preparing == Some(id) <==> run.phase.Preparing? || run.phase.PreparationFailed?)
    && (d.active == Some(id) <==> HoldsFlight(run))
  }

  /** The page's slots point at runs that were admitted, and one of them is free. */
  predicate SlotsOk(d: Doc) {
    && (d.active.Some? ==> d.active.value in d.receipts && d.activeRequestId == d.active && d.preparing.None?)
    && (d.preparing.Some? ==> d.preparing.value in d.receipts)
    && d.cancelled <= d.receipts.Keys
    && |d.receipts| <= MAX_RECEIPTS
  }

  ghost predicate Core(d: Doc) {
    (forall id :: id in d.receipts ==> RunOk(d, id)) && SlotsOk(d)
  }

  /** The run is as it should be, and so are the slots; the segments of one run need no more. */
  ghost predicate RunsOk(d: Doc, id: RequestId) {
    SlotsOk(d) && id in d.receipts && RunOk(d, id)
  }

  lemma CoreParts(d: Doc, id: RequestId)
    requires Core(d) && id in d.receipts
    ensures RunsOk(d, id)
  {}

  // ---- One step

  /** The act a step appends, if any, is justified by the state it starts from. */
  ghost predicate ActFits(d: Doc, act: Act) {
    match act
    case Admitted(id) => id !in d.receipts
    case HandlerCalled(id) => id in d.receipts && d.receipts[id].owner == Queued && MayWork(d, id)
    case Granted(id, env) => id in d.receipts && d.receipts[id].called && MayWork(d, id) && Check(d, d.receipts[id], env).None?
    case ReceiptSettled(id) => id in d.receipts && !d.receipts[id].phase.Settled?
    case Reported(id, _) => id in d.receipts && d.receipts[id].called
    case OwnerAnswered(id, _) => id in d.receipts && (d.receipts[id].owner == Queued || d.receipts[id].owner == Running)
    case _ => true
  }

  /** Nothing has ended the run, so it is the one that holds the flight. */
  ghost predicate MayWork(d: Doc, id: RequestId)
    requires id in d.receipts
  {
    && d.mounted && id !in d.cancelled && d.active == Some(id)
    && d.receipts[id].aborted.None? && d.receipts[id].capturedRevision == d.revision
  }

  /** One run only moves forward. */
  predicate Forward(before: Run, after: Run) {
    && after.request == before.request && after.kind == before.kind && after.capturedRevision == before.capturedRevision
    && (before.called ==> after.called)
    && (before.effectStarted ==> after.effectStarted)
    && (before.aborted.Some? ==> after.aborted == before.aborted)
    && (before.owner != Absent ==> after.owner != Absent && (HoldsFlight(after) ==> HoldsFlight(before)))
    && (before.phase.Settled? ==> after.phase == before.phase)
    && (before.intent.Some? ==> after.intent == before.intent)
    && (before.owner.Answered? || before.owner.OwnerSettled? ==>
          (after.owner.Answered? || after.owner.OwnerSettled?) && after.owner.answer == before.owner.answer)
  }

  predicate Moves(act: Act) {
    act == Navigated || act == Retired
  }

  /** How any single step moves the document, given the act it records. */
  ghost predicate Progress(d: Doc, d1: Doc, act: Option<Act>) {
    && d1.documentId == d.documentId && d1.documentEpoch == d.documentEpoch
    && d.receipts.Keys <= d1.receipts.Keys
    && (forall id :: id in d.receipts ==> Forward(d.receipts[id], d1.receipts[id]))
    && (forall id :: id in d1.receipts && id !in d.receipts ==> act == Some(Admitted(id)))
    && (forall id :: id in d1.receipts ==> NewFacts(d, d1.receipts[id], id, act))
    && d.cancelled <= d1.cancelled
    && (forall id :: id in d1.cancelled && id !in d.cancelled ==> act == Some(CancelAccepted(id)))
    && (d1.mounted ==> d.mounted)
    && d.revision <= d1.revision
    && (act.Some? ==> ActFits(d, act.value) && ActLands(d, d1, act.value))
    && d1.log == if act.Some? then d.log + [act.value] else d.log
  }

  /** A fact that was not true of the run before is the one the act records. */
  ghost predicate NewFacts(d: Doc, after: Run, id: RequestId, act: Option<Act>) {
    && (after.called && !(id in d.receipts && d.receipts[id].called) ==> act == Some(HandlerCalled(id)))
    && (after.effectStarted && !(id in d.receipts && d.receipts[id].effectStarted) ==> act.Some? && act.value.Granted? && act.value.id == id)
    && (after.phase.Settled? && !(id in d.receipts && d.receipts[id].phase.Settled?) ==> act == Some(ReceiptSettled(id)))
  }

  /** And the act it records is true of the state it leads to. */
  ghost predicate ActLands(d: Doc, d1: Doc, act: Act) {
    match act
    case Admitted(id) => id in d1.receipts && d1.receipts[id].capturedRevision == d.revision
    case HandlerCalled(id) => id in d1.receipts && d1.receipts[id].called
    case Granted(id, _) => id in d1.receipts && d1.receipts[id].effectStarted
    case CancelAccepted(id) => id in d1.cancelled
    case Navigated => d.revision < d1.revision
    case Retired => d.revision < d1.revision && !d1.mounted
    case ReceiptSettled(id) => id in d1.receipts && d1.receipts[id].phase.Settled?
    case Reported(id, _) => id in d1.receipts && d1.receipts[id].called
    case OwnerAnswered(id, answer) => id in d1.receipts && d1.receipts[id].owner == Answered(answer)
  }

  /** The acts that a segment of one run may record. */
  predicate OfTheRun(act: Act) {
    act.HandlerCalled? || act.Granted? || act.ReceiptSettled? || act.Reported? || act.OwnerAnswered?
  }

  /** Everything a segment that rewrites one run has to show about that run alone. */
  ghost predicate Rewrites(d: Doc, d1: Doc, id: RequestId, act: Option<Act>) {
    && id in d.receipts && id in d1.receipts
    && d1 == d.(receipts := d.receipts[id := d1.receipts[id]], active := d1.active, activeRequestId := d1.activeRequestId,
                preparing := d1.preparing, log := if act.Some? then d.log + [act.value] else d.log)
    && RunOk(d1, id)
    && Forward(d.receipts[id], d1.receipts[id])
    && NewFacts(d, d1.receipts[id], id, act)
    && (act.Some? ==> OfTheRun(act.value))
    && (act.Some? ==> act.value.id == id && ActFits(d, act.value) && ActLands(d, d1, act.value))
    && (d1.preparing == d.preparing || (d.preparing == Some(id) && d1.preparing.None?))
    && (d1.active == d.active || d.active == Some(id) || d.active.None?)
    && (d1.active.Some? ==> d1.activeRequestId == d1.active && (d1.active == d.active || d1.active == Some(id)))
    && !(d1.active.Some? && d1.preparing.Some?)
  }

  lemma RewriteKeeps(d: Doc, d1: Doc, id: RequestId, act: Option<Act>)
    requires Core(d) && Rewrites(d, d1, id, act)
    ensures Core(d1)
  {
    assert d1.receipts.Keys == d.receipts.Keys;
    forall other | other in d1.receipts ensures RunOk(d1, other) {
      assert RunOk(d, other);
    }
  }

  lemma SameRun(d: Doc, id: RequestId, act: Option<Act>)
    requires id in d.receipts
    ensures Forward(d.receipts[id], d.receipts[id]) && NewFacts(d, d.receipts[id], id, act)
  {}

  lemma RewriteProgress(d: Doc, d1: Doc, id: RequestId, act: Option<Act>)
    requires Core(d) && Rewrites(d, d1, id, act)
    ensures Progress(d, d1, act)
  {
    forall other | other in d.receipts ensures Forward(d.receipts[other], d.receipts[other]) && NewFacts(d, d.receipts[other], other, act) {
      SameRun(d, other, act);
    }
    hide Core, RunOk, Forward, NewFacts, ActFits, ActLands;
    assert d1.receipts.Keys == d.receipts.Keys;
  }

  lemma StartRewrites(d: Doc, id: RequestId, env: Env) returns (act: Option<Act>)
    requires RunsOk(d, id) && AtPhase(d, id, Submitted)
    ensures Rewrites(d, StartRun(d, id, env), id, act)
  {
    act := if StartRun(d, id, env).receipts[id].phase.Settled? then Some(ReceiptSettled(id)) else None;
  }

  lemma PreparedRewrites(d: Doc, id: RequestId, env: Env, intent: Text) returns (act: Option<Act>)
    requires RunsOk(d, id) && AtPhase(d, id, Preparing)
    ensures Rewrites(d, FilePrepared(d, id, env, intent), id, act)
  {
    act := if FilePrepared(d, id, env, intent).receipts[id].phase.Settled? then Some(ReceiptSettled(id)) else None;
  }

  lemma OwnerStartRewrites(d: Doc, id: RequestId, env: Env) returns (act: Option<Act>)
    requires RunsOk(d, id) && id in d.receipts && d.receipts[id].owner == Queued
    ensures Rewrites(d, OwnerStart(d, id, env), id, act)
  {
    var refusal := Check(d, d.receipts[id], env);
    act := Some(if refusal.Some? then OwnerAnswered(id, Raised(Refused(refusal.value))) else HandlerCalled(id));
  }

  lemma EffectRewrites(d: Doc, id: RequestId, env: Env) returns (act: Option<Act>)
    requires RunsOk(d, id) && id in d.receipts && d.receipts[id].called
    ensures Rewrites(d, Effect(d, id, env), id, act)
  {
    act := if Check(d, d.receipts[id], env).Some? then None else Some(Granted(id, env));
  }

  /** The end of a run settles its receipt and leaves its owner and its effects alone. */
  ghost predicate Closes(before: Run, after: Run) {
    && after.phase.Settled? && !after.phase.settlement.TurnedAway? && Truthful(after)
    && after.aborted == (if before.aborted.Some? then before.aborted else Some(SettledRequest))
    && after == before.(phase := after.phase, aborted := after.aborted, timer := false)
  }

  lemma EndedCloses(d: Doc, run: Run, env: Env)
    requires run.race.Some?
    ensures Closes(run, Ended(d, run, env))
  {}

  lemma ContinueRewrites(d: Doc, id: RequestId, env: Env)
    requires RunsOk(d, id) && AtPhase(d, id, Racing) && d.receipts[id].race.Some?
    ensures Rewrites(d, Continue(d, id, env), id, Some(ReceiptSettled(id)))
  {
    EndedCloses(d, d.receipts[id], env);
    hide Ended;
  }

  lemma UnpreparedRewrites(d: Doc, id: RequestId, reason: Reason)
    requires RunsOk(d, id) && AtPhase(d, id, Preparing)
    ensures Rewrites(d, FileUnprepared(d, id, reason), id, None)
  {}

  lemma ReleasedRewrites(d: Doc, id: RequestId)
    requires RunsOk(d, id) && id in d.receipts && d.receipts[id].phase.PreparationFailed?
    ensures Rewrites(d, FileReleased(d, id, d.receipts[id].phase.reason), id, Some(ReceiptSettled(id)))
  {}

  lemma ReportRewrites(d: Doc, id: RequestId, outcome: Outcome)
    requires RunsOk(d, id) && id in d.receipts && d.receipts[id].called
    ensures Rewrites(d, Report(d, id, outcome), id, Some(Reported(id, outcome)))
  {}

  lemma AnswersRewrites(d: Doc, id: RequestId, answer: OwnerResult)
    requires RunsOk(d, id) && id in d.receipts && d.receipts[id].owner == Running
    ensures Rewrites(d, OwnerAnswers(d, id, answer), id, Some(OwnerAnswered(id, answer)))
  {}

  lemma FinallyRewrites(d: Doc, id: RequestId)
    requires RunsOk(d, id) && id in d.receipts && d.receipts[id].owner.Answered?
    ensures Rewrites(d, OwnerFinally(d, id), id, None)
  {}

  /** Deciding the race changes nothing that the other promises are about. */
  lemma RaceOnly(run: Run, race: Option<Race>)
    ensures
      var after := run.(race := race);
      HoldsFlight(after) == HoldsFlight(run) && Truthful(after) == Truthful(run) && IntentFits(after) == IntentFits(run) && Forward(run, after)
  {}

  lemma RaceKeeps(d: Doc, id: RequestId, race: Option<Race>)
    requires RunsOk(d, id) && d.receipts[id].owner.OwnerSettled? && (race == d.receipts[id].race || race == Some(OwnerWon(d.receipts[id].owner.answer)))
    ensures RunOk(d.(receipts := d.receipts[id := d.receipts[id].(race := race)]), id)
  {
    RaceOnly(d.receipts[id], race);
    hide HoldsFlight, Truthful, IntentFits, Forward;
  }

  lemma DeliveredRewrites(d: Doc, id: RequestId)
    requires RunsOk(d, id) && d.receipts[id].owner.OwnerSettled?
    ensures Rewrites(d, OwnerDelivered(d, id), id, None)
  {
    var run := d.receipts[id];
    var race := if run.race.Some? then run.race else Some(OwnerWon(run.owner.answer));
    RaceOnly(run, race);
    RaceKeeps(d, id, race);
    hide RunOk, HoldsFlight, Truthful, IntentFits, Forward;
    assert run.race.Some? ==> d.receipts[id := run.(race := race)] == d.receipts;
    assert OwnerDelivered(d, id) == d.(receipts := d.receipts[id := run.(race := race)]);
  }

  lemma TimerRewrites(d: Doc, id: RequestId)
    requires RunsOk(d, id) && AtPhase(d, id, Racing)
    ensures Rewrites(d, TimerFires(d, id), id, None)
  {}

  /** The deadline aborts the run, unless that has happened already. */
  lemma TimerDecides(d: Doc, id: RequestId)
    requires AtPhase(d, id, Racing)
    ensures TimerFires(d, id).receipts[id].aborted == if d.receipts[id].aborted.Some? then d.receipts[id].aborted else Some(ExpiredRequest)
  {}

  lemma AbortRewrites(d: Doc, id: RequestId, reason: Reason)
    requires RunsOk(d, id) && d.active == Some(id)
    ensures Rewrites(d, AbortRun(d, id, reason), id, None)
  {}

  /** Marking an id cancelled, or moving the page on, rewrites no run. */
  ghost predicate Marks(d: Doc, d1: Doc, act: Act) {
    && d1 == d.(cancelled := d1.cancelled, mounted := d1.mounted, revision := d1.revision, log := d.log + [act])
    && ((act.CancelAccepted? && act.id in d.receipts && d1 == d.(cancelled := d.cancelled + {act.id}, log := d1.log))
        || (act == Navigated && d1 == d.(revision := d.revision + 1, log := d1.log))
        || (act == Retired && d1 == d.(mounted := false, revision := d.revision + 1, log := d1.log)))
  }

  lemma MarkKeeps(d: Doc, d1: Doc, act: Act)
    requires Core(d) && Marks(d, d1, act)
    ensures Core(d1) && Progress(d, d1, Some(act))
  {
    forall id | id in d1.receipts ensures RunOk(d1, id) {
      assert RunOk(d, id);
    }
  }

  lemma AdmitKeeps(d: Doc, request: Request, kind: Kind)
    requires Core(d) && request.requestId !in d.receipts && |d.receipts| < MAX_RECEIPTS
    requires kind == File ==> !Taken(d)
    ensures Core(Admit(d, request, kind))
  {}

  lemma AdmitProgress(d: Doc, request: Request, kind: Kind)
    requires request.requestId !in d.receipts
    ensures Progress(d, Admit(d, request, kind), Some(Admitted(request.requestId)))
  {
    var d1, act := Admit(d, request, kind), Some(Admitted(request.requestId));
    hide Core, RunOk, Forward, NewFacts;
    forall other | other in d.receipts ensures Forward(d.receipts[other], d.receipts[other]) && NewFacts(d, d.receipts[other], other, act) {
      SameRun(d, other, act);
    }
    AdmittedRun(d, request, kind);
    assert d1.receipts.Keys == d.receipts.Keys + {request.requestId};
  }

  lemma AdmittedRun(d: Doc, request: Request, kind: Kind)
    ensures NewFacts(d, NewRun(request, kind, d.revision), request.requestId, Some(Admitted(request.requestId)))
  {}

  // ---- The log invariant

  /** Work done for a request: its handler is entered, or one of its effects is granted. */
  predicate WorkFor(act: Act, id: RequestId) {
    act == HandlerCalled(id) || (act.Granted? && act.id == id)
  }

  /** Acts after which a request may do no more work. */
  predicate Ends(act: Act, id: RequestId) {
    act == CancelAccepted(id) || act == ReceiptSettled(id) || act == Retired
  }

  /** What each act in the log says about the present state. */
  ghost predicate ActOk(d: Doc, act: Act) {
    match act
    case Admitted(id) => id in d.receipts
    case HandlerCalled(id) => id in d.receipts && d.receipts[id].called
    case Granted(id, env) =>
      && id in d.receipts && d.receipts[id].effectStarted
      && env.now < d.receipts[id].request.expiresAt
      && env.session == d.receipts[id].request.expectedSession
      && d.receipts[id].request.documentId == d.documentId
      && d.receipts[id].request.documentEpoch == d.documentEpoch
    case CancelAccepted(id) => id in d.cancelled
    case Navigated => true
    case Retired => !d.mounted
    case ReceiptSettled(id) => id in d.receipts && d.receipts[id].phase.Settled?
    case Reported(id, _) => id in d.receipts && d.receipts[id].called
    case OwnerAnswered(id, answer) => id in d.receipts && AnswerIs(d.receipts[id], answer)
  }

  /** The owner has answered so, for good. */
  predicate AnswerIs(run: Run, answer: OwnerResult) {
    (run.owner.Answered? || run.owner.OwnerSettled?) && run.owner.answer == answer
  }

  /** What two acts, the first before the second, may be. */
  ghost predicate PairOk(d: Doc, first: Act, second: Act) {
    && (first.HandlerCalled? ==> first != second)
    && (first.ReceiptSettled? ==> first != second)
    && (first.Admitted? ==> first != second)
    && (first.OwnerAnswered? && second.OwnerAnswered? ==> first.id != second.id)
    && (second.HandlerCalled? || second.Granted? ==> !Ends(first, second.id))
    && (first.Granted? && second.Granted? && first.id != second.id ==>
          first.id in d.receipts && d.receipts[first.id].owner != Absent && !HoldsFlight(d.receipts[first.id]))
    && (first.Admitted? && Moves(second) ==> first.id in d.receipts && d.receipts[first.id].capturedRevision < d.revision)
  }

  ghost predicate LogOk(d: Doc) {
    && (forall i :: 0 <= i < |d.log| ==> ActOk(d, d.log[i]))
    && (forall i, j {:trigger PairOk(d, d.log[i], d.log[j])} :: 0 <= i < j < |d.log| ==> PairOk(d, d.log[i], d.log[j]))
  }

  predicate HasGrant(log: seq<Act>, id: RequestId) {
    exists i :: 0 <= i < |log| && log[i].Granted? && log[i].id == id
  }

  /** A request's admission, its handler call and its grants are recorded exactly when the state says so. */
  ghost predicate Recorded(d: Doc) {
    && (forall id {:trigger Admitted(id) in d.log} :: id in d.receipts ==> Admitted(id) in d.log)
    && (forall id {:trigger HandlerCalled(id) in d.log} :: id in d.receipts && d.receipts[id].called ==> HandlerCalled(id) in d.log)
    && (forall id {:trigger HasGrant(d.log, id)} :: id in d.receipts && d.receipts[id].effectStarted ==> HasGrant(d.log, id))
    && (forall id {:trigger ReceiptSettled(id) in d.log} :: id in d.receipts && d.receipts[id].phase.Settled? ==> ReceiptSettled(id) in d.log)
    && (forall id {:trigger CancelAccepted(id) in d.log} :: id in d.cancelled ==> CancelAccepted(id) in d.log)
  }

  /** The user does not move on between the admission of a request and work done for it. */
  predicate Stays(first: Act, middle: Act, last: Act) {
    first.Admitted? && WorkFor(last, first.id) ==> !Moves(middle)
  }

  /** No effect of another request lies between two effects of one request. */
  predicate Together(first: Act, middle: Act, last: Act) {
    first.Granted? && middle.Granted? && last.Granted? && first.id == last.id ==> middle.id == first.id
  }

  /** No work is done for a request the user has moved on from. */
  ghost predicate Unmoved(log: seq<Act>) {
    forall i, k, j {:trigger Stays(log[i], log[k], log[j])} :: 0 <= i < k < j < |log| ==> Stays(log[i], log[k], log[j])
  }

  /** Effects of different requests do not interleave. */
  ghost predicate Grouped(log: seq<Act>) {
    forall i, k, j {:trigger Together(log[i], log[k], log[j])} :: 0 <= i < k < j < |log| ==> Together(log[i], log[k], log[j])
  }

  ghost predicate Inv(d: Doc) {
    Core(d) && LogOk(d) && Recorded(d) && Unmoved(d.log) && Grouped(d.log)
  }

  /** What a segment may rely on: the slots, and the run it is about. */
  lemma InvRun(d: Doc, id: RequestId)
    requires Inv(d)
    ensures SlotsOk(d) && (id in d.receipts ==> RunsOk(d, id))
  {}

  lemma SubmittedBefore(d: Doc)
    requires Inv(d)
    ensures SlotsOk(d) && forall id :: id in d.receipts ==> d.receipts[id].capturedRevision <= d.revision
  {
    assert forall id :: id in d.receipts ==> RunOk(d, id);
  }

  /** A run that is called or about to be, and has not been aborted, is the one that holds the flight. */
  lemma HoldsThePage(d: Doc, id: RequestId)
    requires RunsOk(d, id) && d.receipts[id].aborted.None? && (d.receipts[id].called || d.receipts[id].owner == Queued)
    ensures d.active == Some(id) && !d.receipts[id].phase.Settled?
  {}

  lemma ActKept(d: Doc, d1: Doc, act: Option<Act>, old_: Act)
    requires Core(d) && ActOk(d, old_) && Progress(d, d1, act)
    ensures ActOk(d1, old_)
  {}

  lemma PairKept(d: Doc, d1: Doc, act: Option<Act>, first: Act, second: Act)
    requires Core(d) && ActOk(d, first) && PairOk(d, first, second) && Progress(d, d1, act)
    ensures PairOk(d1, first, second)
  {}

  lemma NewActOk(d: Doc, d1: Doc, act: Act)
    requires Core(d) && Progress(d, d1, Some(act))
    ensures ActOk(d1, act)
  {}

  /** A run other than the active one, once its handler was entered, no longer holds the flight. */
  lemma OthersReleased(d: Doc, id: RequestId)
    requires Core(d) && id in d.receipts && d.receipts[id].effectStarted && d.active != Some(id)
    ensures d.receipts[id].owner != Absent && !HoldsFlight(d.receipts[id])
  {}

  lemma WorkIsOpen(d: Doc, id: RequestId)
    requires Core(d) && id in d.receipts && MayWork(d, id)
    ensures !d.receipts[id].phase.Settled? && (d.receipts[id].owner == Queued ==> !d.receipts[id].called)
  {}

  /** New work comes after nothing that ends it, and after the other requests' effects are over. */
  lemma NewWorkOk(d: Doc, d1: Doc, first: Act, act: Act)
    requires Core(d) && ActOk(d, first) && ActFits(d, act) && (act.HandlerCalled? || act.Granted?)
    requires first.Granted? ==> first.id in d1.receipts && Forward(d.receipts[first.id], d1.receipts[first.id])
    ensures PairOk(d1, first, act)
  {
    WorkIsOpen(d, act.id);
    if first.Granted? && first.id != act.id { OthersReleased(d, first.id); }
    hide RunOk, HoldsFlight, Core, Check;
  }

  lemma NewPairOk(d: Doc, d1: Doc, first: Act, act: Act)
    requires Core(d) && ActOk(d, first) && Progress(d, d1, Some(act))
    ensures PairOk(d1, first, act)
  {
    if act.HandlerCalled? || act.Granted? {
      NewWorkOk(d, d1, first, act);
    } else if first.Admitted? && Moves(act) {
      assert RunOk(d, first.id);
    }
    hide RunOk, HoldsFlight, Check;
  }

  lemma LogStep(d: Doc, d1: Doc, act: Option<Act>)
    requires Core(d) && LogOk(d) && Progress(d, d1, act)
    ensures LogOk(d1)
  {
    forall i | 0 <= i < |d1.log| ensures ActOk(d1, d1.log[i]) {
      if i < |d.log| { ActKept(d, d1, act, d.log[i]); } else { NewActOk(d, d1, act.value); }
    }
    forall i, j | 0 <= i < j < |d1.log| ensures PairOk(d1, d1.log[i], d1.log[j]) {
      if j < |d.log| { PairKept(d, d1, act, d.log[i], d.log[j]); } else { NewPairOk(d, d1, d.log[i], act.value); }
    }
  }

  lemma UnmovedStep(d: Doc, d1: Doc, act: Option<Act>)
    requires Core(d) && LogOk(d) && Unmoved(d.log) && Progress(d, d1, act)
    ensures Unmoved(d1.log)
  {
    hide RunOk;
    forall i, k, j | 0 <= i < k < j < |d1.log| ensures Stays(d1.log[i], d1.log[k], d1.log[j]) {
      assert d1.log[i] == d.log[i] && d1.log[k] == d.log[k];
      if j == |d.log| {
        assert PairOk(d, d.log[i], d.log[k]);
      } else {
        assert d1.log[j] == d.log[j] && Stays(d.log[i], d.log[k], d.log[j]);
      }
    }
  }

  lemma GroupedStep(d: Doc, d1: Doc, act: Option<Act>)
    requires Core(d) && LogOk(d) && Grouped(d.log) && Progress(d, d1, act)
    ensures Grouped(d1.log)
  {
    forall i, k, j | 0 <= i < k < j < |d1.log| ensures Together(d1.log[i], d1.log[k], d1.log[j]) {
      assert d1.log[i] == d.log[i] && d1.log[k] == d.log[k];
      if j == |d.log| {
        assert ActOk(d, d.log[i]) && PairOk(d, d.log[i], d.log[k]);
      } else {
        assert d1.log[j] == d.log[j] && Together(d.log[i], d.log[k], d.log[j]);
      }
    }
  }

  lemma RecordedStep(d: Doc, d1: Doc, act: Option<Act>)
    requires Recorded(d) && Progress(d, d1, act)
    ensures Recorded(d1)
  {
    hide Forward, ActFits, MayWork;
    assert d.log <= d1.log;
    assert act.Some? ==> d1.log[|d.log|] == act.value;
    assert forall a :: a in d.log ==> a in d1.log;
    forall id | id in d1.receipts && d1.receipts[id].effectStarted ensures HasGrant(d1.log, id) {
      if HasGrant(d.log, id) {
        var i :| 0 <= i < |d.log| && d.log[i].Granted? && d.log[i].id == id;
        assert d1.log[i] == d.log[i];
      }
    }
  }

  // ---- Every step, every run

  /** The document only grows: ids stay admitted with the request they came with, and the log is never rewritten. */
  ghost predicate Evolves(d: Doc, d1: Doc) {
    && d.receipts.Keys <= d1.receipts.Keys
    && (forall id :: id in d.receipts ==> Forward(d.receipts[id], d1.receipts[id]))
    && d.log <= d1.log
  }

  lemma InvKept(d: Doc, d1: Doc, act: Option<Act>)
    requires Inv(d) && Core(d1) && Progress(d, d1, act)
    ensures Inv(d1) && Evolves(d, d1)
  {
    hide LogOk, Recorded, Unmoved, Grouped, RunOk;
    LogStep(d, d1, act);
    UnmovedStep(d, d1, act);
    GroupedStep(d, d1, act);
    RecordedStep(d, d1, act);
  }

  lemma RewriteInv(d: Doc, d1: Doc, id: RequestId, act: Option<Act>)
    requires Inv(d) && Rewrites(d, d1, id, act)
    ensures Inv(d1) && Evolves(d, d1)
  {
    hide Rewrites, Core, LogOk, Recorded, Unmoved, Grouped, RunOk, Progress, Evolves;
    RewriteKeeps(d, d1, id, act);
    RewriteProgress(d, d1, id, act);
    InvKept(d, d1, act);
  }

  lemma AbortActiveInv(d: Doc, reason: Reason)
    requires Inv(d)
    ensures Inv(AbortActive(d, reason)) && Evolves(d, AbortActive(d, reason))
  {
    hide Rewrites, LogOk, Recorded, Unmoved, Grouped, RunOk;
    if d.active.Some? {
      CoreParts(d, d.active.value);
      AbortRewrites(d, d.active.value, reason);
      RewriteInv(d, AbortActive(d, reason), d.active.value, None);
    }
  }

  lemma EvolvesReflexive(d: Doc)
    ensures Evolves(d, d)
  {}

  lemma EvolvesTransitive(d: Doc, d1: Doc, d2: Doc)
    requires Evolves(d, d1) && Evolves(d1, d2)
    ensures Evolves(d, d2)
  {}

  /** A mark, then the abort of whatever run is active. */
  lemma MarkInv(d: Doc, marked: Doc, act: Act, reason: Reason)
    requires Inv(d) && Marks(d, marked, act)
    ensures Inv(marked) && Evolves(d, marked)
    ensures Inv(AbortActive(marked, reason)) && Evolves(d, AbortActive(marked, reason))
  {
    hide Marks, LogOk, Recorded, Unmoved, Grouped, RunOk, Progress, Evolves, AbortActive;
    MarkKeeps(d, marked, act);
    InvKept(d, marked, Some(act));
    AbortActiveInv(marked, reason);
    EvolvesTransitive(d, marked, AbortActive(marked, reason));
  }

  lemma AdmitInv(d: Doc, request: Request, kind: Kind)
    requires Inv(d) && request.requestId !in d.receipts && |d.receipts| < MAX_RECEIPTS
    requires kind == File ==> !Taken(d)
    ensures Inv(Admit(d, request, kind)) && Evolves(d, Admit(d, request, kind))
  {
    AdmitKeeps(d, request, kind);
    AdmitProgress(d, request, kind);
    InvKept(d, Admit(d, request, kind), Some(Admitted(request.requestId)));
  }

  /** The segments of the page itself: it admits, it cancels, or the user moves on. */
  predicate OfThePage(e: Event) {
    e.DoExecute? || e.DoExecuteFile? || e.DoCancel? || e.DoNavigate? || e.DoRetire?
  }

  lemma PageStepKeeps(d: Doc, e: Event)
    requires Inv(d) && Enabled(d, e) && OfThePage(e)
    ensures Inv(Step(d, e)) && Evolves(d, Step(d, e))
  {
    hide RunOk, LogOk, Recorded, Core, Unmoved, Grouped, Rewrites, Evolves;
    EvolvesReflexive(d);
    match e
    case DoExecute(request) =>
      if request.requestId !in d.receipts && |d.receipts| < MAX_RECEIPTS { AdmitInv(d, request, View); }
    case DoExecuteFile(request, env, uncaptured) =>
      if request.requestId !in d.receipts && FileRefusal(d, request, env).None? { AdmitInv(d, request, File); }
    case DoCancel(id) =>
      if id in d.receipts {
        MarkInv(d, d.(cancelled := d.cancelled + {id}, log := d.log + [CancelAccepted(id)]), CancelAccepted(id), CallerStopped);
      }
    case DoNavigate => MarkInv(d, d.(revision := d.revision + 1, log := d.log + [Navigated]), Navigated, UserNavigation);
    case DoRetire =>
      MarkInv(d, d.(mounted := false, revision := d.revision + 1, log := d.log + [Retired]), Retired, UnmountedDocument);
  }

  /** The segments of one run rewrite that run. */
  lemma RunStepKeeps(d: Doc, e: Event)
    requires Inv(d) && Enabled(d, e) && !OfThePage(e)
    ensures Inv(Step(d, e)) && Evolves(d, Step(d, e))
  {
    CoreParts(d, e.id);
    hide Inv, RunsOk, Rewrites, Evolves, Check, Ended;
    match e
    case DoStartRun(id, env) => var act := StartRewrites(d, id, env); RewriteInv(d, Step(d, e), id, act);
    case DoFilePrepared(id, env, intent) => var act := PreparedRewrites(d, id, env, intent); RewriteInv(d, Step(d, e), id, act);
    case DoFileUnprepared(id, reason) => UnpreparedRewrites(d, id, reason); RewriteInv(d, Step(d, e), id, None);
    case DoFileReleased(id) => ReleasedRewrites(d, id); RewriteInv(d, Step(d, e), id, Some(ReceiptSettled(id)));
    case DoOwnerStart(id, env) => var act := OwnerStartRewrites(d, id, env); RewriteInv(d, Step(d, e), id, act);
    case DoEffect(id, env) => var act := EffectRewrites(d, id, env); RewriteInv(d, Step(d, e), id, act);
    case DoReport(id, outcome) => ReportRewrites(d, id, outcome); RewriteInv(d, Step(d, e), id, Some(Reported(id, outcome)));
    case DoOwnerAnswers(id, answer) => AnswersRewrites(d, id, answer); RewriteInv(d, Step(d, e), id, Some(OwnerAnswered(id, answer)));
    case DoOwnerFinally(id) => FinallyRewrites(d, id); RewriteInv(d, Step(d, e), id, None);
    case DoOwnerDelivered(id) => DeliveredRewrites(d, id); RewriteInv(d, Step(d, e), id, None);
    case DoContinue(id, env) => ContinueRewrites(d, id, env); RewriteInv(d, Step(d, e), id, Some(ReceiptSettled(id)));
    case DoTimer(id) => TimerRewrites(d, id); RewriteInv(d, Step(d, e), id, None);
  }

  lemma StepKeeps(d: Doc, e: Event)
    requires Inv(d)
    ensures Inv(Step(d, e)) && Evolves(d, Step(d, e))
  {
    hide Inv, Enabled;
    EvolvesReflexive(d);
    if Enabled(d, e) {
      if OfThePage(e) { PageStepKeeps(d, e); } else { RunStepKeeps(d, e); }
    }
    hide Evolves;
  }

  lemma {:induction false} RunKeeps(d: Doc, events: seq<Event>)
    requires Inv(d)
    ensures Inv(Exec(d, events)) && Evolves(d, Exec(d, events))
    decreases |events|
  {
    hide Inv, Step, Evolves;
    if events == [] {
      EvolvesReflexive(d);
    } else {
      StepKeeps(d, events[0]);
      RunKeeps(Step(d, events[0]), events[1..]);
      EvolvesTransitive(d, Step(d, events[0]), Exec(d, events));
    }
  }

  ghost predicate Reachable(d: Doc) {
    exists documentId, documentEpoch, events :: d == Exec(Init(documentId, documentEpoch), events)
  }

  lemma ReachableInv(d: Doc)
    requires Reachable(d)
    ensures Inv(d)
  {
    var documentId, documentEpoch, events :| d == Exec(Init(documentId, documentEpoch), events);
    RunKeeps(Init(documentId, documentEpoch), events);
  }
}
