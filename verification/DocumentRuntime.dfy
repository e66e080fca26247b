/** The closure of one loaded page as an object: its methods are the synchronous segments between two awaits. */
module DocumentRuntime {
  import opened Outcomes
  import opened Document
  import DocumentSafety
  import ReceiptHistory

  class AppActionsDocument {
    const documentId: string
    const documentEpoch: string
    var receipts: map<RequestId, Run>
    var cancelled: set<RequestId>
    var mounted: bool
    var revision: nat
    var active: Option<RequestId>
    var activeRequestId: Option<RequestId>
    var preparing: Option<RequestId>
    ghost var log: seq<Act>

    ghost function State(): Doc
      reads this
    {
      Doc(documentId, documentEpoch, receipts, cancelled, mounted, revision, active, activeRequestId, preparing, log)
    }

    /** One owner at a time, no effect outside the fence, and nothing recorded that is not so: what every segment keeps. */
    ghost predicate Valid()
      reads this
    {
      DocumentSafety.Inv(State())
    }

    constructor (documentId: string, documentEpoch: string)
      ensures Valid() && State() == Init(documentId, documentEpoch)
    {
      this.documentId, this.documentEpoch := documentId, documentEpoch;
      receipts, cancelled, mounted, revision := map[], {}, true, 0;
      active, activeRequestId, preparing := None, None, None;
      log := [];
      new;
      DocumentSafety.RunKeeps(Init(documentId, documentEpoch), []);
    }

    // ---- The fence

    ghost predicate Passes(run: Run, env: Env)
      reads this
    {
      DocumentSafety.Inside(State(), run, env)
    }

    /** A run that passes, and is past its handler's start, is the one that holds the page's only flight. */
    method CheckRun(run: Run, env: Env) returns (refusal: Option<Reason>)
      ensures refusal == Check(State(), run, env)
      ensures refusal.None? <==> Passes(run, env)
      ensures var id := run.request.requestId;
        Valid() && refusal.None? && id in receipts && receipts[id] == run && run.called ==> active == Some(id) && !run.phase.Settled?
    {
      hide DocumentSafety.Inv;
      ghost var id := run.request.requestId;
      if Valid() && id in receipts && receipts[id] == run && run.called && run.aborted.None? {
        DocumentSafety.InvRun(State(), id);
        DocumentSafety.HoldsThePage(State(), id);
      }
      if !mounted { return Some(UnmountedDocument); }
      if run.request.requestId in cancelled { return Some(CallerStopped); }
      if run.request.documentId != documentId || run.request.documentEpoch != documentEpoch { return Some(StaleDocument); }
      if run.aborted.Some? { return run.aborted; }
      if revision != run.capturedRevision { return Some(UserNavigation); }
      if env.session != run.request.expectedSession { return Some(StaleSession); }
      if env.now >= run.request.expiresAt { return Some(ExpiredRequest); }
      return None;
    }

    // ---- Admission

    method Admit(request: Request, kind: Kind)
      modifies this
      ensures State() == Document.Admit(old(State()), request, kind)
    {
      if kind == File { preparing := Some(request.requestId); }
      receipts := receipts[request.requestId := NewRun(request, kind, revision)];
      log := log + [Admitted(request.requestId)];
    }

    /** A promise is given exactly for a request that is admitted now, or was admitted as it is; no other changes anything. */
    method Execute(request: Request) returns (answer: Answer)
      requires Valid()
      modifies this
      ensures Valid() && State() == Document.Execute(old(State()), request) && answer == ExecuteAnswer(old(State()), request)
      ensures answer == Promised(request.requestId) <==>
        request.requestId in receipts && receipts[request.requestId].request == request && receipts[request.requestId].kind == View
      ensures request.requestId in old(receipts) || answer.Now? ==> State() == old(State())
      ensures |receipts| <= MAX_RECEIPTS
    {
      hide DocumentSafety.Inv;
      DocumentSafety.InvRun(State(), request.requestId);
      ghost var d := State();
      DocumentSafety.StepKeeps(d, DoExecute(request));
      if request.requestId in receipts {
        var previous := receipts[request.requestId];
        answer := if previous.kind == View && request == previous.request then Promised(request.requestId)
                  else Now(BlockedReceipt(request, RequestIdConflict));
      } else if |receipts| >= MAX_RECEIPTS {
        answer := Now(BlockedReceipt(request, ReceiptCapacity));
      } else {
        Admit(request, View);
        answer := Promised(request.requestId);
      }
    }

    /** A file is prepared only when nothing else runs or is prepared, and then nothing else is until it is over. */
    method ExecuteFile(request: Request, env: Env, uncaptured: Option<Reason>) returns (start: FileStart)
      requires Valid()
      modifies this
      ensures Valid() && State() == Document.ExecuteFile(old(State()), request, env, uncaptured)
      ensures start == FileAnswer(old(State()), request, env, uncaptured)
      ensures start == Prepares <==> request.requestId !in old(receipts) && request.requestId in receipts
      ensures start == Prepares ==> old(active).None? && old(preparing).None? && preparing == Some(request.requestId)
      ensures start != Prepares ==> State() == old(State())
    {
      hide DocumentSafety.Inv;
      DocumentSafety.InvRun(State(), request.requestId);
      ghost var d := State();
      DocumentSafety.StepKeeps(d, DoExecuteFile(request, env, uncaptured));
      var known := request.requestId in receipts;
      if known && receipts[request.requestId].kind == View { return TurnedDown(BlockedReceipt(request, RequestIdConflict)); }
      if !known {
        if !mounted { return TurnedDown(AnonymousReceipt(UnmountedDocument)); }
        if request.documentId != documentId || request.documentEpoch != documentEpoch { return TurnedDown(AnonymousReceipt(StaleDocument)); }
        if request.expectedSession != env.session { return TurnedDown(AnonymousReceipt(StaleSession)); }
        if env.now >= request.expiresAt || request.expiresAt > env.now + FILE_DEADLINE_MS { return TurnedDown(AnonymousReceipt(ExpiredRequest)); }
        if active.Some? || preparing.Some? { return TurnedDown(AnonymousReceipt(Busy)); }
        if |receipts| >= MAX_RECEIPTS { return TurnedDown(AnonymousReceipt(ReceiptCapacity)); }
      }
      if uncaptured.Some? { return TurnedDown(AnonymousReceipt(uncaptured.value)); }
      if known { return Compares; }
      Admit(request, File);
      return Prepares;
    }

    /** The comparison of a repeated file request with the first one. */
    method Repeat(request: Request, next: Result<Text, Reason>, priorFirst: bool) returns (answer: Option<Answer>)
      requires Valid() && request.requestId in receipts && receipts[request.requestId].kind == File
      ensures answer == RepeatAnswer(State(), request, next, priorFirst)
      ensures answer == Some(Promised(request.requestId)) <==> next.Ok? && receipts[request.requestId].intent == Some(next)
      ensures answer.None? <==> next.Ok? && receipts[request.requestId].phase.Preparing?
    {
      hide DocumentSafety.Inv;
      DocumentSafety.InvRun(State(), request.requestId);
      var prior := receipts[request.requestId].intent;
      if prior.Some? && prior.value.Err? && (priorFirst || next.Ok?) { return Some(Now(BlockedReceipt(request, prior.value.error))); }
      if next.Err? { return Some(Now(BlockedReceipt(request, next.error))); }
      if prior.None? { return None; }
      if next == prior.value { return Some(Promised(request.requestId)); }
      return Some(Now(BlockedReceipt(request, RequestIdConflict)));
    }

    // ---- One run

    /** The synchronous head of `run`. */
    method Begin(id: RequestId, env: Env)
      requires id in receipts
      modifies this
      ensures State() == Document.StartRun(old(State()), id, env)
    {
      var run := receipts[id];
      if active.Some? || preparing.Some? {
        run := run.(phase := Settled(TurnedAway(BlockedReceipt(run.request, Busy))));
        log := log + [ReceiptSettled(id)];
      } else {
        activeRequestId := Some(id);
        var refusal := CheckRun(run, env);
        if refusal.None? && run.request.expiresAt > env.now + Deadline(run.kind) { refusal := Some(ExpiredRequest); }
        if refusal.None? && run.kind == View && !env.handled { refusal := Some(UnsupportedDocument); }
        if refusal.Some? {
          run := CaughtBy(run, Refused(refusal.value));
          log := log + [ReceiptSettled(id)];
        } else {
          active := Some(id);
          run := run.(phase := Racing, owner := Queued, timer := true);
        }
      }
      receipts := receipts[id := run];
    }

    /** The run takes the page, which was free, or its receipt says that it never will. */
    method StartRun(id: RequestId, env: Env)
      requires Valid() && id in receipts && receipts[id].phase == Submitted
      modifies this
      ensures Valid() && State() == Document.StartRun(old(State()), id, env)
      ensures active == Some(id) ==> old(active).None? && old(preparing).None?
      ensures active == Some(id) || receipts[id].phase.Settled?
      ensures active == Some(id) || active == old(active)
    {
      hide DocumentSafety.Inv;
      DocumentSafety.InvRun(State(), id);
      ghost var d := State();
      DocumentSafety.StepKeeps(d, DoStartRun(id, env));
      Begin(id, env);
    }

    method FilePrepared(id: RequestId, env: Env, intent: Text)
      requires Valid() && id in receipts && receipts[id].phase == Preparing
      modifies this
      ensures Valid() && State() == Document.FilePrepared(old(State()), id, env, intent)
      ensures receipts[id].intent == Some(Ok(intent)) && preparing.None?
      ensures active == Some(id) || receipts[id].phase.Settled?
    {
      hide DocumentSafety.Inv;
      DocumentSafety.InvRun(State(), id);
      ghost var d := State();
      DocumentSafety.StepKeeps(d, DoFilePrepared(id, env, intent));
      hide Check, CaughtOutcome;
      receipts := receipts[id := receipts[id].(intent := Some(Ok(intent)))];
      if preparing == Some(id) { preparing := None; }
      Begin(id, env);
    }

    method FileUnprepared(id: RequestId, reason: Reason)
      requires Valid() && id in receipts && receipts[id].phase == Preparing
      modifies this
      ensures Valid() && State() == Document.FileUnprepared(old(State()), id, reason)
      ensures preparing == Some(id) && receipts[id].intent == Some(Err(reason))
    {
      hide DocumentSafety.Inv;
      DocumentSafety.InvRun(State(), id);
      ghost var d := State();
      DocumentSafety.StepKeeps(d, DoFileUnprepared(id, reason));
      receipts := receipts[id := receipts[id].(phase := PreparationFailed(reason), intent := Some(Err(reason)))];
    }

    /** The page is free again. */
    method FileReleased(id: RequestId)
      requires Valid() && id in receipts && receipts[id].phase.PreparationFailed?
      modifies this
      ensures Valid() && State() == Document.FileReleased(old(State()), id, old(receipts[id].phase.reason))
      ensures active.None? && preparing.None? && receipts[id].phase.Settled?
    {
      hide DocumentSafety.Inv;
      DocumentSafety.InvRun(State(), id);
      ghost var d := State();
      DocumentSafety.StepKeeps(d, DoFileReleased(id));
      var run := receipts[id];
      receipts := receipts[id := run.(phase := Settled(TurnedAway(BlockedReceipt(run.request, run.phase.reason))))];
      log := log + [ReceiptSettled(id)];
      if preparing == Some(id) { preparing := None; }
    }

    /** The handler is entered only inside the fence, by the run that holds the flight. */
    method OwnerStart(id: RequestId, env: Env) returns (entered: bool)
      requires Valid() && id in receipts && receipts[id].owner == Queued
      modifies this
      ensures Valid() && State() == Document.OwnerStart(old(State()), id, env)
      ensures entered <==> old(Passes(receipts[id], env))
      ensures entered ==> active == Some(id) && receipts[id].called && log == old(log) + [HandlerCalled(id)]
      ensures !entered ==> receipts[id].owner.Answered? && receipts[id].owner.answer.Raised? && receipts[id].called == old(receipts[id].called)
    {
      hide DocumentSafety.Inv;
      DocumentSafety.InvRun(State(), id);
      ghost var d := State();
      DocumentSafety.StepKeeps(d, DoOwnerStart(id, env));
      if receipts[id].aborted.None? { DocumentSafety.HoldsThePage(d, id); }
      var run := receipts[id];
      var refusal := CheckRun(run, env);
      entered := refusal.None?;
      if refusal.Some? {
        run := run.(owner := Answered(Raised(Refused(refusal.value))));
        log := log + [OwnerAnswered(id, Raised(Refused(refusal.value)))];
      } else {
        run := run.(owner := Running, called := true);
        log := log + [HandlerCalled(id)];
      }
      receipts := receipts[id := run];
    }

    /** An effect is granted exactly inside the fence, and then to the run that holds the flight; otherwise nothing changes. */
    method Effect(id: RequestId, env: Env) returns (granted: bool)
      requires Valid() && id in receipts && receipts[id].called
      modifies this
      ensures Valid() && State() == Document.Effect(old(State()), id, env)
      ensures granted <==> old(Passes(receipts[id], env))
      ensures granted ==> active == Some(id) && !receipts[id].phase.Settled? && receipts[id].effectStarted && log == old(log) + [Granted(id, env)]
      ensures !granted ==> State() == old(State())
    {
      hide DocumentSafety.Inv;
      DocumentSafety.InvRun(State(), id);
      ghost var d := State();
      DocumentSafety.StepKeeps(d, DoEffect(id, env));
      if receipts[id].aborted.None? { DocumentSafety.HoldsThePage(d, id); }
      var refusal := CheckRun(receipts[id], env);
      if refusal.Some? { return false; }
      receipts := receipts[id := receipts[id].(effectStarted := true)];
      log := log + [Granted(id, env)];
      return true;
    }

    method Report(id: RequestId, outcome: Outcome)
      requires Valid() && id in receipts && receipts[id].called
      modifies this
      ensures Valid() && State() == Document.Report(old(State()), id, outcome)
    {
      hide DocumentSafety.Inv;
      DocumentSafety.InvRun(State(), id);
      DocumentSafety.StepKeeps(State(), DoReport(id, outcome));
      receipts := receipts[id := receipts[id].(lastOutcome := Some(outcome))];
      log := log + [Reported(id, outcome)];
    }

    method OwnerAnswers(id: RequestId, answer: OwnerResult)
      requires Valid() && id in receipts && receipts[id].owner == Running
      modifies this
      ensures Valid() && State() == Document.OwnerAnswers(old(State()), id, answer)
      ensures active == Some(id)
    {
      hide DocumentSafety.Inv;
      DocumentSafety.InvRun(State(), id);
      ghost var d := State();
      DocumentSafety.StepKeeps(d, DoOwnerAnswers(id, answer));
      var run := receipts[id].(owner := Answered(answer));
      if answer.Returned? { run := run.(lastOutcome := Some(answer.outcome)); }
      receipts := receipts[id := run];
      log := log + [OwnerAnswered(id, answer)];
    }

    /** An owner that settles after an abort frees the page; one that settles in time leaves that to its run. */
    method OwnerFinally(id: RequestId)
      requires Valid() && id in receipts && receipts[id].owner.Answered?
      modifies this
      ensures Valid() && State() == Document.OwnerFinally(old(State()), id)
      ensures old(active) == Some(id)
      ensures if old(receipts[id].aborted).Some? then active.None? else active == Some(id)
    {
      hide DocumentSafety.Inv;
      DocumentSafety.InvRun(State(), id);
      ghost var d := State();
      DocumentSafety.StepKeeps(d, DoOwnerFinally(id));
      var run := receipts[id];
      receipts := receipts[id := run.(owner := OwnerSettled(run.owner.answer, run.aborted.Some?))];
      if run.aborted.Some? && active == Some(id) { active := None; }
    }

    method OwnerDelivered(id: RequestId)
      requires Valid() && id in receipts && receipts[id].owner.OwnerSettled?
      modifies this
      ensures Valid() && State() == Document.OwnerDelivered(old(State()), id)
      ensures old(receipts[id].race).Some? ==> State() == old(State())
    {
      hide DocumentSafety.Inv;
      DocumentSafety.InvRun(State(), id);
      DocumentSafety.StepKeeps(State(), DoOwnerDelivered(id));
      var run := receipts[id];
      if run.race.None? { receipts := receipts[id := run.(race := Some(OwnerWon(run.owner.answer)))]; }
    }

    /** The receipt settles, truthfully; the page is free unless the owner is still at work. */
    method Continue(id: RequestId, env: Env)
      requires Valid() && id in receipts && receipts[id].phase == Racing && receipts[id].race.Some?
      modifies this
      ensures Valid() && State() == Document.Continue(old(State()), id, env)
      ensures receipts[id].phase.Settled? && receipts[id].aborted.Some? && DocumentSafety.Truthful(receipts[id])
      ensures active == Some(id) <==> !receipts[id].owner.OwnerSettled?
      ensures ReceiptHistory.EndsAs(old(State()), old(receipts[id]), env, receipts[id])
    {
      hide DocumentSafety.Inv, ReceiptHistory.EndsAs, DocumentSafety.Truthful, Ended;
      ReceiptHistory.ContinueFacts(State(), id, env);
      var run := receipts[id];
      var ownerSettled := run.owner.OwnerSettled?;
      var ended := EndRun(run, env);
      receipts := receipts[id := ended];
      log := log + [ReceiptSettled(id)];
      if ownerSettled && active == Some(id) { active := None; }
    }

    /** What `run` makes of the race. */
    method EndRun(run: Run, env: Env) returns (ended: Run)
      requires run.race.Some?
      ensures ended == Ended(State(), run, env) && ReceiptHistory.EndsAs(State(), run, env, ended)
    {
      ReceiptHistory.EndedFits(State(), run, env);
      hide ReceiptHistory.EndsAs, CaughtOutcome;
      var failure: Option<Error> := None;
      match run.race.value {
        case Interrupted(reason) => failure := Some(Refused(reason));
        case OwnerWon(Raised(error)) => failure := Some(error);
        case OwnerWon(Returned(outcome)) =>
          var refusal := CheckRun(run, env);
          if refusal.Some? { failure := Some(Refused(refusal.value)); }
      }
      if failure.Some? { return CaughtBy(run, failure.value); }
      return Abort(run, SettledRequest).(phase := Settled(Finished(ReceiptFor(run.request, run.race.value.answer.outcome))), timer := false);
    }

    // ---- What ends a run early

    method AbortActive(reason: Reason)
      modifies this
      ensures State() == Document.AbortActive(old(State()), reason)
    {
      if active.Some? && active.value in receipts {
        receipts := receipts[active.value := Abort(receipts[active.value], reason)];
      }
    }

    method TimerFires(id: RequestId)
      requires Valid() && id in receipts && receipts[id].phase == Racing && receipts[id].timer
      modifies this
      ensures Valid() && State() == Document.TimerFires(old(State()), id)
      ensures receipts[id].aborted == if old(receipts[id].aborted).Some? then old(receipts[id].aborted) else Some(ExpiredRequest)
    {
      hide DocumentSafety.Inv;
      DocumentSafety.InvRun(State(), id);
      ghost var d := State();
      DocumentSafety.StepKeeps(d, DoTimer(id));
      hide DocumentSafety.RunOk, DocumentSafety.Evolves;
      DocumentSafety.TimerDecides(d, id);
      var run := receipts[id].(timer := false);
      receipts := receipts[id := Abort(run, ExpiredRequest)];
      assert State().receipts == Document.TimerFires(d, id).receipts;
    }

    /** A known id is cancelled; if its run has the page, it is aborted. No effect of it passes the fence any more. */
    method Cancel(id: RequestId) returns (known: bool)
      requires Valid()
      modifies this
      ensures Valid() && State() == Document.Cancel(old(State()), id)
      ensures known <==> id in old(receipts)
      ensures !known ==> State() == old(State())
      ensures known ==> id in cancelled && id in receipts && (active == Some(id) ==> receipts[id].aborted.Some?)
      ensures forall env :: known ==> !Passes(receipts[id], env)
    {
      hide DocumentSafety.Inv;
      DocumentSafety.InvRun(State(), id);
      ghost var d := State();
      DocumentSafety.StepKeeps(d, DoCancel(id));
      assert id in receipts ==> receipts[id].request.requestId == id;
      hide DocumentSafety.RunOk, DocumentSafety.Evolves;
      if id !in receipts { return false; }
      cancelled := cancelled + {id};
      log := log + [CancelAccepted(id)];
      if activeRequestId == Some(id) { AbortActive(CallerStopped); }
      return true;
    }

    /** No request submitted before passes the fence any more, and the run that has the page is aborted. */
    method Navigate()
      requires Valid() && mounted
      modifies this
      ensures Valid() && State() == Document.Navigate(old(State()))
      ensures active.Some? ==> active.value in receipts && receipts[active.value].aborted.Some?
      ensures forall id, env :: id in receipts ==> !Passes(receipts[id], env)
    {
      hide DocumentSafety.Inv;
      DocumentSafety.SubmittedBefore(State());
      ghost var d := State();
      DocumentSafety.StepKeeps(d, DoNavigate);
      revision := revision + 1;
      log := log + [Navigated];
      AbortActive(UserNavigation);
    }

    /** Nothing passes the fence any more, and the run that has the page is aborted. */
    method Retire()
      requires Valid()
      modifies this
      ensures Valid() && State() == Document.Retire(old(State()))
      ensures active.Some? ==> active.value in receipts && receipts[active.value].aborted.Some?
      ensures forall run, env :: !Passes(run, env)
    {
      hide DocumentSafety.Inv;
      DocumentSafety.SubmittedBefore(State());
      ghost var d := State();
      DocumentSafety.StepKeeps(d, DoRetire);
      mounted := false;
      revision := revision + 1;
      log := log + [Retired];
      AbortActive(UnmountedDocument);
    }

    // ---- Runs

    /** One pending callback runs; an event whose callback is not pending does nothing. */
    method Dispatch(e: Event)
      requires Valid()
      modifies this
      ensures Valid() && State() == Step(old(State()), e)
    {
      hide DocumentSafety.Inv;
      var pending := IsPending(e);
      if !pending { return; }
      match e
      case DoExecute(request) => var _ := Execute(request);
      case DoExecuteFile(request, env, uncaptured) => var _ := ExecuteFile(request, env, uncaptured);
      case DoStartRun(id, env) => StartRun(id, env);
      case DoFilePrepared(id, env, intent) => FilePrepared(id, env, intent);
      case DoFileUnprepared(id, reason) => FileUnprepared(id, reason);
      case DoFileReleased(id) => FileReleased(id);
      case DoOwnerStart(id, env) => var _ := OwnerStart(id, env);
      case DoEffect(id, env) => var _ := Effect(id, env);
      case DoReport(id, outcome) => Report(id, outcome);
      case DoOwnerAnswers(id, answer) => OwnerAnswers(id, answer);
      case DoOwnerFinally(id) => OwnerFinally(id);
      case DoOwnerDelivered(id) => OwnerDelivered(id);
      case DoContinue(id, env) => Continue(id, env);
      case DoTimer(id) => TimerFires(id);
      case DoCancel(id) => var _ := Cancel(id);
      case DoNavigate => Navigate();
      case DoRetire => Retire();
    }

    method IsPending(e: Event) returns (pending: bool)
      ensures pending <==> Enabled(State(), e)
    {
      match e
      case DoExecute(_) => pending := true;
      case DoExecuteFile(_, _, _) => pending := true;
      case DoStartRun(id, _) => pending := id in receipts && receipts[id].phase == Submitted;
      case DoFilePrepared(id, _, _) => pending := id in receipts && receipts[id].phase == Preparing;
      case DoFileUnprepared(id, _) => pending := id in receipts && receipts[id].phase == Preparing;
      case DoFileReleased(id) => pending := id in receipts && receipts[id].phase.PreparationFailed?;
      case DoOwnerStart(id, _) => pending := id in receipts && receipts[id].owner == Queued;
      case DoEffect(id, _) => pending := id in receipts && receipts[id].called;
      case DoReport(id, _) => pending := id in receipts && receipts[id].called;
      case DoOwnerAnswers(id, _) => pending := id in receipts && receipts[id].owner == Running;
      case DoOwnerFinally(id) => pending := id in receipts && receipts[id].owner.Answered?;
      case DoOwnerDelivered(id) => pending := id in receipts && receipts[id].owner.OwnerSettled?;
      case DoContinue(id, _) => pending := id in receipts && receipts[id].phase == Racing && receipts[id].race.Some?;
      case DoTimer(id) => pending := id in receipts && receipts[id].phase == Racing && receipts[id].timer;
      case DoCancel(_) => pending := true;
      case DoNavigate => pending := mounted;
      case DoRetire => pending := true;
    }
  }

  /** A page driven by any sequence of events is always in a reachable state, so every theorem about those holds of it. */
  method Drive(documentId: string, documentEpoch: string, events: seq<Event>) returns (page: AppActionsDocument)
    ensures page.State() == Exec(Init(documentId, documentEpoch), events)
    ensures page.Valid()
  {
    page := new AppActionsDocument(documentId, documentEpoch);
    ghost var start := Init(documentId, documentEpoch);
    hide DocumentSafety.Inv, Step;
    for i := 0 to |events|
      invariant page.Valid() && Exec(start, events) == Exec(page.State(), events[i..])
    {
      page.Dispatch(events[i]);
      assert events[i..][1..] == events[i + 1..];
    }
  }
}
