/** The page document: one state per loaded page, one step per synchronous segment of its code. */
module Document {
  import opened Outcomes

  const MAX_RECEIPTS := 128
  const VIEW_DEADLINE_MS := 5000
  const FILE_DEADLINE_MS := 300000

  datatype Kind = View | File

  /** What the ports answer while one segment runs. */
  datatype Env = Env(now: int, session: Session, handled: bool)

  datatype OwnerResult = Returned(outcome: Outcome) | Raised(error: Error)

  /**
   * The owner promise: absent, waiting for its microtask, inside the handler, answered, then past its `finally`.
   * `late` says that the `finally` found the request already aborted.
   */
  datatype Owner = Absent | Queued | Running | Answered(answer: OwnerResult) | OwnerSettled(answer: OwnerResult, late: bool)

  datatype Race = OwnerWon(answer: OwnerResult) | Interrupted(reason: Reason)

  datatype Settlement =
    | Finished(receipt: Receipt)  // the owner's own result
    | Caught(receipt: Receipt, error: Error)  // built by the catch block of `run` from the exception it got
    | TurnedAway(receipt: Receipt)  // busy, or a file that could not be prepared

  datatype Phase = Preparing | PreparationFailed(reason: Reason) | Submitted | Racing | Settled(settlement: Settlement)

  /** `intent` is what the promise of a file's intent has settled with: its text, or why there is none. */
  datatype Run = Run(request: Request, kind: Kind, capturedRevision: nat, phase: Phase, owner: Owner, called: bool,
                     aborted: Option<Reason>, effectStarted: bool, lastOutcome: Option<Outcome>, race: Option<Race>, timer: bool,
                     intent: Option<Result<Text, Reason>>)

  /** What happened, in order. */
  datatype Act =
    | Admitted(id: RequestId)
    | HandlerCalled(id: RequestId)
    | Granted(id: RequestId, env: Env)
    | Reported(id: RequestId, outcome: Outcome)
    | OwnerAnswered(id: RequestId, answer: OwnerResult)
    | CancelAccepted(id: RequestId)
    | Navigated
    | Retired
    | ReceiptSettled(id: RequestId)

  datatype Doc = Doc(documentId: string, documentEpoch: string, receipts: map<RequestId, Run>, cancelled: set<RequestId>,
                     mounted: bool, revision: nat, active: Option<RequestId>, activeRequestId: Option<RequestId>,
                     preparing: Option<RequestId>, log: seq<Act>)

  function Init(documentId: string, documentEpoch: string): Doc {
    Doc(documentId, documentEpoch, map[], {}, true, 0, None, None, None, [])
  }

  // ---- One run

  function BlockedOutcome(reason: Reason): Outcome {
    Outcome(Blocked, Some(reason), Some(Unchanged), Some(NotRequested), "")
  }

  function ReceiptFor(request: Request, outcome: Outcome): Receipt {
    Receipt(outcome, Some(request.requestId), Some(request.actionId))
  }

  /** The receipt for a request that could not be read, or was refused before it was looked at. */
  function AnonymousReceipt(reason: Reason): Receipt {
    Receipt(BlockedOutcome(reason), None, None)
  }

  function BlockedReceipt(request: Request, reason: Reason): Receipt {
    ReceiptFor(request, BlockedOutcome(reason))
  }

  function NewRun(request: Request, kind: Kind, revision: nat): Run {
    Run(request, kind, revision, if kind == File then Preparing else Submitted, Absent, false, None, false, None, None, false, None)
  }

  function Deadline(kind: Kind): int {
    if kind == File then FILE_DEADLINE_MS else VIEW_DEADLINE_MS
  }

  /** `check`: the first reason this run may not proceed, in the code's order. */
  function Check(d: Doc, run: Run, env: Env): Option<Reason> {
    if !d.mounted then Some(UnmountedDocument)
    else if run.request.requestId in d.cancelled then Some(CallerStopped)
    else if run.request.documentId != d.documentId || run.request.documentEpoch != d.documentEpoch then Some(StaleDocument)
    else if run.aborted.Some? then run.aborted
    else if d.revision != run.capturedRevision then Some(UserNavigation)
    else if env.session != run.request.expectedSession then Some(StaleSession)
    else if env.now >= run.request.expiresAt then Some(ExpiredRequest)
    else None
  }

  /** `controller.abort`: only the first abort counts, and it rejects `interrupted` for a racing run. */
  function Abort(run: Run, reason: Reason): Run {
    if run.aborted.Some? then run
    else run.(aborted := Some(reason),
              race := if run.phase == Racing && run.race.None? then Some(Interrupted(reason)) else run.race)
  }

  predicate KnownFailure(reason: Reason) {
    reason in {PanelLoadFailed, ViewerLoadFailed, MissingEntity, UnsupportedTarget}
  }

  predicate LoadFailed(reason: Reason) {
    reason == PanelLoadFailed || reason == ViewerLoadFailed
  }

  /** The receipt the catch block builds. */
  function CaughtOutcome(run: Run, error: Error): Outcome {
    var reason := if error.Refused? then error.reason else OwnerFailed;
    var status :=
      if KnownFailure(reason) && (run.effectStarted || LoadFailed(reason)) then Failed
      else if run.effectStarted then UnknownOutcome
      else if error.Refused? then Blocked
      else Failed;
    var visible := if run.lastOutcome.Some? && run.lastOutcome.value.visible.Some? then run.lastOutcome.value.visible
                   else Some(if run.effectStarted then UnknownView else Unchanged);
    var saved := if run.lastOutcome.Some? && run.lastOutcome.value.saved.Some? then run.lastOutcome.value.saved
                 else Some(if run.effectStarted && (run.kind == File || GoonAction(run.request.actionId)) then UnknownSave
                           else NotRequested);
    Outcome(status, Some(reason), visible, saved, if run.lastOutcome.Some? then run.lastOutcome.value.rest else "")
  }

  function CaughtBy(run: Run, error: Error): Run {
    Abort(run, SettledRequest).(phase := Settled(Caught(ReceiptFor(run.request, CaughtOutcome(run, error)), error)), timer := false)
  }

  // ---- Segments

  predicate Taken(d: Doc) {
    d.active.Some? || d.preparing.Some?
  }

  function Admit(d: Doc, request: Request, kind: Kind): Doc {
    d.(receipts := d.receipts[request.requestId := NewRun(request, kind, d.revision)],
       preparing := if kind == File then Some(request.requestId) else d.preparing,
       log := d.log + [Admitted(request.requestId)])
  }

  /** `execute` after parsing: a known id or a full table changes nothing. */
  function Execute(d: Doc, request: Request): Doc {
    if request.requestId in d.receipts || |d.receipts| >= MAX_RECEIPTS then d else Admit(d, request, View)
  }

  /** The promise or immediate receipt `execute` returns. */
  datatype Answer = Promised(id: RequestId) | Now(receipt: Receipt)

  function ExecuteAnswer(d: Doc, request: Request): Answer {
    if request.requestId in d.receipts then
      var previous := d.receipts[request.requestId];
      if previous.kind == View && previous.request == request then Promised(request.requestId)
      else Now(BlockedReceipt(request, RequestIdConflict))
    else if |d.receipts| >= MAX_RECEIPTS then Now(BlockedReceipt(request, ReceiptCapacity))
    else Promised(request.requestId)
  }

  /** The first refusal of a fresh `executeFile`, before the files themselves are captured. */
  function FileRefusal(d: Doc, request: Request, env: Env): Option<Reason> {
    if !d.mounted then Some(UnmountedDocument)
    else if request.documentId != d.documentId || request.documentEpoch != d.documentEpoch then Some(StaleDocument)
    else if request.expectedSession != env.session then Some(StaleSession)
    else if env.now >= request.expiresAt || request.expiresAt > env.now + FILE_DEADLINE_MS then Some(ExpiredRequest)
    else if Taken(d) then Some(Busy)
    else if |d.receipts| >= MAX_RECEIPTS then Some(ReceiptCapacity)
    else None
  }

  /** `uncaptured` says why the supplied files could not be captured, if so. */
  function ExecuteFile(d: Doc, request: Request, env: Env, uncaptured: Option<Reason>): Doc {
    if request.requestId in d.receipts || FileRefusal(d, request, env).Some? || uncaptured.Some? then d
    else Admit(d, request, File)
  }

  /** How `executeFile` goes on: with a receipt at once, with the first intent for an id, or by comparing with the first. */
  datatype FileStart = TurnedDown(receipt: Receipt) | Prepares | Compares

  function FileAnswer(d: Doc, request: Request, env: Env, uncaptured: Option<Reason>): FileStart {
    if request.requestId in d.receipts && d.receipts[request.requestId].kind == View then TurnedDown(BlockedReceipt(request, RequestIdConflict))
    else if request.requestId !in d.receipts && FileRefusal(d, request, env).Some? then TurnedDown(AnonymousReceipt(FileRefusal(d, request, env).value))
    else if uncaptured.Some? then TurnedDown(AnonymousReceipt(uncaptured.value))
    else if request.requestId in d.receipts then Compares
    else Prepares
  }

  /**
   * What a repeated `executeFile` is answered with, now that its own intent has settled; `None`: not yet, it waits for the
   * first intent. When both failed, the answer names the failure that came first.
   */
  function RepeatAnswer(d: Doc, request: Request, next: Result<Text, Reason>, priorFirst: bool): Option<Answer>
    requires request.requestId in d.receipts
  {
    var prior := d.receipts[request.requestId].intent;
    if prior.Some? && prior.value.Err? && (priorFirst || next.Ok?) then Some(Now(BlockedReceipt(request, prior.value.error)))
    else if next.Err? then Some(Now(BlockedReceipt(request, next.error)))
    else if prior.None? then None
    else if next == prior.value then Some(Promised(request.requestId))
    else Some(Now(BlockedReceipt(request, RequestIdConflict)))
  }

  /** The synchronous head of `run`. */
  function StartRun(d: Doc, id: RequestId, env: Env): Doc
    requires id in d.receipts
  {
    var run := d.receipts[id];
    if Taken(d) then
      d.(receipts := d.receipts[id := run.(phase := Settled(TurnedAway(BlockedReceipt(run.request, Busy))))],
         log := d.log + [ReceiptSettled(id)])
    else
      var refusal := Check(d, run, env);
      var early :=
        if refusal.Some? then refusal
        else if run.request.expiresAt > env.now + Deadline(run.kind) then Some(ExpiredRequest)
        else if run.kind == View && !env.handled then Some(UnsupportedDocument)
        else None;
      if early.Some? then
        d.(receipts := d.receipts[id := CaughtBy(run, Refused(early.value))], activeRequestId := Some(id),
           log := d.log + [ReceiptSettled(id)])
      else
        d.(receipts := d.receipts[id := run.(phase := Racing, owner := Queued, timer := true)],
           active := Some(id), activeRequestId := Some(id))
  }

  /** The first intent for the id settles with a text. */
  function FilePrepared(d: Doc, id: RequestId, env: Env, intent: Text): Doc
    requires id in d.receipts
  {
    var known := d.(receipts := d.receipts[id := d.receipts[id].(intent := Some(Ok(intent)))]);
    StartRun(if d.preparing == Some(id) then known.(preparing := None) else known, id, env)
  }

  function FileUnprepared(d: Doc, id: RequestId, reason: Reason): Doc
    requires id in d.receipts
  {
    var run := d.receipts[id];
    d.(receipts := d.receipts[id := run.(phase := PreparationFailed(reason), intent := Some(Err(reason)))])
  }

  function FileReleased(d: Doc, id: RequestId, reason: Reason): Doc
    requires id in d.receipts
  {
    var run := d.receipts[id];
    d.(receipts := d.receipts[id := run.(phase := Settled(TurnedAway(BlockedReceipt(run.request, reason))))],
       preparing := if d.preparing == Some(id) then None else d.preparing,
       log := d.log + [ReceiptSettled(id)])
  }

  function OwnerStart(d: Doc, id: RequestId, env: Env): Doc
    requires id in d.receipts
  {
    var run := d.receipts[id];
    var refusal := Check(d, run, env);
    if refusal.Some? then
      var answer := Raised(Refused(refusal.value));
      d.(receipts := d.receipts[id := run.(owner := Answered(answer))], log := d.log + [OwnerAnswered(id, answer)])
    else
      d.(receipts := d.receipts[id := run.(owner := Running, called := true)], log := d.log + [HandlerCalled(id)])
  }

  /** `context.effect()`: throws (and changes nothing) unless the check passes. */
  function Effect(d: Doc, id: RequestId, env: Env): Doc
    requires id in d.receipts
  {
    var run := d.receipts[id];
    if Check(d, run, env).Some? then d
    else d.(receipts := d.receipts[id := run.(effectStarted := true)], log := d.log + [Granted(id, env)])
  }

  function Report(d: Doc, id: RequestId, outcome: Outcome): Doc
    requires id in d.receipts
  {
    d.(receipts := d.receipts[id := d.receipts[id].(lastOutcome := Some(outcome))], log := d.log + [Reported(id, outcome)])
  }

  function OwnerAnswers(d: Doc, id: RequestId, answer: OwnerResult): Doc
    requires id in d.receipts
  {
    var run := d.receipts[id];
    d.(receipts := d.receipts[id := run.(owner := Answered(answer),
                                         lastOutcome := if answer.Returned? then Some(answer.outcome) else run.lastOutcome)],
       log := d.log + [OwnerAnswered(id, answer)])
  }

  function OwnerFinally(d: Doc, id: RequestId): Doc
    requires id in d.receipts && d.receipts[id].owner.Answered?
  {
    var run := d.receipts[id];
    d.(receipts := d.receipts[id := run.(owner := OwnerSettled(run.owner.answer, run.aborted.Some?))],
       active := if run.aborted.Some? && d.active == Some(id) then None else d.active)
  }

  function OwnerDelivered(d: Doc, id: RequestId): Doc
    requires id in d.receipts && d.receipts[id].owner.OwnerSettled?
  {
    var run := d.receipts[id];
    if run.race.Some? then d
    else d.(receipts := d.receipts[id := run.(race := Some(OwnerWon(run.owner.answer)))])
  }

  /** How `run` ends after `Promise.race`: the last check, the receipt, and the abort in its `finally` block. */
  function Ended(d: Doc, run: Run, env: Env): Run
    requires run.race.Some?
  {
    var refusal := Check(d, run, env);
    if run.race.value.Interrupted? then CaughtBy(run, Refused(run.race.value.reason))
    else if run.race.value.answer.Raised? then CaughtBy(run, run.race.value.answer.error)
    else if refusal.Some? then CaughtBy(run, Refused(refusal.value))
    else Abort(run, SettledRequest).(phase := Settled(Finished(ReceiptFor(run.request, run.race.value.answer.outcome))), timer := false)
  }

  function Continue(d: Doc, id: RequestId, env: Env): Doc
    requires id in d.receipts && d.receipts[id].race.Some?
  {
    var run := d.receipts[id];
    d.(receipts := d.receipts[id := Ended(d, run, env)],
       active := if run.owner.OwnerSettled? && d.active == Some(id) then None else d.active,
       log := d.log + [ReceiptSettled(id)])
  }

  function AbortRun(d: Doc, id: RequestId, reason: Reason): Doc
    requires id in d.receipts
  {
    d.(receipts := d.receipts[id := Abort(d.receipts[id], reason)])
  }

  function AbortActive(d: Doc, reason: Reason): Doc {
    if d.active.Some? && d.active.value in d.receipts then AbortRun(d, d.active.value, reason) else d
  }

  function TimerFires(d: Doc, id: RequestId): Doc
    requires id in d.receipts
  {
    AbortRun(d.(receipts := d.receipts[id := d.receipts[id].(timer := false)]), id, ExpiredRequest)
  }

  function Cancel(d: Doc, id: RequestId): Doc {
    if id !in d.receipts then d
    else
      var d1 := d.(cancelled := d.cancelled + {id}, log := d.log + [CancelAccepted(id)]);
      if d.activeRequestId == Some(id) then AbortActive(d1, CallerStopped) else d1
  }

  function Navigate(d: Doc): Doc {
    AbortActive(d.(revision := d.revision + 1, log := d.log + [Navigated]), UserNavigation)
  }

  function Retire(d: Doc): Doc {
    AbortActive(d.(mounted := false, revision := d.revision + 1, log := d.log + [Retired]), UnmountedDocument)
  }

  // ---- Runs: any callback that is pending may be the next segment

  datatype Event =
    | DoExecute(request: Request)
    | DoExecuteFile(request: Request, env: Env, uncaptured: Option<Reason>)
    | DoStartRun(id: RequestId, env: Env)
    | DoFilePrepared(id: RequestId, env: Env, intent: Text)
    | DoFileUnprepared(id: RequestId, reason: Reason)
    | DoFileReleased(id: RequestId)
    | DoOwnerStart(id: RequestId, env: Env)
    | DoEffect(id: RequestId, env: Env)
    | DoReport(id: RequestId, outcome: Outcome)
    | DoOwnerAnswers(id: RequestId, answer: OwnerResult)
    | DoOwnerFinally(id: RequestId)
    | DoOwnerDelivered(id: RequestId)
    | DoContinue(id: RequestId, env: Env)
    | DoTimer(id: RequestId)
    | DoCancel(id: RequestId)
    | DoNavigate
    | DoRetire

  predicate AtPhase(d: Doc, id: RequestId, phase: Phase) {
    id in d.receipts && d.receipts[id].phase == phase
  }

  /** The callback behind the event is pending. A leaked context may still call `effect` and `report` at any time. */
  predicate Enabled(d: Doc, e: Event) {
    match e
    case DoExecute(_) => true
    case DoExecuteFile(_, _, _) => true
    case DoStartRun(id, _) => AtPhase(d, id, Submitted)
    case DoFilePrepared(id, _, _) => AtPhase(d, id, Preparing)
    case DoFileUnprepared(id, _) => AtPhase(d, id, Preparing)
    case DoFileReleased(id) => id in d.receipts && d.receipts[id].phase.PreparationFailed?
    case DoOwnerStart(id, _) => id in d.receipts && d.receipts[id].owner == Queued
    case DoEffect(id, _) => id in d.receipts && d.receipts[id].called
    case DoReport(id, _) => id in d.receipts && d.receipts[id].called
    case DoOwnerAnswers(id, _) => id in d.receipts && d.receipts[id].owner == Running
    case DoOwnerFinally(id) => id in d.receipts && d.receipts[id].owner.Answered?
    case DoOwnerDelivered(id) => id in d.receipts && d.receipts[id].owner.OwnerSettled?
    case DoContinue(id, _) => AtPhase(d, id, Racing) && d.receipts[id].race.Some?
    case DoTimer(id) => AtPhase(d, id, Racing) && d.receipts[id].timer
    case DoCancel(_) => true
    case DoNavigate => d.mounted
    case DoRetire => true
  }

  function Step(d: Doc, e: Event): Doc {
    if !Enabled(d, e) then d else
    match e
    case DoExecute(request) => Execute(d, request)
    case DoExecuteFile(request, env, uncaptured) => ExecuteFile(d, request, env, uncaptured)
    case DoStartRun(id, env) => StartRun(d, id, env)
    case DoFilePrepared(id, env, intent) => FilePrepared(d, id, env, intent)
    case DoFileUnprepared(id, reason) => FileUnprepared(d, id, reason)
    case DoFileReleased(id) => FileReleased(d, id, d.receipts[id].phase.reason)
    case DoOwnerStart(id, env) => OwnerStart(d, id, env)
    case DoEffect(id, env) => Effect(d, id, env)
    case DoReport(id, outcome) => Report(d, id, outcome)
    case DoOwnerAnswers(id, answer) => OwnerAnswers(d, id, answer)
    case DoOwnerFinally(id) => OwnerFinally(d, id)
    case DoOwnerDelivered(id) => OwnerDelivered(d, id)
    case DoContinue(id, env) => Continue(d, id, env)
    case DoTimer(id) => TimerFires(d, id)
    case DoCancel(id) => Cancel(d, id)
    case DoNavigate => Navigate(d)
    case DoRetire => Retire(d)
  }

  function Exec(d: Doc, events: seq<Event>): Doc
    decreases |events|
  {
    if events == [] then d else Exec(Step(d, events[0]), events[1..])
  }
}
