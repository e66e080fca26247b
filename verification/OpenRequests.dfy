/** For which requests work can still happen: a condition on the present state alone, and exact. */
module OpenRequests {
  import opened Outcomes
  import opened Document
  import opened DocumentSafety
  import DocumentTheorems

  /** Nothing that stops the run for good has happened to it yet. */
  predicate MayStillWork(d: Doc, id: RequestId)
    requires id in d.receipts
  {
    var run := d.receipts[id];
    && id !in d.cancelled && run.aborted.None? && run.capturedRevision == d.revision
    && run.request.documentId == d.documentId && run.request.documentEpoch == d.documentEpoch
    && (run.phase.Submitted? || run.phase.Preparing? || (run.phase.Racing? && (run.owner.Queued? || run.called)))
  }

  /** The request can still be admitted, or is and has not been stopped. */
  predicate Open(d: Doc, id: RequestId) {
    d.mounted && if id in d.receipts then MayStillWork(d, id) else |d.receipts| < MAX_RECEIPTS
  }

  /** In some later run the handler of the request is entered, or an effect granted to it. */
  ghost predicate WorkCanFollow(d: Doc, id: RequestId) {
    exists events :: WorksLater(d, Exec(d, events), id)
  }

  ghost predicate WorksLater(d: Doc, later: Doc, id: RequestId) {
    exists j :: |d.log| <= j < |later.log| && WorkFor(later.log[j], id)
  }

  // ---- Nothing reopens a request

  /** What a step leaves as it was, as far as this request is concerned. */
  ghost predicate Aside(d: Doc, d1: Doc, id: RequestId) {
    && d1.mounted == d.mounted && d1.revision == d.revision && d1.cancelled == d.cancelled
    && d1.documentId == d.documentId && d1.documentEpoch == d.documentEpoch && d1.receipts.Keys == d.receipts.Keys
    && (id in d.receipts ==> d1.receipts[id] == d.receipts[id])
  }

  lemma AsideKeeps(d: Doc, d1: Doc, id: RequestId)
    requires Aside(d, d1, id)
    ensures Open(d1, id) == Open(d, id)
  {
    assert |d1.receipts.Keys| == |d.receipts.Keys|;
  }

  lemma OthersAside(d: Doc, e: Event, id: RequestId)
    requires !OfThePage(e) && Enabled(d, e) && e.id in d.receipts && e.id != id
    ensures Aside(d, Step(d, e), id) && !WorksLater(d, Step(d, e), id) && d.log <= Step(d, e).log
  {
    OthersReceipts(d, e);
    OthersLog(d, e);
    hide Step, Enabled;
  }

  lemma OthersReceipts(d: Doc, e: Event)
    requires !OfThePage(e) && Enabled(d, e) && e.id in d.receipts
    ensures
      var d1 := Step(d, e);
      && d1.mounted == d.mounted && d1.revision == d.revision && d1.cancelled == d.cancelled
      && d1.documentId == d.documentId && d1.documentEpoch == d.documentEpoch
      && e.id in d1.receipts && d1.receipts == d.receipts[e.id := d1.receipts[e.id]]
  {
    hide StartRun, Check, CaughtBy, Ended, Abort;
    if e.DoStartRun? {
      StartReceipts(d, e.id, e.env);
    } else if e.DoFilePrepared? {
      var known := d.(receipts := d.receipts[e.id := d.receipts[e.id].(intent := Some(Ok(e.intent)))]);
      StartReceipts(if d.preparing == Some(e.id) then known.(preparing := None) else known, e.id, e.env);
    }
  }

  lemma StartReceipts(d: Doc, id: RequestId, env: Env)
    requires id in d.receipts
    ensures
      var d1 := StartRun(d, id, env);
      && d1.mounted == d.mounted && d1.revision == d.revision && d1.cancelled == d.cancelled
      && d1.documentId == d.documentId && d1.documentEpoch == d.documentEpoch
      && id in d1.receipts && d1.receipts == d.receipts[id := d1.receipts[id]]
  {
    hide Check, CaughtBy;
  }

  lemma OthersLog(d: Doc, e: Event)
    requires !OfThePage(e) && Enabled(d, e) && e.id in d.receipts
    ensures
      var log := Step(d, e).log;
      log == d.log || (|log| == |d.log| + 1 && d.log <= log && forall id :: id != e.id ==> !WorkFor(log[|d.log|], id))
  {
    hide Check, CaughtBy, Ended, Abort;
  }

  /** The segments of its own run. */
  lemma OwnOpen(d: Doc, e: Event, id: RequestId)
    requires RunsOk(d, id) && Enabled(d, e) && !OfThePage(e) && e.id == id
    ensures Open(Step(d, e), id) || WorksLater(d, Step(d, e), id) ==> Open(d, id)
    ensures d.log <= Step(d, e).log
  {
    hide CaughtOutcome, Truthful;
  }

  lemma AdmissionOpen(d: Doc, e: Event, id: RequestId)
    requires Enabled(d, e) && (e.DoExecute? || e.DoExecuteFile?)
    ensures Open(Step(d, e), id) ==> Open(d, id)
    ensures !WorksLater(d, Step(d, e), id) && d.log <= Step(d, e).log
  {
    hide Check;
    assert Step(d, e) == d || Step(d, e).receipts.Keys == d.receipts.Keys + {e.request.requestId};
  }

  lemma MarkOpen(d: Doc, e: Event, id: RequestId)
    requires SlotsOk(d) && (id in d.receipts ==> d.receipts[id].capturedRevision <= d.revision)
    requires Enabled(d, e) && (e.DoCancel? || e.DoNavigate? || e.DoRetire?)
    ensures Open(Step(d, e), id) ==> Open(d, id)
    ensures !WorksLater(d, Step(d, e), id) && d.log <= Step(d, e).log
  {
    var marked :=
      if e.DoCancel? then
        if e.id in d.receipts then d.(cancelled := d.cancelled + {e.id}, log := d.log + [CancelAccepted(e.id)]) else d
      else if e.DoNavigate? then d.(revision := d.revision + 1, log := d.log + [Navigated])
      else d.(mounted := false, revision := d.revision + 1, log := d.log + [Retired]);
    var reason := if e.DoCancel? then CallerStopped else if e.DoNavigate? then UserNavigation else UnmountedDocument;
    assert Open(marked, id) ==> Open(d, id);
    AbortOpen(marked, reason, id);
    hide Open, AbortActive;
  }

  /** An abort opens nothing. */
  lemma AbortOpen(d: Doc, reason: Reason, id: RequestId)
    ensures Open(AbortActive(d, reason), id) ==> Open(d, id)
    ensures AbortActive(d, reason).log == d.log
  {
    assert AbortActive(d, reason).receipts.Keys == d.receipts.Keys;
    assert |AbortActive(d, reason).receipts.Keys| == |d.receipts.Keys|;
  }

  lemma StepOpen(d: Doc, e: Event, id: RequestId)
    requires Inv(d)
    ensures Open(Step(d, e), id) || WorksLater(d, Step(d, e), id) ==> Open(d, id)
    ensures d.log <= Step(d, e).log
  {
    hide Inv, RunsOk, RunOk, Open, WorksLater, Enabled;
    if Enabled(d, e) {
      InvRun(d, id);
      if OfThePage(e) {
        if e.DoExecute? || e.DoExecuteFile? { AdmissionOpen(d, e, id); } else { SubmittedBefore(d); MarkOpen(d, e, id); }
      } else {
        Named(d, e);
        InvRun(d, e.id);
        if e.id == id { OwnOpen(d, e, id); } else { OthersAside(d, e, id); AsideKeeps(d, Step(d, e), id); }
      }
    } else {
      assert !WorksLater(d, d, id) by { Nothing(d, id); }
    }
  }

  lemma Nothing(d: Doc, id: RequestId)
    ensures !WorksLater(d, d, id)
  {}

  lemma Named(d: Doc, e: Event)
    requires Enabled(d, e) && !OfThePage(e)
    ensures e.id in d.receipts
  {}

  lemma {:induction false} ClosedStays(d: Doc, events: seq<Event>, id: RequestId)
    requires Inv(d) && !Open(d, id)
    ensures !Open(Exec(d, events), id) && !WorksLater(d, Exec(d, events), id) && d.log <= Exec(d, events).log
    decreases |events|
  {
    hide Inv, Step, Open;
    if events != [] {
      var d1 := Step(d, events[0]);
      StepKeeps(d, events[0]);
      StepOpen(d, events[0], id);
      ClosedStays(d1, events[1..], id);
      var later := Exec(d, events);
      forall j | |d.log| <= j < |later.log| ensures !WorkFor(later.log[j], id) {
        if j < |d1.log| { assert later.log[j] == d1.log[j]; }
      }
    }
  }

  // ---- An open request can always come to work

  const PORTS := Env(0, None, true)

  /** How far the page is from being free, if every callback that is pending runs. */
  function ToGo(d: Doc): nat {
    if d.preparing.Some? && d.preparing.value in d.receipts then
      if d.receipts[d.preparing.value].phase.Preparing? then 2 else 1
    else if d.active.Some? && d.active.value in d.receipts then
      match d.receipts[d.active.value].owner
      case Queued => 5
      case Running => 4
      case Answered(_) => 3
      case _ => if d.receipts[d.active.value].race.None? then 2 else 1
    else 0
  }

  /** The next callback of whatever has the page. */
  function NextEvent(d: Doc): Event {
    if d.preparing.Some? && d.preparing.value in d.receipts then
      if d.receipts[d.preparing.value].phase.Preparing? then DoFileUnprepared(d.preparing.value, InvalidFiles) else DoFileReleased(d.preparing.value)
    else if d.active.Some? && d.active.value in d.receipts then
      match d.receipts[d.active.value].owner
      case Queued => DoOwnerStart(d.active.value, PORTS)
      case Running => DoOwnerAnswers(d.active.value, Raised(Thrown))
      case Answered(_) => DoOwnerFinally(d.active.value)
      case _ => if d.receipts[d.active.value].race.None? then DoOwnerDelivered(d.active.value) else DoContinue(d.active.value, PORTS)
    else DoRetire
  }

  lemma NextGoes(d: Doc)
    requires SlotsOk(d) && Taken(d)
    requires d.preparing.Some? ==> RunsOk(d, d.preparing.value)
    requires d.active.Some? ==> RunsOk(d, d.active.value)
    ensures !OfThePage(NextEvent(d)) && Enabled(d, NextEvent(d)) && ToGo(Step(d, NextEvent(d))) < ToGo(d)
    ensures NextEvent(d).id in d.receipts && !d.receipts[NextEvent(d).id].phase.Submitted?
  {
    hide Check, CaughtOutcome, Truthful, Ended;
  }

  /** Whatever has the page, it can come free without touching a request that waits. */
  lemma {:induction false} PageComesFree(d: Doc, id: RequestId) returns (events: seq<Event>)
    requires Inv(d) && (id in d.receipts ==> d.receipts[id].phase.Submitted?)
    ensures Inv(Exec(d, events)) && !Taken(Exec(d, events)) && Aside(d, Exec(d, events), id) && d.log <= Exec(d, events).log
    decreases ToGo(d)
  {
    hide Inv, Step, Enabled, RunOk;
    events := [];
    if Taken(d) {
      InvRun(d, id);
      if d.preparing.Some? { InvRun(d, d.preparing.value); } else { InvRun(d, d.active.value); }
      var e := NextEvent(d);
      NextGoes(d);
      hide ToGo, NextEvent, RunsOk;
      InvRun(d, e.id);
      OthersAside(d, e, id);
      StepKeeps(d, e);
      var more := PageComesFree(Step(d, e), id);
      events := [e] + more;
      assert events[1..] == more;
    }
  }

  /** What the ports have to answer for a request to pass. */
  function Suits(request: Request): Env {
    Env(request.expiresAt - 1, request.expectedSession, true)
  }

  /** The run has the page and passes the fence: its handler is entered, or an effect granted, at once. */
  lemma RacingWorks(d: Doc, id: RequestId) returns (e: Event)
    requires RunsOk(d, id) && d.mounted && MayStillWork(d, id) && d.receipts[id].phase.Racing?
    ensures WorksLater(d, Step(d, e), id)
  {
    var env := Suits(d.receipts[id].request);
    e := if d.receipts[id].owner.Queued? then DoOwnerStart(id, env) else DoEffect(id, env);
    assert Check(d, d.receipts[id], env).None?;
    assert WorkFor(Step(d, e).log[|d.log|], id);
  }

  /** A waiting run takes a free page. */
  lemma StartsRacing(d: Doc, id: RequestId) returns (e: Event)
    requires RunsOk(d, id) && d.mounted && MayStillWork(d, id)
    requires (d.receipts[id].phase.Submitted? && !Taken(d)) || d.receipts[id].phase.Preparing?
    ensures var d1 := Step(d, e); d1.mounted && id in d1.receipts && MayStillWork(d1, id) && d1.receipts[id].phase.Racing? && d.log <= d1.log
  {
    var env := Suits(d.receipts[id].request);
    e := if d.receipts[id].phase.Submitted? then DoStartRun(id, env) else DoFilePrepared(id, env, []);
    hide CaughtOutcome, Truthful;
  }

  lemma Later(d: Doc, first: seq<Event>, e: Event, second: seq<Event>, id: RequestId)
    requires d.log <= Exec(d, first).log && Exec(d, first).log <= Step(Exec(d, first), e).log
    requires WorksLater(Step(Exec(d, first), e), Exec(Step(Exec(d, first), e), second), id)
    ensures WorkCanFollow(d, id)
  {
    hide Step;
    var d1 := Exec(d, first);
    assert Exec(d1, [e]) == Exec(Step(d1, e), []) by { assert [e][1..] == []; }
    DocumentTheorems.ExecAppends(d, first, [e]);
    DocumentTheorems.ExecAppends(d, first + [e], second);
    var later := Exec(d, first + [e] + second);
    var j :| |Step(d1, e).log| <= j < |later.log| && WorkFor(later.log[j], id);
    assert WorksLater(d, later, id);
  }

  lemma RacingFollows(d: Doc, id: RequestId)
    requires Inv(d) && id in d.receipts && d.mounted && MayStillWork(d, id) && d.receipts[id].phase.Racing?
    ensures exists events :: WorksLater(d, Exec(d, events), id)
  {
    hide Inv, Step;
    InvRun(d, id);
    var e := RacingWorks(d, id);
    assert [e][1..] == [] && Exec(d, [e]) == Exec(Step(d, e), []);
    assert WorksLater(d, Exec(d, [e]), id);
  }

  lemma AdmittedFollows(d: Doc, id: RequestId)
    requires Inv(d) && d.mounted && id in d.receipts && MayStillWork(d, id)
    ensures WorkCanFollow(d, id)
  {
    hide Inv, Step;
    if d.receipts[id].phase.Racing? {
      RacingFollows(d, id);
    } else {
      var free := [];
      if d.receipts[id].phase.Submitted? { free := PageComesFree(d, id); }
      var d1 := Exec(d, free);
      InvRun(d1, id);
      var e := StartsRacing(d1, id);
      StepKeeps(d1, e);
      RacingFollows(Step(d1, e), id);
      hide MayStillWork, RunsOk;
      var more :| WorksLater(Step(d1, e), Exec(Step(d1, e), more), id);
      Later(d, free, e, more, id);
    }
  }

  /** A script can submit the request, and so admit it. */
  lemma UnknownFollows(d: Doc, id: RequestId)
    requires Inv(d) && d.mounted && id !in d.receipts && |d.receipts| < MAX_RECEIPTS
    ensures WorkCanFollow(d, id)
  {
    var e := DoExecute(Request(id, d.documentId, d.documentEpoch, None, "", "", 1));
    var d1 := Step(d, e);
    assert id !in d.cancelled by { InvRun(d, id); }
    StepKeeps(d, e);
    assert d1.receipts[id] == NewRun(e.request, View, d.revision);
    hide Inv, Step;
    AdmittedFollows(d1, id);
    var more :| WorksLater(d1, Exec(d1, more), id);
    Later(d, [], e, more, id);
  }

  lemma OpenExactly(d: Doc, id: RequestId)
    requires Inv(d)
    ensures WorkCanFollow(d, id) <==> Open(d, id)
  {
    hide Inv;
    if Open(d, id) {
      if id in d.receipts { AdmittedFollows(d, id); } else { UnknownFollows(d, id); }
    } else {
      forall events ensures !WorksLater(d, Exec(d, events), id) { ClosedStays(d, events, id); }
    }
  }

  /** Work for a request can follow exactly when the request is open. */
  lemma WorkFollowsExactly(d: Doc, id: RequestId)
    requires Reachable(d)
    ensures WorkCanFollow(d, id) <==> Open(d, id)
  {
    ReachableInv(d);
    hide Inv, Reachable, WorkCanFollow, Open;
    OpenExactly(d, id);
  }

  /** From any reachable state the page can come free, whatever has it. */
  lemma NeverStuckBusy(d: Doc, id: RequestId) returns (events: seq<Event>)
    requires Reachable(d) && id !in d.receipts
    ensures !Taken(Exec(d, events)) && Exec(d, events).receipts.Keys == d.receipts.Keys && Exec(d, events).mounted == d.mounted
  {
    ReachableInv(d);
    hide Inv, Reachable;
    events := PageComesFree(d, id);
  }
}
