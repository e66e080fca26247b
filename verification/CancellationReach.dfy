/** How far a cancellation reaches: exactly when work for its request can still follow. */
module CancellationReach {
  import opened Outcomes
  import opened Lease
  import opened Commands
  import opened CommandsSafety
  import D = Document
  import S = DocumentSafety
  import O = OpenRequests
  import DocumentTheorems
  import opened CommandsTheorems

  // ---- The document's runs and the page's

  function OnDocuments(events: seq<D.Event>): seq<TabEvent> {
    if events == [] then [] else [OnDocument(events[0])] + OnDocuments(events[1..])
  }

  lemma {:induction false} DocumentRun(t: Tab, events: seq<D.Event>)
    ensures TabExec(t, OnDocuments(events)) == t.(doc := D.Exec(t.doc, events))
    decreases |events|
  {
    hide D.Step;
    if events != [] {
      assert OnDocuments(events)[0] == OnDocument(events[0]) && OnDocuments(events)[1..] == OnDocuments(events[1..]);
      DocumentRun(t.(doc := D.Step(t.doc, events[0])), events[1..]);
    }
  }

  /** Whatever happens on the page, the document moves by its own segments. */
  lemma DocumentMoves(t: Tab, e: TabEvent) returns (events: seq<D.Event>)
    ensures D.Exec(t.doc, events) == TabStep(t, e).doc
  {
    hide D.Execute, D.Cancel, D.ExecuteAnswer, HearCommand, HearCancellation, ExecutionRefusal, SigningRefusal, SettledAnswer;
    events := [];
    if TabEnabled(t, e) && TabStep(t, e).doc != t.doc {
      match e
      case OnDocument(documentEvent) =>
        events := [documentEvent];
        OneEvent(t.doc, documentEvent);
      case GetsCancellation(command, _) =>
        events := [D.DoCancel(command.request.requestId)];
        OneEvent(t.doc, events[0]);
      case GetsDigest(nonce, _, _) =>
        var request := t.flights[nonce].command.request;
        OneEvent(t.doc, D.DoExecute(request));
        events := [D.DoExecute(request)];
        if nonce in t.cancelled {
          OneEvent(D.Execute(t.doc, request), D.DoCancel(request.requestId));
          DocumentTheorems.ExecAppends(t.doc, [D.DoExecute(request)], [D.DoCancel(request.requestId)]);
          events := [D.DoExecute(request)] + [D.DoCancel(request.requestId)];
        }
    }
  }

  lemma OneEvent(d: D.Doc, e: D.Event)
    ensures D.Exec(d, [e]) == D.Step(d, e)
  {
    hide D.Step;
    assert [e][1..] == [] && D.Exec(d, [e]) == D.Exec(D.Step(d, e), []);
  }

  lemma {:induction false} DocumentMovesOn(t: Tab, events: seq<TabEvent>) returns (moves: seq<D.Event>)
    ensures D.Exec(t.doc, moves) == TabExec(t, events).doc
    decreases |events|
  {
    hide TabStep, D.Step;
    moves := [];
    if events != [] {
      var first := DocumentMoves(t, events[0]);
      var rest := DocumentMovesOn(TabStep(t, events[0]), events[1..]);
      DocumentTheorems.ExecAppends(t.doc, first, rest);
      moves := first + rest;
    }
  }

  // ---- Whether work can follow

  /** In some continuation of the page's run the handler of the request is entered, or an effect granted to it. */
  ghost predicate WorkCanFollow(t: Tab, id: RequestId) {
    exists events :: O.WorksLater(t.doc, TabExec(t, events).doc, id)
  }

  lemma SameReach(t: Tab, id: RequestId)
    ensures WorkCanFollow(t, id) <==> O.WorkCanFollow(t.doc, id)
  {
    hide O.WorksLater, TabStep, D.Step;
    if WorkCanFollow(t, id) {
      var events :| O.WorksLater(t.doc, TabExec(t, events).doc, id);
      var moves := DocumentMovesOn(t, events);
      assert O.WorksLater(t.doc, D.Exec(t.doc, moves), id);
    }
    if O.WorkCanFollow(t.doc, id) {
      var events :| O.WorksLater(t.doc, D.Exec(t.doc, events), id);
      DocumentRun(t, events);
      assert O.WorksLater(t.doc, TabExec(t, OnDocuments(events)).doc, id);
    }
  }

  lemma OpenOnThePage(t: Tab, id: RequestId)
    requires ReachableTab(t)
    ensures WorkCanFollow(t, id) <==> O.Open(t.doc, id)
  {
    hide WorkCanFollow, O.WorkCanFollow, O.Open, ReachableTab, TabInv, S.Inv;
    ReachableTabInv(t);
    DocumentOk(t);
    SameReach(t, id);
    O.OpenExactly(t.doc, id);
  }

  lemma DocumentOk(t: Tab)
    requires TabInv(t)
    ensures S.Inv(t.doc)
  {}

  /** A cancellation closes a request that its command announced and the document admitted; nothing else changes there. */
  lemma CancellationCloses(t: Tab, command: Command, now: int)
    requires HearCancellation(t, command, now) == Taken
    ensures
      var t1 := TakeCancellation(t, command, now);
      var id := command.request.requestId;
      if id in t.observed && id in t.doc.receipts then !O.Open(t1.doc, id) else t1.doc == t.doc
  {
    hide HearCancellation;
  }

  /**
   * Once a cancellation is taken, work for its request can follow exactly when the request was open before and the
   * cancellation did not reach it: the transport had not seen the command, or the document not admitted the request.
   */
  lemma CancellationReaches(t: Tab, command: Command, now: int)
    requires ReachableTab(t) && HearCancellation(t, command, now) == Taken
    ensures
      var id := command.request.requestId;
      WorkCanFollow(TakeCancellation(t, command, now), id) <==> O.Open(t.doc, id) && !(id in t.observed && id in t.doc.receipts)
  {
    var t1 := TakeCancellation(t, command, now);
    ReachableStep(t, GetsCancellation(command, now));
    CancellationCloses(t, command, now);
    hide WorkCanFollow, O.Open, HearCancellation, ReachableTab;
    OpenOnThePage(t1, command.request.requestId);
  }

  /** In particular no run that was admitted does any work after a cancellation of its command that finds it known. */
  lemma KnownCancellationEndsWork(t: Tab, command: Command, now: int, events: seq<TabEvent>)
    requires ReachableTab(t) && HearCancellation(t, command, now) == Taken
    requires command.request.requestId in t.observed && command.request.requestId in t.doc.receipts
    ensures
      var t1 := TakeCancellation(t, command, now);
      !O.WorksLater(t1.doc, TabExec(t1, events).doc, command.request.requestId)
  {
    CancellationReaches(t, command, now);
    hide O.WorksLater, O.Open, HearCancellation, ReachableTab;
  }

  /** And when the command is executed after its cancellation, nothing can follow any more, whoever had submitted the request. */
  lemma ExecutionCloses(t: Tab, nonce: Nonce)
    requires ReachableTab(t) && nonce in t.flights && t.flights[nonce].executed && Cancelled(t, t.flights[nonce])
    ensures !WorkCanFollow(t, IdOf(t.flights[nonce]))
  {
    ReachableTabInv(t);
    assert FlightOk(t, nonce);
    hide S.Inv, MapsOk, LogHolds, Distinct, ReachableTab, WorkCanFollow;
    OpenOnThePage(t, IdOf(t.flights[nonce]));
  }

  // ---- How a request escapes that was not admitted when its command was cancelled

  /** This event has the request admitted, before its command is executed: by a script, or by another command under its id. */
  ghost predicate Escapes(t: Tab, events: seq<TabEvent>, command: Command, i: nat) {
    && i < |events|
    && var s, id := TabExec(t, events[..i]), command.request.requestId;
    && id !in s.doc.receipts && id in TabStep(s, events[i]).doc.receipts && !WasExecuted(s, command)
    && (SubmitsDirectly(events[i], id)
        || (events[i].GetsDigest? && events[i].nonce in s.flights && IdOf(s.flights[events[i].nonce]) == id && s.flights[events[i].nonce].command != command))
  }

  lemma EscapesLater(t: Tab, events: seq<TabEvent>, command: Command, i: nat)
    requires events != [] && Escapes(TabStep(t, events[0]), events[1..], command, i)
    ensures Escapes(t, events, command, i + 1)
  {
    hide TabStep, SubmitsDirectly, WasExecuted;
    assert events[..i + 1][0] == events[0] && events[..i + 1][1..] == events[1..][..i];
    assert TabExec(t, events[..i + 1]) == TabExec(TabStep(t, events[0]), events[1..][..i]);
  }

  /** A run that admits the request in this very step and works for it later did not admit it by the cancelled command. */
  lemma EscapesNow(t: Tab, events: seq<TabEvent>, command: Command)
    requires events != [] && ReachableTab(t) && Marked(t, command)
    requires command.request.requestId !in t.doc.receipts && command.request.requestId in TabStep(t, events[0]).doc.receipts
    requires O.WorksLater(t.doc, TabExec(t, events).doc, command.request.requestId)
    ensures Escapes(t, events, command, 0)
  {
    hide TabStep, TabExec, Marked, ReachableTab, O.WorksLater, Dead;
    var id, t1 := command.request.requestId, TabStep(t, events[0]);
    Still(t, events);
    ReachableStep(t, events[0]);
    MarkedStep(t, events[0], command);
    TabAdmits(t, events[0], id);
    if events[0].GetsDigest? && events[0].nonce in t.flights { UnderItsNonce(t, events[0].nonce); }
    if WasExecuted(t, command) {
      MarkedDead(t, command);
      DeadStopsWork(t, events, id);
    } else if WasExecuted(t1, command) && !SubmitsDirectly(events[0], id) {
      MarkedDead(t1, command);
      FirstStep(t, events, id);
      DeadStopsWork(t1, events[1..], id);
    }
    hide SubmitsDirectly;
  }

  lemma UnderItsNonce(t: Tab, nonce: Nonce)
    requires ReachableTab(t) && nonce in t.flights
    ensures t.flights[nonce].command.nonce == nonce
  {
    hide ReachableTab, TabInv;
    ReachableTabInv(t);
    ReceivedUnder(t, nonce);
  }

  lemma Still(t: Tab, events: seq<TabEvent>)
    requires events != []
    ensures TabExec(t, events[..0]) == t
  {
    assert events[..0] == [];
    hide TabStep;
  }

  lemma DeadStopsWork(t: Tab, events: seq<TabEvent>, id: RequestId)
    requires ReachableTab(t) && Dead(t.doc, id)
    ensures !O.WorksLater(t.doc, TabExec(t, events).doc, id)
  {
    hide ReachableTab, TabInv, TabExec, Dead, S.Inv, DocMoves;
    var later := TabExec(t, events);
    TabRunGrows(t, events);
    ReachableTabInv(t);
    ReachableTabInv(later);
    DocumentOk(t);
    DocumentOk(later);
    DeadWorksNoMore(t.doc, later.doc, id);
    hide S.WorkFor;
  }

  /** Work that is not done in the first part of a run is done in the rest. */
  lemma DoneLater(d: D.Doc, d1: D.Doc, later: D.Doc, id: RequestId)
    requires d.log <= d1.log <= later.log && !O.WorksLater(d, d1, id)
    ensures O.WorksLater(d, later, id) <==> O.WorksLater(d1, later, id)
  {
    hide S.WorkFor;
    forall j | |d.log| <= j < |d1.log| ensures !S.WorkFor(later.log[j], id) { assert later.log[j] == d1.log[j]; }
  }

  /** A step that first admits the request does no work for it, so work after it is work after the next state. */
  lemma FirstStep(t: Tab, events: seq<TabEvent>, id: RequestId)
    requires events != [] && ReachableTab(t) && id !in t.doc.receipts
    ensures
      var t1, later := TabStep(t, events[0]), TabExec(t, events);
      O.WorksLater(t.doc, later.doc, id) <==> O.WorksLater(t1.doc, TabExec(t1, events[1..]).doc, id)
  {
    hide ReachableTab, TabStep, O.WorksLater;
    var t1 := TabStep(t, events[0]);
    ReachableStep(t, events[0]);
    FirstStepSilent(t, events[0], id);
    LogsGrow(t1, events[1..]);
    DoneLater(t.doc, t1.doc, TabExec(t, events).doc, id);
  }

  lemma LogsGrow(t: Tab, events: seq<TabEvent>)
    requires ReachableTab(t)
    ensures t.doc.log <= TabExec(t, events).doc.log
  {
    hide ReachableTab, TabExec;
    TabRunGrows(t, events);
  }

  lemma FirstStepSilent(t: Tab, e: TabEvent, id: RequestId)
    requires ReachableTab(t) && id !in t.doc.receipts
    ensures t.doc.log <= TabStep(t, e).doc.log && !O.WorksLater(t.doc, TabStep(t, e).doc, id)
  {
    hide TabStep, S.Inv, D.Step, ReachableTab, TabInv;
    ReachableTabInv(t);
    DocumentOk(t);
    var moves := DocumentMoves(t, e);
    S.RunKeeps(t.doc, moves);
    if id in TabStep(t, e).doc.receipts {
      TabAdmits(t, e, id);
      AdmissionSilent(t, e, id);
    } else {
      ReachableStep(t, e);
      ReachableTabInv(TabStep(t, e));
      DocumentOk(TabStep(t, e));
      UnknownNeverWorked(TabStep(t, e).doc, id);
    }
  }

  lemma AdmissionSilent(t: Tab, e: TabEvent, id: RequestId)
    requires id !in t.doc.receipts && (SubmitsDirectly(e, id) || e.GetsDigest?)
    ensures !O.WorksLater(t.doc, TabStep(t, e).doc, id)
  {
    hide D.Check;
    if e.GetsDigest? {
      hide TabStep;
      ExecutedLog(t, e);
    }
  }

  /**
   * When a cancelled command's request was not admitted yet, work for it in a later run needs one of two things: before the
   * command is executed, a script submits the request, or another command under the same id is executed. And either
   * suffices, as `SubmissionEscapes` and `OtherCommandEscapes` say.
   */
  lemma {:induction false} EscapeNeedsAdmission(t: Tab, events: seq<TabEvent>, command: Command) returns (i: nat)
    requires ReachableTab(t) && Marked(t, command) && command.request.requestId !in t.doc.receipts
    requires O.WorksLater(t.doc, TabExec(t, events).doc, command.request.requestId)
    ensures Escapes(t, events, command, i)
    decreases |events|
  {
    var id := command.request.requestId;
    hide Marked, ReachableTab, TabStep, Escapes;
    O.Nothing(t.doc, id);
    if id in TabStep(t, events[0]).doc.receipts {
      i := 0;
      EscapesNow(t, events, command);
    } else {
      var t1 := TabStep(t, events[0]);
      ReachableStep(t, events[0]);
      MarkedStep(t, events[0], command);
      FirstStep(t, events, id);
      var j := EscapeNeedsAdmission(t1, events[1..], command);
      EscapesLater(t, events, command, j);
      i := j + 1;
    }
  }

  /** The document admits the request while it has room, so work is possible again. */
  lemma AdmissionOpens(t: Tab, t1: Tab, request: Request)
    requires ReachableTab(t) && ReachableTab(t1) && t1.doc == D.Execute(t.doc, request)
    requires t.doc.mounted && request.requestId !in t.doc.receipts && |t.doc.receipts| < D.MAX_RECEIPTS
    requires request.documentId == t.doc.documentId && request.documentEpoch == t.doc.documentEpoch
    ensures WorkCanFollow(t1, request.requestId)
  {
    ReachableTabInv(t);
    DocumentOk(t);
    S.InvRun(t.doc, request.requestId);
    hide ReachableTab, WorkCanFollow, S.Inv;
    OpenOnThePage(t1, request.requestId);
  }

  /** A script that submits the request, for this document and while there is room, makes work possible again. */
  lemma SubmissionEscapes(t: Tab, request: Request)
    requires ReachableTab(t) && t.doc.mounted && request.requestId !in t.doc.receipts && |t.doc.receipts| < D.MAX_RECEIPTS
    requires request.documentId == t.doc.documentId && request.documentEpoch == t.doc.documentEpoch
    ensures WorkCanFollow(TabStep(t, OnDocument(D.DoExecute(request))), request.requestId)
  {
    var e := OnDocument(D.DoExecute(request));
    ReachableStep(t, e);
    hide ReachableTab, WorkCanFollow;
    AdmissionOpens(t, TabStep(t, e), request);
  }

  /** So does another command under the same id that was not cancelled itself, when it is executed. */
  lemma OtherCommandEscapes(t: Tab, nonce: Nonce, digest: Option<Digest>, env: PageEnv)
    requires ReachableTab(t) && TabEnabled(t, GetsDigest(nonce, digest, env)) && nonce !in t.cancelled
    requires ExecutionRefusal(t, t.flights[nonce], digest, env).None?
    requires
      var request := t.flights[nonce].command.request;
      && request.requestId !in t.doc.receipts && |t.doc.receipts| < D.MAX_RECEIPTS
      && request.documentId == t.doc.documentId && request.documentEpoch == t.doc.documentEpoch
    ensures WorkCanFollow(TabStep(t, GetsDigest(nonce, digest, env)), IdOf(t.flights[nonce]))
  {
    var e := GetsDigest(nonce, digest, env);
    ReachableStep(t, e);
    assert t.doc.mounted;
    hide ReachableTab, WorkCanFollow, ExecutionRefusal;
    AdmissionOpens(t, TabStep(t, e), t.flights[nonce].command.request);
  }
}
