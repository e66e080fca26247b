/** The promises about commands, receipts and cancellations, over every run of the whole page. */
module CommandsTheorems {
  import opened Outcomes
  import opened Lease
  import opened Commands
  import opened CommandsSafety
  import D = Document
  import S = DocumentSafety

  /** Commands and request ids are in one-to-one correspondence, and there are never more than 128. */
  lemma CommandsArePaired(t: Tab, nonce: Nonce, id: RequestId)
    requires ReachableTab(t) && t.lease.alive
    ensures nonce in t.flights ==> IdOf(t.flights[nonce]) in t.observed && t.observed[IdOf(t.flights[nonce])] == t.flights[nonce].command
    ensures id in t.observed ==> t.observed[id].nonce in t.flights && t.flights[t.observed[id].nonce].command == t.observed[id]
    ensures |t.flights| <= MAX_COMMANDS
  {
    ReachableTabInv(t);
    assert |t.flights.Keys| <= MAX_COMMANDS;
    assert nonce in t.flights ==> FlightObserved(t, nonce);
    assert id in t.observed ==> ObservedOk(t, id);
    hide FlightOk, Distinct, LogHolds, S.Inv;
  }

  /** No two commands with one request id are ever in flight, so a hashed command never finds its id taken. */
  lemma NoConflictInFlight(t: Tab, nonce: Nonce)
    requires ReachableTab(t) && nonce in t.flights && t.flights[nonce].phase == Hashing
    ensures IdOf(t.flights[nonce]) !in t.inFlight
  {
    ReachableTabInv(t);
    assert FlightOk(t, nonce);
    hide Distinct, LogHolds, MapsOk, S.Inv;
  }

  /** At most one receipt is signed, and at most one posted, for a request id. */
  lemma OneReceiptPerRequest(t: Tab, i: nat, j: nat)
    requires ReachableTab(t) && i < j < |t.log|
    requires (t.log[i].ReceiptPosted? && t.log[j].ReceiptPosted?) || (t.log[i].ReceiptSigning? && t.log[j].ReceiptSigning?)
             || (t.log[i].CommandExecuted? && t.log[j].CommandExecuted?)
    ensures t.log[i].command.request.requestId != t.log[j].command.request.requestId
  {
    ReachableTabInv(t);
    assert ActHolds(t, t.log[i]) && ActHolds(t, t.log[j]) && !Repeats(t.log[i], t.log[j]);
    hide FlightOk, MapsOk, S.Inv, LogHolds, ReceiptFits;
  }

  /**
   * A receipt is signed, and later posted, only while the page holds exactly the registration its command names; and it
   * is the receipt the document settled for exactly that request, or says why the document turned the request away.
   */
  lemma ReceiptsAreTrue(t: Tab, i: nat)
    requires ReachableTab(t) && i < |t.log| && (t.log[i].ReceiptSigning? || t.log[i].ReceiptPosted?)
    ensures t.log[i].under == Some(t.log[i].command.ref)
    ensures ReceiptFits(t.doc, t.log[i].command.request, t.log[i].receipt)
  {
    ReachableTabInv(t);
    assert ActHolds(t, t.log[i]);
    hide FlightOk, MapsOk, S.Inv, ReceiptFits;
  }

  /** A retired transport takes, executes, signs and posts nothing any more. */
  lemma RetiredTransportIsSilent(t: Tab, i: nat, j: nat)
    requires ReachableTab(t) && i < j < |t.log| && t.log[i] == TransportRetired
    ensures t.log[j] == TransportRetired
  {
    ReachableTabInv(t);
    hide FlightOk, MapsOk, S.Inv, ActHolds;
  }

  // ---- Whole runs

  ghost predicate Grows(t: Tab, t1: Tab) {
    && DocMoves(t.doc, t1.doc)
    && t.flights.Keys <= t1.flights.Keys
    && (forall n :: n in t.flights ==> FlightMoves(t.flights[n], t1.flights[n]))
  }

  lemma GrowsOn(t: Tab, t1: Tab, t2: Tab)
    requires Grows(t, t1) && Grows(t1, t2)
    ensures Grows(t, t2)
  {
    DocMovesOn(t.doc, t1.doc, t2.doc);
    hide DocMoves;
  }

  lemma {:induction false} TabRunGrows(t: Tab, events: seq<TabEvent>)
    requires ReachableTab(t)
    ensures Grows(t, TabExec(t, events)) && ReachableTab(TabExec(t, events))
    decreases |events|
  {
    hide TabInv, TabStep, ReachableTab;
    if events == [] {
      DocStill(t.doc);
      hide DocMoves;
    } else {
      ReachableTabInv(t);
      ReachableStep(t, events[0]);
      var act := TabStepKeeps(t, events[0]);
      assert Grows(t, TabStep(t, events[0])) by { hide DocMoves, LeaseMoves, ActIsNew; }
      hide TabMoves, Grows;
      TabRunGrows(TabStep(t, events[0]), events[1..]);
      GrowsOn(t, TabStep(t, events[0]), TabExec(t, events));
    }
  }

  lemma CancellationAt(d: D.Doc, id: RequestId) returns (i: nat)
    requires S.Inv(d) && id in d.cancelled
    ensures i < |d.log| && d.log[i] == D.CancelAccepted(id)
  {
    hide S.Core, S.LogOk, S.Unmoved, S.Grouped;
    assert D.CancelAccepted(id) in d.log;
    i :| 0 <= i < |d.log| && d.log[i] == D.CancelAccepted(id);
  }

  lemma CancelledWorksNoMore(d: D.Doc, later: D.Doc, id: RequestId, j: nat)
    requires S.Inv(d) && S.LogOk(later) && d.log <= later.log && id in d.cancelled && |d.log| <= j < |later.log|
    ensures !S.WorkFor(later.log[j], id)
  {
    hide S.Inv;
    var i := CancellationAt(d, id);
    assert later.log[i] == d.log[i];
    assert S.PairOk(later, later.log[i], later.log[j]);
    hide S.LogOk, S.HoldsFlight;
  }

  lemma FullAdmitsNoMore(d: D.Doc, later: D.Doc, id: RequestId, j: nat)
    requires S.LogOk(later) && d.receipts.Keys <= later.receipts.Keys && |later.receipts| <= D.MAX_RECEIPTS && j < |later.log|
    requires id !in d.receipts && |d.receipts| >= D.MAX_RECEIPTS
    ensures !S.WorkFor(later.log[j], id)
  {
    Fuller(d, later);
    assert S.ActOk(later, later.log[j]);
  }

  lemma DeadWorksNoMore(d: D.Doc, later: D.Doc, id: RequestId)
    requires S.Inv(d) && S.Inv(later) && DocMoves(d, later) && Dead(d, id)
    ensures d.log <= later.log && forall j :: |d.log| <= j < |later.log| ==> !S.WorkFor(later.log[j], id)
  {
    forall j | |d.log| <= j < |later.log| ensures !S.WorkFor(later.log[j], id) {
      if id in d.cancelled { CancelledWorksNoMore(d, later, id, j); } else { FullAdmitsNoMore(d, later, id, j); }
    }
    hide S.LogOk, S.Recorded, S.Unmoved, S.Grouped, S.RunOk, S.Forward, S.WorkFor;
  }

  /**
   * Once the transport has taken the cancellation of a command it has executed, no handler is entered and no effect
   * granted for its request, in any later run.
   */
  lemma CancellationEndsWork(t: Tab, events: seq<TabEvent>, nonce: Nonce)
    requires ReachableTab(t) && nonce in t.flights && t.flights[nonce].executed && Cancelled(t, t.flights[nonce])
    ensures
      var later := TabExec(t, events).doc;
      && t.doc.log <= later.log
      && forall j :: |t.doc.log| <= j < |later.log| ==> !S.WorkFor(later.log[j], IdOf(t.flights[nonce]))
  {
    hide DocMoves, S.Inv, MapsOk, LogHolds, Distinct, S.WorkFor, ReachableTab, TabExec;
    ReachableTabInv(t);
    assert FlightOk(t, nonce);
    hide Dead, FlightOk;
    TabRunGrows(t, events);
    ReachableTabInv(TabExec(t, events));
    DeadWorksNoMore(t.doc, TabExec(t, events).doc, IdOf(t.flights[nonce]));
  }

  // ---- Cancelled before it was executed

  /** The cancellation of this command was taken; if the command was executed all the same, its request is dead. */
  ghost predicate Marked(t: Tab, command: Command) {
    && (t.lease.alive ==> command.nonce in t.cancelled && t.cancelled[command.nonce] == command)
    && (command.nonce in t.flights && t.flights[command.nonce].command == command && t.flights[command.nonce].executed ==>
          Dead(t.doc, command.request.requestId))
  }

  lemma MarkedStays(t: Tab, t1: Tab, act: Option<CommandAct>, command: Command)
    requires TabMoves(t, t1, act) && Marked(t, command) && (command.nonce in t1.flights ==> FlightOk(t1, command.nonce))
    ensures Marked(t1, command)
  {
    if command.nonce in t1.flights && t1.flights[command.nonce].command == command && t1.flights[command.nonce].executed {
      assert Dead(t.doc, command.request.requestId) ==> Dead(t1.doc, command.request.requestId);
    }
    hide Dead, S.Evolves, LeaseMoves, ActIsNew;
  }

  lemma MarkedNow(t: Tab, command: Command)
    requires ReachableTab(t) && command.nonce in t.cancelled && t.cancelled[command.nonce] == command
    ensures Marked(t, command)
  {
    ReachableTabInv(t);
    assert command.nonce in t.flights ==> FlightOk(t, command.nonce);
    hide S.Inv, MapsOk, LogHolds, Distinct, Dead, ReachableTab;
  }

  lemma MarkedStep(t: Tab, e: TabEvent, command: Command)
    requires ReachableTab(t) && Marked(t, command)
    ensures Marked(TabStep(t, e), command)
  {
    hide TabStep, TabMoves, Marked, ReachableTab, FlightOk, S.Inv, MapsOk, LogHolds, Distinct;
    ReachableTabInv(t);
    var act := TabStepKeeps(t, e);
    MarkedStays(t, TabStep(t, e), act, command);
  }

  lemma {:induction false} MarkedRun(t: Tab, events: seq<TabEvent>, command: Command)
    requires ReachableTab(t) && Marked(t, command)
    ensures Marked(TabExec(t, events), command)
    decreases |events|
  {
    hide TabStep, Marked, ReachableTab;
    if events != [] {
      MarkedStep(t, events[0], command);
      ReachableStep(t, events[0]);
      MarkedRun(TabStep(t, events[0]), events[1..], command);
    }
  }

  /** A script of the page itself submits this request id. */
  predicate SubmitsDirectly(e: TabEvent, id: RequestId) {
    e.OnDocument? && ((e.documentEvent.DoExecute? && e.documentEvent.request.requestId == id)
                      || (e.documentEvent.DoExecuteFile? && e.documentEvent.request.requestId == id))
  }

  lemma DocAdmits(d: D.Doc, e: D.Event, id: RequestId)
    requires id !in d.receipts && id in D.Step(d, e).receipts
    ensures SubmitsDirectly(OnDocument(e), id)
  {
    hide D.Check, D.CaughtBy, D.Ended, D.FileRefusal;
  }

  lemma ExecuteSilent(d: D.Doc, request: Request, cancelled: bool)
    ensures var d1 := Executed(d, request, cancelled);
      && d1.receipts.Keys <= d.receipts.Keys + {request.requestId}
      && forall j, id :: |d.log| <= j < |d1.log| ==> !S.WorkFor(d1.log[j], id)
  {}

  lemma CancelSilent(d: D.Doc, id: RequestId)
    ensures D.Cancel(d, id).receipts.Keys == d.receipts.Keys
    ensures forall j, other :: |d.log| <= j < |D.Cancel(d, id).log| ==> !S.WorkFor(D.Cancel(d, id).log[j], other)
  {}

  /** A request that is not admitted can only be admitted by a script of the page or by its command. */
  lemma TabAdmits(t: Tab, e: TabEvent, id: RequestId)
    requires id !in t.doc.receipts && id in TabStep(t, e).doc.receipts
    ensures
      || SubmitsDirectly(e, id)
      || (e.GetsDigest? && e.nonce in t.flights && IdOf(t.flights[e.nonce]) == id && e.nonce in TabStep(t, e).flights && TabStep(t, e).flights[e.nonce].executed
          && TabStep(t, e).flights[e.nonce].command == t.flights[e.nonce].command)
  {
    hide D.Step, D.Cancel, D.Execute, LeaseStep, HearCancellation;
    match e
    case OnDocument(documentEvent) => DocAdmits(t.doc, documentEvent, id);
    case GetsCancellation(command, _) => CancelSilent(t.doc, command.request.requestId);
    case GetsDigest(nonce, digest, env) => DigestAdmits(t, nonce, digest, env, id);
    case _ =>
      OthersKeepDocument(t, e);
      hide TabStep;
  }

  lemma OthersKeepDocument(t: Tab, e: TabEvent)
    requires !e.OnDocument? && !e.GetsCancellation? && !e.GetsDigest?
    ensures TabStep(t, e).doc == t.doc
  {
    hide D.Step, LeaseStep, HearCommand, SigningRefusal, SettledAnswer;
  }

  lemma DigestAdmits(t: Tab, nonce: Nonce, digest: Option<Digest>, env: PageEnv, id: RequestId)
    requires var t1 := TabStep(t, GetsDigest(nonce, digest, env)); id !in t.doc.receipts && id in t1.doc.receipts
    ensures
      var t1 := TabStep(t, GetsDigest(nonce, digest, env));
      && nonce in t.flights && IdOf(t.flights[nonce]) == id && nonce in t1.flights && t1.flights[nonce].executed
      && t1.flights[nonce].command == t.flights[nonce].command
  {
    hide TabStep, DigestArrives, ExecutionRefusal, D.ExecuteAnswer, D.Cancel, D.Execute;
    DigestStep(t, nonce, digest, env);
    ExecuteSilent(t.doc, t.flights[nonce].command.request, nonce in t.cancelled);
    DigestLeaves(t, nonce, digest, env);
  }

  lemma DigestStep(t: Tab, nonce: Nonce, digest: Option<Digest>, env: PageEnv)
    ensures
      var e := GetsDigest(nonce, digest, env);
      TabStep(t, e) == (if TabEnabled(t, e) then DigestArrives(t, nonce, digest, env) else t) && (TabEnabled(t, e) ==> nonce in t.flights)
  {
    hide DigestArrives, D.Step;
  }

  lemma DigestLeaves(t: Tab, nonce: Nonce, digest: Option<Digest>, env: PageEnv)
    requires nonce in t.flights
    ensures
      var t1 := DigestArrives(t, nonce, digest, env);
      && nonce in t1.flights && t1.flights[nonce].command == t.flights[nonce].command
      && (t1.doc == t.doc || (t1.flights[nonce].executed && t1.doc == Executed(t.doc, t.flights[nonce].command.request, nonce in t.cancelled)))
  {
    hide ExecutionRefusal, D.ExecuteAnswer, D.Cancel, D.Execute;
  }

  ghost predicate NeverWorked(d: D.Doc, id: RequestId) {
    && (id in d.receipts ==> Dead(d, id))
    && (forall j :: 0 <= j < |d.log| ==> !S.WorkFor(d.log[j], id))
  }

  /** The command itself has been executed. */
  predicate WasExecuted(t: Tab, command: Command) {
    command.nonce in t.flights && t.flights[command.nonce].command == command && t.flights[command.nonce].executed
  }

  /** No script of the page submits the request before the command is executed. */
  ghost predicate SubmittedTooLate(t: Tab, events: seq<TabEvent>, command: Command) {
    forall i :: 0 <= i < |events| && SubmitsDirectly(events[i], command.request.requestId) ==> WasExecuted(TabExec(t, events[..i]), command)
  }

  lemma TooLateAfter(t: Tab, events: seq<TabEvent>, command: Command)
    requires events != [] && SubmittedTooLate(t, events, command)
    ensures SubmitsDirectly(events[0], command.request.requestId) ==> WasExecuted(t, command)
    ensures SubmittedTooLate(TabStep(t, events[0]), events[1..], command)
  {
    hide TabStep, SubmitsDirectly, WasExecuted;
    assert events[..0] == [];
    forall i | 0 <= i < |events| - 1 ensures TabExec(TabStep(t, events[0]), events[1..][..i]) == TabExec(t, events[..i + 1]) && events[1..][i] == events[i + 1] {
      assert events[..i + 1][0] == events[0] && events[..i + 1][1..] == events[1..][..i];
    }
  }

  lemma UnknownNeverWorked(d: D.Doc, id: RequestId)
    requires S.Inv(d) && id !in d.receipts
    ensures NeverWorked(d, id)
  {}

  lemma NeverWorkedStep(t: Tab, e: TabEvent, command: Command)
    requires ReachableTab(t) && NeverWorked(t.doc, command.request.requestId) && Marked(TabStep(t, e), command)
    requires SubmitsDirectly(e, command.request.requestId) ==> WasExecuted(t, command)
    requires Marked(t, command)
    requires forall n :: n in t.flights && IdOf(t.flights[n]) == command.request.requestId ==> t.flights[n].command == command && n == command.nonce
    ensures NeverWorked(TabStep(t, e).doc, command.request.requestId)
  {
    var id := command.request.requestId;
    var t1 := TabStep(t, e);
    hide TabStep, DocMoves, S.Inv, LeaseMoves, MapsOk, LogHolds, Distinct, FlightOk, Marked, Dead, ActIsNew, ReachableTab;
    ReachableTabInv(t);
    var act := TabStepKeeps(t, e);
    if WasExecuted(t, command) { MarkedDead(t, command); }
    if id in t.doc.receipts || WasExecuted(t, command) {
      DeadWorksNoMore(t.doc, t1.doc, id);
      DeadStays(t.doc, t1.doc, id);
    } else if id in t1.doc.receipts {
      TabAdmits(t, e, id);
      MarkedDead(t1, command);
      ExecutedLog(t, e);
    } else {
      UnknownNeverWorked(t1.doc, id);
    }
  }

  lemma DeadStays(d: D.Doc, d1: D.Doc, id: RequestId)
    requires DocMoves(d, d1) && Dead(d, id)
    ensures Dead(d1, id)
  {}

  lemma MarkedDead(t: Tab, command: Command)
    requires Marked(t, command) && command.nonce in t.flights && t.flights[command.nonce].command == command && t.flights[command.nonce].executed
    ensures Dead(t.doc, command.request.requestId)
  {}

  lemma ExecutedLog(t: Tab, e: TabEvent)
    requires e.GetsDigest?
    ensures
      var d1 := TabStep(t, e).doc;
      (forall j :: 0 <= j < |t.doc.log| && j < |d1.log| ==> d1.log[j] == t.doc.log[j])
      && forall j, id :: |t.doc.log| <= j < |d1.log| ==> !S.WorkFor(d1.log[j], id)
  {
    hide ExecutionRefusal;
    if TabEnabled(t, e) { ExecuteSilent(t.doc, t.flights[e.nonce].command.request, e.nonce in t.cancelled); }
  }

  lemma {:induction false} NeverWorkedRun(t: Tab, events: seq<TabEvent>, command: Command)
    requires ReachableTab(t) && Marked(t, command) && NeverWorked(t.doc, command.request.requestId)
    requires SubmittedTooLate(t, events, command)
    requires var later := TabExec(t, events); command.nonce in later.flights && later.flights[command.nonce].command == command
    ensures NeverWorked(TabExec(t, events).doc, command.request.requestId)
    decreases |events|
  {
    hide TabStep, Marked, NeverWorked, SubmitsDirectly, ReachableTab, WasExecuted, SubmittedTooLate;
    if events != [] {
      TooLateAfter(t, events, command);
      var t1 := TabStep(t, events[0]);
      MarkedStep(t, events[0], command);
      ReachableStep(t, events[0]);
      OnlyCommand(t, events, command);
      NeverWorkedStep(t, events[0], command);
      NeverWorkedRun(t1, events[1..], command);
    }
  }

  /** A command that is in the run at the end is the only one the run ever has under its request id. */
  lemma OnlyCommand(t: Tab, events: seq<TabEvent>, command: Command)
    requires ReachableTab(t)
    requires var later := TabExec(t, events); command.nonce in later.flights && later.flights[command.nonce].command == command
    ensures forall n :: n in t.flights && IdOf(t.flights[n]) == command.request.requestId ==> t.flights[n].command == command && n == command.nonce
  {
    TabRunGrows(t, events);
    var later := TabExec(t, events);
    ReachableTabInv(t);
    ReachableTabInv(later);
    hide TabExec, DocMoves, S.Inv, MapsOk, LogHolds, ReachableTab;
  }

  /**
   * When the cancellation comes before the command was executed, the command never does anything: if it is executed at
   * all, its request is dead from that very moment; and unless a script of the page has submitted the same request id
   * before the cancellation, or does so before the command is executed, its handler is never entered and no effect of it
   * is ever granted, before or after, however the events interleave.
   */
  lemma CancelledFirst(t: Tab, events: seq<TabEvent>, command: Command)
    requires ReachableTab(t) && command.nonce in t.cancelled && t.cancelled[command.nonce] == command
    requires var later := TabExec(t, events); command.nonce in later.flights && later.flights[command.nonce].command == command
    ensures
      var later := TabExec(t, events);
      && (later.flights[command.nonce].executed ==> Dead(later.doc, command.request.requestId))
      && (command.request.requestId !in t.doc.receipts && SubmittedTooLate(t, events, command) ==>
            forall j :: 0 <= j < |later.doc.log| ==> !S.WorkFor(later.doc.log[j], command.request.requestId))
  {
    hide S.Inv, FlightOk, MapsOk, LogHolds, Distinct, SubmittedTooLate, TabExec, Dead, S.WorkFor;
    MarkedNow(t, command);
    MarkedRun(t, events, command);
    var id := command.request.requestId;
    if id !in t.doc.receipts && SubmittedTooLate(t, events, command) {
      ReachableTabInv(t);
      UnknownNeverWorked(t.doc, id);
      NeverWorkedRun(t, events, command);
    }
  }
}
