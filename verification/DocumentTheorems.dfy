/** The promises of the page document, over every run. */
module DocumentTheorems {
  import opened Outcomes
  import opened Document
  import opened DocumentSafety

  /**
   * Whenever an effect is granted or a handler is entered, the page has not been retired, the request was not
   * cancelled, its receipt is not settled, and the user has not moved on since it was submitted.
   */
  lemma WorkIsFenced(d: Doc, i: nat, j: nat, id: RequestId)
    requires Reachable(d) && i < j < |d.log| && WorkFor(d.log[j], id)
    ensures d.log[i] != CancelAccepted(id) && d.log[i] != ReceiptSettled(id) && d.log[i] != Retired
    ensures d.log[i] == Admitted(id) ==> forall k :: i < k < j ==> !Moves(d.log[k])
  {
    ReachableInv(d);
    assert PairOk(d, d.log[i], d.log[j]);
    assert forall k :: i < k < j ==> Stays(d.log[i], d.log[k], d.log[j]);
  }

  /** Every grant fell before the deadline, in the session and for the document the request names. */
  lemma GrantsMatchTheirRequest(d: Doc, i: nat)
    requires Reachable(d) && i < |d.log| && d.log[i].Granted?
    ensures
      var act := d.log[i];
      && act.id in d.receipts
      && act.env.now < d.receipts[act.id].request.expiresAt
      && act.env.session == d.receipts[act.id].request.expectedSession
      && d.receipts[act.id].request.documentId == d.documentId
      && d.receipts[act.id].request.documentEpoch == d.documentEpoch
      && HandlerCalled(act.id) in d.log
  {
    ReachableInv(d);
    assert ActOk(d, d.log[i]) && RunOk(d, d.log[i].id);
  }

  /** Effects of different requests never interleave: once another request was granted one, the first gets none. */
  lemma EffectsNeverInterleave(d: Doc, i: nat, k: nat, j: nat)
    requires Reachable(d) && i < k < j < |d.log|
    requires d.log[i].Granted? && d.log[k].Granted? && d.log[j].Granted? && d.log[i].id == d.log[j].id
    ensures d.log[k].id == d.log[i].id
  {
    ReachableInv(d);
    assert Together(d.log[i], d.log[k], d.log[j]);
  }

  /**
   * One owner at a time. `active` names a request exactly while its owner promise is unsettled, or settled without
   * having seen an abort while `run` still awaits it; a file being prepared and an active run exclude each other.
   */
  lemma OneFlight(d: Doc, id: RequestId, other: RequestId)
    requires Reachable(d) && id in d.receipts
    ensures d.active == Some(id) <==> HoldsFlight(d.receipts[id])
    ensures other in d.receipts && HoldsFlight(d.receipts[id]) && HoldsFlight(d.receipts[other]) ==> id == other
    ensures HoldsFlight(d.receipts[id]) ==> d.preparing.None?
    ensures d.receipts[id].owner == Queued || d.receipts[id].owner == Running ==> d.active == Some(id)
  {
    ReachableInv(d);
    assert RunOk(d, id);
    assert other in d.receipts ==> RunOk(d, other);
    hide LogOk, Recorded, Unmoved, Grouped, RunOk;
  }

  /** When every run and every owner it started has settled, the page is free again. */
  lemma FreeWhenSettled(d: Doc)
    requires Reachable(d)
    requires forall id :: id in d.receipts ==> d.receipts[id].phase.Settled? && (d.receipts[id].owner == Absent || d.receipts[id].owner.OwnerSettled?)
    ensures !Taken(d)
  {
    hide LogOk, Recorded, Unmoved, Grouped, Reachable;
    ReachableInv(d);
    assert d.active.Some? ==> RunOk(d, d.active.value);
    assert d.preparing.Some? ==> RunOk(d, d.preparing.value);
  }

  /** Each admitted id reaches its handler at most once, and only an admitted id does. */
  lemma HandlerCalledOnce(d: Doc, i: nat, j: nat, id: RequestId)
    requires Reachable(d) && i < |d.log| && j < |d.log| && d.log[i] == HandlerCalled(id) && d.log[j] == HandlerCalled(id)
    ensures i == j && id in d.receipts
  {
    ReachableInv(d);
    assert i < j ==> PairOk(d, d.log[i], d.log[j]);
    assert j < i ==> PairOk(d, d.log[j], d.log[i]);
    assert ActOk(d, d.log[i]);
  }

  lemma {:induction false} ReachableOn(d: Doc, events: seq<Event>)
    requires Reachable(d)
    ensures Reachable(Exec(d, events))
  {
    var documentId, documentEpoch, before :| d == Exec(Init(documentId, documentEpoch), before);
    ExecAppends(Init(documentId, documentEpoch), before, events);
    assert Exec(d, events) == Exec(Init(documentId, documentEpoch), before + events);
  }

  lemma {:induction false} ExecAppends(d: Doc, first: seq<Event>, second: seq<Event>)
    ensures Exec(d, first + second) == Exec(Exec(d, first), second)
    decreases |first|
  {
    if first == [] {
      assert first + second == second;
    } else {
      assert (first + second)[0] == first[0] && (first + second)[1..] == first[1..] + second;
      ExecAppends(Step(d, first[0]), first[1..], second);
    }
  }

  /**
   * An admitted id is never evicted, replaced or run again: whatever happens later, resubmitting the same request
   * yields the first promise, any other payload or kind is refused, a file request for a file's id is compared with the
   * first one, and none of them changes the page.
   */
  lemma ReplayIsStable(d: Doc, events: seq<Event>, request: Request)
    requires Reachable(d) && request.requestId in d.receipts
    ensures
      var later := Exec(d, events);
      var first := d.receipts[request.requestId];
      && Execute(later, request) == later
      && ExecuteAnswer(later, request) ==
           (if first.kind == View && first.request == request then Promised(request.requestId) else Now(BlockedReceipt(request, RequestIdConflict)))
      && (forall env, uncaptured :: ExecuteFile(later, request, env, uncaptured) == later)
      && (forall env, uncaptured :: FileAnswer(later, request, env, uncaptured) ==
            if first.kind == View then TurnedDown(BlockedReceipt(request, RequestIdConflict))
            else if uncaptured.Some? then TurnedDown(AnonymousReceipt(uncaptured.value)) else Compares)
      && |later.receipts| <= MAX_RECEIPTS
  {
    ReachableInv(d);
    RunKeeps(d, events);
    assert Forward(d.receipts[request.requestId], Exec(d, events).receipts[request.requestId]);
  }

  /** A settled receipt is final. */
  lemma ReceiptsAreFinal(d: Doc, events: seq<Event>, id: RequestId)
    requires Reachable(d) && id in d.receipts && d.receipts[id].phase.Settled?
    ensures id in Exec(d, events).receipts && Exec(d, events).receipts[id].phase == d.receipts[id].phase
  {
    ReachableInv(d);
    RunKeeps(d, events);
    assert Forward(d.receipts[id], Exec(d, events).receipts[id]);
  }

  /**
   * A receipt that the catch block marks blocked, or that turned the request away, belongs to a request that is
   * never granted an effect in the whole run, before or after; one marked unknown had an effect granted.
   */
  lemma BlockedMeansUntouched(d: Doc, events: seq<Event>, id: RequestId)
    requires Reachable(d) && id in d.receipts && d.receipts[id].phase.Settled? && !d.receipts[id].phase.settlement.Finished?
    ensures
      var status := d.receipts[id].phase.settlement.receipt.outcome.status;
      var log := Exec(d, events).log;
      && (d.receipts[id].phase.settlement.TurnedAway? || status == Blocked ==>
            forall i :: 0 <= i < |log| ==> !(log[i].Granted? && log[i].id == id))
      && (d.receipts[id].phase.settlement.Caught? && status == UnknownOutcome ==>
            exists i :: 0 <= i < |log| && log[i].Granted? && log[i].id == id)
  {
    ReachableInv(d);
    ReachableOn(d, events);
    var later := Exec(d, events);
    ReachableInv(later);
    ReceiptsAreFinal(d, events, id);
    assert RunOk(later, id);
    assert HasGrant(later.log, id) || !later.receipts[id].effectStarted;
    forall i | 0 <= i < |later.log| && later.log[i].Granted? && later.log[i].id == id
      ensures later.receipts[id].effectStarted
    {
      assert ActOk(later, later.log[i]);
    }
  }

  /** Once a cancellation is accepted, no handler is entered and no effect granted for that id, ever. */
  lemma CancelledStaysCancelled(d: Doc, events: seq<Event>, id: RequestId)
    requires Reachable(d) && id in d.cancelled
    ensures
      var later := Exec(d, events);
      && d.log <= later.log
      && forall j :: |d.log| <= j < |later.log| ==> !WorkFor(later.log[j], id)
  {
    ReachableInv(d);
    RunKeeps(d, events);
    ReachableOn(d, events);
    var later := Exec(d, events);
    assert CancelAccepted(id) in d.log;
    var i :| 0 <= i < |d.log| && d.log[i] == CancelAccepted(id);
    forall j | |d.log| <= j < |later.log| ensures !WorkFor(later.log[j], id) {
      assert later.log[i] == CancelAccepted(id);
      if WorkFor(later.log[j], id) { WorkIsFenced(later, i, j, id); }
    }
  }
}
