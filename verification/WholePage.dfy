/** The parts of the whole page, and of the world, are reachable by themselves. */
module WholePage {
  import opened Outcomes
  import opened Commands
  import opened CommandsSafety
  import D = Document
  import DocumentTheorems
  import Lease
  import S = DocumentSafety
  import LeaseTheorems
  import opened LeaseProtocol
  import LeaseProtocolTheorems

  lemma DocumentStep(d: D.Doc, e: D.Event)
    requires S.Reachable(d)
    ensures S.Reachable(D.Step(d, e))
  {
    hide D.Step, S.Reachable;
    DocumentTheorems.ReachableOn(d, [e]);
    assert [e][0] == e && [e][1..] == [];
    assert D.Exec(d, [e]) == D.Exec(D.Step(d, e), []);
  }

  lemma {:induction false} LeaseAppends(l: Lease.LeaseState, first: seq<Lease.LeaseEvent>, last: Lease.LeaseEvent)
    ensures Lease.LeaseExec(l, first + [last]) == Lease.LeaseStep(Lease.LeaseExec(l, first), last).state
    decreases |first|
  {
    hide Lease.LeaseStep;
    if first == [] {
      assert [last][0] == last && [last][1..] == [];
    } else {
      assert (first + [last])[0] == first[0] && (first + [last])[1..] == first[1..] + [last];
      LeaseAppends(Lease.LeaseStep(l, first[0]).state, first[1..], last);
    }
  }

  lemma LeaseSteps(l: Lease.LeaseState, e: Lease.LeaseEvent)
    requires LeaseTheorems.ReachableLease(l)
    ensures LeaseTheorems.ReachableLease(Lease.LeaseStep(l, e).state)
  {
    hide Lease.LeaseStep, Lease.InitLease;
    var key, events :| l == Lease.LeaseExec(Lease.InitLease(key), events);
    LeaseAppends(Lease.InitLease(key), events, e);
  }

  /** What a segment of the transport does to the document, and to the lease. */
  lemma PartsStep(t: Tab, e: TabEvent)
    requires S.Reachable(t.doc) && LeaseTheorems.ReachableLease(t.lease)
    ensures S.Reachable(TabStep(t, e).doc) && LeaseTheorems.ReachableLease(TabStep(t, e).lease)
  {
    hide D.Step, D.Execute, D.ExecuteAnswer, D.Cancel, S.Reachable, Lease.LeaseStep, LeaseTheorems.ReachableLease, ExecutionRefusal, SigningRefusal,
         SettledAnswer, HearCommand, HearCancellation;
    match e
    case OnDocument(documentEvent) => DocumentStep(t.doc, documentEvent);
    case OnLease(leaseEvent) => LeaseSteps(t.lease, leaseEvent);
    case RetiresTransport => RetiringStep(t.lease);
    case GetsCancellation(command, _) => CancelStep(t.doc, command.request.requestId);
    case GetsDigest(nonce, _, _) => if nonce in t.flights { ExecuteStep(t.doc, t.flights[nonce].command.request); }
    case _ =>
  }

  lemma RetiringStep(l: Lease.LeaseState)
    requires LeaseTheorems.ReachableLease(l)
    ensures LeaseTheorems.ReachableLease(Lease.RetirePage(l))
  {
    LeaseSteps(l, Lease.Retires);
  }

  lemma CancelStep(d: D.Doc, id: RequestId)
    requires S.Reachable(d)
    ensures S.Reachable(D.Cancel(d, id))
  {
    DocumentStep(d, D.DoCancel(id));
  }

  lemma ExecuteStep(d: D.Doc, request: Request)
    requires S.Reachable(d)
    ensures S.Reachable(D.Execute(d, request)) && S.Reachable(D.Cancel(D.Execute(d, request), request.requestId))
  {
    DocumentStep(d, D.DoExecute(request));
    assert D.Step(d, D.DoExecute(request)) == D.Execute(d, request);
    CancelStep(D.Execute(d, request), request.requestId);
  }

  lemma {:induction false} PartsRun(t: Tab, events: seq<TabEvent>)
    requires S.Reachable(t.doc) && LeaseTheorems.ReachableLease(t.lease)
    ensures S.Reachable(TabExec(t, events).doc) && LeaseTheorems.ReachableLease(TabExec(t, events).lease)
    decreases |events|
  {
    hide TabStep, S.Reachable, LeaseTheorems.ReachableLease;
    if events != [] {
      PartsStep(t, events[0]);
      PartsRun(TabStep(t, events[0]), events[1..]);
    }
  }

  /** So every theorem about the runs of a document or of a lease holds of those of the page, whatever its commands do. */
  lemma PageParts(t: Tab)
    requires ReachableTab(t)
    ensures S.Reachable(t.doc) && LeaseTheorems.ReachableLease(t.lease)
  {
    var documentId, documentEpoch, key, events :| t == TabExec(InitTab(documentId, documentEpoch, key), events);
    assert D.Init(documentId, documentEpoch) == D.Exec(D.Init(documentId, documentEpoch), []);
    assert Lease.InitLease(key) == Lease.LeaseExec(Lease.InitLease(key), []);
    PartsRun(InitTab(documentId, documentEpoch, key), events);
  }

  // ---- The page in the world

  lemma AnswerSteps(w: World, challenge: Result<Lease.Challenge, Error>, admission: Result<Lease.Registration, Error>)
    requires LeaseTheorems.ReachableLease(w.page)
    ensures w.page.pass.AwaitChallenge? ==> LeaseTheorems.ReachableLease(Lease.ChallengeArrives(w.page, w.env, challenge).state)
    ensures w.page.pass.AwaitAdmission? ==> LeaseTheorems.ReachableLease(Lease.AdmissionArrives(w.page, w.env, admission).state)
  {
    hide LeaseTheorems.ReachableLease, Lease.ChallengeArrives, Lease.AdmissionArrives;
    LeaseSteps(w.page, Lease.GetsChallenge(w.env, challenge));
    LeaseSteps(w.page, Lease.GetsAdmission(w.env, admission));
  }

  lemma WorldPageStep(w: World, e: WorldEvent)
    requires LeaseTheorems.ReachableLease(w.page)
    ensures LeaseTheorems.ReachableLease(WorldStep(w, e).page)
  {
    hide LeaseTheorems.ReachableLease, Lease.LeaseStep, Lease.ChallengeArrives, Lease.AdmissionArrives, Lease.LeaseEnabled, LeaseEventOf;
    match e
    case PageMoves(move) => LeaseSteps(w.page, LeaseEventOf(move, w.env));
    case PageHears =>
      if w.reply.Some? {
        match w.reply.value
        case ChallengeReply(challenge) => AnswerSteps(w, Lift(challenge), Err(Thrown));
        case AdmissionReply(admission) => AnswerSteps(w, Err(Thrown), Lift(admission));
      }
    case PageGivesUp(error) => AnswerSteps(w, Err(error), Err(error));
    case _ =>
  }

  lemma {:induction false} WorldPageRun(w: World, events: seq<WorldEvent>)
    requires LeaseTheorems.ReachableLease(w.page)
    ensures LeaseTheorems.ReachableLease(WorldExec(w, events).page)
    decreases |events|
  {
    hide WorldStep, LeaseTheorems.ReachableLease;
    if events != [] {
      WorldPageStep(w, events[0]);
      WorldPageRun(WorldStep(w, events[0]), events[1..]);
    }
  }

  /** And every theorem about the runs of a lease holds of the page beside its registry, whatever the network does. */
  lemma WorldPart(w: World)
    requires LeaseProtocolTheorems.ReachableWorld(w)
    ensures LeaseTheorems.ReachableLease(w.page)
  {
    var start, events :| WorldInit(start) && w == WorldExec(start, events);
    assert start.page == Lease.LeaseExec(Lease.InitLease(start.page.key), []);
    WorldPageRun(start, events);
  }
}
