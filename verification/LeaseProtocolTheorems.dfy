/** What lease maintenance guarantees at the server, over every run. */
module LeaseProtocolTheorems {
  import opened Outcomes
  import opened Lease
  import opened Registry
  import opened LeaseProtocol
  import opened LeaseProtocolSafety
  import LeaseSafety

  ghost predicate ReachableWorld(w: World) {
    exists start, events :: WorldInit(start) && w == WorldExec(start, events)
  }

  lemma InitHolds(w: World)
    requires WorldInit(w)
    ensures WorldInv(w)
  {}

  lemma ReachableWorldInv(w: World)
    requires ReachableWorld(w)
    ensures WorldInv(w)
  {
    hide WorldInv;
    var start, events :| WorldInit(start) && w == WorldExec(start, events);
    InitHolds(start);
    WorldRunKeeps(start, events);
  }

  /** A page never holds two live bindings in its login session, whatever answers are lost or late. */
  lemma AtMostOneLiveBinding(w: World, r: nat, q: nat)
    requires ReachableWorld(w) && Live(w.server, w.session, r) && Live(w.server, w.session, q)
    ensures r == q
  {
    ReachableWorldInv(w);
    assert MayBeLive(w, r) && MayBeLive(w, q);
  }

  /** Nor can a proof still on its way make a second one: what it may create is the live binding or the only candidate. */
  lemma NoSecondBindingOnItsWay(w: World, r: nat, q: nat)
    requires ReachableWorld(w) && Admissible(w, w.session, r) && (Live(w.server, w.session, q) || Admissible(w, w.session, q))
    ensures r == q
  {
    ReachableWorldInv(w);
    assert MayBeLive(w, r) && MayBeLive(w, q);
  }

  /** Every binding that is live, or that a proof on its way can still create, is the page's registration or a candidate's. */
  lemma LiveIsTracked(w: World, r: nat)
    requires ReachableWorld(w) && w.page.alive && (Live(w.server, w.session, r) || Admissible(w, w.session, r))
    ensures Tracks(w.page, r)
  {
    ReachableWorldInv(w);
    assert MayBeLive(w, r);
  }

  /**
   * A fresh registration is asked for only when the page tracks nothing and no binding of its login session is live
   * or can still become live.
   */
  lemma FreshOnlyWhenAllIsGone(w: World, e: WorldEvent, r: nat)
    requires ReachableWorld(w) && AsksFresh(w, WorldStep(w, e))
    ensures var w1 := WorldStep(w, e); w1.page.registration.None? && w1.page.candidates == [] && !MayBeLive(w1, r)
  {
    hide WorldInv, WorldStep;
    ReachableWorldInv(w);
    WorldStepKeeps(w, e);
    AskingPage(w, e);
    FreshState(WorldStep(w, e), r);
  }

  /** The step put a new `register` request on its way. */
  predicate AsksFresh(w: World, w1: World) {
    w1.nextLetter > w.nextLetter && w.nextLetter in w1.letters && w1.letters[w.nextLetter].post.BeginRegister?
  }

  /** Only a live page posts, and it then waits for the answer. */
  lemma PostingPage(l: LeaseState, e: LeaseEvent)
    requires LeaseSafety.LeaseInv(l) && LeaseStep(l, e).post.Some?
    ensures LeaseStep(l, e).state.alive
    ensures LeaseStep(l, e).post.value.BeginRegister? ==> LeaseStep(l, e).state.pass.AwaitChallenge? && LeaseStep(l, e).state.pass.stage.Fresh?
  {
    if e.Resumes? && l.pass.binding.None? {
      LeaseSafety.GoneClears(l);
    }
    hide LeaseSafety.LeaseInv, CheckedChallenge, Waiting, Latest;
  }

  lemma AskingPage(w: World, e: WorldEvent)
    requires WorldInv(w) && AsksFresh(w, WorldStep(w, e))
    ensures var l := WorldStep(w, e).page; l.alive && l.pass.AwaitChallenge? && l.pass.stage.Fresh?
  {
    assert LeaseSafety.LeaseInv(w.page);
    hide WorldInv, LeaseSafety.LeaseInv, LeaseStep, ChallengeArrives, AdmissionArrives;
    if e.PageMoves? {
      PostingPage(w.page, LeaseEventOf(e.move, w.env));
    } else if e.PageHears? || e.PageGivesUp? {
      AnswersPostNothing(w.page, w.env);
    }
  }

  lemma AnswersPostNothing(l: LeaseState, env: PageEnv)
    ensures l.pass.AwaitChallenge? ==> forall answer :: ChallengeArrives(l, env, answer).post.None?
    ensures l.pass.AwaitAdmission? ==> forall answer :: AdmissionArrives(l, env, answer).post.None?
  {
    hide Fence, CheckedChallenge, WithoutChallenge;
  }

  lemma FreshState(w: World, r: nat)
    requires WorldInv(w) && w.page.alive && w.page.pass.AwaitChallenge? && w.page.pass.stage.Fresh?
    ensures w.page.registration.None? && w.page.candidates == [] && !MayBeLive(w, r)
  {
    assert LeaseSafety.PassFits(w.page);
    assert MayBeLive(w, r) ==> Tracks(w.page, r);
    hide MayBeLive;
  }

  // ---- The login session

  /** Everything in the world belongs to one login session. */
  ghost predicate OneSession(w: World, session: nat) {
    && w.session == session
    && (forall m :: m in w.letters ==> w.letters[m].session == session)
    && (forall c :: c in w.server.challenges ==> w.server.challenges[c].session == session)
    && (forall r :: r in w.server.bindings ==> w.server.bindings[r].session == session)
  }

  lemma ServerSession(w: World, e: WorldEvent, session: nat)
    requires OneSession(w, session) && WorldEnabled(w, e) && (e.ServerBegins? || e.ServerVerifies? || e.ServerFinishes?)
    ensures OneSession(WorldStep(w, e), session)
  {}

  lemma SessionStep(w: World, e: WorldEvent, session: nat)
    requires OneSession(w, session) && !e.LoginChanges?
    ensures OneSession(WorldStep(w, e), session)
  {
    if WorldEnabled(w, e) {
      if e.ServerBegins? || e.ServerVerifies? || e.ServerFinishes? {
        ServerSession(w, e, session);
      } else {
        hide LeaseStep, ChallengeArrives, AdmissionArrives, ServerBeginsStep, ServerVerifiesStep, ServerFinishesStep;
      }
    }
  }

  lemma {:induction false} SessionRun(w: World, events: seq<WorldEvent>, session: nat)
    requires OneSession(w, session) && LoginChanges !in events
    ensures OneSession(WorldExec(w, events), session)
    decreases |events|
  {
    hide OneSession, WorldStep;
    if events != [] {
      SessionStep(w, events[0], session);
      SessionRun(WorldStep(w, events[0]), events[1..], session);
    }
  }

  /** The server holds the binding and its lease has not run out, whoever asks. */
  predicate Unexpired(s: Server, r: nat) {
    r in s.bindings && s.bindings[r].registration.expiresAt > s.now
  }

  /** While the page's login session does not change, at most one binding is unexpired at all. */
  lemma OneBindingPerPage(start: World, events: seq<WorldEvent>, r: nat, q: nat)
    requires WorldInit(start) && LoginChanges !in events
    requires Unexpired(WorldExec(start, events).server, r) && Unexpired(WorldExec(start, events).server, q)
    ensures r == q
  {
    var w := WorldExec(start, events);
    SessionRun(start, events, start.session);
    AtMostOneLiveBinding(w, r, q);
  }
}
