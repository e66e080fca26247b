/**
 * The bindings that a page leaves behind in its login sessions, past and present: at most one that is unexpired in each, so
 * never more than one and the changes of login, whatever the network and the clocks do.
 */
module LoginSessions {
  import opened Outcomes
  import opened Lease
  import opened Registry
  import opened LeaseProtocol
  import opened LeaseProtocolSafety
  import opened LeaseProtocolTheorems

  /** A proof of this login session, still on its way, could create the binding. */
  predicate CanAdmit(w: World, session: nat, r: nat, c: nat, m: nat) {
    && c in w.server.challenges && Opens(w.server.challenges[c], r) && w.server.challenges[c].session == session
    && w.server.challenges[c].challenge.challengeExpiresAt > w.server.now
    && m in w.letters && w.letters[m].post == Prove(c) && w.letters[m].session == session
  }

  /** The binding is live in this login session, or a proof of that session can still make it so. */
  ghost predicate MayBeLiveIn(w: World, session: nat, r: nat) {
    Live(w.server, session, r) || exists c, m :: CanAdmit(w, session, r, c, m)
  }

  /** A proof whose signature is being verified was found to belong to its challenge's login session. */
  ghost predicate StartedOwn(w: World) {
    forall m :: m in w.letters && w.letters[m].started && w.letters[m].post.Prove? && w.letters[m].post.challengeId in w.server.challenges ==>
      w.server.challenges[w.letters[m].post.challengeId].session == w.letters[m].session
  }

  ghost predicate UniqueIn(w: World, session: nat) {
    forall r, q :: MayBeLiveIn(w, session, r) && MayBeLiveIn(w, session, q) ==> r == q
  }

  /** Everything in the world belongs to a login session since the given one. */
  ghost predicate Since(w: World, first: nat) {
    && first <= w.session
    && (forall m :: m in w.letters ==> first <= w.letters[m].session)
    && (forall c :: c in w.server.challenges ==> first <= w.server.challenges[c].session)
    && (forall r :: r in w.server.bindings ==> first <= w.server.bindings[r].session)
  }

  ghost predicate SessionsInv(w: World, first: nat) {
    && WorldInv(w) && StartedOwn(w) && Since(w, first)
    && (forall session: nat :: session <= w.session ==> UniqueIn(w, session))
  }

  // ---- The past does not come back

  lemma PresentIsUnique(w: World)
    requires WorldInv(w)
    ensures UniqueIn(w, w.session)
  {
    assert Unique(w);
    hide WorldInv, ServerOk;
    forall r | MayBeLiveIn(w, w.session, r) ensures MayBeLive(w, r) {
      if !Live(w.server, w.session, r) {
        var c, m :| CanAdmit(w, w.session, r, c, m);
        assert Admissible(w, w.session, r);
      }
    }
  }

  /** What a step can bring about in a login session: nothing that was not possible in it before. */
  ghost predicate Shrinks(w: World, w1: World, session: nat) {
    forall r :: MayBeLiveIn(w1, session, r) ==> MayBeLiveIn(w, session, r)
  }

  lemma PageShrinks(w: World, moved: Moved, session: nat)
    requires session < w.session
    ensures Shrinks(w, Deliver(w, moved), session)
  {
    var w1 := Deliver(w, moved);
    forall r | MayBeLiveIn(w1, session, r) ensures MayBeLiveIn(w, session, r) {
      if !Live(w1.server, session, r) {
        var c, m :| CanAdmit(w1, session, r, c, m);
        assert CanAdmit(w, session, r, c, m);
      }
    }
  }

  /** A server that keeps or forgets what it holds, and issues challenges nobody has a proof of yet. */
  lemma ServerShrinks(w: World, w1: World, session: nat)
    requires LettersOk(w) && OnlyIssues(w.server.(now := w1.server.now), w1.server) && w.server.now <= w1.server.now
    requires forall m :: m in w1.letters ==> m in w.letters && w1.letters[m].post == w.letters[m].post && w1.letters[m].session == w.letters[m].session
    ensures Shrinks(w, w1, session)
  {
    forall r | MayBeLiveIn(w1, session, r) ensures MayBeLiveIn(w, session, r) {
      if !Live(w1.server, session, r) {
        var c, m :| CanAdmit(w1, session, r, c, m);
        assert LetterOk(w, m);
        assert CanAdmit(w, session, r, c, m);
      }
    }
  }

  /** An admitted proof binds what it could admit before; a renewal keeps what was live. */
  lemma FinishShrinksIn(w: World, m: nat, verified: bool, room: bool, session: nat)
    requires StartedOwn(w) && ServerOk(w.server, w.session) && WorldEnabled(w, ServerFinishes(m, verified, room))
    ensures Shrinks(w, ServerFinishesStep(w, m, verified, room), session)
  {
    var w1 := ServerFinishesStep(w, m, verified, room);
    var c := w.letters[m].post.challengeId;
    forall r | MayBeLiveIn(w1, session, r) ensures MayBeLiveIn(w, session, r) {
      if Live(w1.server, session, r) {
        if !Live(w.server, session, r) { assert CanAdmit(w, session, r, c, m); }
      } else {
        var k, n :| CanAdmit(w1, session, r, k, n);
        assert CanAdmit(w, session, r, k, n);
      }
    }
  }

  lemma BeginOnlyIssues(w: World, m: nat, refusal: Option<Reason>)
    requires WorldEnabled(w, ServerBegins(m, refusal))
    ensures OnlyIssues(w.server, ServerBeginsStep(w, m, refusal).server)
  {
    match w.letters[m].post
    case BeginRegister(identity, key) =>
    case BeginRenew(registrationId, identity) => RenewalOnlyIssues(w.server, w.letters[m].session, registrationId, identity, refusal);
  }

  /** In a login session that is over, no step makes anything live or admissible. */
  lemma PastShrinks(w: World, e: WorldEvent, session: nat)
    requires WorldInv(w) && StartedOwn(w) && session < w.session
    ensures Shrinks(w, WorldStep(w, e), session)
  {
    InvParts(w);
    hide WorldInv, ServerOk, LettersOk, StartedOwn, OnlyIssues, Shrinks, LeaseStep, ChallengeArrives, AdmissionArrives, ServerBeginsStep, ServerFinishesStep, Prune;
    SameShrinks(w, session);
    if WorldEnabled(w, e) {
      var w1 := WorldStep(w, e);
      if e.PageMoves? {
        PageShrinks(w, LeaseStep(w.page, LeaseEventOf(e.move, w.env)), session);
      } else if e.PageHears? || e.PageGivesUp? {
        var alone := w.(awaited := None, reply := None);
        AloneShrinks(w, alone, session);
        AnswersShrink(w, alone, e, session);
      } else if e.ServerBegins? {
        BeginOnlyIssues(w, e.letter, e.refusal);
        BeginLetters(w, e.letter, e.refusal);
        ServerShrinks(w, w1, session);
      } else if e.ServerFinishes? {
        FinishShrinksIn(w, e.letter, e.verified, e.room, session);
      } else {
        QuietShrinks(w, e, session);
      }
    }
  }

  lemma InvParts(w: World)
    requires WorldInv(w)
    ensures ServerOk(w.server, w.session) && LettersOk(w)
  {}

  lemma SameShrinks(w: World, session: nat)
    ensures Shrinks(w, w, session)
  {}

  lemma AloneShrinks(w: World, alone: World, session: nat)
    requires alone == w.(awaited := None, reply := None)
    ensures forall r :: MayBeLiveIn(alone, session, r) ==> MayBeLiveIn(w, session, r)
  {
    forall r | MayBeLiveIn(alone, session, r) ensures MayBeLiveIn(w, session, r) {
      if !Live(w.server, session, r) {
        var c, m :| CanAdmit(alone, session, r, c, m);
        assert CanAdmit(w, session, r, c, m);
      }
    }
  }

  lemma AnswersShrink(w: World, alone: World, e: WorldEvent, session: nat)
    requires alone == w.(awaited := None, reply := None) && (e.PageHears? || e.PageGivesUp?) && WorldEnabled(w, e) && session < w.session
    requires forall r :: MayBeLiveIn(alone, session, r) ==> MayBeLiveIn(w, session, r)
    ensures Shrinks(w, WorldStep(w, e), session)
  {
    hide MayBeLiveIn, ChallengeArrives, AdmissionArrives, Deliver;
    var moved :=
      if e.PageHears? then
        if w.page.pass.AwaitChallenge? then ChallengeArrives(w.page, w.env, Lift(w.reply.value.challenge)) else AdmissionArrives(w.page, w.env, Lift(w.reply.value.admission))
      else
        if w.page.pass.AwaitChallenge? then ChallengeArrives(w.page, w.env, Err(e.error)) else AdmissionArrives(w.page, w.env, Err(e.error));
    PageShrinks(alone, moved, session);
  }

  lemma BeginLetters(w: World, m: nat, refusal: Option<Reason>)
    requires WorldEnabled(w, ServerBegins(m, refusal))
    ensures ServerBeginsStep(w, m, refusal).letters == w.letters - {m} && ServerBeginsStep(w, m, refusal).server.now == w.server.now
    ensures ServerBeginsStep(w, m, refusal).session == w.session
  {}

  /** The other steps only let the server forget and time pass. */
  lemma QuietShrinks(w: World, e: WorldEvent, session: nat)
    requires LettersOk(w) && WorldEnabled(w, e)
    requires e.ServerVerifies? || e.RouteRefuses? || e.ServerPrunes? || e.ServerRestarts? || e.TimePasses? || e.PageChanges? || e.LoginChanges?
    ensures Shrinks(w, WorldStep(w, e), session)
  {
    hide LettersOk, Shrinks, BeginProof;
    ServerShrinks(w, WorldStep(w, e), session);
  }

  // ---- Every step, every run

  lemma PageOwn(w: World, moved: Moved)
    requires StartedOwn(w)
    ensures StartedOwn(Deliver(w, moved))
  {}

  lemma AnswersOwn(w: World, e: WorldEvent)
    requires StartedOwn(w) && (e.PageHears? || e.PageGivesUp?) && WorldEnabled(w, e)
    ensures StartedOwn(WorldStep(w, e))
  {
    hide ChallengeArrives, AdmissionArrives, Deliver;
    var alone := w.(awaited := None, reply := None);
    assert StartedOwn(alone);
    var moved :=
      if e.PageHears? then
        if w.page.pass.AwaitChallenge? then ChallengeArrives(w.page, w.env, Lift(w.reply.value.challenge)) else AdmissionArrives(w.page, w.env, Lift(w.reply.value.admission))
      else
        if w.page.pass.AwaitChallenge? then ChallengeArrives(w.page, w.env, Err(e.error)) else AdmissionArrives(w.page, w.env, Err(e.error));
    PageOwn(alone, moved);
  }

  /** The server keeps or forgets, and begins to verify nothing. */
  lemma ServerOwn(w: World, w1: World)
    requires StartedOwn(w) && LettersOk(w)
    requires forall k :: k in w1.server.challenges ==> k >= w.server.nextId || (k in w.server.challenges && w1.server.challenges[k] == w.server.challenges[k])
    requires forall m :: m in w1.letters ==> m in w.letters && w1.letters[m] == w.letters[m]
    ensures StartedOwn(w1)
  {
    assert forall m :: m in w.letters ==> LetterOk(w, m);
  }

  lemma VerifiesOwn(w: World, m: nat)
    requires StartedOwn(w) && WorldEnabled(w, ServerVerifies(m))
    ensures StartedOwn(ServerVerifiesStep(w, m))
  {}

  lemma OwnStep(w: World, e: WorldEvent)
    requires WorldInv(w) && StartedOwn(w)
    ensures StartedOwn(WorldStep(w, e))
  {
    InvParts(w);
    hide WorldInv, ServerOk, LettersOk, StartedOwn, LeaseStep, Deliver, ServerBeginsStep, ServerVerifiesStep, FinishProof, PageHearsStep, PageGivesUpStep;
    if WorldEnabled(w, e) {
      if e.PageMoves? {
        PageOwn(w, LeaseStep(w.page, LeaseEventOf(e.move, w.env)));
      } else if e.PageHears? || e.PageGivesUp? {
        AnswersOwn(w, e);
      } else if e.ServerVerifies? {
        VerifiesOwn(w, e.letter);
      } else {
        if e.ServerBegins? {
          BeginOnlyIssues(w, e.letter, e.refusal);
          BeginLetters(w, e.letter, e.refusal);
        } else if e.ServerFinishes? {
          FinishForgets(w.server, w.letters[e.letter].post.challengeId, e.verified, e.room);
        }
        ServerOwn(w, WorldStep(w, e));
      }
    }
  }

  lemma FinishForgets(s: Server, c: nat, verified: bool, room: bool)
    ensures var s1 := FinishProof(s, c, verified, room).server;
      forall k :: k in s1.challenges ==> k in s.challenges && s1.challenges[k] == s.challenges[k]
  {}

  lemma SinceStep(w: World, e: WorldEvent, first: nat)
    requires Since(w, first)
    ensures Since(WorldStep(w, e), first)
  {
    hide LeaseStep, ChallengeArrives, AdmissionArrives;
  }

  lemma SessionsStep(w: World, e: WorldEvent, first: nat)
    requires SessionsInv(w, first)
    ensures SessionsInv(WorldStep(w, e), first)
  {
    var w1 := WorldStep(w, e);
    hide WorldInv, StartedOwn, Since, WorldStep, Shrinks;
    WorldStepKeeps(w, e);
    OwnStep(w, e);
    SinceStep(w, e, first);
    SessionMoves(w, e);
    PresentIsUnique(w1);
    forall session: nat | session <= w1.session ensures UniqueIn(w1, session) {
      if session < w1.session { PastStays(w, e, session); }
    }
  }

  lemma SessionMoves(w: World, e: WorldEvent)
    ensures WorldStep(w, e).session == if e.LoginChanges? then w.session + 1 else w.session
  {
    hide LeaseStep, ChallengeArrives, AdmissionArrives, ServerBeginsStep, ServerVerifiesStep, ServerFinishesStep;
    BeginSessions(w, e);
  }

  lemma BeginSessions(w: World, e: WorldEvent)
    ensures WorldEnabled(w, e) && e.ServerBegins? ==> ServerBeginsStep(w, e.letter, e.refusal).session == w.session
    ensures WorldEnabled(w, e) && e.ServerVerifies? ==> ServerVerifiesStep(w, e.letter).session == w.session
    ensures WorldEnabled(w, e) && e.ServerFinishes? ==> ServerFinishesStep(w, e.letter, e.verified, e.room).session == w.session
  {}

  lemma PastStays(w: World, e: WorldEvent, session: nat)
    requires WorldInv(w) && StartedOwn(w) && session < WorldStep(w, e).session && session <= w.session && UniqueIn(w, session)
    ensures UniqueIn(WorldStep(w, e), session)
  {
    hide WorldInv, StartedOwn, WorldStep, MayBeLiveIn;
    SessionMoves(w, e);
    if session < w.session {
      PastShrinks(w, e, session);
    } else {
      NewLoginShrinks(w, session);
    }
  }

  lemma NewLoginShrinks(w: World, session: nat)
    ensures Shrinks(w, WorldStep(w, LoginChanges), session)
  {
    forall r | MayBeLiveIn(WorldStep(w, LoginChanges), session, r) ensures MayBeLiveIn(w, session, r) {
      if !Live(w.server, session, r) {
        var c, m :| CanAdmit(WorldStep(w, LoginChanges), session, r, c, m);
        assert CanAdmit(w, session, r, c, m);
      }
    }
  }

  function Logins(events: seq<WorldEvent>): nat {
    if events == [] then 0 else (if events[0].LoginChanges? then 1 else 0) + Logins(events[1..])
  }

  lemma {:induction false} SessionsRun(w: World, events: seq<WorldEvent>, first: nat)
    requires SessionsInv(w, first)
    ensures SessionsInv(WorldExec(w, events), first) && WorldExec(w, events).session == w.session + Logins(events)
    decreases |events|
  {
    hide SessionsInv, WorldStep;
    if events != [] {
      SessionsStep(w, events[0], first);
      SessionMoves(w, events[0]);
      SessionsRun(WorldStep(w, events[0]), events[1..], first);
    }
  }

  lemma SessionsBegin(w: World)
    requires WorldInit(w)
    ensures SessionsInv(w, w.session)
  {}

  lemma LiveOnce(w: World, first: nat, session: nat, r: nat, q: nat)
    requires SessionsInv(w, first) && Live(w.server, session, r) && Live(w.server, session, q)
    ensures r == q && first <= session <= w.session
  {
    InvParts(w);
    hide WorldInv, StartedOwn, LettersOk, UniqueIn;
    LiveSession(w, session, r);
    assert UniqueIn(w, session);
    BothLive(w, session, r, q);
  }

  lemma LiveSession(w: World, session: nat, r: nat)
    requires ServerOk(w.server, w.session) && Live(w.server, session, r)
    ensures session <= w.session
  {}

  lemma BothLive(w: World, session: nat, r: nat, q: nat)
    requires UniqueIn(w, session) && Live(w.server, session, r) && Live(w.server, session, q)
    ensures r == q
  {
    assert MayBeLiveIn(w, session, r) && MayBeLiveIn(w, session, q);
  }

  /** In every reachable world two bindings of one login session, the present one or any before it, are the same. */
  lemma OneBindingPerLogin(start: World, events: seq<WorldEvent>, session: nat, r: nat, q: nat)
    requires WorldInit(start)
    requires Live(WorldExec(start, events).server, session, r) && Live(WorldExec(start, events).server, session, q)
    ensures r == q && start.session <= session <= start.session + Logins(events)
  {
    SessionsBegin(start);
    SessionsRun(start, events, start.session);
    hide WorldExec, WorldInit, SessionsInv;
    LiveOnce(WorldExec(start, events), start.session, session, r, q);
  }

  /** The bindings of the page that have not run out, of whatever login session. */
  function UnexpiredOnes(s: Server): set<nat> {
    set r | r in s.bindings && Unexpired(s, r)
  }

  lemma {:induction false} OneEach(rs: set<nat>, of: map<nat, nat>, first: nat, last: nat)
    requires rs <= of.Keys && (forall r :: r in rs ==> first <= of[r] < last) && first <= last
    requires forall r, q :: r in rs && q in rs && of[r] == of[q] ==> r == q
    ensures |rs| <= last - first
    decreases last - first
  {
    if first == last {
      assert rs == {};
    } else if r :| r in rs && of[r] == last - 1 {
      OneEach(rs - {r}, of, first, last - 1);
    } else {
      OneEach(rs, of, first, last - 1);
    }
  }

  /** A page has at most one unexpired binding for its first login and one more for each new one. */
  lemma BindingsPerLogin(start: World, events: seq<WorldEvent>)
    requires WorldInit(start)
    ensures |UnexpiredOnes(WorldExec(start, events).server)| <= 1 + Logins(events)
  {
    var s := WorldExec(start, events).server;
    var rs := UnexpiredOnes(s);
    var of := map r | r in s.bindings :: s.bindings[r].session;
    forall r | r in rs ensures start.session <= of[r] < start.session + Logins(events) + 1 {
      assert Live(s, of[r], r);
      OneBindingPerLogin(start, events, of[r], r, r);
    }
    forall r, q | r in rs && q in rs && of[r] == of[q] ensures r == q {
      assert Live(s, of[r], r) && Live(s, of[r], q);
      OneBindingPerLogin(start, events, of[r], r, q);
    }
    OneEach(rs, of, start.session, start.session + Logins(events) + 1);
  }
}
