/** The bound per login session is attained: a page that logs in again cannot see its older binding, and makes another. */
module LoginChange {
  import opened Outcomes
  import opened Lease
  import opened Registry
  import opened LeaseProtocol
  import opened LeaseProtocolTheorems
  import opened LoginSessions

  /** The page, tracking nothing, has asked for a fresh registration; both clocks stand at 0. */
  ghost predicate Asking(w: World, id: Identity) {
    && w.page.alive && w.page.started && !w.page.again && w.page.registration.None? && w.page.candidates == []
    && w.page.pass == AwaitChallenge(Fresh, w.page.generation, id)
    && w.env == PageEnv(0, true, Ok(id), true) && w.server.now == 0
    && w.awaited.Some? && w.awaited.value < w.nextLetter && w.awaited.value in w.letters
    && w.letters[w.awaited.value] == Letter(w.session, BeginRegister(id, w.page.key), false)
    && (forall r :: r in w.server.bindings ==> r < w.server.nextId && Unexpired(w.server, r) && w.server.bindings[r].session < w.session)
  }

  function Drawn(w: World, id: Identity): Challenge {
    var n := w.server.nextId;
    Challenge(Register, Registration(id, Ref(n, n + 1, w.server.processId), LEASE_MS), n + 2, DEADLINE_MS, w.page.key)
  }

  /** The challenge is on its way back. */
  ghost predicate Issued(w: World, w1: World, id: Identity) {
    && w1 == w.(server := w1.server, letters := w1.letters, reply := Some(ChallengeReply(Ok(Drawn(w, id)))))
    && w1.server.now == 0 && w1.server.nextId == w.server.nextId + 3 && Drawn(w, id).challengeId in w1.server.challenges
    && w1.server.challenges[Drawn(w, id).challengeId] == Entry(Drawn(w, id), w.session, 0)
    && w1.server.bindings == w.server.bindings
  }

  lemma Issues(w: World, id: Identity)
    requires Asking(w, id)
    ensures Issued(w, WorldStep(w, ServerBegins(w.awaited.value, None)), id)
  {}

  /** The page has signed the challenge and posted the proof. */
  ghost predicate Proving(w: World, w3: World, id: Identity) {
    var ch := Drawn(w, id);
    && w3.env == w.env && w3.session == w.session && w3.server.now == 0 && w3.server.nextId == w.server.nextId + 3 && w3.nextLetter == w.nextLetter + 1
    && ch.challengeId in w3.server.challenges && w3.server.challenges[ch.challengeId] == Entry(ch, w.session, 0)
    && w3.server.bindings == w.server.bindings
    && w3.awaited == Some(w.nextLetter) && w.nextLetter in w3.letters && w3.letters[w.nextLetter].post == Prove(ch.challengeId)
    && w3.letters[w.nextLetter].session == w.session
    && w3.page.pass == AwaitAdmission(Fresh, w.page.generation, id, ch)
    && w3.page == w.page.(pass := w3.page.pass, log := w3.page.log, candidates := [Candidate(ch.challengeId, ch.binding.ref, DEADLINE_MS, LEASE_MS, DEADLINE_MS)])
  }

  lemma Proves(w: World, w1: World, id: Identity)
    requires Asking(w, id) && Issued(w, w1, id)
    ensures
      var w3 := WorldStep(WorldStep(w1, PageHears), PageMoves(MSigned(true)));
      Proving(w, w3, id) && w3.reply.None? && !w3.letters[w.nextLetter].started
  {
    var w2 := WorldStep(w1, PageHears);
    assert w2.page.pass == AwaitSignature(Fresh, w.page.generation, id, Drawn(w, id));
  }

  lemma Verifies(w: World, w3: World, id: Identity)
    requires Asking(w, id) && Proving(w, w3, id) && w3.reply.None? && !w3.letters[w.nextLetter].started
    ensures var w4 := WorldStep(w3, ServerVerifies(w.nextLetter)); Proving(w, w4, id) && w4.reply.None? && w4.letters[w.nextLetter].started
  {
    assert Prune(w3.server).bindings == w.server.bindings;
  }

  /** The binding is made, and the page has heard of it. */
  ghost predicate Bound(w: World, w6: World, id: Identity) {
    var ch := Drawn(w, id);
    && w6.env == w.env && w6.session == w.session && w6.server.now == 0 && w6.nextLetter == w.nextLetter + 1
    && w6.server.bindings == w.server.bindings[w.server.nextId := Binding(ch.binding, w.session, w.page.key, 0)]
    && w6.page == w.page.(pass := Reconciled(Fresh, id, Some(ch.binding)), log := w6.page.log, candidates := w6.page.candidates)
    && (forall c :: c in w6.page.candidates ==> c.ref == ch.binding.ref) && |w6.page.candidates| == 1
    && w6.server.nextId == w.server.nextId + 3
  }

  lemma Binds(w: World, w4: World, id: Identity)
    requires Asking(w, id) && Proving(w, w4, id) && w4.letters[w.nextLetter].started
    ensures Bound(w, WorldStep(WorldStep(w4, ServerFinishes(w.nextLetter, true, true)), PageHears), id)
  {
    var w5 := WorldStep(w4, ServerFinishes(w.nextLetter, true, true));
    assert w5.reply == Some(AdmissionReply(Ok(Drawn(w, id).binding)));
    assert Fence(w5.page, w5.env, w.page.generation, id).None?;
  }

  /** The page is idle, holding the registration it made. */
  ghost predicate Holding(w: World, w9: World, id: Identity) {
    var ch := Drawn(w, id);
    && w9.env == w.env && w9.session == w.session && w9.server.now == 0 && w9.nextLetter == w.nextLetter + 1
    && w9.server.bindings == w.server.bindings[w.server.nextId := Binding(ch.binding, w.session, w.page.key, 0)]
    && w9.server.nextId == w.server.nextId + 3
    && w9.page.alive && w9.page.started && !w9.page.again && w9.page.key == w.page.key && w9.page.pass == Idle
    && w9.page.registration == Some(ch.binding) && w9.page.candidates == []
  }

  lemma Holds(w: World, w6: World, id: Identity)
    requires Asking(w, id) && Bound(w, w6, id)
    ensures Holding(w, WorldStep(WorldStep(WorldStep(w6, PageMoves(MResume)), PageMoves(MSettle)), PageMoves(MUnwind)), id)
  {
    var w7 := WorldStep(w6, PageMoves(MResume));
    assert w6.page.candidates == [w6.page.candidates[0]] && w6.page.candidates[0] in w6.page.candidates;
    assert w6.page.candidates[1..] == [] && WithoutRegistration(w6.page.candidates[1..], w.server.nextId) == [];
    assert w7.page.candidates == [];
    var w8 := WorldStep(w7, PageMoves(MSettle));
    assert w8.page.pass == Unwinding;
  }

  /** After a new login the page looks for its registration and posts a renewal. */
  ghost predicate Looking(w: World, w11: World, id: Identity) {
    var ch := Drawn(w, id);
    && w11.env == w.env && w11.session == w.session + 1 && w11.server.now == 0
    && w11.server.bindings == w.server.bindings[w.server.nextId := Binding(ch.binding, w.session, w.page.key, 0)]
    && w11.server.nextId == w.server.nextId + 3
    && w11.page.alive && w11.page.started && !w11.page.again && w11.page.key == w.page.key
    && w11.page.registration == Some(ch.binding) && w11.page.candidates == []
    && w11.page.pass == AwaitChallenge(Current(ch.binding.ref), w11.page.generation, id)
    && w11.awaited.Some? && w11.awaited.value < w11.nextLetter && w11.awaited.value in w11.letters
    && w11.letters[w11.awaited.value] == Letter(w.session + 1, BeginRenew(w.server.nextId, id), false)
  }

  lemma Looks(w: World, w9: World, id: Identity)
    requires Asking(w, id) && Holding(w, w9, id)
    ensures Looking(w, WorldStep(WorldStep(w9, LoginChanges), PageMoves(MRefresh)), id)
  {
    var w10 := WorldStep(w9, LoginChanges);
    assert IdentityNow(w10.page, w10.env) == Ok(id);
  }

  /** The registry calls the older binding gone, and the page hears it. */
  lemma HearsGone(w: World, w11: World, id: Identity)
    requires Asking(w, id) && Looking(w, w11, id)
    ensures
      var w13 := WorldStep(WorldStep(w11, ServerBegins(w11.awaited.value, None)), PageHears);
      && w13 == w11.(page := w13.page, letters := w13.letters, awaited := None, reply := None, server := w13.server)
      && w13.server.bindings == w11.server.bindings && w13.server.nextId == w11.server.nextId && w13.server.now == 0
      && w13.page == w11.page.(pass := Reconciled(Current(Drawn(w, id).binding.ref), id, None))
  {
    assert Prune(w11.server).bindings == w11.server.bindings;
    var w12 := WorldStep(w11, ServerBegins(w11.awaited.value, None));
    assert w12.reply == Some(ChallengeReply(Err(StaleRegistration)));
    assert Fence(w12.page, w12.env, w12.page.generation, id).None?;
  }

  /** The page asks for a fresh registration beside the older binding. */
  lemma AsksAgain(w: World, w11: World, id: Identity)
    requires Asking(w, id) && Looking(w, w11, id)
    ensures
      var w14 := WorldStep(WorldStep(WorldStep(w11, ServerBegins(w11.awaited.value, None)), PageHears), PageMoves(MResume));
      Asking(w14, id) && w14.server.bindings == w11.server.bindings && w14.server.nextId == w11.server.nextId
  {
    HearsGone(w, w11, id);
    var w13 := WorldStep(WorldStep(w11, ServerBegins(w11.awaited.value, None)), PageHears);
    hide ChallengeArrives, ServerBeginsStep, PageHearsStep, Registry.Prune;
    AsksBeside(w, w11, w13, id);
  }

  lemma AsksBeside(w: World, w11: World, w13: World, id: Identity)
    requires Asking(w, id) && Looking(w, w11, id)
    requires
      && w13 == w11.(page := w13.page, letters := w13.letters, awaited := None, reply := None, server := w13.server)
      && w13.server.bindings == w11.server.bindings && w13.server.nextId == w11.server.nextId && w13.server.now == 0
      && w13.page == w11.page.(pass := Reconciled(Current(Drawn(w, id).binding.ref), id, None))
    ensures
      var w14 := WorldStep(w13, PageMoves(MResume));
      Asking(w14, id) && w14.server.bindings == w11.server.bindings && w14.server.nextId == w11.server.nextId
  {}

  /** The events by which an asked-for registration is made and heard of. */
  function Making(w: World): seq<WorldEvent>
    requires w.awaited.Some?
  {
    [ServerBegins(w.awaited.value, None), PageHears, PageMoves(MSigned(true)), ServerVerifies(w.nextLetter),
     ServerFinishes(w.nextLetter, true, true), PageHears]
  }

  lemma Makes(w: World, id: Identity)
    requires Asking(w, id)
    ensures Bound(w, WorldExec(w, Making(w)), id)
  {
    var w1 := WorldStep(w, ServerBegins(w.awaited.value, None));
    Issues(w, id);
    Proves(w, w1, id);
    var w3 := WorldStep(WorldStep(w1, PageHears), PageMoves(MSigned(true)));
    Verifies(w, w3, id);
    var w4 := WorldStep(w3, ServerVerifies(w.nextLetter));
    Binds(w, w4, id);
    hide WorldStep, WorldExec, Asking, Bound, Issued, Proving;
    var es := Making(w);
    Six(w, es);
    assert es[0] == ServerBegins(w.awaited.value, None) && es[1] == PageHears && es[2] == PageMoves(MSigned(true));
    assert es[3] == ServerVerifies(w.nextLetter) && es[4] == ServerFinishes(w.nextLetter, true, true) && es[5] == PageHears;
  }

  lemma Six(w: World, es: seq<WorldEvent>)
    requires |es| == 6
    ensures WorldExec(w, es) == WorldStep(WorldStep(WorldStep(WorldStep(WorldStep(WorldStep(w, es[0]), es[1]), es[2]), es[3]), es[4]), es[5])
  {
    hide WorldStep;
    var w1, s1 := WorldStep(w, es[0]), es[1..];
    assert WorldExec(w, es) == WorldExec(w1, s1);
    var w2, s2 := WorldStep(w1, s1[0]), s1[1..];
    assert WorldExec(w1, s1) == WorldExec(w2, s2);
    var w3, s3 := WorldStep(w2, s2[0]), s2[1..];
    assert WorldExec(w2, s2) == WorldExec(w3, s3);
    var w4, s4 := WorldStep(w3, s3[0]), s3[1..];
    assert WorldExec(w3, s3) == WorldExec(w4, s4);
    var w5, s5 := WorldStep(w4, s4[0]), s4[1..];
    assert WorldExec(w4, s4) == WorldExec(w5, s5);
    var w6, s6 := WorldStep(w5, s5[0]), s5[1..];
    assert WorldExec(w5, s5) == WorldExec(w6, s6);
  }

  /** From there to the next request for a fresh registration, with a new login in between. */
  const LOGGING_IN: seq<WorldEvent> :=
    [PageMoves(MResume), PageMoves(MSettle), PageMoves(MUnwind), LoginChanges, PageMoves(MRefresh)]

  lemma LogsIn(w: World, w6: World, id: Identity)
    requires Asking(w, id) && Bound(w, w6, id)
    ensures Looking(w, WorldExec(w6, LOGGING_IN), id)
  {
    var w9 := WorldStep(WorldStep(WorldStep(w6, PageMoves(MResume)), PageMoves(MSettle)), PageMoves(MUnwind));
    Holds(w, w6, id);
    Looks(w, w9, id);
    hide WorldStep, WorldExec, Asking, Bound, Holding, Looking;
    Five(w6, LOGGING_IN);
  }

  lemma Five(w: World, es: seq<WorldEvent>)
    requires |es| == 5
    ensures WorldExec(w, es) == WorldStep(WorldStep(WorldStep(WorldStep(WorldStep(w, es[0]), es[1]), es[2]), es[3]), es[4])
  {
    hide WorldStep;
    var w1, s1 := WorldStep(w, es[0]), es[1..];
    assert WorldExec(w, es) == WorldExec(w1, s1);
    var w2, s2 := WorldStep(w1, s1[0]), s1[1..];
    assert WorldExec(w1, s1) == WorldExec(w2, s2);
    var w3, s3 := WorldStep(w2, s2[0]), s2[1..];
    assert WorldExec(w2, s2) == WorldExec(w3, s3);
    var w4, s4 := WorldStep(w3, s3[0]), s3[1..];
    assert WorldExec(w3, s3) == WorldExec(w4, s4);
    var w5, s5 := WorldStep(w4, s4[0]), s4[1..];
    assert WorldExec(w4, s4) == WorldExec(w5, s5);
  }

  lemma Three(w: World, es: seq<WorldEvent>)
    requires |es| == 3
    ensures WorldExec(w, es) == WorldStep(WorldStep(WorldStep(w, es[0]), es[1]), es[2])
  {
    hide WorldStep;
    var w1, s1 := WorldStep(w, es[0]), es[1..];
    assert WorldExec(w, es) == WorldExec(w1, s1);
    var w2, s2 := WorldStep(w1, s1[0]), s1[1..];
    assert WorldExec(w1, s1) == WorldExec(w2, s2);
    var w3, s3 := WorldStep(w2, s2[0]), s2[1..];
    assert WorldExec(w2, s2) == WorldExec(w3, s3);
  }

  lemma {:induction false} ExecAppends(w: World, first: seq<WorldEvent>, second: seq<WorldEvent>)
    ensures WorldExec(w, first + second) == WorldExec(WorldExec(w, first), second)
    decreases |first|
  {
    hide WorldStep;
    if first == [] {
      assert first + second == second;
    } else {
      assert (first + second)[0] == first[0] && (first + second)[1..] == first[1..] + second;
      ExecAppends(WorldStep(w, first[0]), first[1..], second);
    }
  }

  function Fresh0(key: Key): World {
    World(InitLease(key), PageEnv(0, true, Err(StaleSession), true), Server(0, 0, map[], map[], 0), 0, map[], 0, None, None)
  }

  lemma Begins(key: Key, id: Identity)
    ensures WorldInit(Fresh0(key))
    ensures Asking(WorldExec(Fresh0(key), [PageChanges(true, Ok(id), true), PageMoves(MStart)]), id)
  {
    var es := [PageChanges(true, Ok(id), true), PageMoves(MStart)];
    var w1 := WorldStep(Fresh0(key), es[0]);
    assert WorldExec(Fresh0(key), es) == WorldExec(w1, es[1..]) == WorldStep(w1, es[1]);
  }

  lemma RoundLogsInOnce(w: World, again: seq<WorldEvent>)
    requires w.awaited.Some? && LoginChanges !in again
    ensures Logins(Making(w) + (LOGGING_IN + again)) == 1
  {
    LoginsAppend(Making(w), LOGGING_IN + again);
    LoginsAppend(LOGGING_IN, again);
    NoLogins(again);
    MakesOne(w);
    assert LOGGING_IN == LOGGING_IN[..3] + ([LoginChanges] + LOGGING_IN[4..]);
    LoginsAppend(LOGGING_IN[..3], [LoginChanges] + LOGGING_IN[4..]);
    NoLogins(LOGGING_IN[..3]);
    NoLogins(LOGGING_IN[4..]);
    assert ([LoginChanges] + LOGGING_IN[4..])[1..] == LOGGING_IN[4..];
  }

  /** One round: the registration asked for is made, and after a new login another one is asked for beside it. */
  lemma Round(w: World, id: Identity) returns (events: seq<WorldEvent>)
    requires Asking(w, id)
    ensures Logins(events) == 1
    ensures var after := WorldExec(w, events);
      && Asking(after, id) && after.server.nextId > w.server.nextId
      && after.server.bindings.Keys == w.server.bindings.Keys + {w.server.nextId}
  {
    var w6 := WorldExec(w, Making(w));
    Makes(w, id);
    var w11 := WorldExec(w6, LOGGING_IN);
    LogsIn(w, w6, id);
    var again := [ServerBegins(w11.awaited.value, None), PageHears, PageMoves(MResume)];
    AsksAgain(w, w11, id);
    Three(w11, again);
    ExecAppends(w6, LOGGING_IN, again);
    ExecAppends(w, Making(w), LOGGING_IN + again);
    events := Making(w) + (LOGGING_IN + again);
    RoundLogsInOnce(w, again);
    hide WorldStep, WorldExec;
  }

  lemma {:induction false} LoginsAppend(first: seq<WorldEvent>, second: seq<WorldEvent>)
    ensures Logins(first + second) == Logins(first) + Logins(second)
    decreases |first|
  {
    if first == [] {
      assert first + second == second;
    } else {
      assert (first + second)[0] == first[0] && (first + second)[1..] == first[1..] + second;
      LoginsAppend(first[1..], second);
    }
  }

  /** As many rounds as logins, and the page asks for the next registration. */
  lemma {:induction false} Rounds(key: Key, id: Identity, n: nat) returns (events: seq<WorldEvent>)
    ensures Logins(events) == n
    ensures var w := WorldExec(Fresh0(key), events); Asking(w, id) && |w.server.bindings| == n
  {
    if n == 0 {
      Begins(key, id);
      events := [PageChanges(true, Ok(id), true), PageMoves(MStart)];
      BeginsEmpty(key, id);
      NoLogins(events);
    } else {
      var before := Rounds(key, id, n - 1);
      var w := WorldExec(Fresh0(key), before);
      var more := Round(w, id);
      ExecAppends(Fresh0(key), before, more);
      LoginsAppend(before, more);
      events := before + more;
      Counts(w, WorldExec(w, more));
      hide WorldExec, WorldStep;
    }
  }

  /**
   * Each new login may leave one more unexpired binding of the same page behind, until the user's share of the registry is
   * full, which is at sixteen: so many logins, and one binding more than that.
   */
  lemma EveryLoginMayLeaveABinding(key: Key, id: Identity, n: nat) returns (events: seq<WorldEvent>)
    requires 1 <= n <= 16
    ensures WorldInit(Fresh0(key))
    ensures |UnexpiredOnes(WorldExec(Fresh0(key), events).server)| == n == 1 + Logins(events)
  {
    hide WorldExec, WorldStep, Asking, Bound;
    var before := Rounds(key, id, n - 1);
    var w := WorldExec(Fresh0(key), before);
    AsksSomething(w, id);
    Makes(w, id);
    Starts0(key);
    ExecAppends(Fresh0(key), before, Making(w));
    LoginsAppend(before, Making(w));
    MakesOne(w);
    events := before + Making(w);
    OneMore(w, WorldExec(w, Making(w)), id);
  }

  lemma AsksSomething(w: World, id: Identity)
    requires Asking(w, id)
    ensures w.awaited.Some?
  {}

  lemma Starts0(key: Key)
    ensures WorldInit(Fresh0(key))
  {}

  lemma OneMore(w: World, after: World, id: Identity)
    requires Asking(w, id) && Bound(w, after, id)
    ensures |UnexpiredOnes(after.server)| == |w.server.bindings| + 1
  {
    Counts(w, after);
    AllUnexpired(w.server, after.server, w.server.nextId, after.server.bindings[w.server.nextId]);
  }

  lemma AllUnexpired(s: Server, s1: Server, r: nat, binding: Binding)
    requires s1.now == s.now < binding.registration.expiresAt && s1.bindings == s.bindings[r := binding]
    requires forall q :: q in s.bindings ==> Unexpired(s, q)
    ensures |UnexpiredOnes(s1)| == |s1.bindings|
  {
    assert UnexpiredOnes(s1) == s1.bindings.Keys;
    assert |s1.bindings.Keys| == |s1.bindings|;
  }

  lemma MakesOne(w: World)
    requires w.awaited.Some?
    ensures Logins(Making(w)) == 0
  {
    var es := Making(w);
    assert es[1..][1..][1..][1..][1..][1..] == [];
    assert forall i :: 0 <= i < 6 ==> !es[i].LoginChanges?;
    NoLogins(es);
  }

  lemma {:induction false} NoLogins(events: seq<WorldEvent>)
    requires LoginChanges !in events
    ensures Logins(events) == 0
  {
    if events != [] { NoLogins(events[1..]); }
  }

  lemma BeginsEmpty(key: Key, id: Identity)
    ensures WorldExec(Fresh0(key), [PageChanges(true, Ok(id), true), PageMoves(MStart)]).server.bindings == map[]
  {
    var es := [PageChanges(true, Ok(id), true), PageMoves(MStart)];
    var w1 := WorldStep(Fresh0(key), es[0]);
    assert WorldExec(Fresh0(key), es) == WorldExec(w1, es[1..]) == WorldStep(w1, es[1]);
  }

  lemma Counts(w: World, after: World)
    requires after.server.bindings.Keys == w.server.bindings.Keys + {w.server.nextId} && w.server.nextId !in w.server.bindings
    ensures |after.server.bindings| == |w.server.bindings| + 1
  {}
}
