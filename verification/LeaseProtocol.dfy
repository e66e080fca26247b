/** One page, the registry and the network between them: requests travel, arrive late, are lost or answered too late. */
module LeaseProtocol {
  import opened Outcomes
  import opened Lease
  import opened Registry

  /** A request on its way, or (`started`) whose signature the server is verifying. */
  datatype Letter = Letter(session: nat, post: Post, started: bool)

  datatype Reply = ChallengeReply(challenge: Result<Challenge, Reason>) | AdmissionReply(admission: Result<Registration, Reason>)

  /**
   * `session` is the login session the page's cookies carry now. `awaited` is the request whose answer the page
   * still waits for and `reply` that answer on its way back; answers to any other request are ignored.
   */
  datatype World = World(page: LeaseState, env: PageEnv, server: Server, session: nat, letters: map<nat, Letter>, nextLetter: nat,
                         awaited: Option<nat>, reply: Option<Reply>)

  /** The page's next segment, other than one that hears an answer. */
  datatype PageMove = MStart | MRefresh | MTimer | MSigned(ok: bool) | MResume | MSettle | MUnwind | MReceiveFails(reason: Reason) | MRetire

  datatype WorldEvent =
    | PageMoves(move: PageMove)
    | PageHears
    | PageGivesUp(error: Error)  // the answer is lost, late, malformed or a `transport_failed`
    | ServerBegins(letter: nat, refusal: Option<Reason>)
    | ServerVerifies(letter: nat)
    | ServerFinishes(letter: nat, verified: bool, room: bool)
    | RouteRefuses(letter: nat, reason: Reason)
    | ServerPrunes
    | ServerRestarts
    | TimePasses(pageMs: nat, serverMs: nat)
    | PageChanges(mounted: bool, identity: Result<Identity, Reason>, connected: bool)
    | LoginChanges

  function LeaseEventOf(move: PageMove, env: PageEnv): LeaseEvent {
    match move
    case MStart => Starts(env)
    case MRefresh => Refreshes(env)
    case MTimer => TimerRings(env)
    case MSigned(ok) => GetsSignature(env, ok)
    case MResume => Resumes(env)
    case MSettle => Settles
    case MUnwind => Unwinds(env)
    case MReceiveFails(reason) => ReceiveFails(reason)
    case MRetire => Retires
  }

  /** Takes over the page's state after a segment and sends what it posted. */
  function Deliver(w: World, moved: Moved): World {
    if moved.post.None? then w.(page := moved.state)
    else w.(page := moved.state, letters := w.letters[w.nextLetter := Letter(w.session, moved.post.value, false)],
            nextLetter := w.nextLetter + 1, awaited := Some(w.nextLetter), reply := None)
  }

  /** The server is done with a request; only an awaited answer matters. */
  function Respond(w: World, letter: nat, server: Server, reply: Reply): World {
    w.(server := server, letters := w.letters - {letter}, reply := if w.awaited == Some(letter) then Some(reply) else w.reply)
  }

  function Lift<T>(answer: Result<T, Reason>): Result<T, Error> {
    match answer
    case Ok(value) => Ok(value)
    case Err(reason) => Err(Refused(reason))
  }

  predicate Lost(error: Error) {
    error == Thrown || error == Refused(TransportFailed)
  }

  predicate WorldEnabled(w: World, e: WorldEvent) {
    match e
    case PageMoves(move) => LeaseEnabled(w.page, LeaseEventOf(move, w.env))
    case PageHears =>
      || (w.page.pass.AwaitChallenge? && w.reply.Some? && w.reply.value.ChallengeReply?)
      || (w.page.pass.AwaitAdmission? && w.reply.Some? && w.reply.value.AdmissionReply?)
    case PageGivesUp(error) => Lost(error) && (w.page.pass.AwaitChallenge? || w.page.pass.AwaitAdmission?)
    case ServerBegins(letter, refusal) =>
      letter in w.letters && !w.letters[letter].post.Prove? && (refusal.Some? ==> refusal.value != StaleRegistration)
    case ServerVerifies(letter) => letter in w.letters && w.letters[letter].post.Prove? && !w.letters[letter].started
    case ServerFinishes(letter, _, _) => letter in w.letters && w.letters[letter].post.Prove? && w.letters[letter].started
    case RouteRefuses(letter, reason) => letter in w.letters && !w.letters[letter].started && reason != StaleRegistration
    case TimePasses(pageMs, serverMs) => 5 * pageMs <= 6 * serverMs
    case _ => true
  }

  function PageHearsStep(w: World): World
    requires WorldEnabled(w, PageHears)
  {
    var heard := w.(awaited := None, reply := None);
    if w.page.pass.AwaitChallenge? then Deliver(heard, ChallengeArrives(w.page, w.env, Lift(w.reply.value.challenge)))
    else Deliver(heard, AdmissionArrives(w.page, w.env, Lift(w.reply.value.admission)))
  }

  function PageGivesUpStep(w: World, error: Error): World
    requires WorldEnabled(w, PageGivesUp(error))
  {
    var alone := w.(awaited := None, reply := None);
    if w.page.pass.AwaitChallenge? then Deliver(alone, ChallengeArrives(w.page, w.env, Err(error)))
    else Deliver(alone, AdmissionArrives(w.page, w.env, Err(error)))
  }

  function ServerBeginsStep(w: World, letter: nat, refusal: Option<Reason>): World
    requires letter in w.letters && !w.letters[letter].post.Prove?
  {
    var session := w.letters[letter].session;
    match w.letters[letter].post
    case BeginRegister(identity, key) =>
      var done := BeginRegistration(w.server, session, identity, key, refusal);
      Respond(w, letter, done.server, ChallengeReply(done.answer))
    case BeginRenew(registrationId, identity) =>
      var done := BeginRenewal(w.server, session, registrationId, identity, refusal);
      Respond(w, letter, done.server, ChallengeReply(done.answer))
  }

  function ServerVerifiesStep(w: World, letter: nat): World
    requires letter in w.letters && w.letters[letter].post.Prove?
  {
    var server := Prune(w.server);
    var refusal := BeginProof(server, w.letters[letter].session, w.letters[letter].post.challengeId);
    if refusal.Some? then Respond(w, letter, server, AdmissionReply(Err(refusal.value)))
    else w.(server := server, letters := w.letters[letter := w.letters[letter].(started := true)])
  }

  function ServerFinishesStep(w: World, letter: nat, verified: bool, room: bool): World
    requires letter in w.letters && w.letters[letter].post.Prove?
  {
    var done := FinishProof(w.server, w.letters[letter].post.challengeId, verified, room);
    Respond(w, letter, done.server, AdmissionReply(done.answer))
  }

  function WorldStep(w: World, e: WorldEvent): World {
    if !WorldEnabled(w, e) then w else
    match e
    case PageMoves(move) => Deliver(w, LeaseStep(w.page, LeaseEventOf(move, w.env)))
    case PageHears => PageHearsStep(w)
    case PageGivesUp(error) => PageGivesUpStep(w, error)
    case ServerBegins(letter, refusal) => ServerBeginsStep(w, letter, refusal)
    case ServerVerifies(letter) => ServerVerifiesStep(w, letter)
    case ServerFinishes(letter, verified, room) => ServerFinishesStep(w, letter, verified, room)
    case RouteRefuses(letter, reason) =>
      Respond(w, letter, w.server, if w.letters[letter].post.Prove? then AdmissionReply(Err(reason)) else ChallengeReply(Err(reason)))
    case ServerPrunes => w.(server := Prune(w.server))
    case ServerRestarts =>
      w.(server := Restart(w.server), letters := map m | m in w.letters && !w.letters[m].started :: w.letters[m])
    case TimePasses(pageMs, serverMs) => w.(env := w.env.(now := w.env.now + pageMs), server := w.server.(now := w.server.now + serverMs))
    case PageChanges(mounted, identity, connected) => w.(env := PageEnv(w.env.now, mounted, identity, connected))
    case LoginChanges => w.(session := w.session + 1)
  }

  function WorldExec(w: World, events: seq<WorldEvent>): World
    decreases |events|
  {
    if events == [] then w else WorldExec(WorldStep(w, events[0]), events[1..])
  }

  predicate WorldInit(w: World) {
    && w.page == InitLease(w.page.key)
    && w.server.bindings == map[] && w.server.challenges == map[]
    && w.letters == map[] && w.awaited.None? && w.reply.None?
  }

  // ---- What the server holds or may still come to hold

  /** A binding the server would honour for the given login session. */
  predicate Live(s: Server, session: nat, registrationId: nat) {
    Owned(s, session, registrationId)
  }

  /** A proof on its way could still create this binding. */
  ghost predicate Admissible(w: World, session: nat, registrationId: nat) {
    exists c, m ::
      && c in w.server.challenges && Opens(w.server.challenges[c], registrationId) && w.server.challenges[c].session == session
      && w.server.challenges[c].challenge.challengeExpiresAt > w.server.now
      && m in w.letters && w.letters[m].post == Prove(c)
  }

  /** The challenge entry is for creating the given registration. */
  predicate Opens(entry: Entry, registrationId: nat) {
    entry.challenge.kind == Register && entry.challenge.binding.ref.registrationId == registrationId
  }

  ghost predicate MayBeLive(w: World, registrationId: nat) {
    Live(w.server, w.session, registrationId) || Admissible(w, w.session, registrationId)
  }

  /** The page remembers this registration id, as its registration or as a candidate's. */
  predicate Tracks(l: LeaseState, registrationId: nat) {
    || (l.registration.Some? && l.registration.value.ref.registrationId == registrationId)
    || (exists c :: c in l.candidates && c.ref.registrationId == registrationId)
  }
}
