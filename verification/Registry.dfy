/** The server's in-memory registry of page registrations, as far as one page can reach it. */
module Registry {
  import opened Outcomes
  import opened Lease

  /** `session` numbers the login session of the request; `revision` counts the renewals admitted. */
  datatype Binding = Binding(registration: Registration, session: nat, key: Key, revision: nat)

  datatype Entry = Entry(challenge: Challenge, session: nat, baseRevision: nat)

  /** Fresh identifiers are drawn from `nextId`; `now` is the server's own clock. */
  datatype Server = Server(now: int, processId: nat, bindings: map<nat, Binding>, challenges: map<nat, Entry>, nextId: nat)

  datatype Answered<+T> = Answered(server: Server, answer: Result<T, Reason>)

  function Prune(s: Server): Server {
    s.(challenges := map c | c in s.challenges && s.challenges[c].challenge.challengeExpiresAt > s.now :: s.challenges[c],
       bindings := map r | r in s.bindings && s.bindings[r].registration.expiresAt > s.now :: s.bindings[r])
  }

  predicate Owned(s: Server, session: nat, registrationId: nat) {
    registrationId in s.bindings && s.bindings[registrationId].registration.expiresAt > s.now && s.bindings[registrationId].session == session
  }

  function Issue(s: Server, challenge: Challenge, session: nat, baseRevision: nat): Answered<Challenge> {
    Answered(s.(challenges := s.challenges[challenge.challengeId := Entry(challenge, session, baseRevision)]), Ok(challenge))
  }

  /** `refusal` is a refusal for capacity, a malformed key or a session the user does not own. */
  function BeginRegistration(s0: Server, session: nat, identity: Identity, key: Key, refusal: Option<Reason>): Answered<Challenge> {
    var s := Prune(s0);
    if refusal.Some? then Answered(s, Err(refusal.value))
    else
      var ref := Ref(s.nextId, s.nextId + 1, s.processId);
      var challenge := Challenge(Register, Registration(identity, ref, s.now + LEASE_MS), s.nextId + 2, s.now + DEADLINE_MS, key);
      Issue(s.(nextId := s.nextId + 3), challenge, session, 0)
  }

  function BeginRenewal(s0: Server, session: nat, registrationId: nat, identity: Identity, refusal: Option<Reason>): Answered<Challenge> {
    var s := Prune(s0);
    if !Owned(s, session, registrationId) then Answered(s, Err(StaleRegistration))
    else
      var binding := s.bindings[registrationId];
      var held := binding.registration.identity;
      if identity.documentId != held.documentId || identity.documentEpoch != held.documentEpoch then Answered(s, Err(StaleDocument))
      else if refusal.Some? then Answered(s, Err(refusal.value))
      else
        var next := Registration(identity, binding.registration.ref, s.now + LEASE_MS);
        Issue(s.(nextId := s.nextId + 1), Challenge(Renew, next, s.nextId, s.now + DEADLINE_MS, binding.key), session, binding.revision)
  }

  /** The part of `prove` before the signature is verified. */
  function BeginProof(s: Server, session: nat, challengeId: nat): Option<Reason> {
    if challengeId !in s.challenges || s.challenges[challengeId].challenge.challengeExpiresAt <= s.now
       || s.challenges[challengeId].session != session then Some(StaleChallenge)
    else if s.challenges[challengeId].challenge.kind == Renew
            && !Owned(s, session, s.challenges[challengeId].challenge.binding.ref.registrationId) then Some(StaleRegistration)
    else None
  }

  /** The part of `prove` after it: every condition is looked at again. `room` says the registry is not full. */
  function FinishProof(s: Server, challengeId: nat, verified: bool, room: bool): Answered<Registration> {
    if !verified then Answered(s, Err(Other("invalid_signature")))
    else if challengeId !in s.challenges || s.challenges[challengeId].challenge.challengeExpiresAt <= s.now then Answered(s, Err(StaleChallenge))
    else
      var entry := s.challenges[challengeId];
      var binding := entry.challenge.binding;
      var id := binding.ref.registrationId;
      var left := s.(challenges := s.challenges - {challengeId});
      if entry.challenge.kind == Renew then
        if id !in s.bindings || s.bindings[id].registration.expiresAt <= s.now || s.bindings[id].revision != entry.baseRevision then
          Answered(s, Err(StaleRegistration))
        else
          var renewed := s.bindings[id].registration.(identity := binding.identity, expiresAt := binding.expiresAt);
          Answered(left.(bindings := s.bindings[id := s.bindings[id].(registration := renewed, revision := s.bindings[id].revision + 1)]), Ok(renewed))
      else if !room then Answered(s, Err(Other("registration_capacity")))
      else Answered(left.(bindings := s.bindings[id := Binding(binding, entry.session, entry.challenge.key, 0)]), Ok(binding))
  }

  /** A restart forgets every binding and challenge and is a new process. */
  function Restart(s: Server): Server {
    s.(processId := s.processId + 1, bindings := map[], challenges := map[])
  }
}
