/**
 * The two ways a request escapes the cancellation of its command: the transport had not seen the command, or the document
 * had not admitted the request.
 */
module CancellationGap {
  import opened Outcomes
  import opened Lease
  import opened Commands
  import D = Document
  import S = DocumentSafety
  import CommandsSafety

  // ---- A page that holds a registration

  const PAGE := Identity("d", "e", None)
  const REF := Ref(1, 1, 1)
  const BINDING := Registration(PAGE, REF, LEASE_MS)
  const ENV := PageEnv(0, true, Ok(PAGE), true)

  function Offer(key: Key): Challenge {
    Challenge(Register, BINDING, 7, DEADLINE_MS, key)
  }

  function Registering(key: Key): seq<LeaseEvent> {
    [Starts(ENV), GetsChallenge(ENV, Ok(Offer(key))), GetsSignature(ENV, true), GetsAdmission(ENV, Ok(BINDING)), Resumes(ENV)]
  }

  /** The page has posted its proof. */
  lemma Submits(key: Key)
    ensures
      var l3 := LeaseStep(LeaseStep(LeaseStep(InitLease(key), Starts(ENV)).state, GetsChallenge(ENV, Ok(Offer(key)))).state, GetsSignature(ENV, true)).state;
      && l3.pass == AwaitAdmission(Fresh, 0, PAGE, Offer(key)) && l3.alive && l3.generation == 0 && l3.registration.None?
  {
    var l1 := LeaseStep(InitLease(key), Starts(ENV)).state;
    assert l1.pass == AwaitChallenge(Fresh, 0, PAGE) && l1.alive && l1.generation == 0 && l1.key == key;
    var l2 := LeaseStep(l1, GetsChallenge(ENV, Ok(Offer(key)))).state;
    assert l2.pass == AwaitSignature(Fresh, 0, PAGE, Offer(key)) && l2.alive && l2.generation == 0;
  }

  lemma Holds(key: Key)
    ensures
      var l := LeaseExec(InitLease(key), Registering(key));
      l.alive && l.registration == Some(BINDING)
  {
    Submits(key);
    var es := Registering(key);
    var l1 := LeaseStep(InitLease(key), es[0]).state;
    var l2 := LeaseStep(l1, es[1]).state;
    var l3 := LeaseStep(l2, es[2]).state;
    var l4 := LeaseStep(l3, es[3]).state;
    assert l4.pass == Reconciled(Fresh, PAGE, Some(BINDING)) && l4.alive;
    var l5 := LeaseStep(l4, es[4]).state;
    assert l5.alive && l5.registration == Some(BINDING);
    Five(InitLease(key), es);
  }

  lemma Five(l: LeaseState, es: seq<LeaseEvent>)
    requires |es| == 5
    ensures LeaseExec(l, es) ==
            LeaseStep(LeaseStep(LeaseStep(LeaseStep(LeaseStep(l, es[0]).state, es[1]).state, es[2]).state, es[3]).state, es[4]).state
  {
    hide LeaseStep;
    var l1, s1 := LeaseStep(l, es[0]).state, es[1..];
    assert LeaseExec(l, es) == LeaseExec(l1, s1);
    var l2, s2 := LeaseStep(l1, s1[0]).state, s1[1..];
    assert LeaseExec(l1, s1) == LeaseExec(l2, s2);
    var l3, s3 := LeaseStep(l2, s2[0]).state, s2[1..];
    assert LeaseExec(l2, s2) == LeaseExec(l3, s3);
    var l4, s4 := LeaseStep(l3, s3[0]).state, s3[1..];
    assert LeaseExec(l3, s3) == LeaseExec(l4, s4);
    var l5, s5 := LeaseStep(l4, s4[0]).state, s4[1..];
    assert LeaseExec(l4, s4) == LeaseExec(l5, s5) == l5;
  }

  function OnLeases(events: seq<LeaseEvent>): seq<TabEvent> {
    if events == [] then [] else [OnLease(events[0])] + OnLeases(events[1..])
  }

  lemma {:induction false} LeaseRun(t: Tab, events: seq<LeaseEvent>)
    requires Retires !in events
    ensures TabExec(t, OnLeases(events)) == t.(lease := LeaseExec(t.lease, events))
    decreases |events|
  {
    hide LeaseStep;
    if events != [] {
      var t1 := TabStep(t, OnLease(events[0]));
      assert t1 == t.(lease := LeaseStep(t.lease, events[0]).state);
      assert OnLeases(events)[0] == OnLease(events[0]) && OnLeases(events)[1..] == OnLeases(events[1..]);
      LeaseRun(t1, events[1..]);
    }
  }

  lemma Two(t: Tab, a: TabEvent, b: TabEvent)
    ensures TabExec(t, [a, b]) == TabStep(TabStep(t, a), b)
  {
    hide TabStep;
    assert [a, b][1..] == [b] && [b][1..] == [];
    assert TabExec(t, [a, b]) == TabExec(TabStep(t, a), [b]) == TabExec(TabStep(TabStep(t, a), b), []);
  }

  // ---- The script's request

  const PORTS := D.Env(0, None, true)

  function Asked(id: RequestId): Request {
    Request(id, "d", "e", None, "goon.show", "{}", 1000)
  }

  /** The script's request is admitted, and its owner about to start. */
  lemma ScriptStarts(d: D.Doc, id: RequestId)
    requires d == D.Init("d", "e")
    ensures
      var d2 := D.Step(D.Step(d, D.DoExecute(Asked(id))), D.DoStartRun(id, PORTS));
      && id in d2.receipts && d2.receipts[id].owner == D.Queued && d2.receipts[id].request == Asked(id) && d2.receipts[id].aborted.None?
      && d2.receipts[id].capturedRevision == d2.revision && d2.mounted && d2.cancelled == {} && d2.documentId == "d" && d2.documentEpoch == "e"
  {
    var d1 := D.Step(d, D.DoExecute(Asked(id)));
    assert id in d1.receipts && d1.receipts[id] == D.NewRun(Asked(id), D.View, 0);
  }

  /** Nothing stops its handler and its effect. */
  lemma OwnerWorks(d: D.Doc, id: RequestId)
    requires id in d.receipts && d.receipts[id].owner == D.Queued && d.receipts[id].request == Asked(id) && d.receipts[id].aborted.None?
    requires d.receipts[id].capturedRevision == d.revision && d.mounted && id !in d.cancelled && d.documentId == "d" && d.documentEpoch == "e"
    ensures D.Step(D.Step(d, D.DoOwnerStart(id, PORTS)), D.DoEffect(id, PORTS)).log == d.log + [D.HandlerCalled(id), D.Granted(id, PORTS)]
  {
    var d1 := D.Step(d, D.DoOwnerStart(id, PORTS));
    assert d1.log == d.log + [D.HandlerCalled(id)] && d1.receipts[id].called;
  }

  /**
   * A run in which the cancellation of a command is taken, and the handler of its request is entered and an effect
   * granted only afterwards: the transport had not seen the command, and a script had submitted the request.
   */
  lemma ScriptsEscapeCancellation(key: Key, nonce: Nonce, digest: Digest, id: RequestId) returns (before: seq<TabEvent>, after: seq<TabEvent>)
    ensures
      var t := TabExec(InitTab("d", "e", key), before);
      var command := Command(REF, nonce, digest, Asked(id));
      && CommandsSafety.ReachableTab(t) && nonce in t.cancelled && t.cancelled[nonce] == command
      && TabExec(t, after).doc.log == t.doc.log + [D.HandlerCalled(id), D.Granted(id, PORTS)]
  {
    var start := InitTab("d", "e", key);
    var command := Command(REF, nonce, digest, Asked(id));
    LeaseRun(start, Registering(key));
    Holds(key);
    var t1 := TabExec(start, OnLeases(Registering(key)));
    assert t1 == start.(lease := t1.lease) && t1.lease.alive && t1.lease.registration == Some(BINDING);
    var script := [OnDocument(D.DoExecute(Asked(id))), OnDocument(D.DoStartRun(id, PORTS))];
    ScriptStarts(start.doc, id);
    var t2 := TabExec(t1, script);
    Two(t1, script[0], script[1]);
    hide LeaseExec, Registering, D.Step, TabExec;
    assert t2 == t1.(doc := t2.doc);
    var t := TabStep(t2, GetsCancellation(command, 0));
    assert t == t2.(cancelled := map[nonce := command], log := t2.log + [CancellationTaken(command)]) by { Taken0(t2, command); }
    before := OnLeases(Registering(key)) + (script + [GetsCancellation(command, 0)]);
    CommandsSafety.ExecAppends(start, OnLeases(Registering(key)), script + [GetsCancellation(command, 0)]);
    CommandsSafety.ExecAppends(t1, script, [GetsCancellation(command, 0)]);
    One(t2, GetsCancellation(command, 0));
    after := [OnDocument(D.DoOwnerStart(id, PORTS)), OnDocument(D.DoEffect(id, PORTS))];
    Two(t, after[0], after[1]);
    OwnerWorks(t.doc, id);
  }

  /** The transport takes the command, and then its cancellation, which finds no request to cancel. */
  lemma TakesBoth(t: Tab, command: Command)
    requires t.lease.alive && t.lease.registration == Some(BINDING) && t.observed == map[] && t.cancelled == map[] && t.byNonce == {} && t.flights == map[]
    requires command.ref == REF && command.request.documentId == "d" && command.request.documentEpoch == "e" && command.request.expiresAt == 1000
    requires command.request.requestId !in t.doc.receipts
    ensures
      var t1 := TabStep(TabStep(t, GetsCommand(command, 0)), GetsCancellation(command, 0));
      && t1.doc == t.doc && t1.cancelled == map[command.nonce := command] && command.nonce in t1.flights && t1.flights[command.nonce].phase == Hashing
  {}

  /** The script submits the request only now, and its work begins. */
  lemma ScriptWorks(t: Tab, id: RequestId)
    requires t.doc == D.Init("d", "e")
    ensures
      var after := [OnDocument(D.DoExecute(Asked(id))), OnDocument(D.DoStartRun(id, PORTS))] + [OnDocument(D.DoOwnerStart(id, PORTS)), OnDocument(D.DoEffect(id, PORTS))];
      TabExec(t, after).doc.log == [D.Admitted(id), D.HandlerCalled(id), D.Granted(id, PORTS)]
  {
    ScriptStarts(t.doc, id);
    var d1 := D.Step(t.doc, D.DoExecute(Asked(id)));
    var d2 := D.Step(d1, D.DoStartRun(id, PORTS));
    assert d2.log == [D.Admitted(id)];
    OwnerWorks(d2, id);
    hide D.Step, TabExec;
    var script := [OnDocument(D.DoExecute(Asked(id))), OnDocument(D.DoStartRun(id, PORTS))];
    var work := [OnDocument(D.DoOwnerStart(id, PORTS)), OnDocument(D.DoEffect(id, PORTS))];
    Two(t, script[0], script[1]);
    Two(TabExec(t, script), work[0], work[1]);
    CommandsSafety.ExecAppends(t, script, work);
  }

  /**
   * The other way: the command is known and still being hashed when its cancellation is taken, but its request was never
   * submitted; a script submits it before the digest arrives, and its handler is entered and an effect granted.
   */
  lemma LateScriptsEscapeCancellation(key: Key, nonce: Nonce, digest: Digest, id: RequestId) returns (before: seq<TabEvent>, after: seq<TabEvent>)
    ensures
      var t := TabExec(InitTab("d", "e", key), before);
      var command := Command(REF, nonce, digest, Asked(id));
      && CommandsSafety.ReachableTab(t) && nonce in t.cancelled && t.cancelled[nonce] == command
      && nonce in t.flights && t.flights[nonce].phase == Hashing && t.doc.log == []
      && TabExec(t, after).doc.log == [D.Admitted(id), D.HandlerCalled(id), D.Granted(id, PORTS)]
  {
    var start := InitTab("d", "e", key);
    var command := Command(REF, nonce, digest, Asked(id));
    LeaseRun(start, Registering(key));
    Holds(key);
    var t1 := TabExec(start, OnLeases(Registering(key)));
    assert t1 == start.(lease := t1.lease) && t1.lease.alive && t1.lease.registration == Some(BINDING);
    hide LeaseExec, Registering, D.Step, TabExec;
    TakesBoth(t1, command);
    var both := [GetsCommand(command, 0), GetsCancellation(command, 0)];
    Two(t1, both[0], both[1]);
    before := OnLeases(Registering(key)) + both;
    CommandsSafety.ExecAppends(start, OnLeases(Registering(key)), both);
    var t := TabExec(t1, both);
    ScriptWorks(t, id);
    after := [OnDocument(D.DoExecute(Asked(id))), OnDocument(D.DoStartRun(id, PORTS))] + [OnDocument(D.DoOwnerStart(id, PORTS)), OnDocument(D.DoEffect(id, PORTS))];
  }

  lemma One(t: Tab, e: TabEvent)
    ensures TabExec(t, [e]) == TabStep(t, e)
  {
    hide TabStep;
    assert [e][1..] == [];
    assert TabExec(t, [e]) == TabExec(TabStep(t, e), []);
  }

  lemma Taken0(t: Tab, command: Command)
    requires t.lease.alive && t.lease.registration == Some(BINDING) && t.observed == map[] && t.cancelled == map[]
    requires command.ref == REF && command.request.documentId == "d" && command.request.documentEpoch == "e" && command.request.expiresAt == 1000
    ensures TabStep(t, GetsCancellation(command, 0)) == t.(cancelled := map[command.nonce := command], log := t.log + [CancellationTaken(command)])
  {}
}
