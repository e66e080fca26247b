/**
 * When the lock of a key excludes. Releasing a lock drops it from the table even while other threads wait for it, and then
 * the next thread gets another one; that, and nothing else, lets two threads work for one key.
 */
module KeyLocks {
  import opened Outcomes
  import opened ResultCache
  import opened ResultCacheTheorems

  // ---- While no lock is dropped under a thread that waits for it

  predicate Waits(c: Cache, t: Thread, key: CacheKey, lock: Lock) {
    t in c.threads && c.threads[t].key == key && c.threads[t].phase == Waiting(lock)
  }

  /** The guard of `_release_lock` lets a lock of the key go for which another thread waits. */
  ghost predicate Orphans(c: Cache, e: CacheEvent, key: CacheKey) {
    && CacheEnabled(c, e) && e.Runs? && c.threads[e.thread].phase.Dropping? && c.threads[e.thread].key == key
    && var lock := c.threads[e.thread].phase.lock;
       lock !in c.holder && key in c.locks && c.locks[key] == lock && exists u :: Waits(c, u, key, lock)
  }

  /** No step of the run drops a lock of the key under a waiting thread; analyses may fail, and entries be pruned. */
  ghost predicate NeverOrphans(c: Cache, events: seq<CacheEvent>, key: CacheKey)
    decreases |events|
  {
    events == [] || (!Orphans(c, events[0], key) && NeverOrphans(CacheStep(c, events[0]), events[1..], key))
  }

  /** Every thread that waits for a lock of the key, or holds one, has the one in the table. */
  ghost predicate OneLock(c: Cache, key: CacheKey) {
    forall t :: t in c.threads && c.threads[t].key == key ==> HasTheLock(c, c.threads[t])
  }

  predicate HasTheLock(c: Cache, call: Call) {
    && (call.phase.Waiting? ==> call.key in c.locks && c.locks[call.key] == call.phase.lock)
    && (Holding(call.phase).Some? ==> call.key in c.locks && c.locks[call.key] == Holding(call.phase).value)
  }

  lemma PlainOneLock(c: Cache, c1: Cache, t: Thread, key: CacheKey)
    requires OneLock(c, key) && Plain(c, c1, t) && !TakesLocks(c.threads[t].phase)
    ensures OneLock(c1, key)
  {
    assert LockOf(c1.threads[t].phase) == Holding(c1.threads[t].phase) && !c1.threads[t].phase.Waiting?;
    forall u | u in c1.threads && c1.threads[u].key == key ensures HasTheLock(c1, c1.threads[u]) { assert HasTheLock(c, c.threads[u]); }
  }

  /** A lock that is dropped is held by nobody and, unless the step orphans one, waited for by nobody. */
  lemma DroppedIsUnused(c: Cache, t: Thread, chance: Chance, key: CacheKey, u: Thread)
    requires LocksInv(c) && OneLock(c, key) && CacheEnabled(c, Runs(t, chance)) && c.threads[t].phase.Dropping? && !Orphans(c, Runs(t, chance), key)
    requires c.threads[t].key == key && c.threads[t].phase.lock !in c.holder && key in c.locks && c.locks[key] == c.threads[t].phase.lock
    requires u in c.threads && c.threads[u].key == key
    ensures !c.threads[u].phase.Waiting? && Holding(c.threads[u].phase).None?
  {
    assert HasTheLock(c, c.threads[u]);
    LocksOf(c, u);
    hide LocksInv, OneLock;
    assert c.threads[u].phase.Waiting? ==> Waits(c, u, key, c.threads[u].phase.lock);
  }

  lemma DropOneLock(c: Cache, t: Thread, chance: Chance, key: CacheKey)
    requires LocksInv(c) && OneLock(c, key) && CacheEnabled(c, Runs(t, chance)) && c.threads[t].phase.Dropping? && !Orphans(c, Runs(t, chance), key)
    ensures OneLock(RunThread(c, t, chance), key)
  {
    hide LocksInv, Orphans;
    var c1 := RunThread(c, t, chance);
    forall u | u in c1.threads && c1.threads[u].key == key ensures HasTheLock(c1, c1.threads[u]) {
      assert HasTheLock(c, c.threads[u]);
      if key in c.locks && key !in c1.locks { DroppedIsUnused(c, t, chance, key, u); }
    }
  }

  lemma OneLockStep(c: Cache, e: CacheEvent, key: CacheKey)
    requires LocksInv(c) && OneLock(c, key) && !Orphans(c, e, key)
    ensures OneLock(CacheStep(c, e), key)
  {
    if CacheEnabled(c, e) && e.Runs? {
      var t := e.thread;
      hide LocksInv, Look, Read, Touch, Analyse, Store, PruneOthers, Orphans;
      if !TakesLocks(c.threads[t].phase) {
        hide RunThread, OneLock;
        PlainStep(c, t, e.chance);
        PlainOneLock(c, RunThread(c, t, e.chance), t, key);
      } else if c.threads[t].phase.Dropping? {
        hide RunThread, OneLock;
        DropOneLock(c, t, e.chance, key);
      }
    }
  }

  lemma {:induction false} OneLockRun(c: Cache, events: seq<CacheEvent>, key: CacheKey)
    requires LocksInv(c) && OneLock(c, key) && NeverOrphans(c, events, key)
    ensures LocksInv(CacheExec(c, events)) && OneLock(CacheExec(c, events), key)
    decreases |events|
  {
    hide LocksInv, OneLock, CacheStep, Orphans;
    if events != [] {
      LocksStep(c, events[0]);
      OneLockStep(c, events[0], key);
      OneLockRun(CacheStep(c, events[0]), events[1..], key);
    }
  }

  /**
   * As long as no lock of a key is dropped while another thread waits for it, no two threads ever work for the key,
   * whatever fails and whatever is pruned.
   */
  lemma LockExcludes(start: Cache, events: seq<CacheEvent>, key: CacheKey, t: Thread, u: Thread)
    requires Fresh(start) && NeverOrphans(start, events, key)
    requires WorksFor(CacheExec(start, events), t, key) && WorksFor(CacheExec(start, events), u, key)
    ensures t == u
  {
    OneLockRun(start, events, key);
    var c := CacheExec(start, events);
    hide CacheExec, NeverOrphans, HolderOk, LockOk;
    assert ThreadOk(c, t) && ThreadOk(c, u) && HasTheLock(c, c.threads[t]) && HasTheLock(c, c.threads[u]);
  }

  // ---- Once a lock is dropped under a waiting thread

  /** The thread works under its lock, which is not, or no longer, the one in the table. */
  ghost predicate WorksApart(c: Cache, u: Thread, key: CacheKey, lock: Lock) {
    && u in c.threads && c.threads[u] == Call(key, Analysing(lock)) && lock in c.holder
    && key !in c.locks && key !in c.files && (forall held :: held in c.holder ==> held < |c.made|)
  }

  /** A waiting thread goes on under the dropped lock: it finds no entry and analyses. */
  lemma WaiterWorks(c: Cache, u: Thread, key: CacheKey, lock: Lock)
    requires Waits(c, u, key, lock) && lock !in c.holder && lock < |c.made| && key !in c.files && key !in c.locks
    requires forall held :: held in c.holder ==> held < |c.made|
    ensures WorksApart(CacheStep(CacheStep(c, Runs(u, LUCK)), Runs(u, LUCK)), u, key, lock)
  {}

  /** The events by which a thread calls, gets a lock of its own, finds no entry and analyses. */
  function Working(t: Thread, key: CacheKey): seq<CacheEvent> {
    [Arrives(t, key), Runs(t, LUCK), Runs(t, LUCK), Runs(t, LUCK), Runs(t, LUCK)]
  }

  lemma GetsALock(c: Cache, t: Thread, key: CacheKey)
    requires t !in c.threads && key !in c.files && key !in c.locks
    ensures
      CacheStep(CacheStep(CacheStep(c, Arrives(t, key)), Runs(t, LUCK)), Runs(t, LUCK)) ==
      c.(threads := c.threads[t := Call(key, Waiting(|c.made|))], locks := c.locks[key := |c.made|], made := c.made + [key])
  {
    var c1 := CacheStep(c, Arrives(t, key));
    var c2 := CacheStep(c1, Runs(t, LUCK));
    assert c2 == c.(threads := c.threads[t := Call(key, Choosing)]);
    var c3 := CacheStep(c2, Runs(t, LUCK));
    assert c3.threads == c.threads[t := Call(key, Waiting(|c.made|))];
  }

  lemma UsesTheLock(c: Cache, t: Thread, key: CacheKey, lock: Lock)
    requires Waits(c, t, key, lock) && lock !in c.holder && key !in c.files
    ensures
      CacheStep(CacheStep(c, Runs(t, LUCK)), Runs(t, LUCK)) ==
      c.(threads := c.threads[t := Call(key, Analysing(lock))], holder := c.holder[lock := t], log := c.log + [NimCalled(key)])
  {
    var c1 := CacheStep(c, Runs(t, LUCK));
    assert c1.threads == c.threads[t := Call(key, Looking(Some(lock)))];
    assert CacheStep(c1, Runs(t, LUCK)).threads == c.threads[t := Call(key, Analysing(lock))];
  }

  lemma WorksAlone(c: Cache, t: Thread, key: CacheKey)
    requires t !in c.threads && key !in c.files && key !in c.locks && |c.made| !in c.holder
    ensures
      CacheExec(c, Working(t, key)) ==
      c.(threads := c.threads[t := Call(key, Analysing(|c.made|))], locks := c.locks[key := |c.made|], made := c.made + [key],
         holder := c.holder[|c.made| := t], log := c.log + [NimCalled(key)])
  {
    var c3 := c.(threads := c.threads[t := Call(key, Waiting(|c.made|))], locks := c.locks[key := |c.made|], made := c.made + [key]);
    GetsALock(c, t, key);
    UsesTheLock(c3, t, key, |c.made|);
    Five(c, Arrives(t, key), Runs(t, LUCK), Runs(t, LUCK));
    hide CacheStep, CacheExec;
  }

  /** There is always a thread that has not called yet. */
  lemma Newcomer(threads: set<Thread>) returns (v: Thread)
    ensures v !in threads && forall t :: t in threads ==> t < v
  {
    v := 0;
    var seen: set<Thread> := {};
    while seen != threads
      invariant seen <= threads && forall t :: t in seen ==> t < v
      decreases threads - seen
    {
      var t :| t in threads && t !in seen;
      if t >= v { v := t + 1; }
      seen := seen + {t};
    }
  }

  lemma Five(c: Cache, a: CacheEvent, b: CacheEvent, d: CacheEvent)
    ensures CacheExec(c, [a, b, b, b, b]) == CacheStep(CacheStep(CacheStep(CacheStep(CacheStep(c, a), b), b), b), b)
    ensures CacheExec(c, [d, d]) == CacheStep(CacheStep(c, d), d)
  {
    hide CacheStep;
    var c1 := CacheStep(c, a);
    assert [a, b, b, b, b][1..] == [b, b, b, b] && [b, b, b, b][1..] == [b, b, b] && [b, b, b][1..] == [b, b] && [b, b][1..] == [b] && [b][1..] == [];
    assert [d, d][1..] == [d] && [d][1..] == [];
    assert CacheExec(c, [a, b, b, b, b]) == CacheExec(c1, [b, b, b, b]);
    assert CacheExec(c1, [b, b, b, b]) == CacheExec(CacheStep(c1, b), [b, b, b]);
    assert CacheExec(CacheStep(c1, b), [b, b, b]) == CacheExec(CacheStep(CacheStep(c1, b), b), [b, b]);
    assert CacheExec(CacheStep(CacheStep(c1, b), b), [b, b]) == CacheExec(CacheStep(CacheStep(CacheStep(c1, b), b), b), [b]);
    assert CacheExec(CacheStep(CacheStep(CacheStep(c1, b), b), b), [b]) == CacheExec(CacheStep(CacheStep(CacheStep(CacheStep(c1, b), b), b), b), []);
    assert CacheExec(c, [d, d]) == CacheExec(CacheStep(c, d), [d]) == CacheExec(CacheStep(CacheStep(c, d), d), []);
  }

  /** The waiting thread goes on, and a newcomer gets another lock. */
  lemma Splits(c: Cache, key: CacheKey, u: Thread, lock: Lock) returns (after: seq<CacheEvent>, v: Thread)
    requires Waits(c, u, key, lock) && lock !in c.holder && lock < |c.made| && key !in c.files && key !in c.locks
    requires forall held :: held in c.holder ==> held < |c.made|
    ensures u != v && WorksFor(CacheExec(c, after), u, key) && WorksFor(CacheExec(c, after), v, key)
  {
    var c1 := CacheStep(CacheStep(c, Runs(u, LUCK)), Runs(u, LUCK));
    WaiterWorks(c, u, key, lock);
    hide CacheStep, Waits;
    v := Newcomer(c1.threads.Keys);
    WorksAlone(c1, v, key);
    Five(c, Arrives(v, key), Runs(v, LUCK), Runs(u, LUCK));
    hide CacheExec;
    after := [Runs(u, LUCK), Runs(u, LUCK)] + Working(v, key);
    ExecAppends(c, [Runs(u, LUCK), Runs(u, LUCK)], Working(v, key));
  }

  /**
   * And conversely: from any reachable state in which a lock of the key is dropped under a waiting thread while the entry
   * is missing, whatever the reason, two threads can come to work for the key at once.
   */
  lemma OrphanSplits(start: Cache, before: seq<CacheEvent>, e: CacheEvent, key: CacheKey) returns (after: seq<CacheEvent>, u: Thread, v: Thread)
    requires Fresh(start) && Orphans(CacheExec(start, before), e, key) && key !in CacheExec(start, before).files
    ensures u != v && WorksFor(CacheExec(start, before + [e] + after), u, key) && WorksFor(CacheExec(start, before + [e] + after), v, key)
  {
    var c := CacheExec(start, before);
    FreshKeys(start, key);
    CacheRun(start, before, key);
    var lock := c.threads[e.thread].phase.lock;
    u :| Waits(c, u, key, lock);
    hide CacheStep, CacheExec, LocksInv, KeyInv, WorksFor;
    Dropped(c, e, key, u, lock);
    hide Orphans, Waits;
    after, v := Splits(CacheStep(c, e), key, u, lock);
    Then(start, before, e);
    ExecAppends(start, before + [e], after);
  }

  lemma Dropped(c: Cache, e: CacheEvent, key: CacheKey, u: Thread, lock: Lock)
    requires LocksInv(c) && Orphans(c, e, key) && lock == c.threads[e.thread].phase.lock && Waits(c, u, key, lock) && key !in c.files
    ensures
      var c1 := CacheStep(c, e);
      && Waits(c1, u, key, lock) && lock !in c1.holder && lock < |c1.made| && key !in c1.files && key !in c1.locks
      && (forall held :: held in c1.holder ==> held < |c1.made|)
  {
    assert ThreadOk(c, u);
    forall held | held in c.holder ensures held < |c.made| { assert HolderOk(c, held) && ThreadOk(c, c.holder[held]); }
    hide LocksInv;
  }

  // ---- Two runs that get there

  const EMPTY := Cache(map[], map[], [], map[], map[], [])

  /** A thread calls and waits for the lock another has. */
  lemma Queues(c: Cache, t: Thread, key: CacheKey)
    requires t !in c.threads && key !in c.files && key in c.locks
    ensures CacheExec(c, [Arrives(t, key), Runs(t, LUCK), Runs(t, LUCK)]) == c.(threads := c.threads[t := Call(key, Waiting(c.locks[key]))])
  {
    var c1 := CacheStep(c, Arrives(t, key));
    var c2 := CacheStep(c1, Runs(t, LUCK));
    assert c2 == c.(threads := c.threads[t := Call(key, Choosing)]);
    var c3 := CacheStep(c2, Runs(t, LUCK));
    assert c3.threads == c.threads[t := Call(key, Waiting(c.locks[key]))];
    hide CacheStep;
    Nothing(c);
    Then(c, [], Arrives(t, key));
    Then(c, [Arrives(t, key)], Runs(t, LUCK));
    Then(c, [Arrives(t, key), Runs(t, LUCK)], Runs(t, LUCK));
    assert [] + [Arrives(t, key)] == [Arrives(t, key)] && [Arrives(t, key)] + [Runs(t, LUCK)] == [Arrives(t, key), Runs(t, LUCK)];
    assert [Arrives(t, key), Runs(t, LUCK)] + [Runs(t, LUCK)] == [Arrives(t, key), Runs(t, LUCK), Runs(t, LUCK)];
  }

  /** The analysis succeeds and the entry is written. */
  lemma Stores(c: Cache, t: Thread, key: CacheKey, lock: Lock, animation: Animation)
    requires t in c.threads && c.threads[t] == Call(key, Analysing(lock))
    ensures
      var go := Runs(t, Chance(Some(animation), true, []));
      CacheExec(c, [go, go]) == c.(threads := c.threads[t := Call(key, Pruning(lock, animation))], files := c.files[key := Valid(animation)])
  {
    var go := Runs(t, Chance(Some(animation), true, []));
    var c1 := CacheStep(c, go);
    assert c1.threads == c.threads[t := Call(key, Storing(lock, animation))];
    assert CacheStep(c1, go).threads == c.threads[t := Call(key, Pruning(lock, animation))];
    Five(c, go, go, go);
  }

  /** It prunes, releases its lock, and is about to drop it. */
  lemma Leaves(c: Cache, t: Thread, key: CacheKey, lock: Lock, animation: Animation)
    requires t in c.threads && c.threads[t] == Call(key, Pruning(lock, animation))
    ensures
      var go := Runs(t, LUCK);
      CacheExec(c, [go, go]) ==
      c.(threads := c.threads[t := Call(key, Dropping(lock, Ok(Payload(animation, false))))], holder := c.holder - {lock})
  {
    var go := Runs(t, LUCK);
    var c1 := CacheStep(c, go);
    assert Removals([]) == [] && (map k | k in c.files && k !in [] :: c.files[k]) == c.files;
    assert c1 == c.(threads := c.threads[t := Call(key, Releasing(lock, Ok(Payload(animation, false))))]);
    assert CacheStep(c1, go).threads == c.threads[t := Call(key, Dropping(lock, Ok(Payload(animation, false))))];
    Five(c, go, go, go);
  }

  /** The analysis fails: its lock is released, and about to be dropped. */
  lemma Fails(c: Cache, t: Thread, key: CacheKey, lock: Lock)
    requires t in c.threads && c.threads[t] == Call(key, Analysing(lock))
    ensures
      var go := Runs(t, LUCK);
      CacheExec(c, [go, go]) ==
      c.(threads := c.threads[t := Call(key, Dropping(lock, Err(())))], holder := c.holder - {lock}, log := c.log + [CallFailed(key)])
  {
    var go := Runs(t, LUCK);
    var c1 := CacheStep(c, go);
    assert c1.threads == c.threads[t := Call(key, Releasing(lock, Err(())))];
    assert CacheStep(c1, go).threads == c.threads[t := Call(key, Dropping(lock, Err(())))];
    Five(c, go, go, go);
  }

  /** Pruning for another key removes this key's entry, which was just stored. */
  lemma Removes(c: Cache, t: Thread, other: CacheKey, lock: Lock, animation: Animation, key: CacheKey)
    requires t in c.threads && c.threads[t] == Call(other, Pruning(lock, animation)) && key != other && key in c.files
    ensures
      CacheExec(c, [Runs(t, Chance(None, true, [key]))]) ==
      c.(threads := c.threads[t := Call(other, Releasing(lock, Ok(Payload(animation, false))))], files := c.files - {key}, log := c.log + [Removed(key)])
  {
    var go := Runs(t, Chance(None, true, [key]));
    assert Removals([key]) == [Removed(key)] && (map k | k in c.files && k !in [key] :: c.files[k]) == c.files - {key};
    Nothing(c);
    Then(c, [], go);
    assert [] + [go] == [go];
  }

  /** The first thread's analysis has failed and it is about to drop its lock, for which the second waits. */
  function Failed(key: CacheKey): Cache {
    Cache(map[], map[key := 0], [key], map[], map[1 := Call(key, Dropping(0, Err(()))), 2 := Call(key, Waiting(0))], [NimCalled(key), CallFailed(key)])
  }

  /** The first thread analyses, and the second waits. */
  function Queued(key: CacheKey): Cache {
    Cache(map[], map[key := 0], [key], map[0 := 1], map[1 := Call(key, Analysing(0)), 2 := Call(key, Waiting(0))], [NimCalled(key)])
  }

  lemma ReachesQueued(key: CacheKey) returns (events: seq<CacheEvent>)
    ensures CacheExec(EMPTY, events) == Queued(key)
  {
    WorksAlone(EMPTY, 1, key);
    var c1 := CacheExec(EMPTY, Working(1, key));
    Queues(c1, 2, key);
    hide CacheExec, CacheStep, Working;
    var queue := [Arrives(2, key), Runs(2, LUCK), Runs(2, LUCK)];
    ExecAppends(EMPTY, Working(1, key), queue);
    events := Working(1, key) + queue;
    assert CacheExec(EMPTY, events).threads == Queued(key).threads && CacheExec(EMPTY, events).locks == Queued(key).locks;
  }

  lemma ReachesFailed(key: CacheKey) returns (before: seq<CacheEvent>)
    ensures CacheExec(EMPTY, before) == Failed(key)
  {
    var events := ReachesQueued(key);
    Fails(Queued(key), 1, key, 0);
    hide CacheExec, CacheStep;
    var fails := [Runs(1, LUCK), Runs(1, LUCK)];
    ExecAppends(EMPTY, events, fails);
    before := events + fails;
    assert CacheExec(EMPTY, before).threads == Failed(key).threads && CacheExec(EMPTY, before).holder == map[];
  }

  /** An analysis fails while another thread waits: nothing is pruned in this run. */
  lemma FailureOrphans(key: CacheKey) returns (before: seq<CacheEvent>)
    ensures Fresh(EMPTY) && CacheExec(EMPTY, before).log == [NimCalled(key), CallFailed(key)]
    ensures Orphans(CacheExec(EMPTY, before), Runs(1, LUCK), key) && key !in CacheExec(EMPTY, before).files
  {
    before := ReachesFailed(key);
    hide CacheExec;
    assert Waits(Failed(key), 2, key, 0);
  }

  /** Another key's entry is stored and about to be pruned for; the key is analysed, and a third thread waits for its lock. */
  function Crowded(key: CacheKey, other: CacheKey, animation: Animation): Cache {
    Cache(map[other := Valid(animation)], map[other := 0, key := 1], [other, key], map[0 := 1, 1 := 2],
          map[1 := Call(other, Pruning(0, animation)), 2 := Call(key, Analysing(1)), 3 := Call(key, Waiting(1))], [NimCalled(other), NimCalled(key)])
  }

  function Stored(other: CacheKey, animation: Animation): Cache {
    Cache(map[other := Valid(animation)], map[other := 0], [other], map[0 := 1], map[1 := Call(other, Pruning(0, animation))], [NimCalled(other)])
  }

  lemma ReachesStored(other: CacheKey, animation: Animation) returns (events: seq<CacheEvent>)
    ensures CacheExec(EMPTY, events) == Stored(other, animation)
  {
    var store := Runs(1, Chance(Some(animation), true, []));
    WorksAlone(EMPTY, 1, other);
    var c1 := CacheExec(EMPTY, Working(1, other));
    Stores(c1, 1, other, 0, animation);
    hide CacheExec, Working, CacheStep;
    ExecAppends(EMPTY, Working(1, other), [store, store]);
    events := Working(1, other) + [store, store];
    assert CacheExec(c1, [store, store]).threads == Stored(other, animation).threads;
  }

  lemma ReachesCrowd(key: CacheKey, other: CacheKey, animation: Animation) returns (events: seq<CacheEvent>)
    requires key != other
    ensures CacheExec(EMPTY, events) == Crowded(key, other, animation)
  {
    var stored := ReachesStored(other, animation);
    var queue := [Arrives(3, key), Runs(3, LUCK), Runs(3, LUCK)];
    var c := Stored(other, animation);
    WorksAlone(c, 2, key);
    var c1 := CacheExec(c, Working(2, key));
    Queues(c1, 3, key);
    hide CacheExec, Working, CacheStep;
    ExecAppends(EMPTY, stored, Working(2, key));
    ExecAppends(EMPTY, stored + Working(2, key), queue);
    events := stored + Working(2, key) + queue;
    var crowd := CacheExec(c1, queue);
    assert crowd.threads == Crowded(key, other, animation).threads && crowd.holder == Crowded(key, other, animation).holder;
    assert crowd.locks == Crowded(key, other, animation).locks;
  }

  /** Nothing fails, but the new entry is pruned before the thread that stored it drops its lock, for which another waits. */
  lemma PruningOrphans(key: CacheKey, other: CacheKey, animation: Animation) returns (before: seq<CacheEvent>)
    requires key != other
    ensures Fresh(EMPTY) && CacheExec(EMPTY, before).log == [NimCalled(other), NimCalled(key), Removed(key)]
    ensures Orphans(CacheExec(EMPTY, before), Runs(2, LUCK), key) && key !in CacheExec(EMPTY, before).files
  {
    var crowd := ReachesCrowd(key, other, animation);
    var c := Crowded(key, other, animation);
    var store, leave, prune := Runs(2, Chance(Some(animation), true, [])), [Runs(2, LUCK), Runs(2, LUCK)], Runs(1, Chance(None, true, [key]));
    Stores(c, 2, key, 1, animation);
    var c1 := CacheExec(c, [store, store]);
    Removes(c1, 1, other, 0, animation, key);
    var c2 := CacheExec(c1, [prune]);
    Leaves(c2, 2, key, 1, animation);
    var c3 := CacheExec(c2, leave);
    hide CacheExec, CacheStep;
    ExecAppends(EMPTY, crowd, [store, store]);
    ExecAppends(EMPTY, crowd + [store, store], [prune]);
    ExecAppends(EMPTY, crowd + [store, store] + [prune], leave);
    before := crowd + [store, store] + [prune] + leave;
    assert Waits(c3, 3, key, 1);
  }

  /** Both a failure and a pruning can so bring two threads to work for one key. */
  lemma FailureOrPruningSplits(key: CacheKey, other: CacheKey, animation: Animation, fails: bool) returns (events: seq<CacheEvent>, u: Thread, v: Thread)
    requires key != other
    ensures Fresh(EMPTY) && u != v && WorksFor(CacheExec(EMPTY, events), u, key) && WorksFor(CacheExec(EMPTY, events), v, key)
  {
    var before, after;
    hide Orphans, CacheExec;
    if fails {
      before := FailureOrphans(key);
      after, u, v := OrphanSplits(EMPTY, before, Runs(1, LUCK), key);
      events := before + [Runs(1, LUCK)] + after;
    } else {
      before := PruningOrphans(key, other, animation);
      after, u, v := OrphanSplits(EMPTY, before, Runs(2, LUCK), key);
      events := before + [Runs(2, LUCK)] + after;
    }
  }
}
