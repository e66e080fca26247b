/** One analysis per key, while nothing fails and nothing is pruned; and what breaks it. */
module ResultCacheTheorems {
  import opened Outcomes
  import opened ResultCache

  // ---- Locks

  function Holding(phase: Phase): Option<Lock> {
    match phase
    case Looking(held) => held
    case Reading(held) => held
    case Touching(held, _) => held
    case Analysing(lock) => Some(lock)
    case Storing(lock, _) => Some(lock)
    case Pruning(lock, _) => Some(lock)
    case Releasing(lock, _) => Some(lock)
    case _ => None
  }

  /** The lock object the thread refers to, held or not. */
  function LockOf(phase: Phase): Option<Lock> {
    match phase
    case Waiting(lock) => Some(lock)
    case Dropping(lock, _) => Some(lock)
    case _ => Holding(phase)
  }

  ghost predicate ThreadOk(c: Cache, t: Thread)
    requires t in c.threads
  {
    var call := c.threads[t];
    && (LockOf(call.phase).Some? ==> LockOf(call.phase).value < |c.made| && c.made[LockOf(call.phase).value] == call.key)
    && (Holding(call.phase).Some? ==> Holding(call.phase).value in c.holder && c.holder[Holding(call.phase).value] == t)
  }

  ghost predicate HolderOk(c: Cache, lock: Lock)
    requires lock in c.holder
  {
    c.holder[lock] in c.threads && Holding(c.threads[c.holder[lock]].phase) == Some(lock)
  }

  predicate Refers(c: Cache, t: Thread, lock: Lock) {
    t in c.threads && LockOf(c.threads[t].phase) == Some(lock)
  }

  ghost predicate LockOk(c: Cache, key: CacheKey)
    requires key in c.locks
  {
    c.locks[key] < |c.made| && c.made[c.locks[key]] == key && exists t :: Refers(c, t, c.locks[key])
  }

  ghost predicate LocksInv(c: Cache) {
    && (forall t :: t in c.threads ==> ThreadOk(c, t))
    && (forall lock :: lock in c.holder ==> HolderOk(c, lock))
    && (forall key :: key in c.locks ==> LockOk(c, key))
  }

  lemma LocksOf(c: Cache, t: Thread)
    requires LocksInv(c) && t in c.threads
    ensures
      var call := c.threads[t];
      && (LockOf(call.phase).Some? ==> LockOf(call.phase).value < |c.made| && c.made[LockOf(call.phase).value] == call.key)
      && (Holding(call.phase).Some? ==> Holding(call.phase).value in c.holder && c.holder[Holding(call.phase).value] == t)
  {
    assert ThreadOk(c, t);
  }

  /** A step of one thread that keeps the lock it holds and the lock it refers to. */
  lemma SameLocks(c: Cache, c1: Cache, t: Thread)
    requires LocksInv(c) && t in c.threads && t in c1.threads
    requires c1.threads == c.threads[t := c1.threads[t]] && c1.threads[t].key == c.threads[t].key
    requires c1.locks == c.locks && c1.made == c.made && c1.holder == c.holder
    requires Holding(c1.threads[t].phase) == Holding(c.threads[t].phase) && LockOf(c1.threads[t].phase) == LockOf(c.threads[t].phase)
    ensures LocksInv(c1)
  {
    forall u | u in c1.threads ensures ThreadOk(c1, u) { assert ThreadOk(c, u); }
    forall lock | lock in c1.holder ensures HolderOk(c1, lock) { assert HolderOk(c, lock); }
    forall key | key in c1.locks ensures LockOk(c1, key) {
      assert LockOk(c, key);
      var u :| Refers(c, u, c.locks[key]);
      assert Refers(c1, u, c1.locks[key]);
    }
  }

  lemma ChooseLocks(c: Cache, t: Thread)
    requires LocksInv(c) && t in c.threads && c.threads[t].phase == Choosing
    ensures LocksInv(Choose(c, t))
  {
    var c1 := Choose(c, t);
    forall u | u in c1.threads ensures ThreadOk(c1, u) {
      assert ThreadOk(c, u);
      assert c.threads[t].key in c.locks ==> LockOk(c, c.threads[t].key);
    }
    forall lock | lock in c1.holder ensures HolderOk(c1, lock) { assert HolderOk(c, lock); }
    forall key | key in c1.locks ensures LockOk(c1, key) {
      if key in c.locks {
        assert LockOk(c, key);
        var u :| Refers(c, u, c.locks[key]);
        assert Refers(c1, u, c1.locks[key]);
      } else {
        assert Refers(c1, t, c1.locks[key]);
      }
    }
  }

  lemma AcquireLocks(c: Cache, t: Thread, lock: Lock)
    requires LocksInv(c) && t in c.threads && c.threads[t].phase == Waiting(lock) && lock !in c.holder
    ensures LocksInv(Acquire(c, t, lock))
  {
    var c1 := Acquire(c, t, lock);
    forall u | u in c1.threads ensures ThreadOk(c1, u) { assert ThreadOk(c, u); }
    forall other | other in c1.holder ensures HolderOk(c1, other) { assert other != lock ==> HolderOk(c, other); }
    forall key | key in c1.locks ensures LockOk(c1, key) {
      assert LockOk(c, key);
      var u :| Refers(c, u, c.locks[key]);
      assert Refers(c1, u, c1.locks[key]);
    }
  }

  lemma ReleaseLocks(c: Cache, t: Thread, lock: Lock, answer: Answer)
    requires LocksInv(c) && t in c.threads && c.threads[t].phase == Releasing(lock, answer)
    ensures LocksInv(Release(c, t, lock, answer))
  {
    var c1 := Release(c, t, lock, answer);
    assert ThreadOk(c, t);
    forall u | u in c1.threads ensures ThreadOk(c1, u) { assert ThreadOk(c, u); }
    forall other | other in c1.holder ensures HolderOk(c1, other) { assert HolderOk(c, other); }
    forall key | key in c1.locks ensures LockOk(c1, key) {
      assert LockOk(c, key);
      var u :| Refers(c, u, c.locks[key]);
      assert Refers(c1, u, c1.locks[key]);
    }
  }

  lemma DropLocks(c: Cache, t: Thread, lock: Lock, answer: Answer)
    requires LocksInv(c) && t in c.threads && c.threads[t].phase == Dropping(lock, answer)
    ensures LocksInv(Drop(c, t, lock, answer))
  {
    var c1 := Drop(c, t, lock, answer);
    assert ThreadOk(c, t);
    forall u | u in c1.threads ensures ThreadOk(c1, u) { assert ThreadOk(c, u); }
    forall other | other in c1.holder ensures HolderOk(c1, other) { assert HolderOk(c, other); }
    forall key | key in c1.locks ensures LockOk(c1, key) {
      assert LockOk(c, key);
      if c.locks[key] == lock {
        assert HolderOk(c, lock);
        assert Refers(c1, c.holder[lock], lock);
      } else {
        var u :| Refers(c, u, c.locks[key]);
        assert Refers(c1, u, c1.locks[key]);
      }
    }
  }

  lemma ArrivesLocks(c: Cache, t: Thread, key: CacheKey)
    requires LocksInv(c) && t !in c.threads
    ensures LocksInv(CacheStep(c, Arrives(t, key)))
  {
    var c1 := CacheStep(c, Arrives(t, key));
    forall u | u in c1.threads ensures ThreadOk(c1, u) { assert u != t ==> ThreadOk(c, u); }
    forall lock | lock in c1.holder ensures HolderOk(c1, lock) { assert HolderOk(c, lock); }
    forall k | k in c1.locks ensures LockOk(c1, k) {
      assert LockOk(c, k);
      var u :| Refers(c, u, c.locks[k]);
      assert Refers(c1, u, c1.locks[k]);
    }
  }

  predicate TakesLocks(phase: Phase) {
    phase.Choosing? || phase.Waiting? || phase.Releasing? || phase.Dropping? || phase.Done?
  }

  /** Every other step moves its thread and keeps all locks as they are. */
  ghost predicate Plain(c: Cache, c1: Cache, t: Thread) {
    && t in c.threads && t in c1.threads
    && c1.threads == c.threads[t := c1.threads[t]] && c1.threads[t].key == c.threads[t].key
    && c1.locks == c.locks && c1.made == c.made && c1.holder == c.holder
    && Holding(c1.threads[t].phase) == Holding(c.threads[t].phase) && LockOf(c1.threads[t].phase) == LockOf(c.threads[t].phase)
  }

  lemma PlainLoad(c: Cache, t: Thread, held: Option<Lock>)
    requires t in c.threads && Holding(c.threads[t].phase) == held
    ensures c.threads[t].phase.Looking? ==> Plain(c, Look(c, t, held), t)
    ensures c.threads[t].phase.Reading? ==> Plain(c, Read(c, t, held), t)
    ensures c.threads[t].phase.Touching? ==> Plain(c, Touch(c, t, held, c.threads[t].phase.animation), t)
  {}

  lemma PlainStep(c: Cache, t: Thread, chance: Chance)
    requires t in c.threads && !TakesLocks(c.threads[t].phase)
    ensures Plain(c, RunThread(c, t, chance), t)
  {
    hide Choose, Acquire, Release, Drop, Removals, Look, Read, Touch;
    PlainLoad(c, t, Holding(c.threads[t].phase));
  }

  lemma RunLocks(c: Cache, t: Thread, chance: Chance)
    requires LocksInv(c) && CacheEnabled(c, Runs(t, chance))
    ensures LocksInv(RunThread(c, t, chance))
  {
    hide LocksInv, Choose, Acquire, Release, Drop, Look, Read, Touch, Analyse, Store, PruneOthers;
    if TakesLocks(c.threads[t].phase) {
      match c.threads[t].phase
      case Choosing => ChooseLocks(c, t);
      case Waiting(lock) => AcquireLocks(c, t, lock);
      case Releasing(lock, answer) => ReleaseLocks(c, t, lock, answer);
      case Dropping(lock, answer) => DropLocks(c, t, lock, answer);
      case _ =>
    } else {
      PlainStep(c, t, chance);
      SameLocks(c, RunThread(c, t, chance), t);
    }
  }

  lemma LocksStep(c: Cache, e: CacheEvent)
    requires LocksInv(c)
    ensures LocksInv(CacheStep(c, e))
  {
    hide LocksInv, RunThread;
    if CacheEnabled(c, e) {
      match e
      case Arrives(t, key) => ArrivesLocks(c, t, key);
      case Runs(t, chance) => RunLocks(c, t, chance);
    }
  }

  // ---- One key

  /** No call for this key failed, and its entry was not pruned. */
  ghost predicate Undisturbed(c: Cache, key: CacheKey) {
    CallFailed(key) !in c.log && Removed(key) !in c.log
  }

  predicate Works(phase: Phase) {
    phase.Analysing? || phase.Storing?
  }

  predicate WorksFor(c: Cache, t: Thread, key: CacheKey) {
    t in c.threads && c.threads[t].key == key && Works(c.threads[t].phase)
  }

  predicate Carries(answer: Answer, animation: Animation) {
    answer.Ok? && answer.value.animation == animation
  }

  /** While the entry is missing, every thread that has a lock has the one in the table, and nobody has an answer. */
  predicate Early(c: Cache, call: Call) {
    match call.phase
    case Looking(held) => held.Some? ==> call.key in c.locks && held.value == c.locks[call.key]
    case Choosing => true
    case Waiting(lock) => call.key in c.locks && lock == c.locks[call.key]
    case Analysing(lock) => call.key in c.locks && lock == c.locks[call.key]
    case Storing(lock, _) => call.key in c.locks && lock == c.locks[call.key]
    case _ => false
  }

  /** Once it is there, whatever lock they have, all get the same animation. */
  predicate Late(call: Call, animation: Animation) {
    match call.phase
    case Touching(_, read) => read == animation
    case Analysing(_) => false
    case Storing(_, _) => false
    case Pruning(_, stored) => stored == animation
    case Releasing(_, answer) => Carries(answer, animation)
    case Dropping(_, answer) => Carries(answer, animation)
    case Done(answer) => Carries(answer, animation)
    case _ => true
  }

  ghost predicate Missing(c: Cache, key: CacheKey) {
    && key !in c.files
    && (forall t :: t in c.threads && c.threads[t].key == key ==> Early(c, c.threads[t]))
    && (NimCalled(key) in c.log ==> exists t :: WorksFor(c, t, key))
    && (forall payload :: Answered(key, payload) !in c.log)
  }

  ghost predicate Present(c: Cache, key: CacheKey) {
    && key in c.files && c.files[key].Valid?
    && (forall t :: t in c.threads && c.threads[t].key == key ==> Late(c.threads[t], c.files[key].animation))
    && (forall payload :: Answered(key, payload) in c.log ==> payload.animation == c.files[key].animation)
  }

  predicate AtMostOnce(log: seq<CacheAct>, act: CacheAct) {
    forall i, j :: 0 <= i < j < |log| && log[i] == act ==> log[j] != act
  }

  /** `Corrupt` entries are there from the start; reading one is a failure. */
  ghost predicate Unread(c: Cache, key: CacheKey) {
    && key in c.files && c.files[key] == Corrupt
    && (forall t :: t in c.threads && c.threads[t].key == key ==> c.threads[t].phase == Looking(None) || c.threads[t].phase == Reading(None))
    && NimCalled(key) !in c.log && (forall payload :: Answered(key, payload) !in c.log)
  }

  ghost predicate KeyInv(c: Cache, key: CacheKey) {
    Undisturbed(c, key) ==> (Missing(c, key) || Present(c, key) || Unread(c, key)) && AtMostOnce(c.log, NimCalled(key))
  }

  // ---- Steps of other calls

  /** What a step of a call for another key may do to this one. */
  ghost predicate Elsewhere(c: Cache, c1: Cache, key: CacheKey) {
    && (key in c1.files <==> key in c.files) && (key in c.files ==> c1.files[key] == c.files[key])
    && (key in c1.locks <==> key in c.locks) && (key in c.locks ==> c1.locks[key] == c.locks[key])
    && (forall t :: t in c1.threads && c1.threads[t].key == key <==> t in c.threads && c.threads[t].key == key)
    && (forall t :: t in c.threads && c.threads[t].key == key ==> c1.threads[t] == c.threads[t])
    && c.log <= c1.log
    && (forall i :: |c.log| <= i < |c1.log| ==> c1.log[i].Removed? || c1.log[i].key != key)
  }

  lemma RemovalsAre(keys: seq<CacheKey>)
    ensures |Removals(keys)| == |keys| && forall i :: 0 <= i < |keys| ==> Removals(keys)[i] == Removed(keys[i])
    ensures forall key :: key in keys <==> Removed(key) in Removals(keys)
  {}

  lemma PruneElsewhere(c: Cache, t: Thread, lock: Lock, animation: Animation, removed: seq<CacheKey>, completed: bool, key: CacheKey)
    requires t in c.threads && c.threads[t].key != key
    requires Removed(key) !in PruneOthers(c, t, lock, animation, removed, completed).log
    ensures Elsewhere(c, PruneOthers(c, t, lock, animation, removed, completed), key)
  {
    RemovalsAre(removed);
    hide Removals;
    assert key !in removed;
  }

  lemma RunElsewhere(c: Cache, t: Thread, chance: Chance, key: CacheKey)
    requires t in c.threads && c.threads[t].key != key
    requires Removed(key) !in RunThread(c, t, chance).log
    ensures Elsewhere(c, RunThread(c, t, chance), key)
  {
    hide PruneOthers, Elsewhere;
    if c.threads[t].phase.Pruning? {
      PruneElsewhere(c, t, c.threads[t].phase.lock, c.threads[t].phase.animation, chance.removed, chance.written, key);
    } else {
      OwnShape(c, t, chance);
      hide RunThread;
      OwnElsewhere(c, RunThread(c, t, chance), t, key);
    }
  }

  /** A step changes only its own thread, its own entry in the tables, and records acts of its own key. */
  ghost predicate OwnStep(c: Cache, c1: Cache, t: Thread) {
    && t in c.threads && t in c1.threads && c1.threads == c.threads[t := c1.threads[t]] && c1.threads[t].key == c.threads[t].key
    && (c1.files == c.files || (c.threads[t].key in c1.files && c1.files == c.files[c.threads[t].key := c1.files[c.threads[t].key]]))
    && (c1.locks == c.locks || c1.locks == c.locks - {c.threads[t].key}
        || (c.threads[t].key in c1.locks && c1.locks == c.locks[c.threads[t].key := c1.locks[c.threads[t].key]]))
    && (c1.log == c.log || (exists act: CacheAct :: c1.log == c.log + [act] && act.key == c.threads[t].key && !act.Removed?))
  }

  lemma LookShape(c: Cache, t: Thread, held: Option<Lock>)
    requires t in c.threads
    ensures OwnStep(c, Look(c, t, held), t)
  {}

  lemma ReadShape(c: Cache, t: Thread, held: Option<Lock>)
    requires t in c.threads
    ensures OwnStep(c, Read(c, t, held), t)
  {}

  lemma TouchShape(c: Cache, t: Thread, held: Option<Lock>, animation: Animation)
    requires t in c.threads
    ensures OwnStep(c, Touch(c, t, held, animation), t)
  {}

  lemma OwnShape(c: Cache, t: Thread, chance: Chance)
    requires t in c.threads && !c.threads[t].phase.Pruning?
    ensures OwnStep(c, RunThread(c, t, chance), t)
  {
    hide Look, Read, Touch, Choose, Analyse, Store, Drop, PruneOthers;
    match c.threads[t].phase
    case Looking(held) => LookShape(c, t, held);
    case Reading(held) => ReadShape(c, t, held);
    case Touching(held, animation) => TouchShape(c, t, held, animation);
    case Choosing => ChooseShape(c, t);
    case Analysing(lock) => AnalyseShape(c, t, lock, chance.animation);
    case Storing(lock, animation) => StoreShape(c, t, lock, animation, chance.written);
    case Dropping(lock, answer) => DropShape(c, t, lock, answer);
    case _ =>
  }

  lemma ChooseShape(c: Cache, t: Thread)
    requires t in c.threads
    ensures OwnStep(c, Choose(c, t), t)
  {}

  lemma AnalyseShape(c: Cache, t: Thread, lock: Lock, animation: Option<Animation>)
    requires t in c.threads
    ensures OwnStep(c, Analyse(c, t, lock, animation), t)
  {}

  lemma StoreShape(c: Cache, t: Thread, lock: Lock, animation: Animation, written: bool)
    requires t in c.threads
    ensures OwnStep(c, Store(c, t, lock, animation, written), t)
  {}

  lemma DropShape(c: Cache, t: Thread, lock: Lock, answer: Answer)
    requires t in c.threads
    ensures OwnStep(c, Drop(c, t, lock, answer), t)
  {}

  lemma OwnElsewhere(c: Cache, c1: Cache, t: Thread, key: CacheKey)
    requires OwnStep(c, c1, t) && c.threads[t].key != key
    ensures Elsewhere(c, c1, key)
  {}

  lemma ElsewhereKeeps(c: Cache, c1: Cache, key: CacheKey)
    requires Elsewhere(c, c1, key) && KeyInv(c, key) && Undisturbed(c1, key)
    ensures KeyInv(c1, key)
  {
    assert Undisturbed(c, key);
    ElsewhereLog(c, c1, key);
    if Missing(c, key) {
      if NimCalled(key) in c1.log {
        var t :| WorksFor(c, t, key);
        assert WorksFor(c1, t, key);
      }
      assert Missing(c1, key);
    } else if Present(c, key) {
      assert Present(c1, key);
    } else {
      assert Unread(c1, key);
    }
    hide Early, Late, Carries, AtMostOnce;
  }

  lemma ElsewhereLog(c: Cache, c1: Cache, key: CacheKey)
    requires Elsewhere(c, c1, key)
    ensures NimCalled(key) in c1.log <==> NimCalled(key) in c.log
    ensures forall payload :: Answered(key, payload) in c1.log <==> Answered(key, payload) in c.log
    ensures AtMostOnce(c.log, NimCalled(key)) ==> AtMostOnce(c1.log, NimCalled(key))
  {}

  // ---- Steps of a call for this key

  /** What a step of one of this key's calls does to the other calls for it: nothing. */
  ghost predicate OneMoves(c: Cache, c1: Cache, t: Thread, act: Option<CacheAct>) {
    && t in c.threads && t in c1.threads && c1.threads == c.threads[t := c1.threads[t]] && c1.threads[t].key == c.threads[t].key
    && c1.log == if act.Some? then c.log + [act.value] else c.log
  }

  /** A failed analysis or write is recorded. */
  lemma FailureIsLogged(c: Cache, t: Thread, chance: Chance)
    requires t in c.threads
    ensures c.threads[t].phase.Analysing? && chance.animation.None? ==> CallFailed(c.threads[t].key) in RunThread(c, t, chance).log
    ensures c.threads[t].phase.Storing? && !chance.written ==> CallFailed(c.threads[t].key) in RunThread(c, t, chance).log
  {}

  lemma MissingKeeps(c: Cache, t: Thread, chance: Chance)
    requires LocksInv(c) && CacheEnabled(c, Runs(t, chance))
    requires Undisturbed(RunThread(c, t, chance), c.threads[t].key) && Undisturbed(c, c.threads[t].key)
    requires Missing(c, c.threads[t].key) && AtMostOnce(c.log, NimCalled(c.threads[t].key))
    ensures KeyInv(RunThread(c, t, chance), c.threads[t].key)
  {
    var key := c.threads[t].key;
    var c1 := RunThread(c, t, chance);
    assert Early(c, c.threads[t]);
    hide LocksInv, PruneOthers, Read, Touch, Drop;
    FailureIsLogged(c, t, chance);
    match c.threads[t].phase
    case Looking(held) => if held.Some? { StartsWork(c, t, held.value); } else { OneEarly(c, c1, t); }
    case Choosing => ChoosesLock(c, t);
    case Waiting(lock) => OneEarly(c, c1, t);
    case Analysing(lock) => if chance.animation.Some? { KeepsWork(c, c1, t); }
    case Storing(lock, animation) => if chance.written { StoresIt(c, t, lock, animation); }
  }

  lemma OneEarly(c: Cache, c1: Cache, t: Thread)
    requires OneMoves(c, c1, t, None) && Missing(c, c.threads[t].key) && !Works(c.threads[t].phase) && AtMostOnce(c.log, NimCalled(c.threads[t].key))
    requires c1.files == c.files && c1.locks == c.locks && Early(c1, c1.threads[t])
    ensures KeyInv(c1, c.threads[t].key)
  {
    var key := c.threads[t].key;
    if NimCalled(key) in c.log {
      var u :| WorksFor(c, u, key);
      assert WorksFor(c1, u, key);
    }
    assert Missing(c1, key);
    hide AtMostOnce;
  }

  lemma KeepsWork(c: Cache, c1: Cache, t: Thread)
    requires OneMoves(c, c1, t, None) && Missing(c, c.threads[t].key) && AtMostOnce(c.log, NimCalled(c.threads[t].key))
    requires c1.files == c.files && c1.locks == c.locks && Works(c1.threads[t].phase) && Early(c1, c1.threads[t])
    ensures KeyInv(c1, c.threads[t].key)
  {
    assert WorksFor(c1, t, c.threads[t].key);
    assert Missing(c1, c.threads[t].key);
    hide AtMostOnce;
  }

  /** The table had no lock for the key, so no call had one either. */
  lemma ChoosesLock(c: Cache, t: Thread)
    requires t in c.threads && Missing(c, c.threads[t].key) && c.threads[t].phase == Choosing && AtMostOnce(c.log, NimCalled(c.threads[t].key))
    ensures KeyInv(Choose(c, t), c.threads[t].key)
  {
    var key := c.threads[t].key;
    var c1 := Choose(c, t);
    if NimCalled(key) in c.log {
      var u :| WorksFor(c, u, key);
      assert WorksFor(c1, u, key);
    }
    assert Missing(c1, key);
    hide AtMostOnce;
  }

  /** The lock in the table is held by one thread, so no other is at work. */
  lemma NobodyWorks(c: Cache, t: Thread, lock: Lock)
    requires LocksInv(c) && t in c.threads && c.threads[t].phase == Looking(Some(lock)) && Missing(c, c.threads[t].key)
    ensures NimCalled(c.threads[t].key) !in c.log
  {}

  lemma StartsWork(c: Cache, t: Thread, lock: Lock)
    requires LocksInv(c) && t in c.threads && c.threads[t].phase == Looking(Some(lock)) && Missing(c, c.threads[t].key)
    requires AtMostOnce(c.log, NimCalled(c.threads[t].key))
    ensures KeyInv(Look(c, t, Some(lock)), c.threads[t].key)
  {
    var key := c.threads[t].key;
    var c1 := Look(c, t, Some(lock));
    NobodyWorks(c, t, lock);
    hide LocksInv;
    assert Early(c, c.threads[t]);
    assert WorksFor(c1, t, key) && AtMostOnce(c1.log, NimCalled(key));
    assert Missing(c1, key);
  }

  /** The only thread at work stores the entry: every other call is still on its way to look for it. */
  lemma StoresIt(c: Cache, t: Thread, lock: Lock, animation: Animation)
    requires LocksInv(c) && t in c.threads && c.threads[t].phase == Storing(lock, animation) && Missing(c, c.threads[t].key)
    requires AtMostOnce(c.log, NimCalled(c.threads[t].key))
    ensures KeyInv(Store(c, t, lock, animation, true), c.threads[t].key)
  {
    var key := c.threads[t].key;
    var c1 := Store(c, t, lock, animation, true);
    assert ThreadOk(c, t) && Early(c, c.threads[t]);
    forall u | u in c1.threads && c1.threads[u].key == key ensures Late(c1.threads[u], animation) {
      if u != t { assert ThreadOk(c, u) && Early(c, c.threads[u]); }
    }
    assert Present(c1, key);
    hide AtMostOnce;
  }

  lemma PresentKeeps(c: Cache, t: Thread, chance: Chance)
    requires CacheEnabled(c, Runs(t, chance))
    requires Undisturbed(RunThread(c, t, chance), c.threads[t].key)
    requires Present(c, c.threads[t].key) && AtMostOnce(c.log, NimCalled(c.threads[t].key))
    ensures KeyInv(RunThread(c, t, chance), c.threads[t].key)
  {
    var key := c.threads[t].key;
    var c1 := RunThread(c, t, chance);
    var animation := c.files[key].animation;
    assert Late(c.threads[t], animation);
    if c.threads[t].phase.Pruning? { PruneServed(c, t, chance); } else { PresentMoves(c, t, chance); }
    hide RunThread;
    forall u | u in c1.threads && c1.threads[u].key == key ensures Late(c1.threads[u], animation) {
      if u != t { assert Late(c.threads[u], animation); }
    }
    hide Late;
    PresentLog(c, c1, key);
    assert Present(c1, key);
  }

  /** The step left the entry as it is, kept to its animation, and made no NIM call. */
  ghost predicate Served(c: Cache, c1: Cache, t: Thread, animation: Animation)
    requires t in c.threads
  {
    var key := c.threads[t].key;
    && t in c1.threads && c1.threads == c.threads[t := c1.threads[t]] && c1.threads[t].key == key && Late(c1.threads[t], animation)
    && key in c.files && key in c1.files && c1.files[key] == c.files[key]
    && c.log <= c1.log
    && forall i :: |c.log| <= i < |c1.log| ==> c1.log[i] != NimCalled(key) && (c1.log[i].Answered? && c1.log[i].key == key ==> c1.log[i].payload.animation == animation)
  }

  lemma PruneServed(c: Cache, t: Thread, chance: Chance)
    requires CacheEnabled(c, Runs(t, chance)) && c.threads[t].phase.Pruning? && Undisturbed(RunThread(c, t, chance), c.threads[t].key)
    requires Present(c, c.threads[t].key) && c.threads[t].phase.animation == c.files[c.threads[t].key].animation
    ensures Served(c, RunThread(c, t, chance), t, c.files[c.threads[t].key].animation)
  {}

  lemma PresentMoves(c: Cache, t: Thread, chance: Chance)
    requires CacheEnabled(c, Runs(t, chance)) && !c.threads[t].phase.Pruning? && Undisturbed(RunThread(c, t, chance), c.threads[t].key)
    requires Present(c, c.threads[t].key) && Late(c.threads[t], c.files[c.threads[t].key].animation)
    ensures Served(c, RunThread(c, t, chance), t, c.files[c.threads[t].key].animation)
  {
    assert c.threads[t].key in c.files && c.files[c.threads[t].key].Valid?;
    hide PruneOthers, Present, Analyse, Store;
  }

  lemma PresentLog(c: Cache, c1: Cache, key: CacheKey)
    requires Present(c, key) && c.log <= c1.log && AtMostOnce(c.log, NimCalled(key))
    requires forall i :: |c.log| <= i < |c1.log| ==>
      c1.log[i] != NimCalled(key) && (c1.log[i].Answered? && c1.log[i].key == key ==> c1.log[i].payload.animation == c.files[key].animation)
    ensures AtMostOnce(c1.log, NimCalled(key))
    ensures forall payload :: Answered(key, payload) in c1.log ==> payload.animation == c.files[key].animation
  {}

  lemma UnreadKeeps(c: Cache, t: Thread, chance: Chance)
    requires CacheEnabled(c, Runs(t, chance))
    requires Undisturbed(RunThread(c, t, chance), c.threads[t].key)
    requires Unread(c, c.threads[t].key) && AtMostOnce(c.log, NimCalled(c.threads[t].key))
    ensures KeyInv(RunThread(c, t, chance), c.threads[t].key)
  {}

  // ---- Runs

  lemma ArrivesKeeps(c: Cache, t: Thread, k: CacheKey, key: CacheKey)
    requires KeyInv(c, key) && t !in c.threads
    ensures KeyInv(CacheStep(c, Arrives(t, k)), key)
  {
    var c1 := CacheStep(c, Arrives(t, k));
    if Undisturbed(c, key) {
      if Missing(c, key) {
        if NimCalled(key) in c.log {
          var u :| WorksFor(c, u, key);
          assert WorksFor(c1, u, key);
        }
        assert Missing(c1, key);
      } else if Present(c, key) {
        assert Present(c1, key);
      } else {
        assert Unread(c1, key);
      }
    }
    hide AtMostOnce, Carries;
  }

  lemma LogGrows(c: Cache, t: Thread, chance: Chance)
    requires t in c.threads
    ensures c.log <= RunThread(c, t, chance).log
  {
    if c.threads[t].phase.Pruning? {
      hide Removals;
    } else {
      OwnShape(c, t, chance);
      hide RunThread;
    }
  }

  lemma KeyStep(c: Cache, e: CacheEvent, key: CacheKey)
    requires LocksInv(c) && KeyInv(c, key)
    ensures KeyInv(CacheStep(c, e), key)
  {
    hide LocksInv, RunThread, Missing, Present, Unread, AtMostOnce;
    if CacheEnabled(c, e) {
      match e
      case Arrives(t, k) => ArrivesKeeps(c, t, k, key);
      case Runs(t, chance) =>
        LogGrows(c, t, chance);
        if Undisturbed(RunThread(c, t, chance), key) {
          assert Undisturbed(c, key);
          if c.threads[t].key != key {
            RunElsewhere(c, t, chance, key);
            hide Elsewhere;
            ElsewhereKeeps(c, RunThread(c, t, chance), key);
          } else if Missing(c, key) {
            MissingKeeps(c, t, chance);
          } else if Present(c, key) {
            PresentKeeps(c, t, chance);
          } else {
            UnreadKeeps(c, t, chance);
          }
        }
    }
  }

  lemma {:induction false} CacheRun(c: Cache, events: seq<CacheEvent>, key: CacheKey)
    requires LocksInv(c) && KeyInv(c, key)
    ensures LocksInv(CacheExec(c, events)) && KeyInv(CacheExec(c, events), key)
    decreases |events|
  {
    hide LocksInv, KeyInv, CacheStep;
    if events != [] {
      LocksStep(c, events[0]);
      KeyStep(c, events[0], key);
      CacheRun(CacheStep(c, events[0]), events[1..], key);
    }
  }

  lemma FreshKeys(c: Cache, key: CacheKey)
    requires Fresh(c)
    ensures LocksInv(c) && KeyInv(c, key)
  {}

  /**
   * While no call for a key fails and its entry is not pruned, any number of threads in any interleaving call the NIM at
   * most once for it, and every one of them gets the same animation; only `cacheHit` differs.
   */
  lemma OneAnalysis(start: Cache, events: seq<CacheEvent>, key: CacheKey)
    requires Fresh(start) && Undisturbed(CacheExec(start, events), key)
    ensures
      var c := CacheExec(start, events);
      && AtMostOnce(c.log, NimCalled(key))
      && (forall first, second :: Answered(key, first) in c.log && Answered(key, second) in c.log ==>
            first.animation == second.animation)
  {
    FreshKeys(start, key);
    CacheRun(start, events, key);
    hide LocksInv, Early, Late;
  }

  /** The lock table never leaks: a key has a lock only while some call for it still refers to that very lock. */
  lemma NoLockLeaks(start: Cache, events: seq<CacheEvent>, key: CacheKey)
    requires Fresh(start) && key in CacheExec(start, events).locks
    ensures
      var c := CacheExec(start, events);
      exists t :: Refers(c, t, c.locks[key]) && c.threads[t].key == key
  {
    var c := CacheExec(start, events);
    FreshKeys(start, key);
    CacheRun(start, events, key);
    hide KeyInv;
    assert LockOk(c, key);
    var t :| Refers(c, t, c.locks[key]);
    assert ThreadOk(c, t);
  }

  /** Under the same condition no two threads ever analyse one key at the same time. */
  lemma OneWorker(start: Cache, events: seq<CacheEvent>, key: CacheKey, t: Thread, u: Thread)
    requires Fresh(start) && Undisturbed(CacheExec(start, events), key)
    requires WorksFor(CacheExec(start, events), t, key) && WorksFor(CacheExec(start, events), u, key)
    ensures t == u
  {
    var c := CacheExec(start, events);
    FreshKeys(start, key);
    CacheRun(start, events, key);
    hide CacheExec, Fresh, AtMostOnce, HolderOk, LockOk;
    assert ThreadOk(c, t) && ThreadOk(c, u);
    assert Missing(c, key) ==> Early(c, c.threads[t]) && Early(c, c.threads[u]);
    assert Present(c, key) ==> Late(c.threads[t], c.files[key].animation);
  }

  lemma ExecAppends(c: Cache, first: seq<CacheEvent>, second: seq<CacheEvent>)
    ensures CacheExec(c, first + second) == CacheExec(CacheExec(c, first), second)
    decreases |first|
  {
    hide CacheStep;
    if first == [] {
      assert first + second == second;
    } else {
      assert (first + second)[0] == first[0] && (first + second)[1..] == first[1..] + second;
      ExecAppends(CacheStep(c, first[0]), first[1..], second);
    }
  }

  lemma Then(c: Cache, events: seq<CacheEvent>, e: CacheEvent)
    ensures CacheExec(c, events + [e]) == CacheStep(CacheExec(c, events), e)
  {
    hide CacheStep;
    ExecAppends(c, events, [e]);
    var c1 := CacheExec(c, events);
    assert CacheExec(c1, [e]) == CacheExec(CacheStep(c1, e), [e][1..]);
  }

  const LUCK := Chance(None, true, [])

  lemma Nothing(c: Cache)
    ensures CacheExec(c, []) == c
  {}
}
