/** The bridge's process-wide cache state as an object: one method per atomic step of a thread in `analyze_cached`. */
module ResultCacheRuntime {
  import opened Outcomes
  import opened ResultCache
  import ResultCacheTheorems

  class Bridge {
    var files: map<CacheKey, File>
    var locks: map<CacheKey, Lock>
    var made: seq<CacheKey>
    var holder: map<Lock, Thread>
    var threads: map<Thread, Call>
    ghost var log: seq<CacheAct>

    ghost function State(): Cache
      reads this
    {
      Cache(files, locks, made, holder, threads, log)
    }

    /** Every lock held is held by the thread that says so, and every lock of the table is in use by a call for its key. */
    ghost predicate Valid()
      reads this
    {
      ResultCacheTheorems.LocksInv(State())
    }

    /** The entries found in the directory at start may be valid or corrupt. */
    constructor (found: map<CacheKey, File>)
      ensures Valid() && State() == Cache(found, map[], [], map[], map[], [])
    {
      files, locks, made, holder, threads, log := found, map[], [], map[], map[], [];
    }

    method Move(t: Thread, phase: Phase)
      requires t in threads
      modifies `threads
      ensures State() == ResultCache.Move(old(State()), t, phase)
    {
      threads := threads[t := threads[t].(phase := phase)];
    }

    method Finish(t: Thread, answer: Answer)
      requires t in threads
      modifies `threads, `log
      ensures State() == ResultCache.Finish(old(State()), t, answer)
    {
      Move(t, Done(answer));
      if answer.Ok? { log := log + [Answered(threads[t].key, answer.value)]; }
    }

    method Leave(t: Thread, held: Option<Lock>, payload: Payload)
      requires t in threads
      modifies `threads, `log
      ensures State() == ResultCache.Leave(old(State()), t, held, payload)
    {
      if held.Some? { Move(t, Releasing(held.value, Ok(payload))); } else { Finish(t, Ok(payload)); }
    }

    method Raise(t: Thread, held: Option<Lock>)
      requires t in threads
      modifies `threads, `log
      ensures State() == ResultCache.Raise(old(State()), t, held)
    {
      log := log + [CallFailed(threads[t].key)];
      Move(t, if held.Some? then Releasing(held.value, Err(())) else Done(Err(())));
    }

    method LockFor(key: CacheKey) returns (lock: Lock)
      modifies `locks, `made
      ensures lock == if key in old(locks) then old(locks)[key] else |old(made)|
      ensures locks == old(locks)[key := lock] && made == if key in old(locks) then old(made) else old(made) + [key]
    {
      if key !in locks {
        locks := locks[key := |made|];
        made := made + [key];
      }
      lock := locks[key];
    }

    method ReleaseLock(key: CacheKey, lock: Lock)
      modifies `locks
      ensures locks == if lock !in holder && key in old(locks) && old(locks)[key] == lock then old(locks) - {key} else old(locks)
    {
      if lock !in holder && key in locks && locks[key] == lock { locks := locks - {key}; }
    }

    /** The three steps of `load`. A call that finds no entry analyses only with the lock of its key in hand. */
    method Load(t: Thread)
      requires Valid() && t in threads && (threads[t].phase.Looking? || threads[t].phase.Reading? || threads[t].phase.Touching?)
      modifies `threads, `log
      ensures Valid() && forall chance :: State() == RunThread(old(State()), t, chance)
      ensures t in threads && (threads[t].phase.Analysing? ==> threads[t].key !in files && Has(t, threads[t].phase.lock))
      ensures threads[t].phase.Touching? ==> threads[t].key in files && files[threads[t].key] == File.Valid(threads[t].phase.animation)
    {
      hide ResultCacheTheorems.LocksInv;
      ResultCacheTheorems.RunLocks(State(), t, ResultCacheTheorems.LUCK);
      ResultCacheTheorems.LocksOf(State(), t);
      var key := threads[t].key;
      match threads[t].phase
      case Looking(held) =>
        if key in files {
          Move(t, Reading(held));
        } else if held.Some? {
          Move(t, Analysing(held.value));
          log := log + [NimCalled(key)];
        } else {
          Move(t, Choosing);
        }
      case Reading(held) => if key in files && files[key].Valid? { Move(t, Touching(held, files[key].animation)); } else { Raise(t, held); }
      case Touching(held, animation) => if key in files { Leave(t, held, Payload(animation, true)); } else { Raise(t, held); }
    }

    /** The thread has the lock, which was made for the key of its call. */
    predicate Has(t: Thread, lock: Lock)
      reads this
    {
      t in threads && lock in holder && holder[lock] == t && lock < |made| && made[lock] == threads[t].key
    }

    /** Taking and giving back the lock of a key: one thread at a time has it. */
    method Lock(t: Thread)
      requires Valid() && t in threads
      requires threads[t].phase.Choosing? || threads[t].phase.Waiting? || threads[t].phase.Releasing? || threads[t].phase.Dropping?
      requires threads[t].phase.Waiting? ==> threads[t].phase.lock !in holder
      modifies `threads, `locks, `made, `holder, `log
      ensures Valid() && forall chance :: State() == RunThread(old(State()), t, chance)
      ensures old(threads[t].phase).Choosing? ==> threads[t].phase.Waiting? && locks[threads[t].key] == threads[t].phase.lock
      ensures old(threads[t].phase).Waiting? ==> Has(t, old(threads[t].phase).lock)
      ensures old(threads[t].phase).Releasing? ==> old(Has(t, threads[t].phase.lock)) && old(threads[t].phase).lock !in holder
    {
      hide ResultCacheTheorems.LocksInv;
      ResultCacheTheorems.RunLocks(State(), t, ResultCacheTheorems.LUCK);
      ResultCacheTheorems.LocksOf(State(), t);
      match threads[t].phase
      case Choosing =>
        ghost var table := locks;
        var lock := LockFor(threads[t].key);
        assert threads[t].key in table ==> locks == table;
        Move(t, Waiting(lock));
      case Waiting(lock) =>
        holder := holder[lock := t];
        Move(t, Looking(Some(lock)));
      case Releasing(lock, answer) =>
        holder := holder - {lock};
        Move(t, Dropping(lock, answer));
      case Dropping(lock, answer) =>
        ReleaseLock(threads[t].key, lock);
        Finish(t, answer);
    }

    /** Analysis, the atomic replacement of the entry, and pruning, all with the lock of the key in hand; an entry stored is never lost to it. */
    method Work(t: Thread, chance: Chance)
      requires Valid() && CacheEnabled(State(), Runs(t, chance))
      requires threads[t].phase.Analysing? || threads[t].phase.Storing? || threads[t].phase.Pruning?
      modifies `threads, `files, `log
      ensures Valid() && State() == RunThread(old(State()), t, chance)
      ensures Has(t, old(threads[t].phase).lock)
      ensures threads[t].phase.Pruning? ==> threads[t].key in files && files[threads[t].key] == File.Valid(threads[t].phase.animation)
      ensures threads[t].key in old(files) && !threads[t].phase.Pruning? ==> threads[t].key in files && files[threads[t].key] == old(files)[threads[t].key]
    {
      hide ResultCacheTheorems.LocksInv;
      ResultCacheTheorems.RunLocks(State(), t, chance);
      ResultCacheTheorems.LocksOf(State(), t);
      match threads[t].phase
      case Analysing(lock) => if chance.animation.Some? { Move(t, Storing(lock, chance.animation.value)); } else { Raise(t, Some(lock)); }
      case Storing(lock, animation) =>
        if chance.written {
          files := files[threads[t].key := File.Valid(animation)];
          Move(t, Pruning(lock, animation));
        } else {
          Raise(t, Some(lock));
        }
      case Pruning(lock, animation) =>
        files := map k | k in files && k !in chance.removed :: files[k];
        log := log + Removals(chance.removed);
        if chance.written { Move(t, Releasing(lock, Ok(Payload(animation, false)))); } else { Raise(t, Some(lock)); }
    }

    /** One thread moves; an event that cannot happen now changes nothing. */
    method Dispatch(e: CacheEvent)
      requires Valid()
      modifies this
      ensures Valid() && State() == CacheStep(old(State()), e)
    {
      hide RunThread, ResultCacheTheorems.LocksInv;
      if !CacheEnabled(Cache(files, locks, made, holder, threads, []), e) { return; }
      match e
      case Arrives(t, key) =>
        ResultCacheTheorems.ArrivesLocks(State(), t, key);
        threads := threads[t := Call(key, Looking(None))];
      case Runs(t, chance) =>
        var phase := threads[t].phase;
        if phase.Looking? || phase.Reading? || phase.Touching? {
          Load(t);
        } else if phase.Analysing? || phase.Storing? || phase.Pruning? {
          Work(t, chance);
        } else {
          Lock(t);
        }
    }
  }

  /** Threads of a bridge in any interleaving: every theorem about runs holds of it. */
  method Serve(found: map<CacheKey, File>, events: seq<CacheEvent>) returns (bridge: Bridge)
    ensures bridge.Valid() && bridge.State() == CacheExec(Cache(found, map[], [], map[], map[], []), events)
  {
    hide ResultCacheTheorems.LocksInv;
    bridge := new Bridge(found);
    ghost var start := Cache(found, map[], [], map[], map[], []);
    for i := 0 to |events|
      invariant bridge.Valid() && bridge.State() == CacheExec(start, events[..i])
      invariant fresh(bridge)
    {
      assert events[..i + 1] == events[..i] + [events[i]];
      ResultCacheTheorems.Then(start, events[..i], events[i]);
      bridge.Dispatch(events[i]);
    }
    assert events[..|events|] == events;
  }
}
