/**
 * The result cache of the Audio2Face bridge under concurrent requests: each thread of `analyze_cached` moves by atomic
 * steps, per-key locks come and go, and pruning may delete any entry but the one just stored.
 */
module ResultCache {
  import opened Outcomes

  /** The digest of a request. */
  type CacheKey(==, !new)

  /** Lock objects are numbered in the order they are made. */
  type Lock = nat
  type Thread = nat

  /** The animation of one analysis; every payload of one key differs only in this and in `cacheHit`. */
  type Animation(==, !new)

  datatype File = Valid(animation: Animation) | Corrupt

  datatype Payload = Payload(animation: Animation, cacheHit: bool)

  /** `Err` stands for any exception. */
  type Answer = Result<Payload, ()>

  /** Where a thread is in `analyze_cached`; `held` is the lock it holds, if it is past `lock.acquire()`. */
  datatype Phase =
    | Looking(held: Option<Lock>)
    | Reading(held: Option<Lock>)
    | Touching(held: Option<Lock>, animation: Animation)
    | Choosing
    | Waiting(lock: Lock)
    | Analysing(lock: Lock)
    | Storing(lock: Lock, animation: Animation)
    | Pruning(lock: Lock, animation: Animation)
    | Releasing(lock: Lock, answer: Answer)
    | Dropping(lock: Lock, answer: Answer)
    | Done(answer: Answer)

  datatype Call = Call(key: CacheKey, phase: Phase)

  datatype CacheAct =
    | NimCalled(key: CacheKey)
    | CallFailed(key: CacheKey)
    | Answered(key: CacheKey, payload: Payload)
    | Removed(key: CacheKey)

  /** `made` says for which key each lock object was made; `holder` says which locks are held and by whom. */
  datatype Cache = Cache(files: map<CacheKey, File>, locks: map<CacheKey, Lock>, made: seq<CacheKey>, holder: map<Lock, Thread>,
                         threads: map<Thread, Call>, log: seq<CacheAct>)

  predicate Fresh(c: Cache) {
    c.locks == map[] && c.made == [] && c.holder == map[] && c.threads == map[] && c.log == []
  }

  // ---- Steps of one thread

  function Move(c: Cache, t: Thread, phase: Phase): Cache
    requires t in c.threads
  {
    c.(threads := c.threads[t := c.threads[t].(phase := phase)])
  }

  /** The call returns, through its `finally` block if it holds a lock. */
  function Leave(c: Cache, t: Thread, held: Option<Lock>, payload: Payload): Cache
    requires t in c.threads
  {
    if held.Some? then Move(c, t, Releasing(held.value, Ok(payload))) else Finish(c, t, Ok(payload))
  }

  function Finish(c: Cache, t: Thread, answer: Answer): Cache
    requires t in c.threads
  {
    Move(c, t, Done(answer)).(log := if answer.Ok? then c.log + [Answered(c.threads[t].key, answer.value)] else c.log)
  }

  /** An exception is raised in the call. */
  function Raise(c: Cache, t: Thread, held: Option<Lock>): Cache
    requires t in c.threads
  {
    Move(c, t, if held.Some? then Releasing(held.value, Err(())) else Done(Err(()))).(log := c.log + [CallFailed(c.threads[t].key)])
  }

  function Look(c: Cache, t: Thread, held: Option<Lock>): Cache
    requires t in c.threads
  {
    var key := c.threads[t].key;
    if key in c.files then Move(c, t, Reading(held))
    else if held.Some? then Move(c, t, Analysing(held.value)).(log := c.log + [NimCalled(key)])
    else Move(c, t, Choosing)
  }

  /** The entry may have been pruned since, or fail its contract. */
  function Read(c: Cache, t: Thread, held: Option<Lock>): Cache
    requires t in c.threads
  {
    var key := c.threads[t].key;
    if key in c.files && c.files[key].Valid? then Move(c, t, Touching(held, c.files[key].animation)) else Raise(c, t, held)
  }

  function Touch(c: Cache, t: Thread, held: Option<Lock>, animation: Animation): Cache
    requires t in c.threads
  {
    if c.threads[t].key in c.files then Leave(c, t, held, Payload(animation, true)) else Raise(c, t, held)
  }

  /** `_lock_for`. */
  function Choose(c: Cache, t: Thread): Cache
    requires t in c.threads
  {
    var key := c.threads[t].key;
    if key in c.locks then Move(c, t, Waiting(c.locks[key]))
    else Move(c, t, Waiting(|c.made|)).(locks := c.locks[key := |c.made|], made := c.made + [key])
  }

  function Acquire(c: Cache, t: Thread, lock: Lock): Cache
    requires t in c.threads
  {
    Move(c, t, Looking(Some(lock))).(holder := c.holder[lock := t])
  }

  /** `None`: the analysis failed. */
  function Analyse(c: Cache, t: Thread, lock: Lock, animation: Option<Animation>): Cache
    requires t in c.threads
  {
    if animation.Some? then Move(c, t, Storing(lock, animation.value)) else Raise(c, t, Some(lock))
  }

  /** `os.replace`, or a failure to write. */
  function Store(c: Cache, t: Thread, lock: Lock, animation: Animation, written: bool): Cache
    requires t in c.threads
  {
    if written then Move(c, t, Pruning(lock, animation)).(files := c.files[c.threads[t].key := Valid(animation)])
    else Raise(c, t, Some(lock))
  }

  function Removals(keys: seq<CacheKey>): seq<CacheAct> {
    seq(|keys|, i requires 0 <= i < |keys| => Removed(keys[i]))
  }

  /** Pruning removes entries other than its own, and may itself fail on the way. */
  function PruneOthers(c: Cache, t: Thread, lock: Lock, animation: Animation, removed: seq<CacheKey>, completed: bool): Cache
    requires t in c.threads
  {
    var pruned := c.(files := map k | k in c.files && k !in removed :: c.files[k], log := c.log + Removals(removed));
    if completed then Move(pruned, t, Releasing(lock, Ok(Payload(animation, false)))) else Raise(pruned, t, Some(lock))
  }

  function Release(c: Cache, t: Thread, lock: Lock, answer: Answer): Cache
    requires t in c.threads
  {
    Move(c, t, Dropping(lock, answer)).(holder := c.holder - {lock})
  }

  /** `_release_lock`: a lock that nobody holds is forgotten, even while others wait for it. */
  function Drop(c: Cache, t: Thread, lock: Lock, answer: Answer): Cache
    requires t in c.threads
  {
    var key := c.threads[t].key;
    var dropped := if lock !in c.holder && key in c.locks && c.locks[key] == lock then c.(locks := c.locks - {key}) else c;
    Finish(dropped, t, answer)
  }

  // ---- Runs

  /** What the outside world decides: the result of an analysis, whether a write or a pruning succeeds, what pruning removes. */
  datatype Chance = Chance(animation: Option<Animation>, written: bool, removed: seq<CacheKey>)

  datatype CacheEvent = Arrives(thread: Thread, key: CacheKey) | Runs(thread: Thread, chance: Chance)

  predicate CacheEnabled(c: Cache, e: CacheEvent) {
    match e
    case Arrives(t, _) => t !in c.threads
    case Runs(t, chance) =>
      && t in c.threads && !c.threads[t].phase.Done?
      && (c.threads[t].phase.Waiting? ==> c.threads[t].phase.lock !in c.holder)
      && (c.threads[t].phase.Pruning? ==> c.threads[t].key !in chance.removed && forall k :: k in chance.removed ==> k in c.files)
  }

  function RunThread(c: Cache, t: Thread, chance: Chance): Cache
    requires t in c.threads
  {
    match c.threads[t].phase
    case Looking(held) => Look(c, t, held)
    case Reading(held) => Read(c, t, held)
    case Touching(held, animation) => Touch(c, t, held, animation)
    case Choosing => Choose(c, t)
    case Waiting(lock) => Acquire(c, t, lock)
    case Analysing(lock) => Analyse(c, t, lock, chance.animation)
    case Storing(lock, animation) => Store(c, t, lock, animation, chance.written)
    case Pruning(lock, animation) => PruneOthers(c, t, lock, animation, chance.removed, chance.written)
    case Releasing(lock, answer) => Release(c, t, lock, answer)
    case Dropping(lock, answer) => Drop(c, t, lock, answer)
    case Done(_) => c
  }

  function CacheStep(c: Cache, e: CacheEvent): Cache {
    if !CacheEnabled(c, e) then c else
    match e
    case Arrives(t, key) => c.(threads := c.threads[t := Call(key, Looking(None))])
    case Runs(t, chance) => RunThread(c, t, chance)
  }

  function CacheExec(c: Cache, events: seq<CacheEvent>): Cache
    decreases |events|
  {
    if events == [] then c else CacheExec(CacheStep(c, events[0]), events[1..])
  }
}
