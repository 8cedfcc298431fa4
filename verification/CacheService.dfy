/** FileExistenceCache as one caller sees it: its methods in their own order of operations,
    with whatever other callers did while it slept. */
module CacheService {
  import opened Common
  import opened Cache
  import opened CacheFaults

  /** What callers share: Redis, the backend, the lock map and the free permits. */
  datatype Shared = Shared(redis: map<Key, FileInfo>, backend: map<Key, nat>, locks: set<Key>, free: nat)

  datatype Reply = Rejected | StillWaiting | Failed | Answered(result: CheckResult)

  /** Which services answer during one call; a cache without a Redis client has none to ask. */
  datatype Services = Services(redis: bool, storage: bool)

  /** The first view after a nap in which the lock is gone. */
  function FirstFree(naps: seq<Shared>, key: Key): Option<Shared> {
    if naps == [] then None
    else if key !in naps[0].locks then Some(naps[0])
    else FirstFree(naps[1..], key)
  }

  /** From the semaphore on, holding the lock or having fallen through. */
  function QueryAndStore(sh: Shared, key: Key, up: Services): (Reply, Shared) {
    var unlocked := sh.(locks := sh.locks - {key});
    if sh.free == 0 || !up.storage then (Failed, unlocked)
    else
      var info := Look(sh.backend, key);
      (Answered(CheckResult(info, false)), if up.redis then unlocked.(redis := sh.redis[key := info]) else unlocked)
  }

  /** What a waiter does with the first view in which the lock is gone. */
  function WaitSpec(sh: Shared, key: Key, up: Services, naps: seq<Shared>): (Reply, Shared) {
    match FirstFree(naps, key)
    case None => (StillWaiting, if naps == [] then sh else naps[|naps| - 1])
    case Some(woken) =>
      if up.redis && key in woken.redis then (Answered(CheckResult(woken.redis[key], true)), woken)
      else QueryAndStore(woken, key, up)
  }

  function CheckSpec(cfg: Config, sh: Shared, key: Key, up: Services, naps: seq<Shared>): (Reply, Shared) {
    if !cfg.allowed(key) then (Rejected, sh)
    else if up.redis && key in sh.redis then (Answered(CheckResult(sh.redis[key], true)), sh)
    else if key !in sh.locks then QueryAndStore(sh, key, up)
    else WaitSpec(sh, key, up, naps)
  }

  class FileExistenceCache {
    const cfg: Config
    const hasClient: bool
    var redis: map<Key, FileInfo>
    var backend: map<Key, nat>
    var locks: set<Key>
    var free: nat

    constructor (cfg: Config, hasClient: bool, redis: map<Key, FileInfo>, backend: map<Key, nat>)
      ensures this.cfg == cfg && this.hasClient == hasClient && View() == Shared(redis, backend, {}, cfg.permits)
    {
      this.cfg, this.hasClient, this.redis, this.backend := cfg, hasClient, redis, backend;
      this.locks, this.free := {}, cfg.permits;
    }

    function Reach(up: Services): Services {
      up.(redis := hasClient && up.redis)
    }

    function View(): Shared
      reads this
    {
      Shared(redis, backend, locks, free)
    }

    method GetCachedInfo(key: Key, up: Services) returns (info: Option<FileInfo>)
      ensures info == if Reach(up).redis && key in redis then Some(redis[key]) else None
    {
      if !hasClient || !up.redis { return None; }
      info := if key in redis then Some(redis[key]) else None;
    }

    /** Everything after the lock, with the deferred release before the deferred unlock. */
    method AskStorage(key: Key, up: Services) returns (r: Reply)
      modifies this
      ensures (r, View()) == QueryAndStore(old(View()), key, Reach(up))
    {
      r := Failed;
      if free > 0 {
        free := free - 1;
        if up.storage {
          var info := Look(backend, key);
          if hasClient && up.redis { redis := redis[key := info]; }
          r := Answered(CheckResult(info, false));
        }
        free := free + 1;
      }
      locks := locks - {key};
    }

    /** Sleeps until a nap finds the lock gone, or there are no more naps. */
    method Spin(key: Key, naps: seq<Shared>) returns (ghost k: nat)
      requires key in locks
      modifies this
      ensures FirstFree(naps, key) == if key in locks then None else Some(View())
      ensures key in locks ==> View() == if naps == [] then old(View()) else naps[|naps| - 1]
      ensures key in locks ==> forall j :: 0 <= j < |naps| ==> key in naps[j].locks
      ensures key !in locks ==> 0 < k <= |naps| && View() == naps[k - 1]
      ensures key !in locks ==> forall j :: 0 <= j < k - 1 && j < |naps| ==> key in naps[j].locks
    {
      k := 0;
      var i := 0;
      while i < |naps| && key in locks
        invariant i == k <= |naps| && View() == (if k == 0 then old(View()) else naps[k - 1])
        invariant FirstFree(naps, key) == if key in locks then FirstFree(naps[k..], key) else Some(View())
        invariant forall j :: 0 <= j < k && (j < k - 1 || key in locks) ==> key in naps[j].locks
      {
        assert naps[i..][0] == naps[i] && naps[i..][1..] == naps[i + 1..];
        redis, backend, locks, free := naps[i].redis, naps[i].backend, naps[i].locks, naps[i].free;
        i, k := i + 1, k + 1;
      }
    }

    /** One check; each nap gives what the others have made of the shared state meanwhile. A
        call without a free permit can only leave when its context ends. */
    method CheckFileExists(key: Key, up: Services, naps: seq<Shared>) returns (r: Reply)
      modifies this
      ensures (r, View()) == CheckSpec(cfg, old(View()), key, Reach(up), naps)
      // A key that is not allowed is rejected, and nothing is touched.
      ensures r.Rejected? <==> !cfg.allowed(key)
      ensures r.Rejected? ==> redis == old(redis) && backend == old(backend) && locks == old(locks) && free == old(free)
      // A cached key is answered from the cache, whoever holds its lock.
      ensures cfg.allowed(key) && hasClient && up.redis && key in old(redis) ==>
        r == Answered(CheckResult(old(redis)[key], true))
      ensures cfg.allowed(key) && hasClient && up.redis && key in old(redis) ==>
        redis == old(redis) && backend == old(backend) && locks == old(locks) && free == old(free)
      // With the lock free, the storage is asked, if it answers and there is a permit.
      ensures cfg.allowed(key) && !(hasClient && up.redis && key in old(redis)) && key !in old(locks) ==>
        var info := if key in old(backend) then FileInfo(true, old(backend)[key]) else FileInfo(false, 0);
        var asked := old(free) > 0 && up.storage;
        && r == (if asked then Answered(CheckResult(info, false)) else Failed)
        && redis == (if asked && hasClient && up.redis then old(redis)[key := info] else old(redis))
        && backend == old(backend) && locks == old(locks) && free == old(free)
      // With the lock taken, the first nap after which it is gone decides in the same way.
      ensures cfg.allowed(key) && !(hasClient && up.redis && key in old(redis)) && key in old(locks) ==>
        (forall k :: 0 <= k < |naps| ==> key in naps[k].locks) ==> r.StillWaiting?
      ensures cfg.allowed(key) && !(hasClient && up.redis && key in old(redis)) && key in old(locks) ==>
        forall k :: 0 <= k < |naps| && key !in naps[k].locks && (forall j :: 0 <= j < k ==> key in naps[j].locks) ==>
        var nap := naps[k];
        var hit := hasClient && up.redis && key in nap.redis;
        var info := if key in nap.backend then FileInfo(true, nap.backend[key]) else FileInfo(false, 0);
        var asked := !hit && nap.free > 0 && up.storage;
        && r == (if hit then Answered(CheckResult(nap.redis[key], true))
                 else if asked then Answered(CheckResult(info, false)) else Failed)
        && redis == (if asked && hasClient && up.redis then nap.redis[key := info] else nap.redis)
        && backend == nap.backend && locks == nap.locks && free == nap.free
    {
      if !cfg.allowed(key) { return Rejected; }
      var hit := GetCachedInfo(key, up);
      if hit.Some? { return Answered(CheckResult(hit.value, true)); }
      if key in locks {
        var k := Spin(key, naps);
        if key in locks { return StillWaiting; }
        assert locks - {key} == locks;
        assert forall i :: 0 <= i < |naps| && key !in naps[i].locks ==>
          (forall j :: 0 <= j < i ==> key in naps[j].locks) ==> i == k - 1;
        hit := GetCachedInfo(key, up);
        if hit.Some? { return Answered(CheckResult(hit.value, true)); }
      } else {
        locks := locks + {key};
      }
      r := AskStorage(key, up);
      assert old(locks) + {key} - {key} == old(locks) - {key};
    }

    method SetFileExists(key: Key, size: nat, up: Services) returns (ok: bool)
      modifies this`redis
      ensures ok <==> cfg.allowed(key) && (hasClient ==> up.redis)
      ensures redis == if ok && hasClient then old(redis)[key := FileInfo(true, size)] else old(redis)
    {
      if !cfg.allowed(key) { return false; }
      if !hasClient { return true; }
      ok := up.redis;
      if ok { redis := redis[key := FileInfo(true, size)]; }
    }

    /** The empty key clears everything that is listed; later is what others have made of the cache
        when the listed entries are deleted. */
    method ClearCache(key: Key, up: Services, later: map<Key, FileInfo>) returns (ok: bool)
      modifies this`redis
      ensures ok <==> (key == "" || cfg.allowed(key)) && (hasClient ==> up.redis)
      ensures redis == if !ok || !hasClient then old(redis) else if key != "" then old(redis) - {key}
                       else if old(redis) == map[] then old(redis) else later - old(redis).Keys
    {
      if key != "" && !cfg.allowed(key) { return false; }
      if !hasClient { return true; }
      ok := up.redis;
      if !ok { return; }
      if key != "" {
        redis := redis - {key};
      } else {
        var keys := redis.Keys;
        if keys != {} {
          redis := later;
          redis := redis - keys;
        }
      }
    }
  }

  /** A check never keeps a permit, and one that ends after passing the lock leaves it free. */
  lemma ChecksGiveBack(cfg: Config, sh: Shared, key: Key, up: Services, naps: seq<Shared>)
    ensures var (r, after) := CheckSpec(cfg, sh, key, up, naps);
      && (r.Failed? || (r.Answered? && !r.result.cached) ==> key !in after.locks)
      && (after.free == sh.free || exists n :: n in naps && after.free == n.free)
  {
    if FirstFree(naps, key).Some? { FirstFreeIsANap(naps, key); }
  }

  lemma {:induction false} FirstFreeIsANap(naps: seq<Shared>, key: Key)
    requires FirstFree(naps, key).Some?
    ensures FirstFree(naps, key).value in naps
  {
    if key in naps[0].locks { FirstFreeIsANap(naps[1..], key); }
  }

  // ---- The method is a run of the machine ------------------------------------------------

  function SharedOf(s: State): Shared {
    Shared(s.redis, s.backend, s.locks.Keys, s.free)
  }

  function ReplyOf(pc: Pc): Reply {
    match pc
    case Finished(None) => Failed
    case Finished(Some(result)) => Answered(result)
    case _ => StillWaiting
  }

  predicate StepsOfCall(es: seq<Event>, id: Id) {
    forall e :: e in es ==> (e.Check? || CallEvent(e)) && e.id == id
  }

  /** The events of a call that holds the lock, from there to its end. */
  function LockedTrace(id: Id, up: Services, free: nat): seq<Event> {
    if free == 0 then GivingUp(id)
    else if !up.storage then Asking(id, false) + Leaving(id)
    else Asking(id, true) + [WriteBack(id, up.redis)] + Leaving(id)
  }

  lemma StorageAnswers(cfg: Config, s: State, id: Id, redis: bool)
    requires id in s.calls && s.calls[id].pc == Acquiring && s.free > 0
    ensures var k := s.calls[id].key;
      var info := Look(s.backend, k);
      var s' := Run(cfg, s, Asking(id, true) + [WriteBack(id, redis)] + Leaving(id));
      && id in s'.calls && s'.calls[id].pc == Finished(Some(CheckResult(info, false)))
      && s'.locks == s.locks - {k} && s'.free == s.free && s'.backend == s.backend
      && s'.redis == if redis then s.redis[k := info] else s.redis
  {
    RunConcat(cfg, s, Asking(id, true) + [WriteBack(id, redis)], Leaving(id));
    RunConcat(cfg, s, Asking(id, true), [WriteBack(id, redis)]);
    hide Run, Step, Asking, Leaving, Look;
    Asks(cfg, s, id, true);
    Stores(cfg, Run(cfg, s, Asking(id, true)), id, redis);
    Leaves(cfg, Run(cfg, Run(cfg, s, Asking(id, true)), [WriteBack(id, redis)]), id);
  }

  lemma FromTheLockOn(cfg: Config, s: State, id: Id, up: Services)
    requires id in s.calls && s.calls[id].pc == Acquiring
    ensures var s' := Run(cfg, s, LockedTrace(id, up, s.free));
      var (r, after) := QueryAndStore(SharedOf(s), s.calls[id].key, up);
      id in s'.calls && ReplyOf(s'.calls[id].pc) == r && SharedOf(s') == after
  {
    hide Run, Step, Asking, Leaving, GivingUp;
    var k := s.calls[id].key;
    assert (s.locks - {k}).Keys == s.locks.Keys - {k};
    if s.free == 0 {
      GivesUp(cfg, s, id);
    } else if !up.storage {
      RunConcat(cfg, s, Asking(id, false), Leaving(id));
      Asks(cfg, s, id, false);
      Leaves(cfg, Run(cfg, s, Asking(id, false)), id);
    } else {
      StorageAnswers(cfg, s, id, up.redis);
    }
  }

  lemma HitIsARun(cfg: Config, s: State, id: Id, key: Key)
    requires cfg.allowed(key) && id !in s.calls && key in s.redis
    ensures var s' := Run(cfg, s, [Check(id, key), Read(id, true)]);
      && id in s'.calls && s'.calls[id].pc == Finished(Some(CheckResult(s.redis[key], true)))
      && SharedOf(s') == SharedOf(s)
  {
    RunTwo(cfg, s, Check(id, key), Read(id, true));
    hide Run;
  }

  /** The events of one undisturbed call. */
  function Trace(s: State, id: Id, key: Key, up: Services): seq<Event> {
    if up.redis && key in s.redis then [Check(id, key), Read(id, true)]
    else Arrival(id, key, up.redis) + LockedTrace(id, up, s.free)
  }

  /** Undisturbed, the method's operations in their order are steps of one call of the machine,
      with the same reply and the same effect on what is shared. */
  lemma UndisturbedCheckIsARun(cfg: Config, s: State, id: Id, key: Key, up: Services)
    requires cfg.allowed(key) && id !in s.calls && key !in s.locks
    ensures StepsOfCall(Trace(s, id, key, up), id)
    ensures var s' := Run(cfg, s, Trace(s, id, key, up));
      var (r, after) := CheckSpec(cfg, SharedOf(s), key, up, []);
      id in s'.calls && ReplyOf(s'.calls[id].pc) == r && SharedOf(s') == after
  {
    hide Run, Step, Arrival, LockedTrace, StepsOfCall;
    TraceIsOneCall(s, id, key, up);
    if up.redis && key in s.redis {
      HitIsARun(cfg, s, id, key);
    } else {
      RunConcat(cfg, s, Arrival(id, key, up.redis), LockedTrace(id, up, s.free));
      Arrives(cfg, s, id, key, up.redis);
      var locked := Run(cfg, s, Arrival(id, key, up.redis));
      FromTheLockOn(cfg, locked, id, up);
      assert locked.locks.Keys - {key} == s.locks.Keys - {key};
    }
  }

  lemma TraceIsOneCall(s: State, id: Id, key: Key, up: Services)
    ensures StepsOfCall(Trace(s, id, key, up), id)
  {
  }

  // ---- And so is the waiting method --------------------------------------------------------

  /** Events of anyone but call id. */
  predicate Foreign(es: seq<Event>, id: Id) {
    forall e :: e in es && (e.Check? || CallEvent(e)) ==> e.id != id
  }

  lemma {:induction false} ForeignKeepsCall(cfg: Config, s: State, es: seq<Event>, id: Id)
    requires id in s.calls && Foreign(es, id)
    ensures id in Run(cfg, s, es).calls && Run(cfg, s, es).calls[id] == s.calls[id]
  {
    if es != [] {
      var before, e := Run(cfg, s, es[..|es| - 1]), es[|es| - 1];
      assert e in es;
      ForeignKeepsCall(cfg, s, es[..|es| - 1], id);
      StepLowersRank(cfg, before, e, id);
    }
  }

  /** The views after each nap, when the others do segs[i] during nap i. */
  function Naps(cfg: Config, s: State, segs: seq<seq<Event>>): seq<Shared>
    decreases |segs|
  {
    if segs == [] then []
    else
      var s' := Run(cfg, s, segs[0]);
      [SharedOf(s')] + Naps(cfg, s', segs[1..])
  }

  function WokenTrace(s: State, id: Id, key: Key, up: Services): seq<Event> {
    if up.redis && key in s.redis then Falling(id, true) else Falling(id, up.redis) + LockedTrace(id, up, s.free)
  }

  /** The others' events, and those of call id once its lock is gone. */
  function WaitTrace(cfg: Config, s: State, id: Id, key: Key, up: Services, segs: seq<seq<Event>>): seq<Event>
    decreases |segs|
  {
    if segs == [] then []
    else
      var s' := Run(cfg, s, segs[0]);
      segs[0] + (if key !in s'.locks then WokenTrace(s', id, key, up) else WaitTrace(cfg, s', id, key, up, segs[1..]))
  }

  lemma RereadHits(cfg: Config, s: State, id: Id)
    requires id in s.calls && s.calls[id].pc == Waiting && s.calls[id].key !in s.locks && s.calls[id].key in s.redis
    ensures var s' := Run(cfg, s, Falling(id, true));
      && id in s'.calls && s'.calls[id].pc == Finished(Some(CheckResult(s.redis[s.calls[id].key], true)))
      && SharedOf(s') == SharedOf(s)
  {
    RunTwo(cfg, s, Wake(id), Reread(id, true));
    hide Run;
  }

  lemma WokenIsARun(cfg: Config, s: State, id: Id, key: Key, up: Services)
    requires id in s.calls && s.calls[id] == Call(key, Waiting) && key !in s.locks
    ensures var s' := Run(cfg, s, WokenTrace(s, id, key, up));
      var (r, after) := WaitSpec(SharedOf(s), key, up, [SharedOf(s)]);
      id in s'.calls && ReplyOf(s'.calls[id].pc) == r && SharedOf(s') == after
  {
    assert FirstFree([SharedOf(s)], key) == Some(SharedOf(s));
    hide Run, Step, Falling, LockedTrace, FirstFree, QueryAndStore;
    if up.redis && key in s.redis {
      RereadHits(cfg, s, id);
    } else {
      RunConcat(cfg, s, Falling(id, up.redis), LockedTrace(id, up, s.free));
      Falls(cfg, s, id, up.redis);
      FromTheLockOn(cfg, Run(cfg, s, Falling(id, up.redis)), id, up);
    }
  }

  lemma {:induction false} WaitingIsARun(cfg: Config, s: State, id: Id, key: Key, up: Services, segs: seq<seq<Event>>)
    requires id in s.calls && s.calls[id] == Call(key, Waiting) && forall es :: es in segs ==> Foreign(es, id)
    ensures var s' := Run(cfg, s, WaitTrace(cfg, s, id, key, up, segs));
      var (r, after) := WaitSpec(SharedOf(s), key, up, Naps(cfg, s, segs));
      id in s'.calls && ReplyOf(s'.calls[id].pc) == r && SharedOf(s') == after
    decreases |segs|
  {
    if segs != [] {
      assert segs[0] in segs;
      var s' := Run(cfg, s, segs[0]);
      ForeignKeepsCall(cfg, s, segs[0], id);
      FirstNap(SharedOf(s), SharedOf(s'), key, up, Naps(cfg, s', segs[1..]));
      var rest := if key !in s'.locks then WokenTrace(s', id, key, up) else WaitTrace(cfg, s', id, key, up, segs[1..]);
      assert WaitTrace(cfg, s, id, key, up, segs) == segs[0] + rest;
      assert Naps(cfg, s, segs) == [SharedOf(s')] + Naps(cfg, s', segs[1..]);
      RunConcat(cfg, s, segs[0], rest);
      hide Run, Step, WaitTrace, WokenTrace, WaitSpec, Naps, Foreign;
      if key !in s'.locks {
        WokenIsARun(cfg, s', id, key, up);
      } else {
        WaitingIsARun(cfg, s', id, key, up, segs[1..]);
      }
    } else {
      assert Run(cfg, s, []) == s;
    }
  }

  lemma FirstNap(sh: Shared, first: Shared, key: Key, up: Services, naps: seq<Shared>)
    ensures WaitSpec(sh, key, up, [first] + naps) ==
      if key !in first.locks then WaitSpec(first, key, up, [first]) else WaitSpec(first, key, up, naps)
  {
    hide QueryAndStore;
    assert ([first] + naps)[1..] == naps && [first][1..] == [];
  }

  /** The events of a call that finds the lock taken, among those of the others. */
  function WaitingTrace(cfg: Config, s: State, id: Id, key: Key, up: Services, segs: seq<seq<Event>>): seq<Event> {
    var arrival := Arrival(id, key, up.redis);
    arrival + WaitTrace(cfg, Run(cfg, s, arrival), id, key, up, segs)
  }

  /** A check that finds the lock taken, seeing at each nap what the machine's other callers have
      done meanwhile, is a run of the machine with theirs: same reply, same effect. */
  lemma WaitingCheckIsARun(cfg: Config, s: State, id: Id, key: Key, up: Services, segs: seq<seq<Event>>)
    requires cfg.allowed(key) && id !in s.calls && key in s.locks && !(up.redis && key in s.redis)
    requires forall es :: es in segs ==> Foreign(es, id)
    ensures var arrived := Run(cfg, s, Arrival(id, key, up.redis));
      var s' := Run(cfg, s, WaitingTrace(cfg, s, id, key, up, segs));
      var (r, after) := CheckSpec(cfg, SharedOf(s), key, up, Naps(cfg, arrived, segs));
      id in s'.calls && ReplyOf(s'.calls[id].pc) == r && SharedOf(s') == after
  {
    hide Run, Step, Arrival, WaitTrace, WaitSpec, Naps, Foreign;
    Arrives(cfg, s, id, key, up.redis);
    var arrived := Run(cfg, s, Arrival(id, key, up.redis));
    RunConcat(cfg, s, Arrival(id, key, up.redis), WaitTrace(cfg, arrived, id, key, up, segs));
    WaitingIsARun(cfg, arrived, id, key, up, segs);
  }
}
