/** Concurrent existence checks over Redis and a storage backend, with uploads, cache clears and
    failures in between: one program counter per call, one step per operation. A key is one
    object: temporary names and other spellings of a path are not keys here. */
module Cache {
  import opened Common

  type Key = string
  type Id = nat

  datatype FileInfo = FileInfo(exists_: bool, size: nat)
  datatype CheckResult = CheckResult(info: FileInfo, cached: bool)

  /** allowed is what validateTargetPath accepts, permits MaxConcurrentStorageChecks. */
  datatype Config = Config(allowed: Key -> bool, permits: nat)

  /** Where a CheckFileExists call stands; a result of None is an error. */
  datatype Pc =
    | Reading
    | Locking
    | Waiting                                   // another call stored the lock first
    | Rereading
    | Acquiring
    | Querying                                  // holding a permit, storage asked
    | Writing(info: FileInfo)
    | Releasing(result: Option<CheckResult>)    // the deferred semaphore release
    | Unlocking(result: Option<CheckResult>)    // the deferred lock deletion
    | Finished(result: Option<CheckResult>)

  datatype Call = Call(key: Key, pc: Pc)

  /** An upload and the cache update that follows it; stored is true from the put on. */
  datatype Upload = Upload(key: Key, size: nat, stored: bool)

  /** locks maps each entry of the lock map to the call that stored it. */
  datatype State = State(redis: map<Key, FileInfo>, backend: map<Key, nat>, locks: map<Key, Id>, free: nat,
                         calls: map<Id, Call>, uploads: map<Id, Upload>)

  datatype Event =
    | Check(id: Id, key: Key)
    | Read(id: Id, redis: bool)
    | Lock(id: Id)
    | Poll(id: Id)                              // a spin that finds the lock still there
    | Wake(id: Id)                              // a spin that finds the lock gone
    | Reread(id: Id, redis: bool)
    | Acquire(id: Id)
    | Cancel(id: Id)                            // the context ends while waiting for a permit
    | Answer(id: Id, storage: bool)
    | WriteBack(id: Id, redis: bool)
    | Release(id: Id)
    | Unlock(id: Id)
    | UploadStart(id: Id, key: Key, size: nat)
    | UploadPut(id: Id)
    | UploadSet(id: Id, redis: bool)            // SetFileExists
    | UploadFail(id: Id)
    | Clear(keys: set<Key>)                     // ClearCache of one key or of all

  // ---- The steps ------------------------------------------------------------------------

  function Look(backend: map<Key, nat>, key: Key): FileInfo {
    if key in backend then FileInfo(true, backend[key]) else FileInfo(false, 0)
  }

  predicate Enabled(cfg: Config, s: State, e: Event) {
    match e
    case Check(id, key) => id !in s.calls && cfg.allowed(key)
    case UploadStart(id, _, _) => id !in s.uploads
    case UploadPut(id) => id in s.uploads && !s.uploads[id].stored
    case UploadSet(id, _) => id in s.uploads && s.uploads[id].stored
    case UploadFail(id) => id in s.uploads
    case Clear(_) => true
    case _ =>
      && e.id in s.calls
      && var c := s.calls[e.id];
      match e
      case Read(_, _) => c.pc.Reading?
      case Lock(_) => c.pc.Locking?
      case Poll(_) => c.pc.Waiting? && c.key in s.locks
      case Wake(_) => c.pc.Waiting? && c.key !in s.locks
      case Reread(_, _) => c.pc.Rereading?
      case Acquire(_) => c.pc.Acquiring? && s.free > 0
      case Cancel(_) => c.pc.Acquiring?
      case Answer(_, _) => c.pc.Querying?
      case WriteBack(_, _) => c.pc.Writing?
      case Release(_) => c.pc.Releasing?
      case Unlock(_) => c.pc.Unlocking?
      case _ => false
  }

  function Goto(s: State, id: Id, pc: Pc): State
    requires id in s.calls
  {
    s.(calls := s.calls[id := s.calls[id].(pc := pc)])
  }

  function Step(cfg: Config, s: State, e: Event): State {
    if !Enabled(cfg, s, e) then s else
    match e
    case Check(id, key) => s.(calls := s.calls[id := Call(key, Reading)])
    case Read(id, redis) => Lookup(s, id, redis, Locking)
    case Lock(id) =>
      if s.calls[id].key in s.locks then Goto(s, id, Waiting)
      else Goto(s.(locks := s.locks[s.calls[id].key := id]), id, Acquiring)
    case Poll(_) => s
    case Wake(id) => Goto(s, id, Rereading)
    case Reread(id, redis) => Lookup(s, id, redis, Acquiring)
    case Acquire(id) => Goto(s.(free := s.free - 1), id, Querying)
    case Cancel(id) => Goto(s, id, Unlocking(None))
    case Answer(id, storage) =>
      Goto(s, id, if storage then Writing(Look(s.backend, s.calls[id].key)) else Releasing(None))
    case WriteBack(id, redis) =>
      var info := s.calls[id].pc.info;
      var stored := if redis then s.(redis := s.redis[s.calls[id].key := info]) else s;
      Goto(stored, id, Releasing(Some(CheckResult(info, false))))
    case Release(id) => Goto(s.(free := s.free + 1), id, Unlocking(s.calls[id].pc.result))
    case Unlock(id) => Goto(s.(locks := s.locks - {s.calls[id].key}), id, Finished(s.calls[id].pc.result))
    case UploadStart(id, key, size) => s.(uploads := s.uploads[id := Upload(key, size, false)])
    case UploadPut(id) =>
      var u := s.uploads[id];
      s.(backend := s.backend[u.key := u.size], uploads := s.uploads[id := u.(stored := true)])
    case UploadSet(id, redis) =>
      var u := s.uploads[id];
      var s' := s.(uploads := s.uploads - {id});
      if redis && cfg.allowed(u.key) then s'.(redis := s.redis[u.key := FileInfo(true, u.size)]) else s'
    case UploadFail(id) => s.(uploads := s.uploads - {id})
    case Clear(keys) => s.(redis := s.redis - keys)
  }

  /** getCachedInfo: a hit finishes the call, a miss or an unreachable Redis goes on. */
  function Lookup(s: State, id: Id, redis: bool, miss: Pc): State
    requires id in s.calls
  {
    if redis && s.calls[id].key in s.redis
    then Goto(s, id, Finished(Some(CheckResult(s.redis[s.calls[id].key], true))))
    else Goto(s, id, miss)
  }

  function Run(cfg: Config, s: State, es: seq<Event>): State {
    if es == [] then s else Step(cfg, Run(cfg, s, es[..|es| - 1]), es[|es| - 1])
  }

  function Start(cfg: Config, redis: map<Key, FileInfo>, backend: map<Key, nat>): State {
    State(redis, backend, map[], cfg.permits, map[], map[])
  }

  predicate CallEvent(e: Event) {
    || e.Read? || e.Lock? || e.Poll? || e.Wake? || e.Reread? || e.Acquire? || e.Cancel?
    || e.Answer? || e.WriteBack? || e.Release? || e.Unlock?
  }

  /** Past the lock and not yet through its deferred deletion. */
  predicate Critical(pc: Pc) {
    pc.Acquiring? || pc.Querying? || pc.Writing? || pc.Releasing? || pc.Unlocking?
  }

  predicate HoldsPermit(pc: Pc) {
    pc.Querying? || pc.Writing? || pc.Releasing?
  }

  // ---- One query at a time --------------------------------------------------------------------

  /** What can go wrong while a call is past its first cache read. A first read that fails only
      sends its call on to the lock, and a failed upload or cache update touches no lock. */
  datatype Fault = RereadFails | ContextEnds | StorageFails | CacheWriteFails | CacheIsCleared

  function FaultOf(e: Event): Option<Fault> {
    match e
    case Reread(_, redis) => if redis then None else Some(RereadFails)
    case Cancel(_) => Some(ContextEnds)
    case Answer(_, storage) => if storage then None else Some(StorageFails)
    case WriteBack(_, redis) => if redis then None else Some(CacheWriteFails)
    case Clear(_) => Some(CacheIsCleared)
    case _ => None
  }

  /** Events whose faults, if any, are of the permitted kinds. */
  predicate Within(faults: set<Fault>, es: seq<Event>) {
    forall e :: e in es && FaultOf(e).Some? ==> FaultOf(e).value in faults
  }

  /** A fault that cannot hurt a key: none, or one that leaves a cached key readable. */
  predicate Harmless(s: State, k: Key, e: Event) {
    FaultOf(e).Some? ==> k in s.redis && FaultOf(e).value != RereadFails && FaultOf(e).value != CacheIsCleared
  }

  /** What a call may rely on about its key. */
  ghost predicate SoloInv(s: State, id: Id)
    requires id in s.calls
  {
    var key, pc := s.calls[id].key, s.calls[id].pc;
    && (Critical(pc) ==> key in s.locks && s.locks[key] == id)
    && (pc.Waiting? ==> key in s.locks || key in s.redis)
    && (pc.Rereading? || pc.Releasing? || pc.Unlocking? ==> key in s.redis)
  }

  ghost predicate Solo(s: State, k: Key) {
    forall id :: id in s.calls && s.calls[id].key == k ==> SoloInv(s, id)
  }

  lemma HarmlessKeepsCached(cfg: Config, s: State, e: Event, k: Key)
    requires Harmless(s, k, e) && k in s.redis
    ensures k in Step(cfg, s, e).redis
  {
  }

  lemma StepKeepsSoloOfOwn(cfg: Config, s: State, e: Event)
    requires Enabled(cfg, s, e) && CallEvent(e) && SoloInv(s, e.id) && Harmless(s, s.calls[e.id].key, e)
    ensures SoloInv(Step(cfg, s, e), e.id)
  {
  }

  /** A call's step unlocks only the call's own key, and then that key is cached. */
  lemma UnlocksOnlyCached(cfg: Config, s: State, e: Event, k: Key)
    requires Enabled(cfg, s, e) && k in s.locks && Solo(s, k)
    ensures var s' := Step(cfg, s, e);
      (k in s'.locks && s'.locks[k] == s.locks[k]) || (k in s.redis && e.id == s.locks[k])
  {
    LocksAfterStep(cfg, s, e);
    if e.Unlock? && s.calls[e.id].key == k { assert SoloInv(s, e.id); }
  }

  lemma StepKeepsSoloOfOther(cfg: Config, s: State, e: Event, k: Key, id: Id)
    requires Enabled(cfg, s, e) && Solo(s, k) && Harmless(s, k, e)
    requires id in s.calls && s.calls[id].key == k && !(CallEvent(e) && e.id == id)
    ensures id in Step(cfg, s, e).calls && Step(cfg, s, e).calls[id] == s.calls[id] && SoloInv(Step(cfg, s, e), id)
  {
    assert SoloInv(s, id);
    StepMovesOneCall(cfg, s, e);
    if k in s.locks { UnlocksOnlyCached(cfg, s, e, k); }
    if k in s.redis { HarmlessKeepsCached(cfg, s, e, k); }
    assert e.Check? ==> e.id != id;
    assert !CallEvent(e) ==> Step(cfg, s, e).locks == s.locks;
    hide Step, Enabled, Harmless;
  }

  lemma NewCallIsReading(cfg: Config, s: State, e: Event, id: Id)
    requires id !in s.calls && id in Step(cfg, s, e).calls
    ensures Step(cfg, s, e).calls[id].pc.Reading?
  {
    FirstStep(cfg, s, e, id);
    hide Step, Enabled;
  }

  lemma StepKeepsSolo(cfg: Config, s: State, e: Event, k: Key)
    requires Solo(s, k) && Harmless(s, k, e)
    ensures Solo(Step(cfg, s, e), k)
  {
    if !Enabled(cfg, s, e) {
      DisabledStep(cfg, s, e);
    } else {
      var s' := Step(cfg, s, e);
      forall id | id in s'.calls && s'.calls[id].key == k ensures SoloInv(s', id) {
        if id !in s.calls {
          NewCallIsReading(cfg, s, e, id);
        } else if CallEvent(e) && e.id == id {
          CriticalAfterStep(cfg, s, e);
          assert SoloInv(s, id);
          StepKeepsSoloOfOwn(cfg, s, e);
        } else {
          StepMovesOneCall(cfg, s, e);
          StepKeepsSoloOfOther(cfg, s, e, k, id);
        }
      }
    }
  }

  lemma {:induction false} RunKeepsSolo(cfg: Config, s: State, faults: set<Fault>, es: seq<Event>, k: Key)
    requires Solo(s, k) && Within(faults, es)
    requires faults == {} || (k in s.redis && RereadFails !in faults && CacheIsCleared !in faults)
    ensures Solo(Run(cfg, s, es), k) && (faults != {} ==> k in Run(cfg, s, es).redis)
  {
    if es != [] {
      var before, e := Run(cfg, s, es[..|es| - 1]), es[|es| - 1];
      assert e in es;
      RunKeepsSolo(cfg, s, faults, es[..|es| - 1], k);
      assert Harmless(before, k, e);
      StepKeepsSolo(cfg, before, e, k);
      if k in before.redis { HarmlessKeepsCached(cfg, before, e, k); }
    }
  }

  /** At most one storage query for the key is in flight. */
  ghost predicate OneQuery(s: State, k: Key) {
    forall a, b :: a in s.calls && b in s.calls && s.calls[a] == s.calls[b] == Call(k, Querying) ==> a == b
  }

  /** Without such faults, in every interleaving of checks and uploads: at most one storage query
      per key is in flight, and a waiter whose lock is gone finds the key in the cache, so none
      ever falls through to a query. */
  lemma OneQueryPerKey(cfg: Config, redis: map<Key, FileInfo>, backend: map<Key, nat>, es: seq<Event>, k: Key)
    requires Within({}, es)
    ensures var s := Run(cfg, Start(cfg, redis, backend), es);
      && OneQuery(s, k)
      && (forall id :: id in s.calls && s.calls[id].key == k && s.calls[id].pc.Rereading? ==> k in s.redis)
  {
    RunKeepsSolo(cfg, Start(cfg, redis, backend), {}, es, k);
    SoloIsOneQuery(Run(cfg, Start(cfg, redis, backend), es), k);
  }

  lemma SoloIsOneQuery(s: State, k: Key)
    requires Solo(s, k)
    ensures OneQuery(s, k)
    ensures forall id :: id in s.calls && s.calls[id].key == k && s.calls[id].pc.Rereading? ==> k in s.redis
  {
    forall id | id in s.calls && s.calls[id].key == k ensures SoloInv(s, id) {}
  }

  lemma {:induction false} CallsAreAllowed(cfg: Config, redis: map<Key, FileInfo>, backend: map<Key, nat>,
                                           es: seq<Event>, id: Id)
    requires id in Run(cfg, Start(cfg, redis, backend), es).calls
    ensures cfg.allowed(Run(cfg, Start(cfg, redis, backend), es).calls[id].key)
  {
    if es != [] {
      var before, e := Run(cfg, Start(cfg, redis, backend), es[..|es| - 1]), es[|es| - 1];
      if id in before.calls { CallsAreAllowed(cfg, redis, backend, es[..|es| - 1], id); }
      KeysStay(cfg, before, e, id);
    }
  }

  lemma KeysStay(cfg: Config, s: State, e: Event, id: Id)
    requires id in Step(cfg, s, e).calls
    ensures id in s.calls ==> Step(cfg, s, e).calls[id].key == s.calls[id].key
    ensures id !in s.calls ==> cfg.allowed(Step(cfg, s, e).calls[id].key)
  {
    if Enabled(cfg, s, e) {
      StepMovesOneCall(cfg, s, e);
      if CallEvent(e) { CriticalAfterStep(cfg, s, e); }
    }
  }

  /** Fewer than two permits never serve two queries, whatever fails. */
  lemma OnePermitIsOneQuery(cfg: Config, redis: map<Key, FileInfo>, backend: map<Key, nat>, es: seq<Event>, k: Key)
    requires cfg.permits <= 1
    ensures OneQuery(Run(cfg, Start(cfg, redis, backend), es), k)
  {
    var s := Run(cfg, Start(cfg, redis, backend), es);
    assert Holders(Start(cfg, redis, backend)) == {};
    RunKeepsSane(cfg, Start(cfg, redis, backend), es);
    forall a, b | a in s.calls && b in s.calls && s.calls[a].pc.Querying? && s.calls[b].pc.Querying? ensures a == b {
      assert {a, b} <= Holders(s);
      if a != b { SmallerSet({a, b}, Holders(s)); }
    }
  }

  lemma SmallerSet(a: set<Id>, b: set<Id>)
    requires a <= b
    ensures |a| <= |b|
  {
    assert b == a + (b - a);
  }

  // ---- Checks never wedge ---------------------------------------------------------------------

  ghost function Holders(s: State): set<Id> {
    set id | id in s.calls && HoldsPermit(s.calls[id].pc)
  }

  /** Every lock entry was stored by a call still in progress; free and held permits add up. */
  ghost predicate Sane(cfg: Config, s: State) {
    && LocksOwned(s)
    && s.free + |Holders(s)| == cfg.permits
  }

  lemma HoldersAfter(s: State, s': State, id: Id)
    requires id in s'.calls && s'.calls == s.calls[id := s'.calls[id]]
    ensures Holders(s') == if HoldsPermit(s'.calls[id].pc) then Holders(s) + {id} else Holders(s) - {id}
  {
  }

  /** A step moves at most one call, and takes or gives back a permit as its call does. */
  lemma StepMovesOneCall(cfg: Config, s: State, e: Event)
    requires Enabled(cfg, s, e)
    ensures var s' := Step(cfg, s, e);
      if e.Check? || CallEvent(e) then
        && e.id in s'.calls && s'.calls == s.calls[e.id := s'.calls[e.id]]
        && s'.free == s.free
             + (if e.id in s.calls && HoldsPermit(s.calls[e.id].pc) then 1 else 0)
             - (if HoldsPermit(s'.calls[e.id].pc) then 1 else 0)
      else s'.calls == s.calls && s'.free == s.free && s'.locks == s.locks
  {
  }

  lemma StepKeepsPermits(cfg: Config, s: State, e: Event)
    requires Enabled(cfg, s, e)
    ensures Step(cfg, s, e).free + |Holders(Step(cfg, s, e))| == s.free + |Holders(s)|
  {
    var s' := Step(cfg, s, e);
    StepMovesOneCall(cfg, s, e);
    hide Step, Enabled;
    if e.Check? || CallEvent(e) {
      HoldersAfter(s, s', e.id);
      assert e.id in Holders(s) <==> e.id in s.calls && HoldsPermit(s.calls[e.id].pc);
    } else {
      assert Holders(s') == Holders(s);
    }
  }

  ghost predicate LocksOwned(s: State) {
    forall k :: k in s.locks ==>
      s.locks[k] in s.calls && s.calls[s.locks[k]].key == k && Critical(s.calls[s.locks[k]].pc)
  }

  /** Only Lock and Unlock change the lock map, and only at their call's key. */
  lemma LocksAfterStep(cfg: Config, s: State, e: Event)
    requires Enabled(cfg, s, e)
    ensures var s' := Step(cfg, s, e);
      if e.Lock? && s.calls[e.id].key !in s.locks then s'.locks == s.locks[s.calls[e.id].key := e.id]
      else if e.Unlock? then s'.locks == s.locks - {s.calls[e.id].key}
      else s'.locks == s.locks
  {
  }

  lemma KeyAfterStep(cfg: Config, s: State, e: Event)
    requires Enabled(cfg, s, e) && CallEvent(e)
    ensures e.id in Step(cfg, s, e).calls && Step(cfg, s, e).calls[e.id].key == s.calls[e.id].key
  {
  }

  lemma CriticalAfterStep(cfg: Config, s: State, e: Event)
    requires Enabled(cfg, s, e) && CallEvent(e)
    ensures var s' := Step(cfg, s, e);
      && e.id in s'.calls && s'.calls[e.id].key == s.calls[e.id].key
      && (if e.Lock? then s.calls[e.id].key !in s.locks ==> Critical(s'.calls[e.id].pc)
          else Critical(s.calls[e.id].pc) && !e.Unlock? ==> Critical(s'.calls[e.id].pc))
  {
    KeyAfterStep(cfg, s, e);
    if !e.Lock? && !Critical(s.calls[e.id].pc) { hide Step; }
  }

  lemma StepKeepsLocksOwned(cfg: Config, s: State, e: Event)
    requires LocksOwned(s)
    ensures LocksOwned(Step(cfg, s, e))
  {
    if Enabled(cfg, s, e) {
      var s' := Step(cfg, s, e);
      StepMovesOneCall(cfg, s, e);
      LocksAfterStep(cfg, s, e);
      if CallEvent(e) { CriticalAfterStep(cfg, s, e); }
      assert e.Check? ==> e.id !in s.calls;
      assert e.Lock? ==> !Critical(s.calls[e.id].pc);
      hide Step, Enabled, Critical;
      forall k | k in s'.locks
        ensures s'.locks[k] in s'.calls && s'.calls[s'.locks[k]].key == k && Critical(s'.calls[s'.locks[k]].pc)
      {
        if k in s.locks { assert s.locks[k] in s.calls; }
      }
    }
  }

  lemma StepKeepsSane(cfg: Config, s: State, e: Event)
    requires Sane(cfg, s)
    ensures Sane(cfg, Step(cfg, s, e))
  {
    hide Step, Enabled, Holders;
    StepKeepsLocksOwned(cfg, s, e);
    if Enabled(cfg, s, e) { StepKeepsPermits(cfg, s, e); } else { DisabledStep(cfg, s, e); }
  }

  lemma DisabledStep(cfg: Config, s: State, e: Event)
    requires !Enabled(cfg, s, e)
    ensures Step(cfg, s, e) == s
  {
  }

  lemma {:induction false} RunKeepsSane(cfg: Config, s: State, es: seq<Event>)
    requires Sane(cfg, s)
    ensures Sane(cfg, Run(cfg, s, es))
  {
    if es != [] {
      RunKeepsSane(cfg, s, es[..|es| - 1]);
      StepKeepsSane(cfg, Run(cfg, s, es[..|es| - 1]), es[|es| - 1]);
    }
  }

  /** Steps a call has left at most. */
  function Rank(pc: Pc): nat {
    match pc
    case Reading => 9
    case Locking => 8
    case Waiting => 7
    case Rereading => 6
    case Acquiring => 5
    case Querying => 4
    case Writing(_) => 3
    case Releasing(_) => 2
    case Unlocking(_) => 1
    case Finished(_) => 0
  }

  /** The next event of a call that is not blocked. */
  function NextEvent(id: Id, pc: Pc): Event
    requires !pc.Finished?
  {
    match pc
    case Reading => Read(id, true)
    case Locking => Lock(id)
    case Waiting => Wake(id)
    case Rereading => Reread(id, true)
    case Acquiring => Acquire(id)
    case Querying => Answer(id, true)
    case Writing(_) => WriteBack(id, true)
    case Releasing(_) => Release(id)
    case Unlocking(_) => Unlock(id)
  }

  predicate CanAdvance(cfg: Config, s: State, id: Id)
    requires id in s.calls
  {
    && !s.calls[id].pc.Finished?
    && var e := NextEvent(id, s.calls[id].pc);
    && Enabled(cfg, s, e)
    && id in Step(cfg, s, e).calls && Rank(Step(cfg, s, e).calls[id].pc) < Rank(s.calls[id].pc)
  }

  lemma SaneStateCanStep(cfg: Config, s: State, id: Id) returns (next: Id)
    requires cfg.permits > 0 && Sane(cfg, s) && id in s.calls && !s.calls[id].pc.Finished?
    ensures next in s.calls && !s.calls[next].pc.Finished? && Enabled(cfg, s, NextEvent(next, s.calls[next].pc))
  {
    next := id;
    if s.calls[next].pc.Waiting? && s.calls[next].key in s.locks { next := s.locks[s.calls[next].key]; }
    if s.calls[next].pc.Acquiring? && s.free == 0 {
      assert Holders(s) != {};
      next :| next in Holders(s);
    }
  }

  /** In every reachable state of every run, whatever fails and whoever deletes whose lock, if a
      call is unfinished then some unfinished call can take its next step, and that step brings
      it closer to its end. */
  lemma ChecksNeverWedge(cfg: Config, redis: map<Key, FileInfo>, backend: map<Key, nat>, es: seq<Event>, id: Id)
    requires cfg.permits > 0
    requires var s := Run(cfg, Start(cfg, redis, backend), es); id in s.calls && !s.calls[id].pc.Finished?
    ensures var s := Run(cfg, Start(cfg, redis, backend), es);
      exists next :: next in s.calls && CanAdvance(cfg, s, next)
  {
    var s := Run(cfg, Start(cfg, redis, backend), es);
    assert Holders(Start(cfg, redis, backend)) == {};
    RunKeepsSane(cfg, Start(cfg, redis, backend), es);
    var next := SaneStateCanStep(cfg, s, id);
    StepLowersRank(cfg, s, NextEvent(next, s.calls[next].pc), next);
    assert CanAdvance(cfg, s, next);
  }

  /** A step of the call other than an idle poll. */
  predicate Moves(cfg: Config, s: State, e: Event, id: Id) {
    CallEvent(e) && !e.Poll? && e.id == id && Enabled(cfg, s, e)
  }

  lemma StepLowersRank(cfg: Config, s: State, e: Event, id: Id)
    requires id in s.calls
    ensures id in Step(cfg, s, e).calls
    ensures Moves(cfg, s, e, id) ==> Rank(Step(cfg, s, e).calls[id].pc) < Rank(s.calls[id].pc)
    ensures !Moves(cfg, s, e, id) ==> Step(cfg, s, e).calls[id] == s.calls[id]
  {
    if !Moves(cfg, s, e, id) && Enabled(cfg, s, e) && !e.Poll? { StepMovesOneCall(cfg, s, e); hide Step; }
  }

  /** The steps a call has taken in a run, idle polls of its spin aside: how many of those there
      are is up to the others. */
  function StepsOf(cfg: Config, s: State, es: seq<Event>, id: Id): nat {
    if es == [] then 0
    else
      var before, e := Run(cfg, s, es[..|es| - 1]), es[|es| - 1];
      StepsOf(cfg, s, es[..|es| - 1], id) + (if Moves(cfg, before, e, id) then 1 else 0)
  }

  /** And no call can go on for ever: it takes at most nine steps in any run. */
  lemma {:induction false} NineStepsAtMost(cfg: Config, s: State, es: seq<Event>, id: Id)
    requires id !in s.calls
    ensures var s' := Run(cfg, s, es);
      StepsOf(cfg, s, es, id) + (if id in s'.calls then Rank(s'.calls[id].pc) else 9) <= 9
  {
    if es != [] {
      var before, e := Run(cfg, s, es[..|es| - 1]), es[|es| - 1];
      NineStepsAtMost(cfg, s, es[..|es| - 1], id);
      if id in before.calls {
        StepLowersRank(cfg, before, e, id);
      } else {
        FirstStep(cfg, before, e, id);
      }
      hide Step, Enabled, Rank;
    }
  }

  lemma FirstStep(cfg: Config, s: State, e: Event, id: Id)
    requires id !in s.calls
    ensures !Moves(cfg, s, e, id) && (id in Step(cfg, s, e).calls ==> Rank(Step(cfg, s, e).calls[id].pc) == 9)
  {
    if Enabled(cfg, s, e) && !e.Check? { StepMovesOneCall(cfg, s, e); hide Step; }
  }

  lemma StepCachesAllowedOnly(cfg: Config, s: State, e: Event, k: Key)
    requires !cfg.allowed(k) && (forall id :: id in s.calls ==> cfg.allowed(s.calls[id].key))
    ensures k in Step(cfg, s, e).redis ==> k in s.redis && Step(cfg, s, e).redis[k] == s.redis[k]
  {
  }

  /** A key that is not allowed never comes into the cache. */
  lemma {:induction false} OnlyAllowedKeysAreCached(cfg: Config, redis: map<Key, FileInfo>, backend: map<Key, nat>,
                                                    es: seq<Event>, k: Key)
    requires !cfg.allowed(k)
    ensures var s := Run(cfg, Start(cfg, redis, backend), es); k in s.redis ==> k in redis && s.redis[k] == redis[k]
  {
    if es != [] {
      var s := Run(cfg, Start(cfg, redis, backend), es[..|es| - 1]);
      OnlyAllowedKeysAreCached(cfg, redis, backend, es[..|es| - 1], k);
      forall id | id in s.calls ensures cfg.allowed(s.calls[id].key) {
        CallsAreAllowed(cfg, redis, backend, es[..|es| - 1], id);
      }
      StepCachesAllowedOnly(cfg, s, es[|es| - 1], k);
      hide Step;
    }
  }
}
