/** Exactly which faults and overlaps spoil the cache's promises. */
module CacheFaults {
  import opened Common
  import opened Cache
  import opened CacheTheorems

  // ---- Pieces of runs ---------------------------------------------------------------------

  lemma {:induction false} RunConcat(cfg: Config, s: State, es: seq<Event>, fs: seq<Event>)
    ensures Run(cfg, s, es + fs) == Run(cfg, Run(cfg, s, es), fs)
    decreases |fs|
  {
    if fs == [] {
      assert es + fs == es;
    } else {
      RunConcat(cfg, s, es, fs[..|fs| - 1]);
      assert (es + fs)[..|es + fs| - 1] == es + fs[..|fs| - 1];
    }
  }

  lemma RunTwo(cfg: Config, s: State, a: Event, b: Event)
    ensures Run(cfg, s, [a]) == Step(cfg, s, a)
    ensures Run(cfg, s, [a, b]) == Step(cfg, Step(cfg, s, a), b)
  {
    hide Step;
    assert [a][..0] == [] && [a, b][..1] == [a];
  }

  function Arrival(id: Id, k: Key, redis: bool): seq<Event> {
    [Check(id, k), Read(id, redis)] + [Lock(id)]
  }

  /** A check that misses the cache takes the lock, or waits for it. */
  lemma Arrives(cfg: Config, s: State, id: Id, k: Key, redis: bool)
    requires cfg.allowed(k) && id !in s.calls && !(redis && k in s.redis)
    ensures Run(cfg, s, Arrival(id, k, redis)) ==
      if k in s.locks then s.(calls := s.calls[id := Call(k, Waiting)])
      else s.(calls := s.calls[id := Call(k, Acquiring)], locks := s.locks[k := id])
  {
    RunConcat(cfg, s, [Check(id, k), Read(id, redis)], [Lock(id)]);
    RunTwo(cfg, s, Check(id, k), Read(id, redis));
    var read := s.(calls := s.calls[id := Call(k, Locking)]);
    RunTwo(cfg, read, Lock(id), Lock(id));
    hide Run;
    Overwrite(s.calls, id, Call(k, Reading), Call(k, Locking));
    assert Step(cfg, Step(cfg, s, Check(id, k)), Read(id, redis)) == read;
    Overwrite(s.calls, id, Call(k, Locking), Call(k, Waiting));
    Overwrite(s.calls, id, Call(k, Locking), Call(k, Acquiring));
  }

  lemma Overwrite<K, V>(m: map<K, V>, key: K, x: V, y: V)
    ensures m[key := x][key := y] == m[key := y]
  {
  }

  function Asking(id: Id, storage: bool): seq<Event> { [Acquire(id), Answer(id, storage)] }

  lemma Asks(cfg: Config, s: State, id: Id, storage: bool)
    requires id in s.calls && s.calls[id].pc == Acquiring && s.free > 0
    ensures var k := s.calls[id].key;
      Run(cfg, s, Asking(id, storage)) == s.(free := s.free - 1,
        calls := s.calls[id := Call(k, if storage then Writing(Look(s.backend, k)) else Releasing(None))])
  {
    RunTwo(cfg, s, Acquire(id), Answer(id, storage));
    hide Run;
    var k := s.calls[id].key;
    var next := if storage then Writing(Look(s.backend, k)) else Releasing(None);
    Overwrite(s.calls, id, Call(k, Querying), Call(k, next));
  }

  lemma Stores(cfg: Config, s: State, id: Id, redis: bool)
    requires id in s.calls && s.calls[id].pc.Writing?
    ensures var k, info := s.calls[id].key, s.calls[id].pc.info;
      Run(cfg, s, [WriteBack(id, redis)]) == s.(
        redis := if redis then s.redis[k := info] else s.redis,
        calls := s.calls[id := Call(k, Releasing(Some(CheckResult(info, false))))])
  {
    RunTwo(cfg, s, WriteBack(id, redis), WriteBack(id, redis));
    hide Run;
  }

  function Leaving(id: Id): seq<Event> { [Release(id), Unlock(id)] }

  lemma Leaves(cfg: Config, s: State, id: Id)
    requires id in s.calls && s.calls[id].pc.Releasing?
    ensures var k, result := s.calls[id].key, s.calls[id].pc.result;
      Run(cfg, s, Leaving(id)) ==
      s.(free := s.free + 1, locks := s.locks - {k}, calls := s.calls[id := Call(k, Finished(result))])
  {
    RunTwo(cfg, s, Release(id), Unlock(id));
    hide Run;
    var k, result := s.calls[id].key, s.calls[id].pc.result;
    Overwrite(s.calls, id, Call(k, Unlocking(result)), Call(k, Finished(result)));
  }

  function GivingUp(id: Id): seq<Event> { [Cancel(id), Unlock(id)] }

  lemma GivesUp(cfg: Config, s: State, id: Id)
    requires id in s.calls && s.calls[id].pc == Acquiring
    ensures var k := s.calls[id].key;
      Run(cfg, s, GivingUp(id)) == s.(locks := s.locks - {k}, calls := s.calls[id := Call(k, Finished(None))])
  {
    RunTwo(cfg, s, Cancel(id), Unlock(id));
    hide Run;
    var k := s.calls[id].key;
    Overwrite(s.calls, id, Call(k, Unlocking(None)), Call(k, Finished(None)));
  }

  // ---- Why the hypotheses are there -------------------------------------------------------

  /** Calls 1 and 2 on k wait for a lock that is gone, and the cache does not have k. */
  ghost predicate Abandoned(s: State, k: Key) {
    && 1 in s.calls && 2 in s.calls && s.calls[1] == Call(k, Waiting) && s.calls[2] == Call(k, Waiting)
    && k !in s.locks && k !in s.redis
  }

  ghost predicate BothQuery(s: State, k: Key) {
    && 1 in s.calls && 2 in s.calls && s.calls[1] == Call(k, Querying) && s.calls[2] == Call(k, Querying)
  }

  function Falling(id: Id, redis: bool): seq<Event> { [Wake(id), Reread(id, redis)] }

  /** A waiter that wakes to a cache miss goes on without the lock. */
  lemma Falls(cfg: Config, s: State, id: Id, redis: bool)
    requires id in s.calls && s.calls[id].pc == Waiting && s.calls[id].key !in s.locks
    requires !(redis && s.calls[id].key in s.redis)
    ensures Run(cfg, s, Falling(id, redis)) == s.(calls := s.calls[id := Call(s.calls[id].key, Acquiring)])
  {
    RunTwo(cfg, s, Wake(id), Reread(id, redis));
    hide Run;
    Overwrite(s.calls, id, Call(s.calls[id].key, Rereading), Call(s.calls[id].key, Acquiring));
  }

  function BothFalling(): seq<Event> { Falling(1, true) + Falling(2, true) + [Acquire(1), Acquire(2)] }

  /** From any such state both waiters fall through to the storage query. */
  lemma AbandonedWaitersBothQuery(cfg: Config, s: State, k: Key)
    requires Abandoned(s, k) && s.free >= 2
    ensures BothQuery(Run(cfg, s, BothFalling()), k)
  {
    RunConcat(cfg, s, Falling(1, true) + Falling(2, true), [Acquire(1), Acquire(2)]);
    RunConcat(cfg, s, Falling(1, true), Falling(2, true));
    hide Run, Falling;
    Falls(cfg, s, 1, true);
    var one := Run(cfg, s, Falling(1, true));
    Falls(cfg, one, 2, true);
    var both := Run(cfg, one, Falling(2, true));
    assert both.calls[1] == Call(k, Acquiring) && both.calls[2] == Call(k, Acquiring) && both.free == s.free;
    BothAcquire(cfg, both, k);
  }

  lemma BothAcquire(cfg: Config, s: State, k: Key)
    requires 1 in s.calls && 2 in s.calls && s.calls[1] == s.calls[2] == Call(k, Acquiring) && s.free >= 2
    ensures BothQuery(Run(cfg, s, [Acquire(1), Acquire(2)]), k)
  {
    RunTwo(cfg, s, Acquire(1), Acquire(2));
    hide Run;
  }

  function ThreeChecks(k: Key): seq<Event> {
    Arrival(0, k, true) + Arrival(1, k, true) + Arrival(2, k, true)
  }

  /** Two calls wait for the lock that a third has just taken. */
  ghost predicate TwoWaitForOne(s: State, k: Key) {
    && s.calls == map[0 := Call(k, Acquiring), 1 := Call(k, Waiting), 2 := Call(k, Waiting)]
    && k in s.locks && k !in s.redis
  }

  lemma ReachTwoWaitForOne(cfg: Config, s: State, k: Key)
    requires cfg.allowed(k) && s.calls == map[] && k !in s.redis && k !in s.locks
    ensures TwoWaitForOne(Run(cfg, s, ThreeChecks(k)), k) && Run(cfg, s, ThreeChecks(k)).free == s.free
  {
    RunConcat(cfg, s, Arrival(0, k, true) + Arrival(1, k, true), Arrival(2, k, true));
    RunConcat(cfg, s, Arrival(0, k, true), Arrival(1, k, true));
    hide Run, Arrival;
    Arrives(cfg, s, 0, k, true);
    var one := Run(cfg, s, Arrival(0, k, true));
    Arrives(cfg, one, 1, k, true);
    var two := Run(cfg, one, Arrival(1, k, true));
    Arrives(cfg, two, 2, k, true);
  }

  /** How a lock can be given back with nothing in the cache. */
  function Tail(k: Key, fault: Fault): seq<Event>
    requires !fault.RereadFails?
  {
    match fault
    case ContextEnds => GivingUp(0)
    case StorageFails => Asking(0, false) + Leaving(0)
    case CacheWriteFails => Asking(0, true) + [WriteBack(0, false)] + Leaving(0)
    case CacheIsCleared => Asking(0, true) + [WriteBack(0, true)] + Leaving(0) + [Clear({k})]
  }

  /** The owner asks the storage, writes its answer back and leaves. */
  lemma OwnerFinishes(cfg: Config, s: State, k: Key, redis: bool)
    requires 0 in s.calls && s.calls[0] == Call(k, Acquiring) && s.free > 0
    ensures var info := Look(s.backend, k);
      Run(cfg, s, Asking(0, true) + [WriteBack(0, redis)] + Leaving(0)) == s.(
        locks := s.locks - {k}, redis := if redis then s.redis[k := info] else s.redis,
        calls := s.calls[0 := Call(k, Finished(Some(CheckResult(info, false))))])
  {
    RunConcat(cfg, s, Asking(0, true) + [WriteBack(0, redis)], Leaving(0));
    RunConcat(cfg, s, Asking(0, true), [WriteBack(0, redis)]);
    hide Run, Asking, Leaving, Step, Look;
    var info := Look(s.backend, k);
    var result := Some(CheckResult(info, false));
    Asks(cfg, s, 0, true);
    Stores(cfg, Run(cfg, s, Asking(0, true)), 0, redis);
    Overwrite(s.calls, 0, Call(k, Writing(info)), Call(k, Releasing(result)));
    Leaves(cfg, Run(cfg, Run(cfg, s, Asking(0, true)), [WriteBack(0, redis)]), 0);
    Overwrite(s.calls, 0, Call(k, Releasing(result)), Call(k, Finished(result)));
  }

  lemma OwnerLeaves(cfg: Config, s: State, k: Key, fault: Fault)
    requires TwoWaitForOne(s, k) && s.free >= 2 && !fault.RereadFails?
    ensures var after := Run(cfg, s, Tail(k, fault)); Abandoned(after, k) && after.free == s.free
  {
    hide Run, Asking, Leaving, GivingUp, Look, Step;
    match fault
    case ContextEnds =>
      GivesUp(cfg, s, 0);
    case StorageFails =>
      RunConcat(cfg, s, Asking(0, false), Leaving(0));
      Asks(cfg, s, 0, false);
      Leaves(cfg, Run(cfg, s, Asking(0, false)), 0);
    case CacheWriteFails =>
      OwnerFinishes(cfg, s, k, false);
    case CacheIsCleared =>
      var done := Asking(0, true) + [WriteBack(0, true)] + Leaving(0);
      OwnerFinishes(cfg, s, k, true);
      RunConcat(cfg, s, done, [Clear({k})]);
      Clears(cfg, Run(cfg, s, done), k);
  }

  lemma Clears(cfg: Config, s: State, k: Key)
    ensures Run(cfg, s, [Clear({k})]) == s.(redis := s.redis - {k})
  {
    RunTwo(cfg, s, Clear({k}), Clear({k}));
  }

  /** One call answers while another waits. */
  function OneWaits(k: Key): seq<Event> {
    Arrival(0, k, false) + Arrival(1, k, false) + (Asking(0, true) + [WriteBack(0, true)] + Leaving(0))
  }

  /** A waiter whose re-read fails holds no lock, so a third call takes it and both query. */
  function RereadRun(k: Key): seq<Event> {
    OneWaits(k) + Falling(1, false) + Arrival(2, k, false) + [Acquire(1), Acquire(2)]
  }

  lemma TwoArrive(cfg: Config, s: State, k: Key)
    requires cfg.allowed(k) && s.calls == map[] && k !in s.locks
    ensures Run(cfg, s, Arrival(0, k, false) + Arrival(1, k, false)) ==
      s.(calls := map[0 := Call(k, Acquiring)][1 := Call(k, Waiting)], locks := s.locks[k := 0])
  {
    RunConcat(cfg, s, Arrival(0, k, false), Arrival(1, k, false));
    hide Run, Step, Arrival;
    Arrives(cfg, s, 0, k, false);
    Arrives(cfg, Run(cfg, s, Arrival(0, k, false)), 1, k, false);
  }

  lemma ReachOneWaiter(cfg: Config, s: State, k: Key)
    requires cfg.allowed(k) && s.calls == map[] && k !in s.locks && s.free >= 2
    ensures var s' := Run(cfg, s, OneWaits(k));
      1 in s'.calls && 2 !in s'.calls && s'.calls[1] == Call(k, Waiting) && k !in s'.locks && s'.free == s.free
  {
    RunConcat(cfg, s, Arrival(0, k, false) + Arrival(1, k, false), Asking(0, true) + [WriteBack(0, true)] + Leaving(0));
    TwoArrive(cfg, s, k);
    hide Run, Step, Look, Arrival, Asking, Leaving;
    OwnerFinishes(cfg, Run(cfg, s, Arrival(0, k, false) + Arrival(1, k, false)), k, true);
  }

  lemma FailedRereadQueriesTwice(cfg: Config, s: State, k: Key)
    requires cfg.allowed(k) && s.calls == map[] && k !in s.locks && s.free >= 2
    ensures BothQuery(Run(cfg, s, RereadRun(k)), k)
  {
    var start := OneWaits(k);
    RunConcat(cfg, s, start + Falling(1, false) + Arrival(2, k, false), [Acquire(1), Acquire(2)]);
    RunConcat(cfg, s, start + Falling(1, false), Arrival(2, k, false));
    RunConcat(cfg, s, start, Falling(1, false));
    ReachOneWaiter(cfg, s, k);
    hide Run, Step, OneWaits, Arrival, Falling;
    var waiting := Run(cfg, s, start);
    Falls(cfg, waiting, 1, false);
    var fallen := Run(cfg, waiting, Falling(1, false));
    Arrives(cfg, fallen, 2, k, false);
    BothAcquire(cfg, Run(cfg, fallen, Arrival(2, k, false)), k);
  }

  function OneFaultRun(k: Key, fault: Fault): seq<Event> {
    if fault.RereadFails? then RereadRun(k) else ThreeChecks(k) + Tail(k, fault) + BothFalling()
  }

  /** Where the fault is; every other event has none. */
  function FaultIndex(fault: Fault): nat {
    match fault
    case RereadFails => 12
    case ContextEnds => 9
    case StorageFails => 10
    case CacheWriteFails => 11
    case CacheIsCleared => 14
  }

  ghost predicate OnlyFaultAt(es: seq<Event>, i: nat, fault: Fault) {
    i < |es| && forall j :: 0 <= j < |es| ==> FaultOf(es[j]) == if j == i then Some(fault) else None
  }

  lemma RereadRunHasOneFault(k: Key)
    ensures OnlyFaultAt(RereadRun(k), 12, RereadFails)
  {
    var start, rest := OneWaits(k), Arrival(2, k, false) + [Acquire(1), Acquire(2)];
    assert |start| == 11 && forall j :: 0 <= j < 11 ==> FaultOf(start[j]).None?;
    assert |rest| == 5 && forall j :: 0 <= j < 5 ==> FaultOf(rest[j]).None?;
    assert RereadRun(k) == start + Falling(1, false) + rest;
    hide OneWaits, Arrival, RereadRun;
  }

  lemma OnlyOneFault(k: Key, fault: Fault)
    ensures OnlyFaultAt(OneFaultRun(k, fault), FaultIndex(fault), fault)
  {
    if fault.RereadFails? {
      RereadRunHasOneFault(k);
      hide RereadRun, OnlyFaultAt;
    } else {
      var start, tail, rest := ThreeChecks(k), Tail(k, fault), BothFalling();
      assert |start| == 9 && forall j :: 0 <= j < 9 ==> FaultOf(start[j]).None?;
      assert |rest| == 6 && forall j :: 0 <= j < 6 ==> FaultOf(rest[j]).None?;
      var i := FaultIndex(fault) - 9;
      assert forall j :: 0 <= j < |tail| ==> FaultOf(tail[j]) == if j == i then Some(fault) else None;
      hide ThreeChecks, BothFalling;
    }
  }

  /** Each single fault is enough to put two queries for one key in flight: with two permits and
      a key not in the cache, a run whose only faulty event is that one gets there. */
  lemma OneFaultIsEnough(cfg: Config, s: State, k: Key, fault: Fault)
    requires cfg.allowed(k) && s.calls == map[] && k !in s.locks && s.free >= 2 && (k in s.redis ==> fault.RereadFails?)
    ensures BothQuery(Run(cfg, s, OneFaultRun(k, fault)), k)
    ensures OnlyFaultAt(OneFaultRun(k, fault), FaultIndex(fault), fault)
  {
    OnlyOneFault(k, fault);
    hide Run, OnlyFaultAt, ThreeChecks, Tail, BothFalling;
    if fault.RereadFails? {
      FailedRereadQueriesTwice(cfg, s, k);
    } else {
      ReachTwoWaitForOne(cfg, s, k);
      RunConcat(cfg, s, ThreeChecks(k), Tail(k, fault));
      OwnerLeaves(cfg, Run(cfg, s, ThreeChecks(k)), k, fault);
      RunConcat(cfg, s, ThreeChecks(k) + Tail(k, fault), BothFalling());
      AbandonedWaitersBothQuery(cfg, Run(cfg, s, ThreeChecks(k) + Tail(k, fault)), k);
    }
  }

  /** A key for which the permitted faults can never put two queries in flight. */
  predicate SafeKey(cfg: Config, redis: map<Key, FileInfo>, faults: set<Fault>, k: Key) {
    || !cfg.allowed(k)
    || cfg.permits <= 1
    || faults == {}
    || (k in redis && RereadFails !in faults && CacheIsCleared !in faults)
  }

  lemma SafeKeysHaveOneQuery(cfg: Config, redis: map<Key, FileInfo>, backend: map<Key, nat>, faults: set<Fault>,
                             k: Key, es: seq<Event>)
    requires SafeKey(cfg, redis, faults, k) && Within(faults, es)
    ensures OneQuery(Run(cfg, Start(cfg, redis, backend), es), k)
  {
    var s := Run(cfg, Start(cfg, redis, backend), es);
    if !cfg.allowed(k) {
      forall id | id in s.calls ensures s.calls[id].key != k { CallsAreAllowed(cfg, redis, backend, es, id); }
    } else if cfg.permits <= 1 {
      OnePermitIsOneQuery(cfg, redis, backend, es, k);
    } else {
      RunKeepsSolo(cfg, Start(cfg, redis, backend), faults, es, k);
      SoloIsOneQuery(s, k);
    }
  }

  lemma WithinOneFault(es: seq<Event>, i: nat, fault: Fault, faults: set<Fault>)
    requires OnlyFaultAt(es, i, fault) && fault in faults
    ensures Within(faults, es)
  {
  }

  lemma BothQueryIsTwo(s: State, k: Key)
    requires BothQuery(s, k)
    ensures !OneQuery(s, k)
  {
    assert s.calls[1] == s.calls[2] == Call(k, Querying);
  }

  lemma UnsafeKeysHaveTwo(cfg: Config, redis: map<Key, FileInfo>, backend: map<Key, nat>, faults: set<Fault>, k: Key)
    returns (es: seq<Event>)
    requires !SafeKey(cfg, redis, faults, k)
    ensures Within(faults, es) && !OneQuery(Run(cfg, Start(cfg, redis, backend), es), k)
  {
    hide Run, OneFaultRun, OnlyFaultAt, OneQuery, BothQuery, Within, FaultOf;
    var s := Start(cfg, redis, backend);
    var fault := if RereadFails in faults then RereadFails else Any(faults);
    es := OneFaultRun(k, fault);
    if !fault.RereadFails? && k in redis {
      assert CacheIsCleared in faults;
      es := [Clear({k})] + OneFaultRun(k, CacheIsCleared);
      RunConcat(cfg, s, [Clear({k})], OneFaultRun(k, CacheIsCleared));
      Clears(cfg, s, k);
      OneFaultIsEnough(cfg, Run(cfg, s, [Clear({k})]), k, CacheIsCleared);
      WithinOneFault(OneFaultRun(k, CacheIsCleared), FaultIndex(CacheIsCleared), CacheIsCleared, faults);
      ClearingIsWithin(faults, k, OneFaultRun(k, CacheIsCleared));
    } else {
      OneFaultIsEnough(cfg, s, k, fault);
      WithinOneFault(es, FaultIndex(fault), fault, faults);
    }
    BothQueryIsTwo(Run(cfg, s, es), k);
  }

  lemma ClearingIsWithin(faults: set<Fault>, k: Key, es: seq<Event>)
    requires Within(faults, es) && CacheIsCleared in faults
    ensures Within(faults, [Clear({k})] + es)
  {
  }

  ghost function Any(faults: set<Fault>): (f: Fault)
    requires faults != {}
    ensures f in faults
  {
    var f :| f in faults; f
  }

  /** Exactly when a key never has two storage queries in flight, whatever else is interleaved: it
      is not served at all, or there is one permit, or no fault is permitted, or it was cached
      and neither a failed re-read nor a clear is permitted. */
  lemma OneQueryIff(cfg: Config, redis: map<Key, FileInfo>, backend: map<Key, nat>, faults: set<Fault>, k: Key)
    ensures (forall es :: Within(faults, es) ==> OneQuery(Run(cfg, Start(cfg, redis, backend), es), k)) <==>
      SafeKey(cfg, redis, faults, k)
  {
    hide Run, OneQuery, Within;
    if SafeKey(cfg, redis, faults, k) {
      forall es | Within(faults, es) ensures OneQuery(Run(cfg, Start(cfg, redis, backend), es), k) {
        SafeKeysHaveOneQuery(cfg, redis, backend, faults, k, es);
      }
    } else {
      var es := UnsafeKeysHaveTwo(cfg, redis, backend, faults, k);
    }
  }

  // ---- Why overlap is excluded ------------------------------------------------------------

  function Uploaded(k: Key, size: nat): seq<Event> {
    [UploadStart(9, k, size), UploadPut(9)] + [UploadSet(9, true)]
  }

  lemma UploadPuts(cfg: Config, s: State, k: Key, size: nat)
    requires s.uploads == map[]
    ensures Run(cfg, s, [UploadStart(9, k, size), UploadPut(9)]) ==
      s.(backend := s.backend[k := size], uploads := map[9 := Upload(k, size, true)])
  {
    RunTwo(cfg, s, UploadStart(9, k, size), UploadPut(9));
    hide Run;
    Overwrite(s.uploads, 9, Upload(k, size, false), Upload(k, size, true));
  }

  lemma UploadInBetween(cfg: Config, s: State, k: Key, size: nat)
    requires cfg.allowed(k) && s.uploads == map[]
    ensures Run(cfg, s, Uploaded(k, size)) ==
      s.(backend := s.backend[k := size], redis := s.redis[k := FileInfo(true, size)])
  {
    RunConcat(cfg, s, [UploadStart(9, k, size), UploadPut(9)], [UploadSet(9, true)]);
    UploadPuts(cfg, s, k, size);
    var put := s.(backend := s.backend[k := size], uploads := map[9 := Upload(k, size, true)]);
    RunTwo(cfg, put, UploadSet(9, true), UploadSet(9, true));
    hide Run;
    assert put.uploads - {9} == s.uploads;
  }

  function OverlappingRun(k: Key, size: nat): seq<Event> {
    Arrival(0, k, true) + Asking(0, true) + Uploaded(k, size) + [WriteBack(0, true)] + Leaving(0)
  }

  lemma OverlappingIsFaultFree(k: Key, size: nat)
    ensures AreFaultFree(OverlappingRun(k, size))
  {
  }

  /** A check asks the storage, an upload of the key then runs from start to end and records
      itself, and the check writes back its old answer: every step succeeds, nothing is in
      progress any more, and the cache denies an object that is there. */
  lemma OverlapLeavesStaleDenial(cfg: Config, redis: map<Key, FileInfo>, backend: map<Key, nat>, k: Key, size: nat)
    requires cfg.allowed(k) && cfg.permits > 0 && k !in redis && k !in backend
    ensures var s := Run(cfg, Start(cfg, redis, backend), OverlappingRun(k, size));
      && s.calls.Keys == {0} && s.calls[0].pc.Finished? && s.uploads == map[]
      && k in s.redis && s.redis[k] == FileInfo(false, 0) && k in s.backend && !Agrees(s, k)
    ensures AreFaultFree(OverlappingRun(k, size))
  {
    OverlappingIsFaultFree(k, size);
    hide Run, Step, AreFaultFree, Arrival, Asking, Uploaded, Leaving;
    var s0 := Start(cfg, redis, backend);
    Arrives(cfg, s0, 0, k, true);
    var s1 := Run(cfg, s0, Arrival(0, k, true));
    RunConcat(cfg, s0, Arrival(0, k, true), Asking(0, true));
    Asks(cfg, s1, 0, true);
    var s2 := Run(cfg, s1, Asking(0, true));
    RunConcat(cfg, s0, Arrival(0, k, true) + Asking(0, true), Uploaded(k, size));
    UploadInBetween(cfg, s2, k, size);
    var s3 := Run(cfg, s2, Uploaded(k, size));
    RunConcat(cfg, s0, Arrival(0, k, true) + Asking(0, true) + Uploaded(k, size), [WriteBack(0, true)]);
    Stores(cfg, s3, 0, true);
    var s4 := Run(cfg, s3, [WriteBack(0, true)]);
    RunConcat(cfg, s0, Arrival(0, k, true) + Asking(0, true) + Uploaded(k, size) + [WriteBack(0, true)], Leaving(0));
    Leaves(cfg, s4, 0);
  }

  predicate AreFaultFree(es: seq<Event>) {
    forall e :: e in es ==> FaultOf(e).None?
  }

  // ---- Exactly which overlaps spoil the cache -----------------------------------------------

  lemma {:induction false} PermittedConcat(cfg: Config, k: Key, overlaps: set<Overlap>, s: State,
                                           es: seq<Event>, fs: seq<Event>)
    requires Permitted(cfg, k, overlaps, s, es) && Permitted(cfg, k, overlaps, Run(cfg, s, es), fs)
    ensures Permitted(cfg, k, overlaps, s, es + fs) && Run(cfg, s, es + fs) == Run(cfg, Run(cfg, s, es), fs)
    decreases |fs|
  {
    if fs == [] {
      assert es + fs == es;
    } else {
      var init := fs[..|fs| - 1];
      var all := es + fs;
      PermittedConcat(cfg, k, overlaps, s, es, init);
      hide Overlaps, Step;
      assert all[..|all| - 1] == es + init && all[|all| - 1] == fs[|fs| - 1];
      assert Run(cfg, s, all) == Step(cfg, Run(cfg, s, es + init), fs[|fs| - 1]);
      assert Run(cfg, Run(cfg, s, es), fs) == Step(cfg, Run(cfg, Run(cfg, s, es), init), fs[|fs| - 1]);
    }
  }

  lemma PermittedOne(cfg: Config, k: Key, overlaps: set<Overlap>, s: State, e: Event)
    requires Overlaps(k, s, e) <= overlaps
    ensures Permitted(cfg, k, overlaps, s, [e]) && Run(cfg, s, [e]) == Step(cfg, s, e)
  {
    hide Step, Overlaps;
    var es := [e];
    assert es[..|es| - 1] == [] && es[|es| - 1] == e;
    assert Permitted(cfg, k, overlaps, s, []) && Run(cfg, s, []) == s;
  }

  /** Events that are tidy in every state. */
  predicate Tidy(es: seq<Event>) {
    forall e :: e in es ==> CallEvent(e) || e.UploadPut? || (e.UploadSet? && e.redis)
  }

  lemma {:induction false} TidyIsPermitted(cfg: Config, k: Key, overlaps: set<Overlap>, s: State, es: seq<Event>)
    requires Tidy(es)
    ensures Permitted(cfg, k, overlaps, s, es)
  {
    if es != [] {
      assert es[|es| - 1] in es;
      TidyIsPermitted(cfg, k, overlaps, s, es[..|es| - 1]);
      hide Step;
    }
  }

  lemma ArrivalPermitted(cfg: Config, k: Key, overlaps: set<Overlap>, s: State)
    requires UploadRuns(s, k) ==> CheckUnderUpload in overlaps
    ensures Permitted(cfg, k, overlaps, s, Arrival(0, k, false))
  {
    PermittedOne(cfg, k, overlaps, s, Check(0, k));
    TidyIsPermitted(cfg, k, overlaps, Run(cfg, s, [Check(0, k)]), [Read(0, false), Lock(0)]);
    PermittedConcat(cfg, k, overlaps, s, [Check(0, k)], [Read(0, false), Lock(0)]);
    assert Arrival(0, k, false) == [Check(0, k)] + [Read(0, false), Lock(0)];
    hide Permitted;
  }

  lemma StartPermitted(cfg: Config, k: Key, overlaps: set<Overlap>, s: State, size: nat, fs: seq<Event>)
    requires s.uploads == map[] && (CheckRuns(s, k) ==> UploadUnderCheck in overlaps)
    requires Tidy(fs)
    ensures Permitted(cfg, k, overlaps, s, [UploadStart(9, k, size)] + fs)
  {
    PermittedOne(cfg, k, overlaps, s, UploadStart(9, k, size));
    TidyIsPermitted(cfg, k, overlaps, Run(cfg, s, [UploadStart(9, k, size)]), fs);
    PermittedConcat(cfg, k, overlaps, s, [UploadStart(9, k, size)], fs);
  }

  /** A cached object of size 0, and nothing in progress. */
  ghost predicate Fresh(s: State, k: Key) {
    && s.calls == map[] && s.uploads == map[] && s.locks == map[] && s.free > 0
    && k in s.redis && s.redis[k] == FileInfo(true, 0) && k in s.backend && s.backend[k] == 0
  }

  /** Nothing in progress on a key whose entry is wrong. */
  ghost predicate Spoiled(s: State, k: Key) {
    && s.uploads == map[] && !CheckRuns(s, k) && !Agrees(s, k)
  }

  lemma ReachFresh(cfg: Config, redis: map<Key, FileInfo>, backend: map<Key, nat>, overlaps: set<Overlap>, k: Key)
    requires cfg.allowed(k) && cfg.permits > 0
    ensures Permitted(cfg, k, overlaps, Start(cfg, redis, backend), Uploaded(k, 0))
    ensures Fresh(Run(cfg, Start(cfg, redis, backend), Uploaded(k, 0)), k)
  {
    var s := Start(cfg, redis, backend);
    assert Uploaded(k, 0) == [UploadStart(9, k, 0)] + [UploadPut(9), UploadSet(9, true)];
    StartPermitted(cfg, k, overlaps, s, 0, [UploadPut(9), UploadSet(9, true)]);
    hide Run, Permitted;
    UploadInBetween(cfg, s, k, 0);
  }

  lemma UnrecordedSpoils(cfg: Config, s: State, k: Key, last: Event)
    requires Fresh(s, k) && (last == UploadSet(9, false) || last == UploadFail(9))
    ensures var overlap := if last.UploadFail? then DiesUnrecorded else RecordFails;
      Permitted(cfg, k, {overlap}, s, [UploadStart(9, k, 1), UploadPut(9)] + [last])
    ensures Spoiled(Run(cfg, s, [UploadStart(9, k, 1), UploadPut(9)] + [last]), k)
  {
    var overlaps := if last.UploadFail? then {DiesUnrecorded} else {RecordFails};
    var start := [UploadStart(9, k, 1), UploadPut(9)];
    assert start == [UploadStart(9, k, 1)] + [UploadPut(9)];
    StartPermitted(cfg, k, overlaps, s, 1, [UploadPut(9)]);
    UploadPuts(cfg, s, k, 1);
    PermittedOne(cfg, k, overlaps, Run(cfg, s, start), last);
    PermittedConcat(cfg, k, overlaps, s, start, [last]);
    hide Run, Permitted, Overlaps;
    assert map[9 := Upload(k, 1, true)] - {9} == map[];
  }

  lemma TwoUploadsStart(cfg: Config, s: State, k: Key)
    requires Fresh(s, k)
    ensures Permitted(cfg, k, {UploadUnderUpload}, s, [UploadStart(8, k, 5)] + [UploadStart(9, k, 7)])
    ensures Run(cfg, s, [UploadStart(8, k, 5)] + [UploadStart(9, k, 7)]) ==
      s.(uploads := map[8 := Upload(k, 5, false), 9 := Upload(k, 7, false)])
  {
    var one := s.(uploads := map[8 := Upload(k, 5, false)]);
    PermittedOne(cfg, k, {UploadUnderUpload}, s, UploadStart(8, k, 5));
    PermittedOne(cfg, k, {UploadUnderUpload}, one, UploadStart(9, k, 7));
    assert Step(cfg, s, UploadStart(8, k, 5)) == one;
    PermittedConcat(cfg, k, {UploadUnderUpload}, s, [UploadStart(8, k, 5)], [UploadStart(9, k, 7)]);
    hide Run, Permitted, Overlaps;
  }

  lemma TwoUploadsPut(cfg: Config, s: State, k: Key)
    requires s.uploads == map[8 := Upload(k, 5, false), 9 := Upload(k, 7, false)]
    ensures Run(cfg, s, [UploadPut(8), UploadPut(9)]) ==
      s.(backend := s.backend[k := 7], uploads := map[8 := Upload(k, 5, true), 9 := Upload(k, 7, true)])
  {
    RunTwo(cfg, s, UploadPut(8), UploadPut(9));
    hide Run;
    var one := s.(backend := s.backend[k := 5], uploads := map[8 := Upload(k, 5, true), 9 := Upload(k, 7, false)]);
    assert Step(cfg, s, UploadPut(8)) == one;
    Overwrite(s.backend, k, 5, 7);
  }

  lemma TwoUploadsSet(cfg: Config, s: State, k: Key)
    requires cfg.allowed(k) && s.uploads == map[8 := Upload(k, 5, true), 9 := Upload(k, 7, true)]
    ensures Run(cfg, s, [UploadSet(9, true), UploadSet(8, true)]) ==
      s.(redis := s.redis[k := FileInfo(true, 5)], uploads := map[])
  {
    RunTwo(cfg, s, UploadSet(9, true), UploadSet(8, true));
    hide Run;
    Overwrite(s.redis, k, FileInfo(true, 7), FileInfo(true, 5));
    assert s.uploads - {9} - {8} == map[];
  }

  lemma TwoUploadsStored(cfg: Config, s: State, k: Key)
    requires Fresh(s, k)
    ensures var es := [UploadStart(8, k, 5)] + [UploadStart(9, k, 7)] + [UploadPut(8), UploadPut(9)];
      && Permitted(cfg, k, {UploadUnderUpload}, s, es)
      && Run(cfg, s, es) ==
         s.(backend := s.backend[k := 7], uploads := map[8 := Upload(k, 5, true), 9 := Upload(k, 7, true)])
  {
    var start, puts := [UploadStart(8, k, 5)] + [UploadStart(9, k, 7)], [UploadPut(8), UploadPut(9)];
    TidyIsPermitted(cfg, k, {UploadUnderUpload}, Run(cfg, s, start), puts);
    TwoUploadsStart(cfg, s, k);
    hide *;
    PermittedConcat(cfg, k, {UploadUnderUpload}, s, start, puts);
    TwoUploadsPut(cfg, Run(cfg, s, start), k);
  }

  lemma SettingSpoils(cfg: Config, s: State, k: Key)
    requires cfg.allowed(k) && s.uploads == map[8 := Upload(k, 5, true), 9 := Upload(k, 7, true)]
    requires s.calls == map[] && k in s.backend && s.backend[k] == 7
    ensures Spoiled(Run(cfg, s, [UploadSet(9, true), UploadSet(8, true)]), k)
  {
    TwoUploadsSet(cfg, s, k);
    hide Run, Step;
  }

  lemma TwoUploadsSpoil(cfg: Config, s: State, k: Key)
    requires cfg.allowed(k) && Fresh(s, k)
    ensures var es := OverlapRun(UploadUnderUpload, k);
      Permitted(cfg, k, {UploadUnderUpload}, s, es) && Spoiled(Run(cfg, s, es), k)
  {
    var put := [UploadStart(8, k, 5)] + [UploadStart(9, k, 7)] + [UploadPut(8), UploadPut(9)];
    var set_ := [UploadSet(9, true), UploadSet(8, true)];
    assert OverlapRun(UploadUnderUpload, k) == put + set_ && s.calls == map[];
    TidyIsPermitted(cfg, k, {UploadUnderUpload}, Run(cfg, s, put), set_);
    hide *;
    TwoUploadsStored(cfg, s, k);
    PermittedConcat(cfg, k, {UploadUnderUpload}, s, put, set_);
    SettingSpoils(cfg, Run(cfg, s, put), k);
  }

  /** A check has asked the storage and not yet written back that the object has size 0. */
  ghost predicate Outdated(s: State, k: Key) {
    && s.calls == map[0 := Call(k, Writing(FileInfo(true, 0)))]
    && k in s.locks && k in s.backend && s.backend[k] != 0
    && s.uploads == map[]
  }

  lemma OutdatedSpoils(cfg: Config, s: State, k: Key, overlaps: set<Overlap>)
    requires Outdated(s, k)
    ensures var es := [WriteBack(0, true)] + Leaving(0);
      Permitted(cfg, k, overlaps, s, es) && Spoiled(Run(cfg, s, es), k)
  {
    TidyIsPermitted(cfg, k, overlaps, s, [WriteBack(0, true)] + Leaving(0));
    RunConcat(cfg, s, [WriteBack(0, true)], Leaving(0));
    hide Run, Permitted, Leaving, Step;
    Stores(cfg, s, 0, true);
    Leaves(cfg, Run(cfg, s, [WriteBack(0, true)]), 0);
  }

  lemma CheckAsksPermitted(cfg: Config, s: State, k: Key, overlaps: set<Overlap>)
    requires UploadRuns(s, k) ==> CheckUnderUpload in overlaps
    ensures Permitted(cfg, k, overlaps, s, Arrival(0, k, false) + Asking(0, true))
  {
    TidyIsPermitted(cfg, k, overlaps, Run(cfg, s, Arrival(0, k, false)), Asking(0, true));
    hide *;
    ArrivalPermitted(cfg, k, overlaps, s);
    PermittedConcat(cfg, k, overlaps, s, Arrival(0, k, false), Asking(0, true));
  }

  lemma CheckAsks(cfg: Config, s: State, k: Key, overlaps: set<Overlap>)
    requires cfg.allowed(k) && s.calls == map[] && s.locks == map[] && s.free > 0
    requires k in s.backend && s.backend[k] == 0 && (UploadRuns(s, k) ==> CheckUnderUpload in overlaps)
    ensures var es := Arrival(0, k, false) + Asking(0, true);
      && Permitted(cfg, k, overlaps, s, es)
      && Run(cfg, s, es) ==
         s.(calls := map[0 := Call(k, Writing(FileInfo(true, 0)))], locks := map[k := 0], free := s.free - 1)
  {
    hide Run, Permitted, Arrival, Asking, Step, UploadRuns;
    CheckAsksPermitted(cfg, s, k, overlaps);
    RunConcat(cfg, s, Arrival(0, k, false), Asking(0, true));
    Arrives(cfg, s, 0, k, false);
    Asks(cfg, Run(cfg, s, Arrival(0, k, false)), 0, true);
    Overwrite(map[], 0, Call(k, Acquiring), Call(k, Writing(FileInfo(true, 0))));
  }

  lemma UploadUnderCheckSpoils(cfg: Config, s: State, k: Key)
    requires cfg.allowed(k) && Fresh(s, k)
    ensures var es := OverlapRun(UploadUnderCheck, k);
      Permitted(cfg, k, {UploadUnderCheck}, s, es) && Spoiled(Run(cfg, s, es), k)
  {
    var overlaps := {UploadUnderCheck};
    var asked := Arrival(0, k, false) + Asking(0, true);
    CheckAsks(cfg, s, k, overlaps);
    assert Uploaded(k, 1) == [UploadStart(9, k, 1)] + [UploadPut(9), UploadSet(9, true)];
    StartPermitted(cfg, k, overlaps, Run(cfg, s, asked), 1, [UploadPut(9), UploadSet(9, true)]);
    PermittedConcat(cfg, k, overlaps, s, asked, Uploaded(k, 1));
    hide Run, Permitted, Arrival, Asking, Leaving, Uploaded, Step, Spoiled;
    UploadInBetween(cfg, Run(cfg, s, asked), k, 1);
    OutdatedSpoils(cfg, Run(cfg, s, asked + Uploaded(k, 1)), k, overlaps);
    PermittedConcat(cfg, k, overlaps, s, asked + Uploaded(k, 1), [WriteBack(0, true)] + Leaving(0));
  }

  lemma UploadEndsUnderCheck(cfg: Config, s: State, k: Key)
    requires cfg.allowed(k) && s.uploads == map[9 := Upload(k, 1, false)]
    ensures Run(cfg, s, [UploadPut(9), UploadSet(9, true)]) ==
      s.(backend := s.backend[k := 1], redis := s.redis[k := FileInfo(true, 1)], uploads := map[])
  {
    RunTwo(cfg, s, UploadPut(9), UploadSet(9, true));
    hide Run;
    assert s.uploads[9 := Upload(k, 1, true)] - {9} == map[];
  }

  lemma CheckUnderUploadAsks(cfg: Config, s: State, k: Key)
    requires cfg.allowed(k) && Fresh(s, k)
    ensures var es := [UploadStart(9, k, 1)] + (Arrival(0, k, false) + Asking(0, true));
      && Permitted(cfg, k, {CheckUnderUpload}, s, es)
      && Run(cfg, s, es) ==
         s.(uploads := map[9 := Upload(k, 1, false)], calls := map[0 := Call(k, Writing(FileInfo(true, 0)))],
            locks := map[k := 0], free := s.free - 1)
  {
    PermittedOne(cfg, k, {CheckUnderUpload}, s, UploadStart(9, k, 1));
    assert Step(cfg, s, UploadStart(9, k, 1)) == s.(uploads := map[9 := Upload(k, 1, false)]);
    hide Run, Permitted, Arrival, Asking, Step, UploadRuns;
    CheckAsks(cfg, Run(cfg, s, [UploadStart(9, k, 1)]), k, {CheckUnderUpload});
    PermittedConcat(cfg, k, {CheckUnderUpload}, s, [UploadStart(9, k, 1)], Arrival(0, k, false) + Asking(0, true));
  }

  lemma CheckUnderUploadEnds(cfg: Config, s: State, k: Key)
    requires cfg.allowed(k) && Fresh(s, k)
    ensures var es := [UploadStart(9, k, 1)] + (Arrival(0, k, false) + Asking(0, true))
        + [UploadPut(9), UploadSet(9, true)];
      Permitted(cfg, k, {CheckUnderUpload}, s, es) && Outdated(Run(cfg, s, es), k)
  {
    var asked := [UploadStart(9, k, 1)] + (Arrival(0, k, false) + Asking(0, true));
    var ending := [UploadPut(9), UploadSet(9, true)];
    TidyIsPermitted(cfg, k, {CheckUnderUpload}, Run(cfg, s, asked), ending);
    hide Run, Permitted, Arrival, Asking, Step, Tidy;
    CheckUnderUploadAsks(cfg, s, k);
    PermittedConcat(cfg, k, {CheckUnderUpload}, s, asked, ending);
    UploadEndsUnderCheck(cfg, Run(cfg, s, asked), k);
  }

  lemma CheckUnderUploadSpoils(cfg: Config, s: State, k: Key)
    requires cfg.allowed(k) && Fresh(s, k)
    ensures var es := OverlapRun(CheckUnderUpload, k);
      Permitted(cfg, k, {CheckUnderUpload}, s, es) && Spoiled(Run(cfg, s, es), k)
  {
    var last := [WriteBack(0, true)] + Leaving(0);
    var ended := [UploadStart(9, k, 1)] + (Arrival(0, k, false) + Asking(0, true)) + [UploadPut(9), UploadSet(9, true)];
    assert OverlapRun(CheckUnderUpload, k) == ended + last;
    hide *;
    CheckUnderUploadEnds(cfg, s, k);
    OutdatedSpoils(cfg, Run(cfg, s, ended), k, {CheckUnderUpload});
    PermittedConcat(cfg, k, {CheckUnderUpload}, s, ended, last);
  }

  function OverlapRun(overlap: Overlap, k: Key): seq<Event> {
    match overlap
    case RecordFails => [UploadStart(9, k, 1), UploadPut(9)] + [UploadSet(9, false)]
    case DiesUnrecorded => [UploadStart(9, k, 1), UploadPut(9)] + [UploadFail(9)]
    case UploadUnderUpload =>
      [UploadStart(8, k, 5)] + [UploadStart(9, k, 7)] + [UploadPut(8), UploadPut(9)]
        + [UploadSet(9, true), UploadSet(8, true)]
    case UploadUnderCheck =>
      Arrival(0, k, false) + Asking(0, true) + Uploaded(k, 1) + ([WriteBack(0, true)] + Leaving(0))
    case CheckUnderUpload =>
      [UploadStart(9, k, 1)] + (Arrival(0, k, false) + Asking(0, true)) + [UploadPut(9), UploadSet(9, true)]
        + ([WriteBack(0, true)] + Leaving(0))
  }

  /** Each kind of overlap alone leaves a wrong entry behind with nothing in progress. */
  lemma OneOverlapIsEnough(cfg: Config, s: State, k: Key, overlap: Overlap)
    requires cfg.allowed(k) && Fresh(s, k)
    ensures var es := OverlapRun(overlap, k); Permitted(cfg, k, {overlap}, s, es) && Spoiled(Run(cfg, s, es), k)
  {
    hide Run, Permitted, Spoiled, Fresh;
    match overlap
    case RecordFails => UnrecordedSpoils(cfg, s, k, UploadSet(9, false));
    case DiesUnrecorded => UnrecordedSpoils(cfg, s, k, UploadFail(9));
    case UploadUnderUpload => TwoUploadsSpoil(cfg, s, k);
    case UploadUnderCheck => UploadUnderCheckSpoils(cfg, s, k);
    case CheckUnderUpload => CheckUnderUploadSpoils(cfg, s, k);
  }

  lemma {:induction false} MorePermitted(cfg: Config, k: Key, few: set<Overlap>, many: set<Overlap>,
                                         s: State, es: seq<Event>)
    requires few <= many && Permitted(cfg, k, few, s, es)
    ensures Permitted(cfg, k, many, s, es)
  {
    if es != [] {
      hide Step, Overlaps;
      MorePermitted(cfg, k, few, many, s, es[..|es| - 1]);
    }
  }

  lemma AnyOverlapSpoils(cfg: Config, redis: map<Key, FileInfo>, backend: map<Key, nat>, overlaps: set<Overlap>, k: Key)
    returns (es: seq<Event>)
    requires cfg.allowed(k) && cfg.permits > 0 && overlaps != {}
    ensures Permitted(cfg, k, overlaps, Start(cfg, redis, backend), es)
    ensures Spoiled(Run(cfg, Start(cfg, redis, backend), es), k)
  {
    hide Run, Permitted, Spoiled, Fresh, OverlapRun, Uploaded;
    var s := Start(cfg, redis, backend);
    var overlap :| overlap in overlaps;
    ReachFresh(cfg, redis, backend, overlaps, k);
    var recorded := Run(cfg, s, Uploaded(k, 0));
    OneOverlapIsEnough(cfg, recorded, k, overlap);
    MorePermitted(cfg, k, {overlap}, overlaps, recorded, OverlapRun(overlap, k));
    es := Uploaded(k, 0) + OverlapRun(overlap, k);
    PermittedConcat(cfg, k, overlaps, s, Uploaded(k, 0), OverlapRun(overlap, k));
  }

  lemma SpoiledIsNotSettled(s: State, k: Key)
    requires Spoiled(s, k)
    ensures !Settled(s, k)
  {
    assert !UploadRuns(s, k);
  }

  lemma WrongFromTheStart(cfg: Config, redis: map<Key, FileInfo>, backend: map<Key, nat>, k: Key)
    returns (es: seq<Event>)
    requires k in redis && redis[k] != Look(backend, k)
    ensures Permitted(cfg, k, {}, Start(cfg, redis, backend), es)
    ensures !Settled(Run(cfg, Start(cfg, redis, backend), es), k)
  {
    es := [];
    assert !UploadRuns(Start(cfg, redis, backend), k);
  }

  /** Exactly when the cache agrees with the backend in all runs, whatever happens to other keys
      and whatever fails: the entry is right at the start and no overlap is permitted. */
  lemma CacheAgreesIff(cfg: Config, redis: map<Key, FileInfo>, backend: map<Key, nat>, overlaps: set<Overlap>, k: Key)
    requires cfg.allowed(k) && cfg.permits > 0
    ensures (forall es :: Permitted(cfg, k, overlaps, Start(cfg, redis, backend), es) ==>
        Settled(Run(cfg, Start(cfg, redis, backend), es), k)) <==>
      overlaps == {} && (k in redis ==> redis[k] == Look(backend, k))
  {
    hide Run, Permitted, Settled, Start, Spoiled;
    if overlaps != {} {
      var es := AnyOverlapSpoils(cfg, redis, backend, overlaps, k);
      SpoiledIsNotSettled(Run(cfg, Start(cfg, redis, backend), es), k);
    } else if k in redis && redis[k] != Look(backend, k) {
      var es := WrongFromTheStart(cfg, redis, backend, k);
    } else {
      forall es | Permitted(cfg, k, overlaps, Start(cfg, redis, backend), es)
        ensures Settled(Run(cfg, Start(cfg, redis, backend), es), k)
      {
        CacheAgreesWithBackend(cfg, redis, backend, es, k);
      }
    }
  }
}
