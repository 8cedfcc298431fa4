/** FileSyncHandler: the retry loop around an upload, the cleanup after a deletion, and one run
    of a sync task from start to end. */
module FileSync {
  import opened Common
  import opened Paths
  import opened Upload
  import opened Sync
  import SftpBackend
  import Debounce
  import Cache
  import CacheService

  // ---- Errors ---------------------------------------------------------------------------

  datatype ErrorType = NotFound | AccessDenied | NetworkError | InternalError | InvalidInput

  /** Plain stands for any error that is not a StorageError, as all of the SFTP backend's are. */
  datatype Failure = Plain | StorageError(kind: ErrorType)

  predicate IsRetryable(f: Failure) {
    f.StorageError? && (f.kind.NetworkError? || f.kind.InternalError?)
  }

  // ---- The retry loop -------------------------------------------------------------------

  datatype Attempt = Uploaded | Refused(failure: Failure)

  datatype Verdict = Succeeded | GaveUp(failure: Failure) | Cancelled | Exhausted(failure: Failure)

  function Pow2(n: nat): nat {
    if n == 0 then 1 else 2 * Pow2(n - 1)
  }

  /** The n-th wait, and the first n waits together, of a delay that doubles. */
  function Wait(delay: nat, n: nat): nat {
    if n == 0 then delay else Wait(delay, n - 1) * 2
  }

  function Waits(delay: nat, n: nat): nat {
    if n == 0 then 0 else Waits(delay, n - 1) + Wait(delay, n - 1)
  }

  lemma {:induction false} WaitsClosedForm(delay: nat, n: nat)
    ensures Wait(delay, n) == delay * Pow2(n) && Waits(delay, n) == delay * (Pow2(n) - 1)
  {
    if n > 0 { WaitsClosedForm(delay, n - 1); }
  }

  lemma {:induction false} WaitsGrow(delay: nat, m: nat, n: nat)
    requires m <= n
    ensures Waits(delay, m) <= Waits(delay, n)
  {
    if m < n { WaitsGrow(delay, m, n - 1); }
  }

  lemma FiveDoublings(delay: nat)
    ensures Waits(delay, 5) == delay * 31
  {
    WaitsClosedForm(delay, 5);
    assert Pow2(5) == 32 by { assert Pow2(2) == 4 && Pow2(4) == 16; }
  }

  /** The backoff before attempt a is delay * (2^(a-1) - 1), at most 930 seconds with at most five
      retries and a first delay of at most 30 seconds. */
  lemma BackoffIsBounded(delay: nat, retryCount: nat, attempts: nat)
    requires 1 <= attempts <= retryCount + 1
    ensures Waits(delay, attempts - 1) == delay * (Pow2(attempts - 1) - 1)
    ensures retryCount <= 5 && delay <= 30 ==> Waits(delay, attempts - 1) <= 930
  {
    WaitsClosedForm(delay, attempts - 1);
    hide Waits, Pow2, Wait;
    if retryCount <= 5 && delay <= 30 {
      WaitsGrow(delay, attempts - 1, 5);
      FiveDoublings(delay);
    }
  }

  predicate Retried(a: Attempt) {
    a.Refused? && IsRetryable(a.failure)
  }

  /** uploadFile. outcome(i) is what attempt i meets, and cancelled(i) whether the context ends
      during the wait before it; waited is the backoff spent, in the unit of delay. */
  method UploadFile(retryCount: nat, delay: nat, outcome: nat -> Attempt, cancelled: nat -> bool)
    returns (v: Verdict, attempts: nat, waited: nat)
    ensures 1 <= attempts <= retryCount + 1
    ensures forall i :: 0 <= i < attempts - 1 ==> Retried(outcome(i))
    ensures forall i :: 0 <= i < attempts - 1 ==>
      outcome(i) == Refused(StorageError(NetworkError)) || outcome(i) == Refused(StorageError(InternalError))
    ensures forall i :: 1 <= i < attempts ==> !cancelled(i)
    ensures match v
      case Succeeded => outcome(attempts - 1).Uploaded?
      case GaveUp(f) => outcome(attempts - 1) == Refused(f) && !IsRetryable(f)
      case Exhausted(f) => attempts == retryCount + 1 && outcome(attempts - 1) == Refused(f) && IsRetryable(f)
      case Cancelled => attempts <= retryCount && cancelled(attempts) && Retried(outcome(attempts - 1))
    ensures v.GaveUp? ==> v.failure != StorageError(NetworkError) && v.failure != StorageError(InternalError)
    ensures v.Exhausted? ==> v.failure == StorageError(NetworkError) || v.failure == StorageError(InternalError)
    ensures waited == Waits(delay, attempts - 1)
    ensures !IsRetryable(if outcome(0).Refused? then outcome(0).failure else Plain) ==> attempts == 1
  {
    var retryDelay := delay;
    attempts, waited := 0, 0;
    for attempt := 0 to retryCount + 1
      invariant attempts == attempt
      invariant forall i :: 0 <= i < attempt ==> Retried(outcome(i))
      invariant forall i :: 1 <= i < attempt ==> !cancelled(i)
      invariant retryDelay == Wait(delay, if attempt == 0 then 0 else attempt - 1)
      invariant waited == Waits(delay, if attempt == 0 then 0 else attempt - 1)
    {
      if attempt > 0 {
        if cancelled(attempt) { return Cancelled, attempts, waited; }
        waited := waited + retryDelay;
        retryDelay := retryDelay * 2;
      }
      attempts := attempts + 1;
      if outcome(attempt).Uploaded? { return Succeeded, attempts, waited; }
      if !IsRetryable(outcome(attempt).failure) { return GaveUp(outcome(attempt).failure), attempts, waited; }
    }
    v := Exhausted(outcome(retryCount).failure);
  }

  // ---- Cleanup of empty directories --------------------------------------------------------

  /** A directory or file, by the names from the root down; the root is []. */
  type Local = seq<string>

  function Parent(p: Local): Local {
    if p == [] then [] else p[..|p| - 1]
  }

  predicate HasEntries(dirs: set<Local>, files: set<Local>, d: Local) {
    (exists x :: x in dirs && x != [] && Parent(x) == d) || (exists f :: f in files && f != [] && Parent(f) == d)
  }

  /** Everything sits in a directory that is there. */
  predicate Rooted(dirs: set<Local>, files: set<Local>) {
    && (forall x :: x in dirs && x != [] ==> Parent(x) in dirs)
    && (forall f :: f in files ==> f != [] && Parent(f) in dirs && f !in dirs)
  }

  /** The ancestors d[..k], ..., d[..|d|] of a directory. */
  function Chain(d: Local, k: nat): set<Local> {
    set j | k <= j <= |d| :: d[..j]
  }

  /** What stops the climb at a directory. */
  predicate Stops(dirs: set<Local>, files: set<Local>, unreadable: set<Local>, unremovable: set<Local>, d: Local) {
    d !in dirs || d in unreadable || HasEntries(dirs, files, d) || d in unremovable
  }

  class LocalTree {
    var dirs: set<Local>
    var files: set<Local>
    /** Where ReadDir and Remove fail. */
    const unreadable: set<Local>
    const unremovable: set<Local>

    constructor (dirs: set<Local>, files: set<Local>, unreadable: set<Local>, unremovable: set<Local>)
      ensures this.dirs == dirs && this.files == files
      ensures this.unreadable == unreadable && this.unremovable == unremovable
    {
      this.dirs, this.files, this.unreadable, this.unremovable := dirs, files, unreadable, unremovable;
    }

    /** Removes d and its ancestors from d upwards, as far as they are empty, and stops at the
        first that is not there, not readable, not empty or not removable. k is the length of
        the shortest path removed, or |d| + 1. Each recursion has one directory less. */
    method CleanupEmptyDirectories(d: Local) returns (ghost k: nat)
      requires Rooted(dirs, files)
      modifies this`dirs
      ensures k <= |d| + 1 && dirs == old(dirs) - Chain(d, k) && Chain(d, k) <= old(dirs)
      ensures Rooted(dirs, files)
      ensures k > 0 ==> Stops(dirs, files, unreadable, unremovable, d[..k - 1])
      ensures forall p, f :: p in Chain(d, k) && f in files ==> !(p <= f)
      ensures dirs == old(dirs) - (set j | k <= j <= |d| :: d[..j])
      ensures k > 0 ==>
        || d[..k - 1] !in dirs || d[..k - 1] in unreadable || d[..k - 1] in unremovable
        || (exists x :: x in dirs && x != [] && x[..|x| - 1] == d[..k - 1])
        || (exists x :: x in files && x != [] && x[..|x| - 1] == d[..k - 1])
      decreases |dirs|
    {
      hide Rooted, HasEntries, Chain;
      k := |d| + 1;
      EmptyChain(d);
      SpelledChain(d, k);
      if d !in dirs || d in unreadable { return; }
      if !HasEntries(dirs, files, d) && d !in unremovable {
        ghost var before := dirs;
        NothingBelow(dirs, files, d);
        StaysRooted(dirs, files, d);
        dirs := dirs - {d};
        assert |before| == |dirs| + 1;
        k := CleanupEmptyDirectories(Parent(d));
        k := Climbed(d, k, before, dirs, files);
        SpelledChain(d, k);
        if k > 0 { StoppedBy(dirs, files, unreadable, unremovable, d[..k - 1]); }
      } else {
        SpelledChain(d, k);
        StoppedBy(dirs, files, unreadable, unremovable, d);
      }
    }

    /** deleteFile: the file goes, then the directories it leaves empty. */
    method DeleteFile(f: Local, removable: bool) returns (ok: bool, ghost k: nat)
      requires Rooted(dirs, files)
      modifies this
      ensures ok <==> f in old(files) && removable
      ensures !ok ==> dirs == old(dirs) && files == old(files)
      ensures ok ==> files == old(files) - {f} && dirs <= old(dirs) && Rooted(dirs, files)
      ensures forall d, g :: d in old(dirs) - dirs && g in files ==> !(d <= g)
      // The directories of the file go from the innermost on, up to the first obstacle.
      ensures ok ==> f != [] && k <= |f| && dirs == old(dirs) - (set j | k <= j < |f| :: f[..j])
      ensures ok && k > 0 ==>
        || f[..k - 1] !in dirs || f[..k - 1] in unreadable || f[..k - 1] in unremovable
        || (exists x :: x in dirs && x != [] && x[..|x| - 1] == f[..k - 1])
        || (exists x :: x in files && x != [] && x[..|x| - 1] == f[..k - 1])
    {
      hide Chain, Stops, HasEntries;
      k := 0;
      ok := f in files && removable;
      if ok {
        assert forall j :: 0 <= j < |f| ==> Parent(f)[..j] == f[..j];
        files := files - {f};
        k := CleanupEmptyDirectories(Parent(f));
        DirectoriesOf(f, k);
      }
    }
  }

  lemma SpelledChain(d: Local, k: nat)
    ensures Chain(d, k) == set j | k <= j <= |d| :: d[..j]
  {
  }

  lemma DirectoriesOf(f: Local, k: nat)
    requires f != []
    ensures (set j | k <= j <= |Parent(f)| :: Parent(f)[..j]) == set j | k <= j < |f| :: f[..j]
  {
    assert forall j :: 0 <= j < |f| ==> Parent(f)[..j] == f[..j];
  }

  lemma StoppedBy(dirs: set<Local>, files: set<Local>, unreadable: set<Local>, unremovable: set<Local>, d: Local)
    requires Stops(dirs, files, unreadable, unremovable, d)
    ensures
      || d !in dirs || d in unreadable || d in unremovable
      || (exists x :: x in dirs && x != [] && x[..|x| - 1] == d)
      || (exists x :: x in files && x != [] && x[..|x| - 1] == d)
  {
    if x :| x in dirs && x != [] && Parent(x) == d { assert x[..|x| - 1] == d; }
    if x :| x in files && x != [] && Parent(x) == d { assert x[..|x| - 1] == d; }
  }

  lemma EmptyChain(d: Local)
    ensures Chain(d, |d| + 1) == {} && d[..|d|] == d
  {
  }

  lemma RootChain(k: nat, dirs: set<Local>)
    requires k <= 1
    ensures Chain([], 0) == {[]} && (k == 0 ==> [] in Chain([], k)) && (k == 1 ==> Chain([], k) == {})
  {
    var root: Local := [];
    assert root[..0] == [];
  }

  lemma StaysRooted(dirs: set<Local>, files: set<Local>, d: Local)
    requires Rooted(dirs, files) && !HasEntries(dirs, files, d)
    ensures Rooted(dirs - {d}, files)
  {
  }

  lemma ChainOfParent(d: Local, k: nat)
    requires d != [] && k <= |d|
    ensures Chain(d, k) == Chain(Parent(d), k) + {d}
    ensures k > 0 ==> d[..k - 1] == Parent(d)[..k - 1]
  {
    assert forall j :: 0 <= j < |d| ==> Parent(d)[..j] == d[..j];
    assert d[..|d|] == d;
  }

  /** A directory removed, and then the chain from its parent. */
  lemma Climbed(d: Local, j: nat, before: set<Local>, dirs: set<Local>, files: set<Local>) returns (k: nat)
    requires d in before && j <= |Parent(d)| + 1 && Chain(Parent(d), j) <= before - {d}
    requires dirs == before - {d} - Chain(Parent(d), j)
    requires forall f :: f in files ==> !(d <= f)
    requires forall p, f :: p in Chain(Parent(d), j) && f in files ==> !(p <= f)
    ensures k <= |d| && dirs == before - Chain(d, k) && Chain(d, k) <= before
    ensures k > 0 ==> 0 < j && d[..k - 1] == Parent(d)[..j - 1]
    ensures forall p, f :: p in Chain(d, k) && f in files ==> !(p <= f)
  {
    hide Chain;
    if d == [] {
      RootChain(j, before - {d});
      k := 0;
    } else {
      ChainOfParent(d, j);
      k := j;
    }
  }

  /** An entry-less directory has no file anywhere below it. */
  lemma NothingBelow(dirs: set<Local>, files: set<Local>, d: Local)
    requires Rooted(dirs, files) && d in dirs && !HasEntries(dirs, files, d)
    ensures forall f :: f in files ==> !(d <= f)
  {
    forall f | f in files ensures !(d <= f) {
      if d <= f { ClimbsToEntry(dirs, files, f, d); }
    }
  }

  lemma {:induction false} ClimbsToEntry(dirs: set<Local>, files: set<Local>, x: Local, d: Local)
    requires Rooted(dirs, files) && (x in dirs || x in files) && d <= x && d != x
    ensures HasEntries(dirs, files, d)
  {
    if Parent(x) != d { ClimbsToEntry(dirs, files, Parent(x), d); }
  }

  // ---- One run of a sync task ------------------------------------------------------------

  lemma SameOutside(r: Remote, r': Remote, x: Path)
    requires r - {x} == r' - {x}
    ensures forall p :: p != x ==> At(r, p) == At(r', p)
  {
    forall p | p != x ensures At(r, p) == At(r', p) {
      assert p in r <==> p in r - {x};
      assert p in r' <==> p in r' - {x};
      if p in r { assert (r - {x})[p] == r[p] && (r' - {x})[p] == r'[p]; }
    }
  }

  lemma SameMeans(r: Remote, r': Remote, p: Path)
    requires At(r, p) == At(r', p)
    ensures (p in r <==> p in r') && (p in r' ==> r[p] == r'[p])
  {
  }

  /** What the backend says of a target. */
  datatype Metadata = Present(size: nat) | Missing | Unknown(failure: Failure)

  /** How the retry loop is set up, how it would classify the failure of each attempt, and in
      which waits the context ends. */
  datatype Retry = Retry(count: nat, kind: nat -> Failure, cancelled: nat -> bool)

  /** After an upload: whether the source can still be measured, and whether Redis answers. */
  datatype After = After(measured: bool, redis: bool)

  /** Waiting: the call has not got past its lock. Done: uploaded or skipped. */
  datatype SyncResult = Waiting | Failed | Done

  class FileSyncHandler {
    const backend: SftpBackend.SFTPBackend
    const debouncer: Debounce.Debouncer
    /** The cache, if there is one, and the spelling of a target as its key. */
    const cache: CacheService.FileExistenceCache?
    const spell: Path -> Cache.Key
    /** Whether the backend reports a missing object as an error. */
    const absenceIsError: bool
    var local: map<File, Bytes>

    constructor (backend: SftpBackend.SFTPBackend, debouncer: Debounce.Debouncer,
                 cache: CacheService.FileExistenceCache?, spell: Path -> Cache.Key, absenceIsError: bool,
                 local: map<File, Bytes>)
      ensures this.backend == backend && this.debouncer == debouncer && this.cache == cache && this.spell == spell
      ensures this.absenceIsError == absenceIsError && this.local == local
    {
      this.backend, this.debouncer, this.cache, this.spell := backend, debouncer, cache, spell;
      this.absenceIsError, this.local := absenceIsError, local;
    }

    /** uploadFileOnce: one upload, and the cache told of its success, if it can be. */
    method UploadOnce(id: JobId, key: Path, source: Option<Bytes>, chunk: nat, after: After)
      returns (r: SftpBackend.UploadResult)
      requires chunk > 0 && backend.Valid() && id !in backend.machine.jobs
      requires source.Some? ==> Put(key, source.value) in backend.cfg.work
      modifies backend`remote, backend`held, backend`link, backend`machine, backend`events, cache
      ensures backend.Valid() && backend.held == old(backend.held) && backend.machine.jobs == old(backend.machine.jobs)
      ensures r.Waiting? <==> backend.cfg.stripe(key) in backend.held
      ensures r.Waiting? ==> backend.remote == old(backend.remote) && backend.link == old(backend.link)
      ensures r.Uploaded? ==> source.Some? && var w := Put(key, source.value);
        backend.remote == (old(backend.remote) - {backend.cfg.temp(w)})[backend.cfg.target(w) := w.content]
      ensures r.Failed? && source.None? ==> backend.remote == old(backend.remote)
      ensures r.Failed? && source.Some? ==> var temp := backend.cfg.temp(Put(key, source.value));
        backend.remote - {temp} == old(backend.remote) - {temp}
      ensures source.Some? && old(backend.link) > |source.value| + 2 ==> !r.Failed?
      // The cache has the size of what was uploaded if it can be told, and otherwise what it had.
      ensures cache != null && r.Uploaded? && after.measured ==>
        after.redis && cache.hasClient && cache.cfg.allowed(spell(key)) ==>
        cache.redis == old(cache.redis)[spell(key) := Cache.FileInfo(true, |source.value|)]
      ensures cache != null ==>
        (r.Uploaded? && after.measured && after.redis && cache.hasClient && cache.cfg.allowed(spell(key)))
        || cache.redis == old(cache.redis)
      ensures cache != null ==>
        (cache.backend, cache.locks, cache.free) == old((cache.backend, cache.locks, cache.free))
    {
      r := backend.UploadFile(id, key, source, chunk);
      if r.Uploaded? && cache != null && after.measured {
        var ok := cache.SetFileExists(spell(key), |source.value|, CacheService.Services(after.redis, true));
      }
    }

    /** The backend's CheckFileExists, which cleans the key. */
    method CheckFileExists(target: Path) returns (m: Metadata)
      modifies backend`link
      ensures old(backend.link) == 0 ==> m == Unknown(Plain) && backend.link == 0
      ensures old(backend.link) > 0 ==>
        && backend.link == old(backend.link) - 1
        && m == if target in backend.remote then Present(|backend.remote[target]|)
                else if absenceIsError then Unknown(StorageError(NotFound)) else Missing
    {
      var ok := backend.UseLink();
      if !ok { return Unknown(Plain); }
      if target in backend.remote { return Present(|backend.remote[target]|); }
      m := if absenceIsError then Unknown(StorageError(NotFound)) else Missing;
    }

    method ShouldUploadFile(plan: Plan, t: TaskId) returns (ok: bool, upload: bool)
      requires TaskOk(plan, t)
      modifies backend`link
      ensures ok && plan.tasks[t].overwrite ==> upload
      ensures ok && !plan.tasks[t].overwrite ==> plan.tasks[t].file in local && var target := TargetOf(plan, t);
        upload == (target !in backend.remote || |backend.remote[target]| != |local[plan.tasks[t].file]|)
      ensures ok <==> plan.tasks[t].overwrite || (plan.tasks[t].file in local && old(backend.link) > 0)
      ensures ok ==> backend.link >= old(backend.link) - 1
    {
      var task := plan.tasks[t];
      if task.overwrite { return true, true; }
      if task.file !in local { return false, false; }
      var m := CheckFileExists(TargetOf(plan, t));
      match m
      case Unknown(failure) => return failure == StorageError(NotFound), true;
      case Missing => return true, true;
      case Present(size) => return true, size != |local[task.file]|;
    }

    /** uploadFile over this backend: every attempt starts where the last one left off. */
    method UploadRetrying(id: JobId, key: Path, source: Option<Bytes>, chunk: nat, retry: Retry, after: After)
      returns (r: SyncResult)
      requires chunk > 0 && backend.Valid() && id !in backend.machine.jobs
      requires source.Some? ==> Put(key, source.value) in backend.cfg.work
      modifies backend`remote, backend`held, backend`link, backend`machine, backend`events, cache
      ensures backend.Valid() && backend.held == old(backend.held) && backend.machine.jobs == old(backend.machine.jobs)
      ensures r.Waiting? <==> backend.cfg.stripe(key) in backend.held
      ensures cache != null && r.Done? && after.measured ==>
        after.redis && cache.hasClient && cache.cfg.allowed(spell(key)) ==>
        source.Some? && cache.redis == old(cache.redis)[spell(key) := Cache.FileInfo(true, |source.value|)]
      ensures cache != null ==>
        (r.Done? && after.measured && after.redis && cache.hasClient && cache.cfg.allowed(spell(key)))
        || cache.redis == old(cache.redis)
      ensures cache != null ==>
        (cache.backend, cache.locks, cache.free) == old((cache.backend, cache.locks, cache.free))
      ensures r.Done? ==> source.Some? && var temp := backend.cfg.temp(Put(key, source.value));
        backend.remote == (old(backend.remote) - {temp})[backend.cfg.target(Put(key, source.value)) := source.value]
      ensures !r.Done? && source.None? ==> backend.remote == old(backend.remote)
      ensures !r.Done? && source.Some? ==> var temp := backend.cfg.temp(Put(key, source.value));
        backend.remote - {temp} == old(backend.remote) - {temp}
      ensures source.Some? && old(backend.link) > |source.value| + 2 ==> !r.Failed?
    {
      r := Failed;
      for attempt := 0 to retry.count + 1
        invariant backend.Valid() && backend.held == old(backend.held)
        invariant backend.machine.jobs == old(backend.machine.jobs)
        invariant source.None? ==> backend.remote == old(backend.remote)
        invariant source.Some? ==> var temp := backend.cfg.temp(Put(key, source.value));
          backend.remote - {temp} == old(backend.remote) - {temp}
        invariant attempt > 0 ==> backend.cfg.stripe(key) !in backend.held
        invariant cache != null ==> cache.View() == old(cache.View())
        invariant attempt == 0 ==> backend.link == old(backend.link)
        invariant attempt > 0 ==> source.None? || old(backend.link) <= |source.value| + 2
      {
        if attempt > 0 && retry.cancelled(attempt) { return Failed; }
        var result := UploadOnce(id, key, source, chunk, after);
        if result.Waiting? { return Waiting; }
        if result.Uploaded? { return Done; }
        if !IsRetryable(retry.kind(attempt)) { return Failed; }
      }
    }

    /** The first half of uploadSingleFileWithOptions: skip the target or upload to it. */
    method SkipOrUpload(id: JobId, plan: Plan, t: TaskId, chunk: nat, retry: Retry, after: After)
      returns (r: SyncResult)
      requires TaskOk(plan, t) && PutOf(plan, t) in plan.cfg.work && plan.cfg == backend.cfg && chunk > 0
      requires plan.tasks[t].file in local ==> local[plan.tasks[t].file] == plan.source[plan.tasks[t].file]
      requires backend.Valid() && id !in backend.machine.jobs
      modifies backend`remote, backend`held, backend`link, backend`machine, backend`events, cache
      // The target: replaced by the source unless it was there with its size, and only on success.
      ensures var p, c, was := TargetOf(plan, t), PutOf(plan, t).content, old(backend.remote);
        var uploads := plan.tasks[t].overwrite || p !in was || |was[p]| != |c|;
        && (r.Done? && uploads ==> p in backend.remote && backend.remote[p] == c)
        && (!(r.Done? && uploads) ==> (p in backend.remote <==> p in was) && (p in was ==> backend.remote[p] == was[p]))
      // The cache: told of an upload if it can be, and otherwise left alone.
      ensures var p, c, was := TargetOf(plan, t), PutOf(plan, t).content, old(backend.remote);
        var uploads := plan.tasks[t].overwrite || p !in was || |was[p]| != |c|;
        cache != null ==>
        var key := spell(plan.tasks[t].target);
        var told := r.Done? && uploads && after.measured && after.redis && cache.hasClient && cache.cfg.allowed(key);
        && cache.redis == (if told then old(cache.redis)[key := Cache.FileInfo(true, |c|)] else old(cache.redis))
        && (cache.backend, cache.locks, cache.free) == old((cache.backend, cache.locks, cache.free))
      ensures backend.Valid() && backend.held == old(backend.held) && backend.machine.jobs == old(backend.machine.jobs)
      ensures r.Done? ==> At(backend.remote, TargetOf(plan, t)) == Outcome(plan, old(backend.remote), t)
      ensures forall p :: p !in {plan.cfg.temp(PutOf(plan, t)), TargetOf(plan, t)} ==>
        At(backend.remote, p) == At(old(backend.remote), p)
      ensures r.Waiting? ==> plan.cfg.stripe(plan.tasks[t].target) in backend.held
      ensures plan.tasks[t].file in local && old(backend.link) > |PutOf(plan, t).content| + 3 ==> !r.Failed?
    {
      var task := plan.tasks[t];
      var temp, target := plan.cfg.temp(PutOf(plan, t)), TargetOf(plan, t);
      assert temp != target;
      hide Separated, Upload.Inv, Upload.Run;
      ghost var before := backend.remote;
      var ok, upload := ShouldUploadFile(plan, t);
      if !ok { return Failed; }
      if !upload { return Done; }
      var source := if task.file in local then Some(local[task.file]) else None;
      r := UploadRetrying(id, task.target, source, chunk, retry, after);
      if r.Done? {
        assert (before - {temp})[target := PutOf(plan, t).content] - {target} - {temp} == before - {target} - {temp};
      } else {
        assert backend.remote - {temp} == before - {temp};
        SameOutside(backend.remote, before, temp);
        SameMeans(backend.remote, before, target);
      }
    }

    /** uploadSingleFileWithOptions, undisturbed. A success leaves at the target the outcome that
        the sync machine settles on and deletes the file if asked to; anything else changes no
        file but the temporary one; and with the source there, the lock free and the connection
        lasting, it is a success. */
    method UploadSingleFile(id: JobId, plan: Plan, t: TaskId, chunk: nat, retry: Retry, after: After, removable: bool)
      returns (r: SyncResult)
      requires TaskOk(plan, t) && PutOf(plan, t) in plan.cfg.work && plan.cfg == backend.cfg && chunk > 0
      requires plan.tasks[t].file in local ==> local[plan.tasks[t].file] == plan.source[plan.tasks[t].file]
      requires backend.Valid() && id !in backend.machine.jobs
      modifies this`local, backend`remote, backend`held, backend`link, backend`machine, backend`events, cache
      // The target: replaced by the source unless it was there with its size, and only on success.
      ensures var p, c, was := TargetOf(plan, t), PutOf(plan, t).content, old(backend.remote);
        var uploads := plan.tasks[t].overwrite || p !in was || |was[p]| != |c|;
        && (r.Done? && uploads ==> p in backend.remote && backend.remote[p] == c)
        && (!(r.Done? && uploads) ==> (p in backend.remote <==> p in was) && (p in was ==> backend.remote[p] == was[p]))
      // The cache: told of an upload if it can be, and otherwise left alone.
      ensures var p, c, was := TargetOf(plan, t), PutOf(plan, t).content, old(backend.remote);
        var uploads := plan.tasks[t].overwrite || p !in was || |was[p]| != |c|;
        cache != null ==>
        var key := spell(plan.tasks[t].target);
        var told := r.Done? && uploads && after.measured && after.redis && cache.hasClient && cache.cfg.allowed(key);
        && cache.redis == (if told then old(cache.redis)[key := Cache.FileInfo(true, |c|)] else old(cache.redis))
        && (cache.backend, cache.locks, cache.free) == old((cache.backend, cache.locks, cache.free))
      ensures backend.Valid() && backend.held == old(backend.held) && backend.machine.jobs == old(backend.machine.jobs)
      ensures r.Done? ==> At(backend.remote, TargetOf(plan, t)) == Outcome(plan, old(backend.remote), t)
      ensures var deleted := r.Done? && plan.tasks[t].deleteAfter && removable;
        local == if deleted then old(local) - {plan.tasks[t].file} else old(local)
      ensures forall p :: p !in {plan.cfg.temp(PutOf(plan, t)), TargetOf(plan, t)} ==>
        At(backend.remote, p) == At(old(backend.remote), p)
      ensures !r.Done? ==> At(backend.remote, TargetOf(plan, t)) == At(old(backend.remote), TargetOf(plan, t))
      ensures r.Waiting? ==> plan.cfg.stripe(plan.tasks[t].target) in backend.held
      ensures plan.tasks[t].file in old(local) && old(backend.link) > |PutOf(plan, t).content| + 3 ==> !r.Failed?
    {
      r := SkipOrUpload(id, plan, t, chunk, retry, after);
      if r.Done? && plan.tasks[t].deleteAfter && removable { local := local - {plan.tasks[t].file}; }
    }

    /** HandleSingleFile: every success triggers the debouncer, a skipped file's as well, and what
        becomes of the trigger does not matter to the task. */
    method HandleSingleFile(id: JobId, plan: Plan, t: TaskId, chunk: nat, retry: Retry, after: After, removable: bool,
                            now: nat, redis: bool, enqueue: bool) returns (r: SyncResult)
      requires TaskOk(plan, t) && PutOf(plan, t) in plan.cfg.work && plan.cfg == backend.cfg && chunk > 0
      requires plan.tasks[t].file in local ==> local[plan.tasks[t].file] == plan.source[plan.tasks[t].file]
      requires backend.Valid() && id !in backend.machine.jobs
      modifies this`local, backend`remote, backend`held, backend`link, backend`machine, backend`events, cache, debouncer
      ensures backend.Valid() && backend.held == old(backend.held) && backend.machine.jobs == old(backend.machine.jobs)
      // The target: replaced by the source unless it was there with its size, and only on success.
      ensures var p, c, was := TargetOf(plan, t), PutOf(plan, t).content, old(backend.remote);
        var uploads := plan.tasks[t].overwrite || p !in was || |was[p]| != |c|;
        && (r.Done? && uploads ==> p in backend.remote && backend.remote[p] == c)
        && (!(r.Done? && uploads) ==> (p in backend.remote <==> p in was) && (p in was ==> backend.remote[p] == was[p]))
      // The cache: told of an upload if it can be, and otherwise left alone.
      ensures var p, c, was := TargetOf(plan, t), PutOf(plan, t).content, old(backend.remote);
        var uploads := plan.tasks[t].overwrite || p !in was || |was[p]| != |c|;
        cache != null ==>
        var key := spell(plan.tasks[t].target);
        var told := r.Done? && uploads && after.measured && after.redis && cache.hasClient && cache.cfg.allowed(key);
        && cache.redis == (if told then old(cache.redis)[key := Cache.FileInfo(true, |c|)] else old(cache.redis))
        && (cache.backend, cache.locks, cache.free) == old((cache.backend, cache.locks, cache.free))
      // The local files: the task's own goes, if it is to and can, on success and not otherwise.
      ensures var deleted := r.Done? && plan.tasks[t].deleteAfter && removable;
        local == if deleted then old(local) - {plan.tasks[t].file} else old(local)
      ensures forall p :: p !in {plan.cfg.temp(PutOf(plan, t)), TargetOf(plan, t)} ==>
        At(backend.remote, p) == At(old(backend.remote), p)
      ensures r.Done? ==> At(backend.remote, TargetOf(plan, t)) == Outcome(plan, old(backend.remote), t)
      // The debouncer: triggered on success.
      ensures r.Done? ==>
        debouncer.View() == Debounce.Trigger(debouncer.cfg, old(debouncer.View()), now, redis, enqueue)
      ensures !r.Done? || !debouncer.cfg.enabled || !redis ==>
        debouncer.record == old(debouncer.record) && debouncer.queue == old(debouncer.queue)
      ensures r.Done? && debouncer.cfg.enabled && redis ==>
        var state := Debounce.DebounceState(now / 1_000_000_000, true);
        debouncer.record == Some(Debounce.Stored(state, now + debouncer.cfg.ttl))
      ensures r.Done? && debouncer.cfg.enabled && redis ==>
        var was := old(debouncer.record);
        var pending := was.Some? && now < was.value.expiry && was.value.state.pending;
        var task := if !pending && enqueue then multiset{now + debouncer.cfg.minutes * 60_000_000_000} else multiset{};
        debouncer.queue == old(debouncer.queue) + task
      ensures r.Waiting? ==> plan.cfg.stripe(plan.tasks[t].target) in backend.held
      ensures plan.tasks[t].file in old(local) && old(backend.link) > |PutOf(plan, t).content| + 3 ==> !r.Failed?
    {
      r := UploadSingleFile(id, plan, t, chunk, retry, after, removable);
      if r.Done? {
        var triggered := debouncer.TriggerSSH(now, redis, enqueue);
      }
    }
  }
}
