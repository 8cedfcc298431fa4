/** Exactly when sync-then-delete can lose bytes, for tasks with any mix of flags and targets. */
module SyncLoss {
  import opened Paths
  import opened Upload
  import opened Sync
  import opened SyncProgress
  import opened SyncRuns

  // ---- What endangers a task ---------------------------------------------------------------

  /** A task that skips a target of equal size and then deletes a source of other content. */
  predicate SkipsOtherContent(plan: Plan, r: Remote, t: TaskId) {
    && TaskOk(plan, t) && plan.tasks[t].deleteAfter && !plan.tasks[t].overwrite
    && TargetOf(plan, t) in r
    && |r[TargetOf(plan, t)]| == |PutOf(plan, t).content|
    && r[TargetOf(plan, t)] != PutOf(plan, t).content
  }

  /** A deleting task whose bytes no run loses: its target holds nothing of equal size and other
      content at first, and no other content is ever put there. */
  ghost predicate Spared(plan: Plan, r: Remote, t: TaskId)
    requires TaskOk(plan, t)
  {
    !SkipsOtherContent(plan, r, t) && Guarded(plan, r, t)
  }

  lemma SparedKeepsBytes(plan: Plan, r: Remote, s: Sync.State, t: TaskId)
    requires TaskOk(plan, t) && TaskInv(plan, r, s, t) && (plan.tasks[t].deleteAfter ==> Spared(plan, r, t))
    ensures var file := plan.tasks[t].file;
      || (file in s.local && s.local[file] == plan.source[file])
      || At(s.up.remote, TargetOf(plan, t)) == Holds(plan.source[file])
  {
    hide CanPut;
  }

  // ---- Losing runs ----------------------------------------------------------------------------

  /** A worker that has synced deletes its file. */
  lemma Deletes(plan: Plan, s: Sync.State, id: JobId, t: TaskId)
    requires TaskOk(plan, t) && plan.tasks[t].deleteAfter && id in s.workers && s.workers[id] == Worker(t, Synced)
    ensures Sync.Run(plan, s, [Delete(id, true)]) ==
      s.(workers := s.workers[id := Worker(t, Deleted)], local := s.local - {plan.tasks[t].file})
  {
    RunCons(plan, s, Delete(id, true), []);
    assert [Delete(id, true)] + [] == [Delete(id, true)];
    hide Sync.Run;
  }

  /** Worker 0 takes t to where its file is deleted. */
  lemma TaskDeletes(plan: Plan, r: Remote, s: Sync.State, t: TaskId) returns (es: seq<Sync.Event>)
    requires WellPlanned(plan) && Sound(plan, r, s) && NoneUploading(s)
    requires TaskOk(plan, t) && plan.tasks[t].deleteAfter && 0 !in s.workers && plan.tasks[t].file in s.local
    ensures var s' := Sync.Run(plan, s, es);
      && Sound(plan, r, s') && NoneUploading(s') && s'.local == s.local - {plan.tasks[t].file}
      && s'.workers.Keys == s.workers.Keys + {0} && (forall j :: j in s.workers ==> s'.workers[j] == s.workers[j])
      && (CallsForPut(plan, s, t) ==> AtTarget(plan, s', t))
  {
    hide *;
    var synced := TaskSyncs(plan, r, s, 0, t);
    var mid := Sync.Run(plan, s, synced);
    ItsWorker(s, mid, 0);
    Deletes(plan, mid, 0, t);
    RunConcat(plan, s, synced, [Delete(0, true)]);
    SoundRun(plan, r, mid, [Delete(0, true)]);
    es := synced + [Delete(0, true)];
    AfterDelete(plan, s, mid, Sync.Run(plan, s, es), t);
  }

  lemma AfterDelete(plan: Plan, s: Sync.State, mid: Sync.State, s': Sync.State, t: TaskId)
    requires TaskOk(plan, t) && 0 !in s.workers && OthersSame(s, mid, 0) && NoneUploading(s)
    requires s' == mid.(workers := mid.workers[0 := Worker(t, Deleted)], local := mid.local - {plan.tasks[t].file})
    ensures NoneUploading(s') && s'.local == s.local - {plan.tasks[t].file}
    ensures AtTarget(plan, s', t) == AtTarget(plan, mid, t)
    ensures s'.workers.Keys == s.workers.Keys + {0} && (forall j :: j in s.workers ==> s'.workers[j] == s.workers[j])
  {
  }

  /** The bytes of t are gone: another content is at its target and its file is deleted. */
  predicate Lost(plan: Plan, s: Sync.State, t: TaskId)
    requires TaskOk(plan, t)
  {
    plan.tasks[t].file !in s.local && !AtTarget(plan, s, t)
  }

  lemma OneLostIsSomethingLost(plan: Plan, s: Sync.State, t: TaskId)
    requires TaskOk(plan, t) && Lost(plan, s, t)
    ensures !NothingLost(plan, s)
  {
  }

  /** An upload of u lands on the target of the deleted t. */
  lemma LandsOnOther(plan: Plan, r: Remote, s: Sync.State, t: TaskId, u: TaskId) returns (es: seq<Sync.Event>)
    requires WellPlanned(plan) && Sound(plan, r, s) && NoneUploading(s)
    requires SameTarget(plan, t, u) && PutOf(plan, u).content != PutOf(plan, t).content
    requires plan.tasks[t].file !in s.local && plan.tasks[u].file in s.local
    requires 1 in s.workers && s.workers[1] == Worker(u, Wanting)
    ensures Lost(plan, Sync.Run(plan, s, es), t)
  {
    hide Sync.Run, Sound, WellPlanned, NoneUploading;
    WantingIsAble(plan, r, s, 1);
    es := WorkerDelivers(plan, r, s, 1);
    SyncedIsAtTarget(plan, Sync.Run(plan, s, es), 1);
  }

  /** u decides to upload before t has run, and uploads after. */
  lemma OvertakenTaskIsLost(plan: Plan, r: Remote, t: TaskId, u: TaskId) returns (es: seq<Sync.Event>)
    requires WellPlanned(plan) && TempsArePrefixes(plan.cfg, r)
    requires SameTarget(plan, t, u) && PutOf(plan, u).content != PutOf(plan, t).content
    requires plan.tasks[t].deleteAfter && NeedsPut(plan, r, u)
    ensures Lost(plan, Sync.Run(plan, Sync.Start(plan, r), es), t)
  {
    var s := Sync.Start(plan, r);
    hide *;
    StartIsSound(plan, r);
    LosingStart(plan, r, t, u);
    FilesDiffer(plan, t, u);
    TaskDecides(plan, r, s, 1, u);
    var decided := Sync.Run(plan, s, Deciding(plan, 1, u));
    ItsWorker(s, decided, 1);
    OnlyWorker(s, decided, 1);
    var gone := TaskDeletes(plan, r, decided, t);
    var rest := LandsOnOther(plan, r, Sync.Run(plan, decided, gone), t, u);
    RunConcat(plan, s, Deciding(plan, 1, u), gone);
    RunConcat(plan, s, Deciding(plan, 1, u) + gone, rest);
    es := Deciding(plan, 1, u) + gone + rest;
  }

  lemma LosingStart(plan: Plan, r: Remote, t: TaskId, u: TaskId)
    requires SameTarget(plan, t, u) && PutOf(plan, u).content != PutOf(plan, t).content
    ensures var s := Sync.Start(plan, r);
      && TaskOk(plan, t) && TaskOk(plan, u) && t != u && s.workers == map[]
      && plan.tasks[t].file in s.local && plan.tasks[u].file in s.local
      && CallsForPut(plan, s, t) == NeedsPut(plan, r, t) && CallsForPut(plan, s, u) == NeedsPut(plan, r, u)
  {
  }

  lemma OnlyWorker(s: Sync.State, s': Sync.State, id: JobId)
    requires OthersSame(s, s', id) && s.workers == map[]
    ensures s'.workers.Keys == {id}
  {
  }

  lemma OtherSizeCalls(plan: Plan, s: Sync.State, t: TaskId, u: TaskId)
    requires SameTarget(plan, t, u) && |PutOf(plan, u).content| != |PutOf(plan, t).content| && AtTarget(plan, s, t)
    ensures CallsForPut(plan, s, u)
  {
  }

  lemma FilesDiffer(plan: Plan, t: TaskId, u: TaskId)
    requires WellPlanned(plan) && TaskOk(plan, t) && TaskOk(plan, u) && t != u
    ensures plan.tasks[t].file != plan.tasks[u].file
  {
    assert t < u || u < t;
  }

  /** t runs to its end, and u finds a content of other size and uploads. */
  lemma OverwrittenTaskIsLost(plan: Plan, r: Remote, t: TaskId, u: TaskId) returns (es: seq<Sync.Event>)
    requires WellPlanned(plan) && TempsArePrefixes(plan.cfg, r)
    requires SameTarget(plan, t, u) && |PutOf(plan, u).content| != |PutOf(plan, t).content|
    requires plan.tasks[t].deleteAfter && NeedsPut(plan, r, t)
    ensures Lost(plan, Sync.Run(plan, Sync.Start(plan, r), es), t)
  {
    var s := Sync.Start(plan, r);
    hide *;
    StartIsSound(plan, r);
    LosingStart(plan, r, t, u);
    FilesDiffer(plan, t, u);
    var gone := TaskDeletes(plan, r, s, t);
    var deleted := Sync.Run(plan, s, gone);
    OtherSizeCalls(plan, deleted, t, u);
    TaskDecides(plan, r, deleted, 1, u);
    ItsWorker(deleted, Sync.Run(plan, deleted, Deciding(plan, 1, u)), 1);
    var rest := LandsOnOther(plan, r, Sync.Run(plan, deleted, Deciding(plan, 1, u)), t, u);
    RunConcat(plan, s, gone, Deciding(plan, 1, u));
    RunConcat(plan, s, gone + Deciding(plan, 1, u), rest);
    es := gone + Deciding(plan, 1, u) + rest;
  }

  /** t skips a target of equal size and other content. */
  lemma SkippingLosesContent(plan: Plan, r: Remote, t: TaskId) returns (es: seq<Sync.Event>)
    requires WellPlanned(plan) && TempsArePrefixes(plan.cfg, r) && SkipsOtherContent(plan, r, t)
    ensures es == [Deliver(0, t), StatLocal(0), StatTarget(0), Delete(0, true)]
    ensures Lost(plan, Sync.Run(plan, Sync.Start(plan, r), es), t)
  {
    var s := Sync.Start(plan, r);
    StartInv(plan, r);
    assert TaskInv(plan, r, s, t) && !CallsForPut(plan, s, t);
    Decides(plan, r, s, 0, t);
    Deletes(plan, Sync.Run(plan, s, Deciding(plan, 0, t)), 0, t);
    RunConcat(plan, s, Deciding(plan, 0, t), [Delete(0, true)]);
    es := Deciding(plan, 0, t) + [Delete(0, true)];
    hide Sync.Run, WellPlanned, Sync.Inv;
  }

  /** Whoever else can put another content at the target of a deleting task can do so after it. */
  lemma UnguardedIsLost(plan: Plan, r: Remote, t: TaskId) returns (es: seq<Sync.Event>)
    requires WellPlanned(plan) && TempsArePrefixes(plan.cfg, r) && TaskOk(plan, t) && plan.tasks[t].deleteAfter
    requires !Guarded(plan, r, t)
    ensures Lost(plan, Sync.Run(plan, Sync.Start(plan, r), es), t)
  {
    hide WellPlanned, Sync.Run, Lost;
    var u: TaskId :| SameTarget(plan, t, u) && CanPut(plan, r, u) && PutOf(plan, u).content != PutOf(plan, t).content;
    if NeedsPut(plan, r, u) {
      es := OvertakenTaskIsLost(plan, r, t, u);
    } else {
      var w: TaskId :| SameTarget(plan, u, w) && |PutOf(plan, w).content| != |PutOf(plan, u).content|;
      assert NeedsPut(plan, r, w) && SameTarget(plan, t, w);
      if PutOf(plan, w).content != PutOf(plan, t).content {
        es := OvertakenTaskIsLost(plan, r, t, w);
      } else {
        es := OverwrittenTaskIsLost(plan, r, t, u);
      }
    }
  }

  // ---- No bytes are lost ------------------------------------------------------------------

  /** Sync-then-delete never loses a byte, in any run, if and only if every deleting task is spared:
      no target of equal size and other content with overwriting off, and no task that can put
      another content at its target. Absent targets of one's own qualify. */
  lemma NoBytesLostIff(plan: Plan, r: Remote)
    requires WellPlanned(plan) && TempsArePrefixes(plan.cfg, r)
    ensures (forall es :: NothingLost(plan, Sync.Run(plan, Sync.Start(plan, r), es))) <==>
      forall t: TaskId :: TaskOk(plan, t) && plan.tasks[t].deleteAfter ==> Spared(plan, r, t)
  {
    hide WellPlanned, Sync.Run, Guarded, Lost, NothingLost;
    if t: TaskId :| TaskOk(plan, t) && plan.tasks[t].deleteAfter && !Spared(plan, r, t) {
      var es;
      if SkipsOtherContent(plan, r, t) {
        es := SkippingLosesContent(plan, r, t);
      } else {
        es := UnguardedIsLost(plan, r, t);
      }
      OneLostIsSomethingLost(plan, Sync.Run(plan, Sync.Start(plan, r), es), t);
    } else {
      forall es ensures NothingLost(plan, Sync.Run(plan, Sync.Start(plan, r), es)) {
        AllSparedLosesNothing(plan, r, es);
      }
    }
  }

  lemma AllSparedLosesNothing(plan: Plan, r: Remote, es: seq<Sync.Event>)
    requires WellPlanned(plan) && TempsArePrefixes(plan.cfg, r)
    requires forall t: TaskId :: TaskOk(plan, t) && plan.tasks[t].deleteAfter ==> Spared(plan, r, t)
    ensures NothingLost(plan, Sync.Run(plan, Sync.Start(plan, r), es))
  {
    var s := Sync.Run(plan, Sync.Start(plan, r), es);
    StartInv(plan, r);
    RunKeepsPlan(plan, r, Sync.Start(plan, r), es);
    assert forall t: TaskId :: TaskOk(plan, t) ==> TaskInv(plan, r, s, t);
    hide WellPlanned, Sync.Run, Spared, TaskInv, Sync.Inv;
    forall t: TaskId | TaskOk(plan, t)
      ensures var file := plan.tasks[t].file;
        || (file in s.local && s.local[file] == plan.source[file])
        || At(s.up.remote, TargetOf(plan, t)) == Holds(plan.source[file])
    {
      SparedKeepsBytes(plan, r, s, t);
    }
  }
}
