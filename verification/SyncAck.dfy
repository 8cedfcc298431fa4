/** Which tasks can still be acknowledged, and which never will be. */
module SyncAck {
  import opened Paths
  import opened Upload
  import opened Sync
  import opened SyncProgress
  import opened SyncRuns

  /** A worker that is yet to put the content of u, and can. */
  predicate Uploader(plan: Plan, s: Sync.State, j: JobId, u: TaskId) {
    && j in s.workers && s.workers[j] == Worker(u, Uploading) && Able(plan, s, j)
    && s.up.jobs[j].phase != Renamed
  }

  /** Task u can still put a content of t's size at t's target. */
  ghost predicate Supplies(plan: Plan, s: Sync.State, t: TaskId, u: TaskId) {
    && SameTarget(plan, t, u) && |PutOf(plan, u).content| == |PutOf(plan, t).content|
    && (plan.tasks[u].file in s.local || exists j :: Uploader(plan, s, j, u))
  }

  predicate SizedFor(s: Sync.State, id: JobId, t: TaskId) {
    id in s.workers && s.workers[id].task == t && s.workers[id].stage.Sized?
  }

  ghost predicate Finishable(plan: Plan, s: Sync.State, t: TaskId)
    requires TaskOk(plan, t)
  {
    || t in s.done
    || plan.tasks[t].file in s.local
    || (exists id :: id in s.workers && s.workers[id].task == t && Able(plan, s, id))
    || ((exists id :: SizedFor(s, id, t)) && exists u: TaskId :: Supplies(plan, s, t, u))
  }

  // ---- Tasks that can be finished -----------------------------------------------------------------

  /** With a content of the right size at its target, a worker that knows its file's size is done
      with the file. */
  lemma RightSizeIsAble(plan: Plan, r: Remote, s: Sync.State, id: JobId, u: TaskId)
    requires Sound(plan, r, s) && id in s.workers && s.workers[id].stage.Sized?
    requires TaskOk(plan, s.workers[id].task) && plan.tasks[s.workers[id].task].file !in s.local
    requires SameTarget(plan, s.workers[id].task, u) && AtTarget(plan, s, u)
    requires |PutOf(plan, u).content| == |PutOf(plan, s.workers[id].task).content|
    ensures Able(plan, s, id)
  {
    SoundParts(plan, r, s);
    WorkerFacts(plan, r, s, id);
    hide Sound, Sync.Inv;
  }

  lemma UploaderIsDelivering(plan: Plan, s: Sync.State, j: JobId, u: TaskId)
    requires Uploader(plan, s, j, u)
    ensures Delivering(plan, s, j)
  {
  }

  /** The uploader of another task of the target supplies it. */
  lemma UploaderSupplies(plan: Plan, r: Remote, s: Sync.State, id: JobId, j: JobId, u: TaskId)
    returns (es: seq<Sync.Event>)
    requires WellPlanned(plan) && Sound(plan, r, s) && id in s.workers && s.workers[id].stage.Sized?
    requires TaskOk(plan, s.workers[id].task) && plan.tasks[s.workers[id].task].file !in s.local
    requires SameTarget(plan, s.workers[id].task, u) && Uploader(plan, s, j, u)
    requires |PutOf(plan, u).content| == |PutOf(plan, s.workers[id].task).content|
    ensures s.workers[id].task in Sync.Run(plan, s, es).done
  {
    UploaderIsDelivering(plan, s, j, u);
    assert j in s.workers && s.workers[j].task == u && s.workers[j].stage.Uploading? && Able(plan, s, j);
    hide *;
    var first := WorkerDelivers(plan, r, s, j);
    var s' := Sync.Run(plan, s, first);
    StillThere(s, s', j, id);
    SyncedIsAtTarget(plan, s', j);
    RightSizeIsAble(plan, r, s', id, u);
    SoundParts(plan, r, s');
    var rest := AbleWorkerEnds(plan, r, s', id);
    RunConcat(plan, s, first, rest);
    es := first + rest;
  }

  lemma StillThere(s: Sync.State, s': Sync.State, j: JobId, id: JobId)
    requires OthersSame(s, s', j) && id in s.workers && id != j
    ensures id in s'.workers && s'.workers[id] == s.workers[id] && s'.local == s.local
  {
  }

  lemma OnlyKept(s: Sync.State, s': Sync.State, id: JobId)
    requires id in s.workers && s.workers[id].stage.Sized?
    requires s'.workers == KeepOnly(s.workers, {id})
    ensures NoneUploading(s') && id in s'.workers && s'.workers[id] == s.workers[id] && id + 1 !in s'.workers
  {
  }

  lemma WrongSizeCalls(plan: Plan, r: Remote, s: Sync.State, id: JobId, u: TaskId)
    requires Sound(plan, r, s) && id in s.workers && s.workers[id].stage.Sized? && !Able(plan, s, id)
    requires TaskOk(plan, s.workers[id].task) && plan.tasks[s.workers[id].task].file !in s.local
    requires SameTarget(plan, s.workers[id].task, u)
    requires |PutOf(plan, u).content| == |PutOf(plan, s.workers[id].task).content|
    ensures CallsForPut(plan, s, u)
  {
    SoundParts(plan, r, s);
    WorkerFacts(plan, r, s, id);
    hide Sound, Sync.Inv;
  }

  lemma SameCalls(plan: Plan, s: Sync.State, s': Sync.State, u: TaskId)
    requires TaskOk(plan, u) && s'.up.remote == s.up.remote
    ensures CallsForPut(plan, s, u) == CallsForPut(plan, s', u)
  {
  }

  /** A task of the target with its file in place supplies it. */
  lemma FileSupplies(plan: Plan, r: Remote, s: Sync.State, id: JobId, u: TaskId) returns (es: seq<Sync.Event>)
    requires WellPlanned(plan) && Sound(plan, r, s)
    requires id in s.workers && s.workers[id].stage.Sized? && !Able(plan, s, id)
    requires TaskOk(plan, s.workers[id].task) && plan.tasks[s.workers[id].task].file !in s.local
    requires SameTarget(plan, s.workers[id].task, u) && plan.tasks[u].file in s.local
    requires |PutOf(plan, u).content| == |PutOf(plan, s.workers[id].task).content|
    ensures s.workers[id].task in Sync.Run(plan, s, es).done
  {
    assert TaskOk(plan, u);
    hide *;
    WrongSizeCalls(plan, r, s, id, u);
    BothParts(plan, r, s);
    var crash := CrashAllBut(plan, r, s, {id});
    var alone := Sync.Run(plan, s, crash);
    OnlyKept(s, alone, id);
    SameCalls(plan, s, alone, u);
    IsSound(plan, r, alone);
    var first := TaskSyncs(plan, r, alone, id + 1, u);
    var s' := Sync.Run(plan, alone, first);
    StillThere(alone, s', id + 1, id);
    RightSizeIsAble(plan, r, s', id, u);
    SoundParts(plan, r, s');
    var rest := AbleWorkerEnds(plan, r, s', id);
    RunConcat(plan, s, crash, first);
    RunConcat(plan, s, crash + first, rest);
    es := crash + first + rest;
  }

  lemma BothParts(plan: Plan, r: Remote, s: Sync.State)
    requires Sound(plan, r, s)
    ensures Sync.Inv(plan, r, s) && HeldByJobs(plan.cfg, s.up)
  {
  }

  lemma IsSound(plan: Plan, r: Remote, s: Sync.State)
    requires Sync.Inv(plan, r, s) && HeldByJobs(plan.cfg, s.up)
    ensures Sound(plan, r, s)
  {
  }

  lemma FinishableEnds(plan: Plan, r: Remote, s: Sync.State, t: TaskId) returns (es: seq<Sync.Event>)
    requires WellPlanned(plan) && Sound(plan, r, s) && TaskOk(plan, t) && Finishable(plan, s, t)
    ensures t in Sync.Run(plan, s, es).done
  {
    BothParts(plan, r, s);
    hide Sync.Run, Sync.Inv, WellPlanned, HeldByJobs, Able, Sound;
    if t in s.done {
      NoMore(plan, s);
      es := [];
    } else if plan.tasks[t].file in s.local {
      es := FileInPlaceEnds(plan, r, s, t);
    } else if id :| id in s.workers && s.workers[id].task == t && Able(plan, s, id) {
      es := AbleWorkerEnds(plan, r, s, id);
    } else {
      var id :| SizedFor(s, id, t);
      var u: TaskId :| Supplies(plan, s, t, u);
      if plan.tasks[u].file in s.local {
        es := FileSupplies(plan, r, s, id, u);
      } else {
        var j :| Uploader(plan, s, j, u);
        es := UploaderSupplies(plan, r, s, id, j, u);
      }
    }
  }

  // ---- Tasks beyond help -----------------------------------------------------------------------

  /** Whoever supplies the target after a step could have before. */
  lemma SuppliedBefore(plan: Plan, r: Remote, s: Sync.State, e: Sync.Event, t: TaskId, u: TaskId)
    requires WellPlanned(plan) && Sync.Inv(plan, r, s) && Supplies(plan, Sync.Step(plan, s, e), t, u)
    ensures Supplies(plan, s, t, u)
  {
    var s' := Sync.Step(plan, s, e);
    LocalShrinks(plan, s, e);
    hide Sync.Step, Sync.Inv, WellPlanned, Able;
    if plan.tasks[u].file !in s.local {
      var j :| Uploader(plan, s', j, u);
      UploaderBefore(plan, r, s, e, j, u);
    }
  }

  /** A worker that is still short of its put after a step was uploading before, if its file was
      gone. */
  lemma OwnUploadingBefore(plan: Plan, s: Sync.State, e: Sync.Event)
    requires Sync.Enabled(plan, s, e) && e.id in Sync.Step(plan, s, e).workers
    requires Sync.Step(plan, s, e).workers[e.id].stage.Uploading?
    requires TaskOk(plan, Sync.Step(plan, s, e).workers[e.id].task)
    requires plan.tasks[Sync.Step(plan, s, e).workers[e.id].task].file !in s.local
    ensures e.id in s.workers && s.workers[e.id] == Sync.Step(plan, s, e).workers[e.id] && e.Transfer?
  {
    hide Upload.Step, Upload.Enabled;
  }

  lemma TransferIsShort(plan: Plan, s: Sync.State, e: Sync.Event)
    requires Sync.Enabled(plan, s, e) && e.Transfer?
    ensures e.id in s.up.jobs && s.up.jobs[e.id].phase != Renamed
  {
  }

  lemma OtherJobAfter(plan: Plan, r: Remote, s: Sync.State, e: Sync.Event, j: JobId)
    requires WellPlanned(plan) && Sync.Inv(plan, r, s) && j != e.id
    ensures var s' := Sync.Step(plan, s, e);
      (j in s.up.jobs <==> j in s'.up.jobs) && (j in s.up.jobs ==> s'.up.jobs[j] == s.up.jobs[j])
  {
    RemoteAfterStep(plan, s, e);
    if IsTransferStep(plan, s, e) {
      InnerIsEnabled(plan, r, s, e);
      hide Sync.Step, Upload.Step, Sync.Inv;
      JobsFrame(plan.cfg, s.up, Inner(plan, s, e), j);
    }
  }

  lemma OtherWorkerBefore(plan: Plan, s: Sync.State, e: Sync.Event, j: JobId)
    requires j != e.id && j in Sync.Step(plan, s, e).workers
    ensures j in s.workers && s.workers[j] == Sync.Step(plan, s, e).workers[j]
  {
    hide Upload.Step, Upload.Enabled, Decide;
  }

  lemma UploadingBefore(plan: Plan, r: Remote, s: Sync.State, e: Sync.Event, j: JobId, u: TaskId)
    requires WellPlanned(plan) && Sync.Inv(plan, r, s) && TaskOk(plan, u) && plan.tasks[u].file !in s.local
    requires Uploader(plan, Sync.Step(plan, s, e), j, u)
    ensures j in s.workers && s.workers[j] == Worker(u, Uploading) && j in s.up.jobs && s.up.jobs[j].phase != Renamed
  {
    UploaderParts(plan, Sync.Step(plan, s, e), j, u);
    hide *;
    if !Sync.Enabled(plan, s, e) {
      DisabledStays(plan, s, e);
    } else if j == e.id {
      OwnUploadingBefore(plan, s, e);
      TransferIsShort(plan, s, e);
    } else {
      OtherWorkerBefore(plan, s, e, j);
      OtherJobAfter(plan, r, s, e, j);
    }
  }

  lemma UploaderParts(plan: Plan, s: Sync.State, j: JobId, u: TaskId)
    requires Uploader(plan, s, j, u)
    ensures j in s.workers && s.workers[j] == Worker(u, Uploading) && j in s.up.jobs && s.up.jobs[j].phase != Renamed
    ensures Able(plan, s, j)
  {
  }

  lemma UploaderBefore(plan: Plan, r: Remote, s: Sync.State, e: Sync.Event, j: JobId, u: TaskId)
    requires WellPlanned(plan) && Sync.Inv(plan, r, s) && TaskOk(plan, u) && plan.tasks[u].file !in s.local
    requires Uploader(plan, Sync.Step(plan, s, e), j, u)
    ensures Uploader(plan, s, j, u)
  {
    UploadingBefore(plan, r, s, e, j, u);
    UploaderParts(plan, Sync.Step(plan, s, e), j, u);
    hide Sync.Step, Sync.Inv, WellPlanned, Able, Sync.Enabled;
    if !Able(plan, s, j) {
      if !Sync.Enabled(plan, s, e) { DisabledStays(plan, s, e); }
      else if e.id == j { OwnStaysUnable(plan, r, s, e); }
      else { OtherStaysUnable(plan, r, s, e, j); }
    }
  }

  lemma DisabledStays(plan: Plan, s: Sync.State, e: Sync.Event)
    requires !Sync.Enabled(plan, s, e)
    ensures Sync.Step(plan, s, e) == s
  {
  }

  /** A target moves only by a rename of a worker of one of its tasks. */
  lemma MovedByRename(plan: Plan, r: Remote, s: Sync.State, e: Upload.Event, t: TaskId)
    requires WellPlanned(plan) && Sync.Inv(plan, r, s) && TaskOk(plan, t) && Upload.Enabled(plan.cfg, s.up, e)
    requires At(Upload.Step(plan.cfg, s.up, e).remote, TargetOf(plan, t)) != At(s.up.remote, TargetOf(plan, t))
    ensures e.Rename? && e.id in s.workers && TaskOk(plan, s.workers[e.id].task)
    ensures SameTarget(plan, t, s.workers[e.id].task)
    ensures At(Upload.Step(plan.cfg, s.up, e).remote, TargetOf(plan, t)) ==
      Holds(PutOf(plan, s.workers[e.id].task).content)
  {
    hide *;
    TransferTarget(plan, r, s, e, t);
  }

  lemma MovedByTransfer(plan: Plan, s: Sync.State, e: Sync.Event, t: TaskId)
    requires TaskOk(plan, t)
    requires At(Sync.Step(plan, s, e).up.remote, TargetOf(plan, t)) != At(s.up.remote, TargetOf(plan, t))
    ensures IsTransferStep(plan, s, e) && Sync.Enabled(plan, s, e)
    ensures e.BeginUpload? || e.Transfer? || e.EndUpload? || e.FailUpload? || e.Crash?
    ensures Sync.Step(plan, s, e).up == Upload.Step(plan.cfg, s.up, Inner(plan, s, e))
  {
    RemoteAfterStep(plan, s, e);
    hide Sync.Step, Upload.Step, Sync.Enabled, TargetOf;
  }

  lemma IsSupplier(plan: Plan, s: Sync.State, s': Sync.State, t: TaskId, u: TaskId, j: JobId)
    requires SameTarget(plan, t, u) && Uploader(plan, s, j, u)
    requires At(s'.up.remote, TargetOf(plan, t)) == Holds(PutOf(plan, u).content)
    ensures Supplier(plan, s, s', t, u)
  {
  }

  /** A target moves to a task's content only while that task has an uploader. */
  lemma MovedBySupplier(plan: Plan, r: Remote, s: Sync.State, e: Sync.Event, t: TaskId) returns (u: TaskId)
    requires WellPlanned(plan) && Sync.Inv(plan, r, s) && TaskOk(plan, t)
    requires At(Sync.Step(plan, s, e).up.remote, TargetOf(plan, t)) != At(s.up.remote, TargetOf(plan, t))
    ensures Supplier(plan, s, Sync.Step(plan, s, e), t, u)
  {
    hide *;
    MovedByTransfer(plan, s, e, t);
    InnerIsEnabled(plan, r, s, e);
    MovedByRename(plan, r, s, Inner(plan, s, e), t);
    RenamerIsUploader(plan, r, s, Inner(plan, s, e));
    u := s.workers[e.id].task;
    IsSupplier(plan, s, Sync.Step(plan, s, e), t, u, e.id);
  }

  /** u had an uploader in s, and its content is at t's target in s'. */
  ghost predicate Supplier(plan: Plan, s: Sync.State, s': Sync.State, t: TaskId, u: TaskId) {
    SameTarget(plan, t, u) && (exists j :: Uploader(plan, s, j, u)) && AtTarget(plan, s', u)
  }

  lemma RenamerIsUploader(plan: Plan, r: Remote, s: Sync.State, e: Upload.Event)
    requires Sync.Inv(plan, r, s) && Upload.Enabled(plan.cfg, s.up, e) && e.Rename?
    ensures e.id in s.workers && Uploader(plan, s, e.id, s.workers[e.id].task)
  {
    hide *;
    RenameNeeds(plan.cfg, s.up, e);
    JobHasWorker(plan, r, s, e.id);
    WorkerFacts(plan, r, s, e.id);
    RenamingIsAble(plan, s, e.id);
  }

  lemma RenameNeeds(cfg: Config, s: Upload.State, e: Upload.Event)
    requires Upload.Enabled(cfg, s, e) && e.Rename?
    ensures e.id in s.jobs && s.jobs[e.id].phase == Renaming && cfg.temp(s.jobs[e.id].put) in s.remote
  {
  }

  lemma JobHasWorker(plan: Plan, r: Remote, s: Sync.State, id: JobId)
    requires Sync.Inv(plan, r, s) && id in s.up.jobs
    ensures id in s.workers
  {
  }

  lemma RenamingIsAble(plan: Plan, s: Sync.State, id: JobId)
    requires id in s.workers && s.workers[id].stage.Uploading? && TaskOk(plan, s.workers[id].task) && id in s.up.jobs
    requires s.up.jobs[id].phase == Renaming && plan.cfg.temp(PutOf(plan, s.workers[id].task)) in s.up.remote
    ensures Uploader(plan, s, id, s.workers[id].task)
  {
  }

  /** A sized worker with its file gone finds the right size after a step only if it was found
      before or could be supplied. */
  lemma SizedStaysUnable(plan: Plan, r: Remote, s: Sync.State, e: Sync.Event, id: JobId, t: TaskId)
    requires WellPlanned(plan) && Sync.Inv(plan, r, s) && TaskOk(plan, t) && plan.tasks[t].file !in s.local
    requires SizedFor(s, id, t) && !Able(plan, s, id) && forall u: TaskId :: !Supplies(plan, s, t, u)
    requires id in Sync.Step(plan, s, e).workers
    ensures !Able(plan, Sync.Step(plan, s, e), id)
  {
    var s' := Sync.Step(plan, s, e);
    hide *;
    SizedParts(s, id, t);
    WorkerFacts(plan, r, s, id);
    LocalShrinks(plan, s, e);
    SizedAfter(plan, s, e, id);
    if At(s'.up.remote, TargetOf(plan, t)) != At(s.up.remote, TargetOf(plan, t)) {
      var u := MovedBySupplier(plan, r, s, e, t);
      OtherSizeSupplied(plan, s, s', t, u);
      WrongSizeIsUnable(plan, s', id, t, u);
    } else {
      SameValueIsUnable(plan, s, s', id, t);
    }
  }

  lemma SizedParts(s: Sync.State, id: JobId, t: TaskId)
    requires SizedFor(s, id, t)
    ensures id in s.workers && s.workers[id].task == t && s.workers[id].stage.Sized?
  {
  }

  lemma OtherSizeSupplied(plan: Plan, s: Sync.State, s': Sync.State, t: TaskId, u: TaskId)
    requires Supplier(plan, s, s', t, u) && !Supplies(plan, s, t, u)
    ensures SameTarget(plan, t, u) && |PutOf(plan, u).content| != |PutOf(plan, t).content| && AtTarget(plan, s', u)
  {
  }

  lemma WrongSizeIsUnable(plan: Plan, s: Sync.State, id: JobId, t: TaskId, u: TaskId)
    requires TaskOk(plan, t) && plan.tasks[t].file !in s.local && id in s.workers && s.workers[id].task == t
    requires s.workers[id].stage == Wanting || s.workers[id].stage == Sized(|PutOf(plan, t).content|)
    requires SameTarget(plan, t, u) && |PutOf(plan, u).content| != |PutOf(plan, t).content| && AtTarget(plan, s, u)
    ensures !Able(plan, s, id)
  {
  }

  lemma SameValueIsUnable(plan: Plan, s: Sync.State, s': Sync.State, id: JobId, t: TaskId)
    requires TaskOk(plan, t) && plan.tasks[t].file !in s.local && plan.tasks[t].file !in s'.local
    requires id in s.workers && s.workers[id].task == t && s.workers[id].stage.Sized? && !Able(plan, s, id)
    requires id in s'.workers && (s'.workers[id] == s.workers[id] || s'.workers[id] == Worker(t, Wanting))
    requires At(s'.up.remote, TargetOf(plan, t)) == At(s.up.remote, TargetOf(plan, t))
    ensures !Able(plan, s', id)
  {
  }

  lemma SizedAfter(plan: Plan, s: Sync.State, e: Sync.Event, id: JobId)
    requires id in s.workers && s.workers[id].stage.Sized? && id in Sync.Step(plan, s, e).workers
    requires TaskOk(plan, s.workers[id].task) && plan.tasks[s.workers[id].task].file !in s.local && !Able(plan, s, id)
    ensures var w := Sync.Step(plan, s, e).workers[id]; w == s.workers[id] || w == Worker(s.workers[id].task, Wanting)
  {
    hide Upload.Step, Upload.Enabled;
  }

  lemma NotFinishableStays(plan: Plan, r: Remote, s: Sync.State, e: Sync.Event, t: TaskId)
    requires WellPlanned(plan) && Sync.Inv(plan, r, s) && TaskOk(plan, t) && !Finishable(plan, s, t)
    ensures !Finishable(plan, Sync.Step(plan, s, e), t)
  {
    if !Sync.Enabled(plan, s, e) {
      DisabledStays(plan, s, e);
    } else {
      var s' := Sync.Step(plan, s, e);
      hide Sync.Step, Sync.Inv, WellPlanned, Sync.Enabled, Able, Supplies;
      LocalShrinks(plan, s, e);
      if t in s'.done { DoneAfter(plan, s, e, t); }
      forall id | id in s'.workers && s'.workers[id].task == t ensures !Able(plan, s', id) {
        WorkerStaysUnable(plan, r, s, e, t, id);
      }
      forall id, u: TaskId | SizedFor(s', id, t) ensures !Supplies(plan, s', t, u) {
        SizedBefore(plan, s, e, id, t);
        if Supplies(plan, s', t, u) { SuppliedBefore(plan, r, s, e, t, u); }
      }
    }
  }

  lemma SizedBefore(plan: Plan, s: Sync.State, e: Sync.Event, id: JobId, t: TaskId)
    requires TaskOk(plan, t) && plan.tasks[t].file !in s.local && SizedFor(Sync.Step(plan, s, e), id, t)
    ensures SizedFor(s, id, t)
  {
    hide Upload.Step, Upload.Enabled, Decide;
  }

  lemma WorkerStaysUnable(plan: Plan, r: Remote, s: Sync.State, e: Sync.Event, t: TaskId, id: JobId)
    requires WellPlanned(plan) && Sync.Inv(plan, r, s) && TaskOk(plan, t) && Sync.Enabled(plan, s, e)
    requires !Finishable(plan, s, t)
    requires id in Sync.Step(plan, s, e).workers && Sync.Step(plan, s, e).workers[id].task == t
    ensures !Able(plan, Sync.Step(plan, s, e), id)
  {
    WorkersAfter(plan, s, e, id);
    LocalShrinks(plan, s, e);
    hide Sync.Step, Sync.Inv, WellPlanned, Sync.Enabled, Supplies;
    if id in s.workers {
      hide Able;
      if SizedFor(s, id, t) { SizedStaysUnable(plan, r, s, e, id, t); }
      else if e.id == id { OwnStaysUnable(plan, r, s, e); }
      else { OtherStaysUnable(plan, r, s, e, id); }
    }
  }

  lemma {:induction false} NeverFinished(plan: Plan, r: Remote, s: Sync.State, es: seq<Sync.Event>, t: TaskId)
    requires WellPlanned(plan) && Sync.Inv(plan, r, s) && TaskOk(plan, t) && !Finishable(plan, s, t)
    ensures !Finishable(plan, Sync.Run(plan, s, es), t) && Sync.Inv(plan, r, Sync.Run(plan, s, es))
  {
    if es != [] {
      hide Sync.Step, Sync.Inv, WellPlanned, Finishable;
      NeverFinished(plan, r, s, es[..|es| - 1], t);
      NotFinishableStays(plan, r, Sync.Run(plan, s, es[..|es| - 1]), es[|es| - 1], t);
      StepKeepsPlan(plan, r, Sync.Run(plan, s, es[..|es| - 1]), es[|es| - 1]);
    }
  }

  /** From a reachable state a task can still be acknowledged if and only if it has been, its file
      is in place, some worker has it in hand and needs the file no more, or a worker knows the
      size of its file and another task can still put a content of that size at its target. A task
      whose worker dies between deleting the file and acknowledging is beyond help, though its
      target is whole. */
  lemma AcknowledgeableIff(plan: Plan, r: Remote, es: seq<Sync.Event>, t: TaskId)
    requires WellPlanned(plan) && TempsArePrefixes(plan.cfg, r) && TaskOk(plan, t)
    ensures var s := Sync.Run(plan, Sync.Start(plan, r), es);
      (exists fs :: t in Sync.Run(plan, s, fs).done) <==> Finishable(plan, s, t)
  {
    var s := Sync.Run(plan, Sync.Start(plan, r), es);
    StartInv(plan, r);
    RunKeepsPlan(plan, r, Sync.Start(plan, r), es);
    RunKeepsHeld(plan, r, es);
    IsSound(plan, r, s);
    hide Sync.Run, Sync.Inv, WellPlanned, HeldByJobs, Finishable;
    if Finishable(plan, s, t) {
      var fs := FinishableEnds(plan, r, s, t);
    } else {
      forall fs ensures t !in Sync.Run(plan, s, fs).done {
        NeverFinished(plan, r, s, fs, t);
        DoneIsFinishable(plan, Sync.Run(plan, s, fs), t);
      }
    }
  }

  lemma DoneIsFinishable(plan: Plan, s: Sync.State, t: TaskId)
    requires TaskOk(plan, t)
    ensures t in s.done ==> Finishable(plan, s, t)
  {
  }
}
