/** Pieces of runs: a worker takes a task to its target by its own steps. */
module SyncRuns {
  import opened Paths
  import opened Upload
  import opened Sync
  import opened SyncProgress

  /** Nothing but worker id has moved. */
  predicate OthersSame(s: Sync.State, s': Sync.State, id: JobId) {
    && s'.local == s.local && s'.workers.Keys == s.workers.Keys + {id}
    && forall j :: j in s.workers && j != id ==> s'.workers[j] == s.workers[j]
  }

  lemma OwnEventFrame(plan: Plan, s: Sync.State, e: Sync.Event)
    requires e.id in s.workers && !e.Deliver? && !e.Ack? && !e.Crash? && !e.Delete?
    ensures OthersSame(s, Sync.Step(plan, s, e), e.id)
  {
    hide Upload.Step, Upload.Enabled, Decide;
  }

  /** On its way to a put, or just past it with the content at the target. */
  ghost predicate Delivering(plan: Plan, s: Sync.State, id: JobId) {
    && id in s.workers && TaskOk(plan, s.workers[id].task)
    && match s.workers[id].stage
       case Wanting => true
       case Uploading => id in s.up.jobs && (s.up.jobs[id].phase == Renamed ==> AtTarget(plan, s, s.workers[id].task))
       case Synced => AtTarget(plan, s, s.workers[id].task)
       case _ => false
  }

  predicate AtTarget(plan: Plan, s: Sync.State, t: TaskId)
    requires TaskOk(plan, t)
  {
    At(s.up.remote, TargetOf(plan, t)) == Holds(PutOf(plan, t).content)
  }

  lemma BeginDelivers(plan: Plan, s: Sync.State, id: JobId)
    requires Delivering(plan, s, id) && s.workers[id].stage.Wanting? && Sync.Enabled(plan, s, BeginUpload(id))
    ensures Delivering(plan, Sync.Step(plan, s, BeginUpload(id)), id)
  {
  }

  lemma EndDelivers(plan: Plan, s: Sync.State, id: JobId)
    requires Delivering(plan, s, id) && s.workers[id].stage.Uploading? && Sync.Enabled(plan, s, EndUpload(id))
    ensures Delivering(plan, Sync.Step(plan, s, EndUpload(id)), id)
  {
  }

  /** A transfer that is not a rename leaves its job short of the put. */
  lemma ShortOfRenamed(cfg: Config, s: Upload.State, id: JobId, e: Upload.Event)
    requires id in s.jobs && Upload.Enabled(cfg, s, e) && IsTransfer(id, e)
    ensures id in Upload.Step(cfg, s, e).jobs
    ensures !e.Rename? ==> Upload.Step(cfg, s, e).jobs[id].phase != Renamed
  {
  }

  lemma TransferDelivers(plan: Plan, r: Remote, s: Sync.State, id: JobId, e: Upload.Event)
    requires WellPlanned(plan) && Sync.Inv(plan, r, s) && Delivering(plan, s, id) && s.workers[id].stage.Uploading?
    requires Sync.Enabled(plan, s, Transfer(id, e))
    ensures Delivering(plan, Sync.Step(plan, s, Transfer(id, e)), id)
  {
    var t := s.workers[id].task;
    WorkerFacts(plan, r, s, id);
    assert id in s.up.jobs && e.id == id;
    assert SameTarget(plan, t, t);
    hide Sync.Step, Sync.Enabled, Sync.Inv, WellPlanned, Upload.Step, Upload.Enabled;
    TransferIsEnabled(plan, s, id, e);
    TransferStep(plan, s, id, e);
    TransferLeaves(plan, s, e);
    ShortOfRenamed(plan.cfg, s.up, id, e);
    if e.Rename? { TransferTarget(plan, r, s, e, t); }
  }

  lemma DeliveringStages(plan: Plan, s: Sync.State, id: JobId)
    requires Delivering(plan, s, id)
    ensures id in s.workers && TaskOk(plan, s.workers[id].task)
    ensures s.workers[id].stage.Wanting? || s.workers[id].stage.Uploading? || s.workers[id].stage.Synced?
  {
  }

  lemma NextEventShape(plan: Plan, s: Sync.State, id: JobId)
    requires id in s.workers && Able(plan, s, id) && (s.workers[id].stage.Wanting? || s.workers[id].stage.Uploading?)
    ensures var e := NextEvent(plan, s, id);
      && e.id == id && (s.workers[id].stage.Wanting? ==> e == BeginUpload(id))
      && (s.workers[id].stage.Uploading? ==> e == EndUpload(id) || (e.Transfer? && e == Transfer(id, e.inner)))
  {
  }

  /** The next event of an able worker on its way stays on the way. */
  lemma DeliveringStep(plan: Plan, r: Remote, s: Sync.State, id: JobId)
    requires WellPlanned(plan) && Sync.Inv(plan, r, s) && Delivering(plan, s, id)
    requires Able(plan, s, id) && !s.workers[id].stage.Synced?
    ensures var e := NextEvent(plan, s, id);
      e.id == id && !e.Deliver? && !e.Ack? && !e.Crash? && !e.Delete? && Delivering(plan, Sync.Step(plan, s, e), id)
  {
    hide *;
    DeliveringStages(plan, s, id);
    NextEventShape(plan, s, id);
    NextIsEnabled(plan, r, s, id);
    var e := NextEvent(plan, s, id);
    if s.workers[id].stage.Wanting? { BeginDelivers(plan, s, id); }
    else if e.EndUpload? { EndDelivers(plan, s, id); }
    else { TransferDelivers(plan, r, s, id, e.inner); }
  }

  lemma NextIsEnabled(plan: Plan, r: Remote, s: Sync.State, id: JobId)
    requires Sync.Inv(plan, r, s) && id in s.workers && Able(plan, s, id)
    requires s.workers[id].stage.Wanting? || s.workers[id].stage.Uploading?
    ensures Sync.Enabled(plan, s, NextEvent(plan, s, id))
  {
    WorkerFacts(plan, r, s, id);
    if s.workers[id].stage.Uploading? {
      UploadingFacts(plan, r, s, id);
      PhaseEventIsEnabled(plan, s, id, s.workers[id].task);
    }
    hide Sync.Inv;
  }

  lemma NearerUnlessGone(plan: Plan, s: Sync.State, id: JobId, s': Sync.State)
    requires id in s.workers && Able(plan, s, id) && Nearer(plan, s, s', id) && OthersSame(s, s', id)
    ensures id in s'.workers && s'.workers[id].task == s.workers[id].task
    ensures Able(plan, s', id) && Rank(plan, s', id) < Rank(plan, s, id)
  {
  }

  /** What the pieces of a run keep. */
  ghost predicate Sound(plan: Plan, r: Remote, s: Sync.State) {
    Sync.Inv(plan, r, s) && HeldByJobs(plan.cfg, s.up)
  }

  lemma SoundStep(plan: Plan, r: Remote, s: Sync.State, e: Sync.Event)
    requires WellPlanned(plan) && Sound(plan, r, s)
    ensures Sound(plan, r, Sync.Step(plan, s, e))
  {
    StepKeepsPlan(plan, r, s, e);
    SyncStepKeepsHeld(plan, s, e);
    hide Sync.Inv, HeldByJobs, Sync.Step;
  }

  /** A worker that wants to upload, and can, gets its content to the target. */
  lemma {:induction false} WorkerDelivers(plan: Plan, r: Remote, s: Sync.State, id: JobId) returns (es: seq<Sync.Event>)
    requires WellPlanned(plan) && Sound(plan, r, s) && Delivering(plan, s, id) && Able(plan, s, id)
    ensures var s' := Sync.Run(plan, s, es);
      && Sound(plan, r, s') && OthersSame(s, s', id)
      && s'.workers[id] == Worker(s.workers[id].task, Synced) && Delivering(plan, s', id)
    decreases Rank(plan, s, id)
  {
    DeliveringStages(plan, s, id);
    hide *;
    if s.workers[id].stage.Synced? {
      es := [];
      NoMore(plan, s);
      SameSelf(s, id);
    } else {
      var e := NextEvent(plan, s, id);
      var s' := Sync.Step(plan, s, e);
      SoundParts(plan, r, s);
      DeliveringStep(plan, r, s, id);
      AbleStep(plan, r, s, id);
      OwnEventFrame(plan, s, e);
      SoundStep(plan, r, s, e);
      NearerUnlessGone(plan, s, id, s');
      var rest := WorkerDelivers(plan, r, s', id);
      RunCons(plan, s, e, rest);
      es := [e] + rest;
      SameThrough(s, s', Sync.Run(plan, s', rest), id);
    }
  }

  lemma SameSelf(s: Sync.State, id: JobId)
    requires id in s.workers
    ensures OthersSame(s, s, id)
  {
  }

  lemma SoundParts(plan: Plan, r: Remote, s: Sync.State)
    requires Sound(plan, r, s)
    ensures Sync.Inv(plan, r, s)
  {
  }

  lemma SameThrough(a: Sync.State, b: Sync.State, c: Sync.State, id: JobId)
    requires OthersSame(a, b, id) && OthersSame(b, c, id)
    ensures OthersSame(a, c, id)
  {
  }

  /** The target as it is does not make the task skip. */
  predicate CallsForPut(plan: Plan, s: Sync.State, t: TaskId)
    requires TaskOk(plan, t)
  {
    var p, n := TargetOf(plan, t), |PutOf(plan, t).content|;
    plan.tasks[t].overwrite || p !in s.up.remote || |s.up.remote[p]| != n
  }

  /** A worker takes the task and decides. */
  function Deciding(plan: Plan, id: JobId, t: TaskId): seq<Sync.Event>
    requires TaskOk(plan, t)
  {
    if plan.tasks[t].overwrite then [Deliver(id, t), StatLocal(id)]
    else [Deliver(id, t), StatLocal(id)] + [StatTarget(id)]
  }

  lemma Sizes(plan: Plan, s: Sync.State, id: JobId, t: TaskId)
    requires TaskOk(plan, t) && id !in s.workers && plan.tasks[t].file in s.local
    ensures Sync.Run(plan, s, [Deliver(id, t), StatLocal(id)]) == s.(workers := s.workers[id :=
      Worker(t, if plan.tasks[t].overwrite then Wanting else Sized(|s.local[plan.tasks[t].file]|))])
  {
    var taken := s.(workers := s.workers[id := Worker(t, Taken)]);
    assert Sync.Step(plan, s, Deliver(id, t)) == taken;
    RunCons(plan, s, Deliver(id, t), [StatLocal(id)]);
    RunCons(plan, taken, StatLocal(id), []);
    assert [Deliver(id, t)] + [StatLocal(id)] == [Deliver(id, t), StatLocal(id)];
    assert [StatLocal(id)] + [] == [StatLocal(id)];
    StatLocalAfter(plan, taken, StatLocal(id));
    hide Sync.Run, Sync.Step;
  }

  lemma Decides(plan: Plan, r: Remote, s: Sync.State, id: JobId, t: TaskId)
    requires TaskOk(plan, t) && TaskInv(plan, r, s, t) && id !in s.workers && plan.tasks[t].file in s.local
    ensures Sync.Run(plan, s, Deciding(plan, id, t)) ==
      s.(workers := s.workers[id := Worker(t, if CallsForPut(plan, s, t) then Wanting else Synced)])
  {
    Sizes(plan, s, id, t);
    if !plan.tasks[t].overwrite {
      var sized := s.(workers := s.workers[id := Worker(t, Sized(|PutOf(plan, t).content|))]);
      RunConcat(plan, s, [Deliver(id, t), StatLocal(id)], [StatTarget(id)]);
      RunCons(plan, sized, StatTarget(id), []);
      assert [StatTarget(id)] + [] == [StatTarget(id)];
      hide Sync.Run;
    }
  }

  lemma {:induction false} SoundRun(plan: Plan, r: Remote, s: Sync.State, es: seq<Sync.Event>)
    requires WellPlanned(plan) && Sound(plan, r, s)
    ensures Sound(plan, r, Sync.Run(plan, s, es))
  {
    if es != [] {
      SoundRun(plan, r, s, es[..|es| - 1]);
      hide Sync.Step, Sound;
      SoundStep(plan, r, Sync.Run(plan, s, es[..|es| - 1]), es[|es| - 1]);
    }
  }

  predicate NoneUploading(s: Sync.State) {
    forall id :: id in s.workers ==> !s.workers[id].stage.Uploading?
  }

  lemma LocksAreFree(plan: Plan, r: Remote, s: Sync.State)
    requires Sound(plan, r, s) && NoneUploading(s)
    ensures s.up.held == map[]
  {
    forall id | id in s.up.jobs ensures false { WorkerFacts(plan, r, s, id); }
  }

  lemma WantingIsAble(plan: Plan, r: Remote, s: Sync.State, id: JobId)
    requires Sound(plan, r, s) && NoneUploading(s) && id in s.workers && s.workers[id].stage.Wanting?
    requires TaskOk(plan, s.workers[id].task) && plan.tasks[s.workers[id].task].file in s.local
    ensures Able(plan, s, id) && Delivering(plan, s, id)
  {
    LocksAreFree(plan, r, s);
    hide Sound;
  }

  lemma SyncedIsAtTarget(plan: Plan, s: Sync.State, id: JobId)
    requires Delivering(plan, s, id) && s.workers[id].stage.Synced?
    ensures AtTarget(plan, s, s.workers[id].task)
  {
  }

  lemma StillNoneUploading(s: Sync.State, s': Sync.State, id: JobId)
    requires NoneUploading(s)
    ensures id in s'.workers && OthersSame(s, s', id) && !s'.workers[id].stage.Uploading? ==> NoneUploading(s')
  {
  }

  lemma TaskDecides(plan: Plan, r: Remote, s: Sync.State, id: JobId, t: TaskId)
    requires WellPlanned(plan) && Sound(plan, r, s) && NoneUploading(s)
    requires TaskOk(plan, t) && id !in s.workers && plan.tasks[t].file in s.local
    ensures var s' := Sync.Run(plan, s, Deciding(plan, id, t));
      && Sound(plan, r, s') && NoneUploading(s') && OthersSame(s, s', id) && s'.local == s.local
      && s'.workers[id] == Worker(t, if CallsForPut(plan, s, t) then Wanting else Synced)
  {
    assert TaskInv(plan, r, s, t);
    hide *;
    Decides(plan, r, s, id, t);
    SoundRun(plan, r, s, Deciding(plan, id, t));
    OneMoved(s, id, Worker(t, if CallsForPut(plan, s, t) then Wanting else Synced));
    StillNoneUploading(s, Sync.Run(plan, s, Deciding(plan, id, t)), id);
  }

  lemma OneMoved(s: Sync.State, id: JobId, w: Worker)
    ensures var s' := s.(workers := s.workers[id := w]);
      OthersSame(s, s', id) && id in s'.workers && s'.workers[id] == w && s'.local == s.local
  {
  }

  /** With no upload under way, a worker can take a task whose file is in place all the way to
      where it may delete; if the target calls for it, with the content put. */
  lemma TaskSyncs(plan: Plan, r: Remote, s: Sync.State, id: JobId, t: TaskId) returns (es: seq<Sync.Event>)
    requires WellPlanned(plan) && Sound(plan, r, s) && NoneUploading(s)
    requires TaskOk(plan, t) && id !in s.workers && plan.tasks[t].file in s.local
    ensures var s' := Sync.Run(plan, s, es);
      && Sound(plan, r, s') && OthersSame(s, s', id) && s'.workers[id] == Worker(t, Synced)
      && (CallsForPut(plan, s, t) ==> AtTarget(plan, s', t))
  {
    hide *;
    TaskDecides(plan, r, s, id, t);
    es := Deciding(plan, id, t);
    var decided := Sync.Run(plan, s, es);
    ItsWorker(s, decided, id);
    if CallsForPut(plan, s, t) {
      WantingIsAble(plan, r, decided, id);
      var rest := WorkerDelivers(plan, r, decided, id);
      RunConcat(plan, s, es, rest);
      es := es + rest;
      SameThrough(s, decided, Sync.Run(plan, decided, rest), id);
      ItsWorker(s, Sync.Run(plan, decided, rest), id);
      SyncedIsAtTarget(plan, Sync.Run(plan, decided, rest), id);
    }
  }

  lemma ItsWorker(s: Sync.State, s': Sync.State, id: JobId)
    requires OthersSame(s, s', id)
    ensures id in s'.workers && s'.local == s.local
  {
  }

  lemma StartIsSound(plan: Plan, r: Remote)
    requires WellPlanned(plan) && TempsArePrefixes(plan.cfg, r)
    ensures Sound(plan, r, Sync.Start(plan, r)) && NoneUploading(Sync.Start(plan, r))
  {
    StartInv(plan, r);
  }
}
