/** Which tasks can still be acknowledged, and which never will be. */
module SyncProgress {
  import opened Paths
  import opened Upload
  import opened Sync

  // ---- Locks of a reachable state ---------------------------------------------------------

  /** Every stripe is held by a job on it. */
  ghost predicate HeldByJobs(cfg: Config, s: Upload.State) {
    forall k :: k in s.held ==> s.held[k] in s.jobs && cfg.stripe(s.jobs[s.held[k]].put.key) == k
  }

  lemma StepKeepsHeld(cfg: Config, s: Upload.State, e: Upload.Event)
    requires HeldByJobs(cfg, s)
    ensures HeldByJobs(cfg, Upload.Step(cfg, s, e))
  {
  }

  lemma {:induction false} RunKeepsHeld(plan: Plan, r: Remote, es: seq<Sync.Event>)
    ensures HeldByJobs(plan.cfg, Sync.Run(plan, Sync.Start(plan, r), es).up)
  {
    if es != [] {
      var s, e := Sync.Run(plan, Sync.Start(plan, r), es[..|es| - 1]), es[|es| - 1];
      RunKeepsHeld(plan, r, es[..|es| - 1]);
      RemoteAfterStep(plan, s, e);
      hide Sync.Step, Upload.Step, HeldByJobs;
      if IsTransferStep(plan, s, e) { StepKeepsHeld(plan.cfg, s.up, Inner(plan, s, e)); }
    }
  }

  lemma SyncStepKeepsHeld(plan: Plan, s: Sync.State, e: Sync.Event)
    requires HeldByJobs(plan.cfg, s.up)
    ensures HeldByJobs(plan.cfg, Sync.Step(plan, s, e).up)
  {
    RemoteAfterStep(plan, s, e);
    hide Sync.Step, Upload.Step, HeldByJobs;
    if IsTransferStep(plan, s, e) { StepKeepsHeld(plan.cfg, s.up, Inner(plan, s, e)); }
  }

  // ---- A worker that can go on by itself -----------------------------------------------------

  /** Nothing keeps a new upload of the task's file from starting. */
  predicate Startable(plan: Plan, s: Sync.State, t: TaskId)
    requires TaskOk(plan, t)
  {
    plan.tasks[t].file in s.local && plan.cfg.stripe(plan.tasks[t].target) !in s.up.held
  }

  /** The worker can bring its task to the end with no one else's help: in particular, without the
      file once the remote file is open, or if the temporary file was found complete. */
  predicate Able(plan: Plan, s: Sync.State, id: JobId)
    requires id in s.workers
  {
    var t, stage := s.workers[id].task, s.workers[id].stage;
    && TaskOk(plan, t)
    && match stage
       case Taken => Startable(plan, s, t)
       case Sized(n) => Startable(plan, s, t)
           || (plan.tasks[t].file !in s.local && Decide(plan, s.up.remote, t, n).Synced?)
       case Wanting => Startable(plan, s, t)
       case Uploading => id in s.up.jobs && PhaseAble(plan, s, t, s.up.jobs[id].phase)
       case Synced => true
       case Deleted => true
  }

  predicate PhaseAble(plan: Plan, s: Sync.State, t: TaskId, phase: Phase)
    requires TaskOk(plan, t)
  {
    var temp := plan.cfg.temp(PutOf(plan, t));
    match phase
    case Locked => plan.tasks[t].file in s.local || Resume(plan.cfg, s.up.remote, PutOf(plan, t)).Renaming?
    case Opening(offset) => plan.tasks[t].file in s.local && (offset == 0 || temp in s.up.remote)
    case Copying(_, _) => temp in s.up.remote
    case Renaming => temp in s.up.remote
    case Renamed => true
  }

  function NextPhaseEvent(id: JobId, job: Job): Sync.Event {
    match job.phase
    case Locked => Transfer(id, Stat(id))
    case Opening(_) => Transfer(id, Open(id))
    case Copying(pos, _) =>
      if pos < |job.put.content| then Transfer(id, Write(id, |job.put.content| - pos)) else Transfer(id, CloseFile(id))
    case Renaming => Transfer(id, Upload.Rename(id))
    case Renamed => EndUpload(id)
  }

  function NextEvent(plan: Plan, s: Sync.State, id: JobId): Sync.Event
    requires id in s.workers && Able(plan, s, id)
  {
    match s.workers[id].stage
    case Taken => StatLocal(id)
    case Sized(_) => StatTarget(id)
    case Wanting => BeginUpload(id)
    case Uploading => NextPhaseEvent(id, s.up.jobs[id])
    case Synced => if plan.tasks[s.workers[id].task].deleteAfter then Delete(id, false) else Ack(id)
    case Deleted => Ack(id)
  }

  function Rank(plan: Plan, s: Sync.State, id: JobId): nat
    requires id in s.workers && Able(plan, s, id)
  {
    match s.workers[id].stage
    case Taken => 10
    case Sized(_) => 9
    case Wanting => 8
    case Uploading => PhaseRank(s.up.jobs[id])
    case Synced => 1
    case Deleted => 0
  }

  function PhaseRank(job: Job): (r: nat)
    ensures 2 <= r <= 7
  {
    match job.phase
    case Locked => 7
    case Opening(_) => 6
    case Copying(pos, _) => if pos < |job.put.content| then 5 else 4
    case Renaming => 3
    case Renamed => 2
  }

  /** The worker is still able, with less to do, or gone with its task done. */
  ghost predicate Nearer(plan: Plan, s: Sync.State, s': Sync.State, id: JobId)
    requires id in s.workers && Able(plan, s, id)
  {
    || (id !in s'.workers && s.workers[id].task in s'.done)
    || (&& id in s'.workers && s'.workers[id].task == s.workers[id].task
        && Able(plan, s', id) && Rank(plan, s', id) < Rank(plan, s, id))
  }

  /** What the invariant says of a worker, whatever its task's target is shared with. */
  lemma WorkerFacts(plan: Plan, r: Remote, s: Sync.State, id: JobId)
    requires Sync.Inv(plan, r, s) && id in s.workers
    ensures var t, stage := s.workers[id].task, s.workers[id].stage;
      && TaskOk(plan, t) && (id in s.up.jobs <==> stage.Uploading?)
      && (stage.Sized? ==> !plan.tasks[t].overwrite && stage.size == |PutOf(plan, t).content|)
      && (stage.Uploading? ==> s.up.jobs[id].put == PutOf(plan, t))
      && (plan.tasks[t].file in s.local ==> s.local[plan.tasks[t].file] == PutOf(plan, t).content)
  {
    assert WorkerInv(plan, r, s, id) && TaskInv(plan, r, s, s.workers[id].task);
  }

  lemma StatLocalAfter(plan: Plan, s: Sync.State, e: Sync.Event)
    requires Sync.Enabled(plan, s, e) && e.StatLocal?
    ensures var s', task := Sync.Step(plan, s, e), plan.tasks[s.workers[e.id].task];
      && s'.up == s.up && s'.local == s.local && s'.done == s.done
      && s'.workers == s.workers[e.id :=
           s.workers[e.id].(stage := if task.overwrite then Wanting else Sized(|s.local[task.file]|))]
  {
    hide Upload.Enabled;
  }

  lemma TakenStep(plan: Plan, s: Sync.State, id: JobId)
    requires id in s.workers && Able(plan, s, id) && s.workers[id].stage.Taken?
    ensures Nearer(plan, s, Sync.Step(plan, s, StatLocal(id)), id)
  {
    assert Sync.Enabled(plan, s, StatLocal(id));
    StatLocalAfter(plan, s, StatLocal(id));
    hide Sync.Step, Sync.Enabled, Decide;
  }

  lemma SizedStep(plan: Plan, s: Sync.State, id: JobId)
    requires id in s.workers && Able(plan, s, id) && s.workers[id].stage.Sized?
    ensures Nearer(plan, s, Sync.Step(plan, s, StatTarget(id)), id)
  {
    var t, n := s.workers[id].task, s.workers[id].stage.size;
    assert Sync.Enabled(plan, s, StatTarget(id));
    assert Decide(plan, s.up.remote, t, n) == Synced || Decide(plan, s.up.remote, t, n) == Wanting;
    StatTargetAfter(plan, s, StatTarget(id));
    StatTargetLeaves(plan, s, id);
    hide Sync.Step, Sync.Enabled, Decide;
  }

  lemma StatTargetLeaves(plan: Plan, s: Sync.State, id: JobId)
    ensures var s' := Sync.Step(plan, s, StatTarget(id)); s'.local == s.local && s'.done == s.done
  {
    hide Decide, Upload.Enabled;
  }

  lemma DecidingStep(plan: Plan, s: Sync.State, id: JobId)
    requires id in s.workers && Able(plan, s, id)
    requires s.workers[id].stage.Taken? || s.workers[id].stage.Sized?
    ensures Nearer(plan, s, Sync.Step(plan, s, NextEvent(plan, s, id)), id)
  {
    hide Sync.Step, Able;
    if s.workers[id].stage.Taken? { TakenStep(plan, s, id); } else { SizedStep(plan, s, id); }
  }

  lemma BeginningStep(plan: Plan, r: Remote, s: Sync.State, id: JobId)
    requires Sync.Inv(plan, r, s) && id in s.workers && Able(plan, s, id) && s.workers[id].stage.Wanting?
    ensures Nearer(plan, s, Sync.Step(plan, s, NextEvent(plan, s, id)), id)
  {
    WorkerFacts(plan, r, s, id);
    hide Sync.Inv;
  }

  lemma EndingStep(plan: Plan, s: Sync.State, id: JobId)
    requires id in s.workers && Able(plan, s, id)
    requires s.workers[id].stage.Synced? || s.workers[id].stage.Deleted?
    ensures Nearer(plan, s, Sync.Step(plan, s, NextEvent(plan, s, id)), id)
  {
    hide Upload.Step, Upload.Enabled;
  }

  function PhaseAfter(cfg: Config, s: Upload.State, job: Job, e: Upload.Event): Phase {
    match e
    case Stat(_) => Resume(cfg, s.remote, job.put)
    case Open(_) => if job.phase.Opening? then Copying(job.phase.offset, job.phase.offset > 0) else job.phase
    case Write(_, n) => if job.phase.Copying? then Copying(job.phase.pos + n, job.phase.append) else job.phase
    case CloseFile(_) => Renaming
    case Rename(_) => Renamed
    case _ => job.phase
  }

  lemma NextPhase(cfg: Config, s: Upload.State, id: JobId, e: Upload.Event)
    requires id in s.jobs && Upload.Enabled(cfg, s, e) && e.id == id && !e.Begin? && !e.Abort? && !e.Finish?
    ensures var s', job := Upload.Step(cfg, s, e), s.jobs[id];
      && id in s'.jobs && s'.jobs[id].put == job.put && s'.jobs[id].phase == PhaseAfter(cfg, s, job, e)
      && (!e.Rename? && (cfg.temp(job.put) in s.remote || e.Open?) ==> cfg.temp(job.put) in s'.remote)
  {
  }

  lemma UploadingFacts(plan: Plan, r: Remote, s: Sync.State, id: JobId)
    requires Sync.Inv(plan, r, s) && id in s.workers && s.workers[id].stage.Uploading?
    ensures var t := s.workers[id].task;
      && TaskOk(plan, t) && id in s.up.jobs && s.up.jobs[id].put == PutOf(plan, t)
      && PhaseInv(plan.cfg, s.up.remote, PutOf(plan, t), s.up.jobs[id].phase)
  {
    WorkerFacts(plan, r, s, id);
    assert JobInv(plan.cfg, s.up, id);
  }

  lemma TransferStep(plan: Plan, s: Sync.State, id: JobId, inner: Upload.Event)
    requires Sync.Enabled(plan, s, Transfer(id, inner))
    ensures Sync.Step(plan, s, Transfer(id, inner)) == UploadStep(plan, s, inner)
  {
    hide Upload.Step, Upload.Enabled;
  }

  /** In its next phase an able job is able, and nearer its end. */
  lemma NextPhaseIsNearer(plan: Plan, s: Sync.State, s': Sync.State, t: TaskId, job: Job)
    requires TaskOk(plan, t) && job.put == PutOf(plan, t) && !job.phase.Renamed?
    requires PhaseInv(plan.cfg, s.up.remote, job.put, job.phase) && PhaseAble(plan, s, t, job.phase)
    requires var e := NextPhaseEvent(0, job).inner;
      && s'.local == s.local
      && (!e.Rename? && (plan.cfg.temp(job.put) in s.up.remote || e.Open?) ==> plan.cfg.temp(job.put) in s'.up.remote)
    ensures var phase := PhaseAfter(plan.cfg, s.up, job, NextPhaseEvent(0, job).inner);
      PhaseAble(plan, s', t, phase) && PhaseRank(Job(job.put, phase)) < PhaseRank(job)
  {
  }

  lemma PhaseEventIsEnabled(plan: Plan, s: Sync.State, id: JobId, t: TaskId)
    requires id in s.workers && s.workers[id] == Worker(t, Uploading) && TaskOk(plan, t)
    requires id in s.up.jobs && s.up.jobs[id].put == PutOf(plan, t)
    requires PhaseInv(plan.cfg, s.up.remote, PutOf(plan, t), s.up.jobs[id].phase)
    requires PhaseAble(plan, s, t, s.up.jobs[id].phase)
    ensures Sync.Enabled(plan, s, NextPhaseEvent(id, s.up.jobs[id]))
  {
  }

  lemma BecomesNearer(plan: Plan, s: Sync.State, s': Sync.State, id: JobId)
    requires id in s.workers && Able(plan, s, id) && s.workers[id].stage.Uploading? && s'.workers == s.workers
    requires id in s'.up.jobs && PhaseAble(plan, s', s.workers[id].task, s'.up.jobs[id].phase)
    requires PhaseRank(s'.up.jobs[id]) < PhaseRank(s.up.jobs[id])
    ensures Nearer(plan, s, s', id)
  {
    hide PhaseAble, PhaseRank;
  }

  lemma TransferIsNearer(plan: Plan, s: Sync.State, id: JobId)
    requires id in s.workers && Able(plan, s, id) && s.workers[id].stage.Uploading? && !s.up.jobs[id].phase.Renamed?
    requires s.up.jobs[id].put == PutOf(plan, s.workers[id].task)
    requires PhaseInv(plan.cfg, s.up.remote, s.up.jobs[id].put, s.up.jobs[id].phase)
    requires Sync.Enabled(plan, s, NextPhaseEvent(id, s.up.jobs[id]))
    ensures Nearer(plan, s, Sync.Step(plan, s, NextPhaseEvent(id, s.up.jobs[id])), id)
  {
    var t, job, e := s.workers[id].task, s.up.jobs[id], NextPhaseEvent(id, s.up.jobs[id]);
    assert e.Transfer? && e.inner.id == id && !e.inner.Begin? && !e.inner.Abort? && !e.inner.Finish?;
    var like := NextPhaseEvent(0, job).inner;
    assert PhaseAfter(plan.cfg, s.up, job, e.inner) == PhaseAfter(plan.cfg, s.up, job, like);
    assert (e.inner.Rename? <==> like.Rename?) && (e.inner.Open? <==> like.Open?);
    assert PhaseAble(plan, s, t, job.phase);
    hide *;
    TransferIsEnabled(plan, s, id, e.inner);
    NextPhase(plan.cfg, s.up, id, e.inner);
    TransferStep(plan, s, id, e.inner);
    var s' := Sync.Step(plan, s, e);
    TransferLeaves(plan, s, e.inner);
    NextPhaseIsNearer(plan, s, s', t, job);
    assert s'.up.jobs[id] == Job(job.put, PhaseAfter(plan.cfg, s.up, job, like));
    BecomesNearer(plan, s, s', id);
  }

  lemma EndingUploadStep(plan: Plan, s: Sync.State, id: JobId)
    requires id in s.workers && Able(plan, s, id) && s.workers[id].stage.Uploading? && s.up.jobs[id].phase.Renamed?
    ensures Nearer(plan, s, Sync.Step(plan, s, EndUpload(id)), id)
  {
    hide Upload.Step;
  }

  lemma UploadingStep(plan: Plan, r: Remote, s: Sync.State, id: JobId)
    requires Sync.Inv(plan, r, s) && id in s.workers && Able(plan, s, id)
    requires s.workers[id].stage.Uploading?
    ensures Nearer(plan, s, Sync.Step(plan, s, NextEvent(plan, s, id)), id)
  {
    assert id in s.up.jobs && PhaseAble(plan, s, s.workers[id].task, s.up.jobs[id].phase);
    assert NextEvent(plan, s, id) == NextPhaseEvent(id, s.up.jobs[id]);
    assert s.up.jobs[id].phase.Renamed? ==> NextPhaseEvent(id, s.up.jobs[id]) == EndUpload(id);
    hide *;
    UploadingFacts(plan, r, s, id);
    PhaseEventIsEnabled(plan, s, id, s.workers[id].task);
    if s.up.jobs[id].phase.Renamed? { EndingUploadStep(plan, s, id); } else { TransferIsNearer(plan, s, id); }
  }

  lemma TransferIsEnabled(plan: Plan, s: Sync.State, id: JobId, inner: Upload.Event)
    requires Sync.Enabled(plan, s, Transfer(id, inner))
    ensures Upload.Enabled(plan.cfg, s.up, inner) && IsTransfer(id, inner)
  {
    hide Upload.Enabled;
  }

  lemma AbleStep(plan: Plan, r: Remote, s: Sync.State, id: JobId)
    requires WellPlanned(plan) && Sync.Inv(plan, r, s) && id in s.workers && Able(plan, s, id)
    ensures Nearer(plan, s, Sync.Step(plan, s, NextEvent(plan, s, id)), id)
  {
    var stage := s.workers[id].stage;
    hide *;
    if stage.Uploading? { UploadingStep(plan, r, s, id); }
    else if stage.Synced? || stage.Deleted? { EndingStep(plan, s, id); }
    else if stage.Wanting? { BeginningStep(plan, r, s, id); }
    else { DecidingStep(plan, s, id); }
  }

  lemma {:induction false} RunCons(plan: Plan, s: Sync.State, e: Sync.Event, es: seq<Sync.Event>)
    ensures Sync.Run(plan, s, [e] + es) == Sync.Run(plan, Sync.Step(plan, s, e), es)
    decreases |es|
  {
    hide Sync.Step;
    if es == [] {
      assert ([e] + es)[..0] == [] && [e] + es == [e];
      assert Sync.Run(plan, s, [e]) == Sync.Step(plan, s, e);
    } else {
      RunCons(plan, s, e, es[..|es| - 1]);
      assert ([e] + es)[..|[e] + es| - 1] == [e] + es[..|es| - 1];
    }
  }

  lemma {:induction false} AbleWorkerEnds(plan: Plan, r: Remote, s: Sync.State, id: JobId) returns (es: seq<Sync.Event>)
    requires WellPlanned(plan) && Sync.Inv(plan, r, s) && id in s.workers && Able(plan, s, id)
    ensures s.workers[id].task in Sync.Run(plan, s, es).done
    decreases Rank(plan, s, id)
  {
    var e := NextEvent(plan, s, id);
    var s' := Sync.Step(plan, s, e);
    AbleStep(plan, r, s, id);
    StepKeepsPlan(plan, r, s, e);
    hide Sync.Inv, WellPlanned, Sync.Step, Able, NextEvent, Rank;
    if id !in s'.workers {
      es := [e];
      RunCons(plan, s, e, []);
      assert [e] + [] == [e];
    } else {
      var rest := AbleWorkerEnds(plan, r, s', id);
      RunCons(plan, s, e, rest);
      es := [e] + rest;
    }
  }

  // ---- Starting over -------------------------------------------------------------------------

  function KeepOnly(workers: map<JobId, Worker>, kept: set<JobId>): map<JobId, Worker> {
    map id | id in workers && id in kept :: workers[id]
  }

  lemma KeepOnlyLess(workers: map<JobId, Worker>, kept: set<JobId>, id: JobId)
    requires id in workers && id !in kept
    ensures KeepOnly(workers - {id}, kept) == KeepOnly(workers, kept) && |workers - {id}| < |workers|
  {
    assert (workers - {id}).Keys == workers.Keys - {id};
    assert |workers - {id}| == |(workers - {id}).Keys| && |workers| == |workers.Keys|;
  }

  lemma KeepOnlyAll(workers: map<JobId, Worker>, kept: set<JobId>)
    requires workers.Keys <= kept
    ensures KeepOnly(workers, kept) == workers
  {
  }

  /** Every worker but those kept crashes. */
  lemma {:induction false} CrashAllBut(plan: Plan, r: Remote, s: Sync.State, kept: set<JobId>)
    returns (es: seq<Sync.Event>)
    requires WellPlanned(plan) && Sync.Inv(plan, r, s) && HeldByJobs(plan.cfg, s.up)
    ensures var s' := Sync.Run(plan, s, es);
      && s'.workers == KeepOnly(s.workers, kept) && s'.local == s.local && s'.up.remote == s.up.remote
      && Sync.Inv(plan, r, s') && HeldByJobs(plan.cfg, s'.up)
    decreases |s.workers|
  {
    hide *;
    if id :| id in s.workers && id !in kept {
      var s' := Sync.Step(plan, s, Crash(id));
      CrashStep(plan, r, s, id);
      StepKeepsPlan(plan, r, s, Crash(id));
      SyncStepKeepsHeld(plan, s, Crash(id));
      KeepOnlyLess(s.workers, kept, id);
      var rest := CrashAllBut(plan, r, s', kept);
      RunCons(plan, s, Crash(id), rest);
      es := [Crash(id)] + rest;
    } else {
      es := [];
      NoMore(plan, s);
      KeepOnlyAll(s.workers, kept);
    }
  }

  lemma AbortLeavesRemote(cfg: Config, s: Upload.State, id: JobId)
    ensures Upload.Step(cfg, s, Abort(id)).remote == s.remote
  {
  }

  lemma CrashAfter(plan: Plan, s: Sync.State, id: JobId)
    requires id in s.workers && TaskOk(plan, s.workers[id].task)
    ensures var s' := Sync.Step(plan, s, Crash(id));
      s'.workers == s.workers - {id} && s'.local == s.local && s'.up.remote == s.up.remote
  {
    AbortLeavesRemote(plan.cfg, s.up, id);
    hide Upload.Step, Upload.Enabled, Decide, IsTransfer, TargetOf, PutOf;
  }

  lemma CrashStep(plan: Plan, r: Remote, s: Sync.State, id: JobId)
    requires Sync.Inv(plan, r, s) && id in s.workers
    ensures var s' := Sync.Step(plan, s, Crash(id));
      s'.workers == s.workers - {id} && s'.local == s.local && s'.up.remote == s.up.remote
  {
    hide *;
    WorkerFacts(plan, r, s, id);
    CrashAfter(plan, s, id);
  }

  lemma NothingHeld(plan: Plan, r: Remote, s: Sync.State)
    requires Sync.Inv(plan, r, s) && HeldByJobs(plan.cfg, s.up) && s.workers == map[]
    ensures s.up.held == map[]
  {
    assert s.up.jobs.Keys <= s.workers.Keys;
  }

  lemma DeliverStep(plan: Plan, s: Sync.State, t: TaskId)
    requires TaskOk(plan, t) && s.workers == map[] && s.up.held == map[] && plan.tasks[t].file in s.local
    ensures var s' := Sync.Step(plan, s, Deliver(0, t)); 0 in s'.workers && s'.workers[0].task == t && Able(plan, s', 0)
  {
  }

  lemma {:induction false} RunConcat(plan: Plan, s: Sync.State, es: seq<Sync.Event>, fs: seq<Sync.Event>)
    ensures Sync.Run(plan, s, es + fs) == Sync.Run(plan, Sync.Run(plan, s, es), fs)
    decreases |fs|
  {
    hide Sync.Step;
    if fs == [] {
      assert es + fs == es;
    } else {
      RunConcat(plan, s, es, fs[..|fs| - 1]);
      assert (es + fs)[..|es + fs| - 1] == es + fs[..|fs| - 1];
    }
  }

  lemma FileInPlaceEnds(plan: Plan, r: Remote, s: Sync.State, t: TaskId) returns (es: seq<Sync.Event>)
    requires WellPlanned(plan) && Sync.Inv(plan, r, s) && HeldByJobs(plan.cfg, s.up)
    requires TaskOk(plan, t) && plan.tasks[t].file in s.local
    ensures t in Sync.Run(plan, s, es).done
  {
    hide Sync.Inv, WellPlanned, Sync.Step, HeldByJobs, Able, Sync.Run;
    var crash := CrashAllBut(plan, r, s, {});
    assert Sync.Run(plan, s, crash).workers == map[];
    var idle := Sync.Run(plan, s, crash);
    NothingHeld(plan, r, idle);
    DeliverStep(plan, idle, t);
    StepKeepsPlan(plan, r, idle, Deliver(0, t));
    var rest := AbleWorkerEnds(plan, r, Sync.Step(plan, idle, Deliver(0, t)), 0);
    RunCons(plan, idle, Deliver(0, t), rest);
    RunConcat(plan, s, crash, [Deliver(0, t)] + rest);
    es := crash + ([Deliver(0, t)] + rest);
  }

  // ---- Workers that cannot go on -----------------------------------------------------------------

  /** Two jobs on one put would hold one lock. */
  lemma OneJobPerPut(cfg: Config, s: Upload.State, a: JobId, b: JobId)
    requires Upload.Inv(cfg, s) && a in s.jobs && b in s.jobs
    ensures s.jobs[a].put == s.jobs[b].put ==> a == b
  {
    assert JobInv(cfg, s, a) && JobInv(cfg, s, b);
  }

  lemma OtherTemps(plan: Plan, r: Remote, s: Sync.State, a: JobId, b: JobId)
    requires WellPlanned(plan) && Sync.Inv(plan, r, s) && a in s.workers && a in s.up.jobs && b in s.up.jobs && a != b
    ensures b in s.workers && TaskOk(plan, s.workers[a].task)
    ensures plan.cfg.temp(s.up.jobs[b].put) != plan.cfg.temp(PutOf(plan, s.workers[a].task))
  {
    assert WorkerInv(plan, r, s, a) && WorkerInv(plan, r, s, b);
    var t, u := s.workers[a].task, s.workers[b].task;
    assert PutOf(plan, t) in plan.cfg.work && PutOf(plan, u) in plan.cfg.work;
    OneJobPerPut(plan.cfg, s.up, a, b);
    SpelledAlike(plan, t, u);
  }

  lemma SpelledAlike(plan: Plan, t: TaskId, u: TaskId)
    requires WellPlanned(plan) && TaskOk(plan, t) && TaskOk(plan, u)
    ensures TargetOf(plan, t) == TargetOf(plan, u) ==> plan.tasks[t].target == plan.tasks[u].target
  {
    if t != u { assert t < u || u < t; }
  }

  /** Another job's step leaves the temporary file of a job of t alone. */
  lemma OthersLeaveTemp(plan: Plan, r: Remote, s: Sync.State, e: Upload.Event, id: JobId)
    requires WellPlanned(plan) && Sync.Inv(plan, r, s) && Upload.Enabled(plan.cfg, s.up, e)
    requires id in s.workers && s.workers[id].stage.Uploading? && e.id != id
    ensures TaskOk(plan, s.workers[id].task)
    ensures var temp := plan.cfg.temp(PutOf(plan, s.workers[id].task));
      At(Upload.Step(plan.cfg, s.up, e).remote, temp) == At(s.up.remote, temp)
  {
    UploadingFacts(plan, r, s, id);
    var temp := plan.cfg.temp(PutOf(plan, s.workers[id].task));
    if !e.Begin? {
      OtherTemps(plan, r, s, id, e.id);
      assert JobInv(plan.cfg, s.up, e.id);
      assert temp != plan.cfg.target(s.up.jobs[e.id].put);
    }
    hide Upload.Step, Upload.Enabled, Sync.Inv;
    StepFrame(plan.cfg, s.up, e, temp);
  }

  lemma UnableStays(plan: Plan, s: Sync.State, s': Sync.State, t: TaskId, phase: Phase)
    requires TaskOk(plan, t) && plan.tasks[t].file !in s.local && plan.tasks[t].file !in s'.local
    requires var temp := plan.cfg.temp(PutOf(plan, t)); At(s'.up.remote, temp) == At(s.up.remote, temp)
    requires !PhaseAble(plan, s, t, phase)
    ensures !PhaseAble(plan, s', t, phase)
  {
  }

  /** What a step does to a worker other than its own. */
  lemma OtherWorkerAfter(plan: Plan, s: Sync.State, e: Sync.Event, id: JobId)
    requires id in s.workers && e.id != id
    ensures var s' := Sync.Step(plan, s, e); id in s'.workers && s'.workers[id] == s.workers[id]
  {
    hide Upload.Step, Upload.Enabled;
  }

  lemma LocalShrinks(plan: Plan, s: Sync.State, e: Sync.Event)
    ensures Sync.Step(plan, s, e).local.Keys <= s.local.Keys
  {
    hide Upload.Step, Upload.Enabled;
  }

  lemma OtherStaysUnable(plan: Plan, r: Remote, s: Sync.State, e: Sync.Event, id: JobId)
    requires WellPlanned(plan) && Sync.Inv(plan, r, s) && id in s.workers && e.id != id && !s.workers[id].stage.Sized?
    requires TaskOk(plan, s.workers[id].task)
    requires !Able(plan, s, id) && plan.tasks[s.workers[id].task].file !in s.local
    ensures id in Sync.Step(plan, s, e).workers && !Able(plan, Sync.Step(plan, s, e), id)
  {
    var s', t := Sync.Step(plan, s, e), s.workers[id].task;
    OtherWorkerAfter(plan, s, e, id);
    LocalShrinks(plan, s, e);
    hide Sync.Step, Upload.Step, Sync.Inv, WellPlanned, PhaseAble, Sync.Enabled, Upload.Enabled, Decide;
    RemoteAfterStep(plan, s, e);
    if s.workers[id].stage.Uploading? {
      UploadingFacts(plan, r, s, id);
      if IsTransferStep(plan, s, e) {
        InnerIsEnabled(plan, r, s, e);
        OthersLeaveTemp(plan, r, s, Inner(plan, s, e), id);
        JobsFrame(plan.cfg, s.up, Inner(plan, s, e), id);
      }
      UnableStays(plan, s, s', t, s.up.jobs[id].phase);
    }
  }

  /** An unable job gets no nearer by its own steps. */
  lemma UnableTransfer(plan: Plan, s: Sync.State, t: TaskId, id: JobId, inner: Upload.Event)
    requires TaskOk(plan, t) && plan.tasks[t].file !in s.local && id in s.up.jobs && s.up.jobs[id].put == PutOf(plan, t)
    requires IsTransfer(id, inner) && !inner.Open? && Upload.Enabled(plan.cfg, s.up, inner)
    requires !PhaseAble(plan, s, t, s.up.jobs[id].phase)
    ensures var s' := UploadStep(plan, s, inner); id in s'.up.jobs && !PhaseAble(plan, s', t, s'.up.jobs[id].phase)
  {
  }

  /** Nor does an unable worker by what it does before or after uploading. */
  lemma UnableDecision(plan: Plan, s: Sync.State, e: Sync.Event)
    requires Sync.Enabled(plan, s, e) && e.id in s.workers && !e.Transfer? && !s.workers[e.id].stage.Sized?
    requires !Able(plan, s, e.id) && TaskOk(plan, s.workers[e.id].task)
    requires plan.tasks[s.workers[e.id].task].file !in s.local
    requires s.workers[e.id].stage.Uploading? ==> e.id in s.up.jobs
    ensures var s' := Sync.Step(plan, s, e); e.id in s'.workers ==> !Able(plan, s', e.id)
  {
    hide Upload.Step, Decide;
  }

  lemma UnableAgain(plan: Plan, s: Sync.State, s': Sync.State, id: JobId)
    requires id in s.workers && s'.workers == s.workers && s.workers[id].stage.Uploading?
    requires TaskOk(plan, s.workers[id].task) && id in s'.up.jobs
    requires !PhaseAble(plan, s', s.workers[id].task, s'.up.jobs[id].phase)
    ensures !Able(plan, s', id)
  {
    hide PhaseAble;
  }

  lemma OwnStaysUnable(plan: Plan, r: Remote, s: Sync.State, e: Sync.Event)
    requires Sync.Inv(plan, r, s) && Sync.Enabled(plan, s, e) && e.id in s.workers
    requires !s.workers[e.id].stage.Sized? && TaskOk(plan, s.workers[e.id].task)
    requires !Able(plan, s, e.id) && plan.tasks[s.workers[e.id].task].file !in s.local
    ensures var s' := Sync.Step(plan, s, e); e.id in s'.workers ==> !Able(plan, s', e.id)
  {
    var t, s' := s.workers[e.id].task, Sync.Step(plan, s, e);
    WorkerFacts(plan, r, s, e.id);
    if e.Transfer? {
      assert s.workers[e.id].stage.Uploading? && !e.inner.Open?;
      assert !PhaseAble(plan, s, t, s.up.jobs[e.id].phase);
      hide *;
      TransferStep(plan, s, e.id, e.inner);
      TransferIsEnabled(plan, s, e.id, e.inner);
      TransferLeaves(plan, s, e.inner);
      UnableTransfer(plan, s, t, e.id, e.inner);
      UnableAgain(plan, s, s', e.id);
    } else {
      hide *;
      UnableDecision(plan, s, e);
    }
  }

  lemma WorkersAfter(plan: Plan, s: Sync.State, e: Sync.Event, id: JobId)
    requires id in Sync.Step(plan, s, e).workers
    ensures var s' := Sync.Step(plan, s, e);
      && (id in s.workers ==> s'.workers[id].task == s.workers[id].task)
      && (id !in s.workers ==> s'.workers[id].stage.Taken? && TaskOk(plan, s'.workers[id].task))
  {
    hide Upload.Step, Upload.Enabled;
  }

  lemma DoneAfter(plan: Plan, s: Sync.State, e: Sync.Event, t: TaskId)
    requires t in Sync.Step(plan, s, e).done && t !in s.done
    ensures e.id in s.workers && s.workers[e.id].task == t && Able(plan, s, e.id)
  {
    hide Upload.Step, Upload.Enabled;
  }

  lemma NoMore(plan: Plan, s: Sync.State)
    ensures Sync.Run(plan, s, []) == s
  {
  }
}
