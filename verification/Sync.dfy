/** Sync tasks run by any number of workers over the upload machine: delivered at least once,
    in any interleaving, with crashes between any two steps. */
module Sync {
  import opened Paths
  import opened Upload

  /** A file is named by its path below the published directory. */
  type File = seq<string>
  type TaskId = nat

  datatype Task = Task(file: File, target: Path, deleteAfter: bool, overwrite: bool)

  /** The published tasks, the contents their files were published with, and the backend. */
  datatype Plan = Plan(tasks: seq<Task>, source: map<File, Bytes>, cfg: Config)

  datatype Stage =
    | Taken                // delivered to a worker
    | Sized(size: nat)     // local size known, target not yet looked at
    | Wanting              // decided to upload, or about to try again
    | Uploading
    | Synced               // uploaded or skipped
    | Deleted              // local deletion tried

  datatype Worker = Worker(task: TaskId, stage: Stage)

  datatype State = State(up: Upload.State, local: map<File, Bytes>, workers: map<JobId, Worker>, done: set<TaskId>)

  datatype Event =
    | Deliver(id: JobId, task: TaskId)
    | StatLocal(id: JobId)
    | StatTarget(id: JobId)
    | BeginUpload(id: JobId)
    | Transfer(id: JobId, inner: Upload.Event)
    | EndUpload(id: JobId)
    | FailUpload(id: JobId)           // a failed attempt that the retry loop will repeat
    | Delete(id: JobId, removed: bool)
    | Ack(id: JobId)
    | Crash(id: JobId)                // the task fails or its process dies

  // ---- The steps -----------------------------------------------------------------------

  predicate TaskOk(plan: Plan, t: TaskId) {
    t < |plan.tasks| && plan.tasks[t].file in plan.source
  }

  function PutOf(plan: Plan, t: TaskId): Put
    requires TaskOk(plan, t)
  {
    Put(plan.tasks[t].target, plan.source[plan.tasks[t].file])
  }

  function TargetOf(plan: Plan, t: TaskId): Path
    requires TaskOk(plan, t)
  {
    plan.cfg.target(PutOf(plan, t))
  }

  function Become(s: State, id: JobId, stage: Stage): State
    requires id in s.workers
  {
    s.(workers := s.workers[id := s.workers[id].(stage := stage)])
  }

  function UploadStep(plan: Plan, s: State, e: Upload.Event): State {
    s.(up := Upload.Step(plan.cfg, s.up, e))
  }

  predicate IsTransfer(id: JobId, e: Upload.Event) {
    e.id == id && (e.Stat? || e.Open? || e.Write? || e.CloseFile? || e.Rename?)
  }

  predicate Enabled(plan: Plan, s: State, e: Event) {
    if e.Deliver? then
      e.id !in s.workers && TaskOk(plan, e.task)
    else
      && e.id in s.workers && TaskOk(plan, s.workers[e.id].task)
      && var stage, task := s.workers[e.id].stage, plan.tasks[s.workers[e.id].task];
      match e
      case Deliver(_, _) => false
      case StatLocal(_) => stage.Taken? && (task.overwrite || task.file in s.local)
      case StatTarget(_) => stage.Sized?
      case BeginUpload(_) => stage.Wanting? && task.file in s.local
          && Upload.Enabled(plan.cfg, s.up, Begin(e.id, Put(task.target, s.local[task.file])))
      case Transfer(_, inner) => stage.Uploading? && IsTransfer(e.id, inner)
          && (inner.Open? ==> task.file in s.local) && Upload.Enabled(plan.cfg, s.up, inner)
      case EndUpload(_) => stage.Uploading? && Upload.Enabled(plan.cfg, s.up, Finish(e.id))
      case FailUpload(_) => stage.Uploading?
      case Delete(_, _) => stage.Synced? && task.deleteAfter
      case Ack(_) => stage.Deleted? || (stage.Synced? && !task.deleteAfter)
      case Crash(_) => true
  }

  /** shouldUploadFile, once the local size is known. */
  function Decide(plan: Plan, remote: Remote, t: TaskId, size: nat): Stage
    requires TaskOk(plan, t)
  {
    if TargetOf(plan, t) in remote && |remote[TargetOf(plan, t)]| == size then Synced else Wanting
  }

  function Step(plan: Plan, s: State, e: Event): State {
    if !Enabled(plan, s, e) then s else
    match e
    case Deliver(id, t) => s.(workers := s.workers[id := Worker(t, Taken)])
    case StatLocal(id) =>
      var task := plan.tasks[s.workers[id].task];
      Become(s, id, if task.overwrite then Wanting else Sized(|s.local[task.file]|))
    case StatTarget(id) => Become(s, id, Decide(plan, s.up.remote, s.workers[id].task, s.workers[id].stage.size))
    case BeginUpload(id) =>
      var task := plan.tasks[s.workers[id].task];
      Become(UploadStep(plan, s, Begin(id, Put(task.target, s.local[task.file]))), id, Uploading)
    case Transfer(_, inner) => UploadStep(plan, s, inner)
    case EndUpload(id) => Become(UploadStep(plan, s, Finish(id)), id, Synced)
    case FailUpload(id) => Become(UploadStep(plan, s, Abort(id)), id, Wanting)
    case Delete(id, removed) =>
      var s' := Become(s, id, Deleted);
      if removed then s'.(local := s.local - {plan.tasks[s.workers[id].task].file}) else s'
    case Ack(id) => s.(workers := s.workers - {id}, done := s.done + {s.workers[id].task})
    case Crash(id) =>
      var s' := if s.workers[id].stage.Uploading? then UploadStep(plan, s, Abort(id)) else s;
      s'.(workers := s.workers - {id})
  }

  function Run(plan: Plan, s: State, es: seq<Event>): State {
    if es == [] then s else Step(plan, Run(plan, s, es[..|es| - 1]), es[|es| - 1])
  }

  /** A fresh process on a remote r, with every published file still in place. */
  function Start(plan: Plan, r: Remote): State {
    State.State(Upload.State.State(r, map[], map[], map[]), plan.source, map[], {})
  }

  // ---- What one successful run of a task leaves at its target -----------------------------

  datatype Value = Absent | Holds(content: Bytes)

  function At(r: Remote, p: Path): Value {
    if p in r then Holds(r[p]) else Absent
  }

  /** The target, as it was at first, does not make shouldUploadFile skip. */
  predicate NeedsPut(plan: Plan, r: Remote, t: TaskId)
    requires TaskOk(plan, t)
  {
    plan.tasks[t].overwrite || TargetOf(plan, t) !in r || |r[TargetOf(plan, t)]| != |PutOf(plan, t).content|
  }

  function Outcome(plan: Plan, r: Remote, t: TaskId): Value
    requires TaskOk(plan, t)
  {
    if NeedsPut(plan, r, t) then Holds(PutOf(plan, t).content) else At(r, TargetOf(plan, t))
  }

  // ---- Hypotheses --------------------------------------------------------------------------

  /** Tasks have files of their own, and spell the targets they share alike. */
  ghost predicate WellPlanned(plan: Plan) {
    && Separated(plan.cfg)
    && (forall t :: 0 <= t < |plan.tasks| ==> TaskOk(plan, t) && PutOf(plan, t) in plan.cfg.work)
    && (forall t, u :: 0 <= t < u < |plan.tasks| ==>
        && plan.tasks[t].file != plan.tasks[u].file
        && (TargetOf(plan, t) == TargetOf(plan, u) ==> plan.tasks[t].target == plan.tasks[u].target))
  }

  // ---- Tasks that share a target -----------------------------------------------------------

  ghost predicate SameTarget(plan: Plan, t: TaskId, u: TaskId) {
    TaskOk(plan, t) && TaskOk(plan, u) && TargetOf(plan, t) == TargetOf(plan, u)
  }

  /** Some run uploads the task's content: the target calls for it at first, or a task of the same
      target can put a content of other size there. */
  ghost predicate CanPut(plan: Plan, r: Remote, t: TaskId)
    requires TaskOk(plan, t)
  {
    || NeedsPut(plan, r, t)
    || exists u: TaskId :: SameTarget(plan, t, u) && |PutOf(plan, u).content| != |PutOf(plan, t).content|
  }

  /** No other content is ever put at the task's target. */
  ghost predicate Guarded(plan: Plan, r: Remote, t: TaskId)
    requires TaskOk(plan, t)
  {
    forall u: TaskId :: SameTarget(plan, t, u) && CanPut(plan, r, u) ==>
      PutOf(plan, u).content == PutOf(plan, t).content
  }

  /** What a target may hold in some run. */
  ghost predicate Reachable(plan: Plan, r: Remote, t: TaskId, v: Value)
    requires TaskOk(plan, t)
  {
    || v == At(r, TargetOf(plan, t))
    || exists u: TaskId :: SameTarget(plan, t, u) && CanPut(plan, r, u) && v == Holds(PutOf(plan, u).content)
  }

  /** The task's content is at its target, if it was needed there and no other can come. */
  ghost predicate Landed(plan: Plan, r: Remote, s: State, t: TaskId)
    requires TaskOk(plan, t)
  {
    Guarded(plan, r, t) && NeedsPut(plan, r, t) ==> At(s.up.remote, TargetOf(plan, t)) == Holds(PutOf(plan, t).content)
  }

  // ---- The invariant ---------------------------------------------------------------------

  ghost predicate WorkerInv(plan: Plan, r: Remote, s: State, id: JobId)
    requires id in s.workers
  {
    var t, stage := s.workers[id].task, s.workers[id].stage;
    && TaskOk(plan, t)
    && (id in s.up.jobs <==> stage.Uploading?)
    && match stage
       case Taken => true
       case Sized(n) => !plan.tasks[t].overwrite && n == |PutOf(plan, t).content|
       case Wanting => CanPut(plan, r, t)
       case Uploading => CanPut(plan, r, t) && s.up.jobs[id].put == PutOf(plan, t)
           && (s.up.jobs[id].phase == Renamed ==> Landed(plan, r, s, t))
       case Synced => Landed(plan, r, s, t)
       case Deleted => Landed(plan, r, s, t)
  }

  ghost predicate TaskInv(plan: Plan, r: Remote, s: State, t: TaskId)
    requires TaskOk(plan, t)
  {
    var file := plan.tasks[t].file;
    && Reachable(plan, r, t, At(s.up.remote, TargetOf(plan, t)))
    && (t in s.done || file !in s.local ==> Landed(plan, r, s, t))
    && (file in s.local ==> s.local[file] == plan.source[file])
    && (file !in s.local ==> plan.tasks[t].deleteAfter)
  }

  ghost predicate Inv(plan: Plan, r: Remote, s: State) {
    && Upload.Inv(plan.cfg, s.up)
    && s.up.jobs.Keys <= s.workers.Keys
    && (forall id :: id in s.workers ==> WorkerInv(plan, r, s, id))
    && (forall t: TaskId :: TaskOk(plan, t) ==> TaskInv(plan, r, s, t))
  }

  lemma StartInv(plan: Plan, r: Remote)
    requires WellPlanned(plan) && TempsArePrefixes(plan.cfg, r)
    ensures Inv(plan, r, Start(plan, r))
  {
  }

  // ---- One step of the upload machine under the workers ----------------------------------

  /** A rename puts the job's whole content at its target. */
  lemma RenameDelivers(cfg: Config, s: Upload.State, e: Upload.Event)
    requires Separated(cfg) && Upload.Inv(cfg, s) && Upload.Enabled(cfg, s, e) && e.Rename?
    ensures At(Upload.Step(cfg, s, e).remote, cfg.target(s.jobs[e.id].put)) == Holds(s.jobs[e.id].put.content)
  {
    assert JobInv(cfg, s, e.id);
  }

  /** A step leaves a path alone that is neither temporary nor the target of its rename. */
  lemma TransferFrame(cfg: Config, s: Upload.State, e: Upload.Event, p: Path)
    requires Upload.Inv(cfg, s) && Upload.Enabled(cfg, s, e)
    requires forall w :: w in cfg.work ==> cfg.temp(w) != p
    requires e.Rename? ==> cfg.target(s.jobs[e.id].put) != p
    ensures At(Upload.Step(cfg, s, e).remote, p) == At(s.remote, p)
  {
    if !e.Begin? { assert JobInv(cfg, s, e.id); }
    StepFrame(cfg, s, e, p);
    hide Upload.Step;
  }

  /** A transfer step changes no target but its own, which a rename sets to its task's content. */
  lemma TransferTarget(plan: Plan, r: Remote, s: State, e: Upload.Event, t: TaskId)
    requires WellPlanned(plan) && Inv(plan, r, s) && TaskOk(plan, t)
    requires Upload.Enabled(plan.cfg, s.up, e)
    ensures e.Rename? ==>
      e.id in s.workers && TaskOk(plan, s.workers[e.id].task) && CanPut(plan, r, s.workers[e.id].task)
    ensures var p, after := TargetOf(plan, t), Upload.Step(plan.cfg, s.up, e).remote;
      if e.Rename? && SameTarget(plan, t, s.workers[e.id].task)
      then At(after, p) == Holds(PutOf(plan, s.workers[e.id].task).content)
      else At(after, p) == At(s.up.remote, p)
  {
    hide Run, Upload.Step, Upload.Inv, CanPut, Guarded, Landed, Reachable;
    if e.Rename? {
      assert WorkerInv(plan, r, s, e.id);
      var u := s.workers[e.id].task;
      assert s.up.jobs[e.id].put == PutOf(plan, u);
      if SameTarget(plan, t, u) { RenameDelivers(plan.cfg, s.up, e); return; }
    }
    assert PutOf(plan, t) in plan.cfg.work;
    TransferFrame(plan.cfg, s.up, e, TargetOf(plan, t));
  }

  /** Targets stay within reach, and a content that has landed stays. */
  lemma TransferSettles(plan: Plan, r: Remote, s: State, e: Upload.Event, t: TaskId)
    requires WellPlanned(plan) && Inv(plan, r, s) && TaskOk(plan, t)
    requires Upload.Enabled(plan.cfg, s.up, e)
    ensures Reachable(plan, r, t, At(UploadStep(plan, s, e).up.remote, TargetOf(plan, t)))
    ensures Landed(plan, r, s, t) ==> Landed(plan, r, UploadStep(plan, s, e), t)
  {
    hide Upload.Step, Upload.Inv, Upload.Enabled, Separated, WorkerInv, CanPut, NeedsPut;
    assert TaskInv(plan, r, s, t);
    TransferTarget(plan, r, s, e, t);
  }

  /** A worker's invariant looks only at the worker, its job and whether its content has landed. */
  lemma LikeWorker(plan: Plan, r: Remote, s: State, s': State, id: JobId)
    requires id in s.workers && id in s'.workers && s.workers[id] == s'.workers[id] && WorkerInv(plan, r, s, id)
    requires (id in s'.up.jobs <==> id in s.up.jobs) && (id in s.up.jobs ==> s'.up.jobs[id] == s.up.jobs[id])
    requires Landed(plan, r, s, s.workers[id].task) ==> Landed(plan, r, s', s.workers[id].task)
    ensures WorkerInv(plan, r, s', id)
  {
    hide CanPut, Landed;
  }

  lemma OtherWorkerKeepsInv(plan: Plan, r: Remote, s: State, e: Upload.Event, id: JobId)
    requires WellPlanned(plan) && Inv(plan, r, s) && Upload.Enabled(plan.cfg, s.up, e)
    requires id in s.workers && id != e.id
    ensures WorkerInv(plan, r, UploadStep(plan, s, e), id)
  {
    assert WorkerInv(plan, r, s, id) && TaskOk(plan, s.workers[id].task);
    TransferLeaves(plan, s, e);
    hide *;
    JobsFrame(plan.cfg, s.up, e, id);
    TransferSettles(plan, r, s, e, s.workers[id].task);
    LikeWorker(plan, r, s, UploadStep(plan, s, e), id);
  }

  lemma TransferLeaves(plan: Plan, s: State, e: Upload.Event)
    ensures var s' := UploadStep(plan, s, e);
      s'.workers == s.workers && s'.local == s.local && s'.done == s.done && s'.up == Upload.Step(plan.cfg, s.up, e)
  {
  }

  lemma TransferKeepsTask(plan: Plan, r: Remote, s: State, e: Upload.Event, t: TaskId)
    requires WellPlanned(plan) && Inv(plan, r, s) && Upload.Enabled(plan.cfg, s.up, e) && TaskOk(plan, t)
    ensures TaskInv(plan, r, UploadStep(plan, s, e), t)
  {
    assert TaskInv(plan, r, s, t);
    hide Upload.Step, Upload.Inv, Separated, Landed, Reachable;
    TransferSettles(plan, r, s, e, t);
  }

  lemma TransferKeepsOthers(plan: Plan, r: Remote, s: State, e: Upload.Event)
    requires WellPlanned(plan) && Inv(plan, r, s)
    requires Upload.Enabled(plan.cfg, s.up, e) && (e.Begin? ==> e.put in plan.cfg.work)
    ensures var s' := UploadStep(plan, s, e);
      && Upload.Inv(plan.cfg, s'.up)
      && (forall id :: id in s.workers && id != e.id ==> WorkerInv(plan, r, s', id))
      && (forall t: TaskId :: TaskOk(plan, t) ==> TaskInv(plan, r, s', t))
  {
    hide Upload.Step, Upload.Inv, Separated, WorkerInv, TaskInv;
    var s' := UploadStep(plan, s, e);
    StepKeepsInv(plan.cfg, s.up, e);
    forall t: TaskId | TaskOk(plan, t) ensures TaskInv(plan, r, s', t) { TransferKeepsTask(plan, r, s, e, t); }
    forall id | id in s.workers && id != e.id ensures WorkerInv(plan, r, s', id) {
      OtherWorkerKeepsInv(plan, r, s, e, id);
    }
  }

  // ---- Every step keeps the invariant -------------------------------------------------------

  /** A worker's invariant looks only at the worker and the upload machine. */
  lemma SameWorker(plan: Plan, r: Remote, s: State, s': State, id: JobId)
    requires s'.up == s.up && id in s.workers && id in s'.workers && s.workers[id] == s'.workers[id]
    requires WorkerInv(plan, r, s, id)
    ensures WorkerInv(plan, r, s', id)
  {
  }

  /** Deciding on the size of the target: a skip finds the content landed, and otherwise it can be
      put. */
  lemma DecisionIsSound(plan: Plan, r: Remote, s: State, t: TaskId)
    requires TaskOk(plan, t) && TaskInv(plan, r, s, t) && !plan.tasks[t].overwrite
    ensures var stage := Decide(plan, s.up.remote, t, |PutOf(plan, t).content|);
      if stage.Synced? then Landed(plan, r, s, t) else stage.Wanting? && CanPut(plan, r, t)
  {
  }

  lemma StatTargetAfter(plan: Plan, s: State, e: Event)
    requires Enabled(plan, s, e) && e.StatTarget?
    ensures var s', t := Step(plan, s, e), s.workers[e.id].task;
      && s'.up == s.up && e.id in s'.workers
      && s'.workers[e.id] == Worker(t, Decide(plan, s.up.remote, t, s.workers[e.id].stage.size))
  {
    hide Decide, Upload.Enabled;
  }

  lemma DecidedIsSound(plan: Plan, r: Remote, s: State, id: JobId)
    requires id in s.workers && id !in s.up.jobs && TaskOk(plan, s.workers[id].task)
    requires var t, stage := s.workers[id].task, s.workers[id].stage;
      if stage.Synced? then Landed(plan, r, s, t) else stage.Wanting? && CanPut(plan, r, t)
    ensures WorkerInv(plan, r, s, id)
  {
    hide CanPut, Landed;
  }

  lemma StatTargetStep(plan: Plan, r: Remote, s: State, e: Event)
    requires Inv(plan, r, s) && Enabled(plan, s, e) && e.StatTarget?
    ensures WorkerInv(plan, r, Step(plan, s, e), e.id)
  {
    var t, s' := s.workers[e.id].task, Step(plan, s, e);
    assert WorkerInv(plan, r, s, e.id) && TaskInv(plan, r, s, t) && TaskOk(plan, t);
    assert e.id !in s.up.jobs && s.workers[e.id].stage == Sized(|PutOf(plan, t).content|) && !plan.tasks[t].overwrite;
    hide *;
    StatTargetAfter(plan, s, e);
    DecisionIsSound(plan, r, s, t);
    SameRemote(plan, r, s, s', t);
    DecidedIsSound(plan, r, s', e.id);
  }

  lemma WorkerLocalStep(plan: Plan, r: Remote, s: State, e: Event)
    requires WellPlanned(plan) && Inv(plan, r, s) && Enabled(plan, s, e)
    requires e.Deliver? || e.StatLocal? || e.StatTarget? || e.Delete?
    ensures WorkerInv(plan, r, Step(plan, s, e), e.id)
  {
    hide Upload.Inv, Separated;
    if e.StatTarget? {
      StatTargetStep(plan, r, s, e);
    } else if !e.Deliver? {
      var t, s' := s.workers[e.id].task, Step(plan, s, e);
      assert WorkerInv(plan, r, s, e.id) && TaskInv(plan, r, s, t);
      assert plan.tasks[t].overwrite ==> CanPut(plan, r, t);
      SameRemote(plan, r, s, s', t);
      hide CanPut, Landed, TaskInv, Inv, Decide, Upload.Enabled;
    }
  }

  lemma TaskLocalStep(plan: Plan, r: Remote, s: State, e: Event, t: TaskId)
    requires WellPlanned(plan) && Inv(plan, r, s) && Enabled(plan, s, e) && TaskOk(plan, t)
    requires e.Deliver? || e.StatLocal? || e.StatTarget? || e.Delete? || e.Ack?
    ensures TaskInv(plan, r, Step(plan, s, e), t)
  {
    hide Upload.Inv, Separated, Reachable, Guarded, NeedsPut, CanPut;
    assert TaskInv(plan, r, s, t);
    if e.Delete? || e.Ack? {
      assert WorkerInv(plan, r, s, e.id);
      var u := s.workers[e.id].task;
      assert t != u ==> plan.tasks[t].file != plan.tasks[u].file;
    }
  }

  /** Steps that leave the remote alone touch one worker. */
  lemma LocalStepFrame(plan: Plan, s: State, e: Event)
    requires Enabled(plan, s, e)
    requires e.Deliver? || e.StatLocal? || e.StatTarget? || e.Delete? || e.Ack?
    ensures var s' := Step(plan, s, e);
      && s'.up == s.up && s'.workers.Keys == (if e.Ack? then s.workers.Keys - {e.id} else s.workers.Keys + {e.id})
      && forall id :: id in s.workers && id != e.id ==> s'.workers[id] == s.workers[id]
  {
  }

  lemma AckedHasNoJob(plan: Plan, r: Remote, s: State, e: Event)
    requires Inv(plan, r, s) && Enabled(plan, s, e) && e.Ack?
    ensures e.id !in s.up.jobs
  {
    assert WorkerInv(plan, r, s, e.id);
  }

  lemma LocalStepKeepsInv(plan: Plan, r: Remote, s: State, e: Event)
    requires WellPlanned(plan) && Inv(plan, r, s) && Enabled(plan, s, e)
    requires e.Deliver? || e.StatLocal? || e.StatTarget? || e.Delete? || e.Ack?
    ensures Inv(plan, r, Step(plan, s, e))
  {
    hide Step, Enabled, Upload.Inv, Separated, WorkerInv, TaskInv;
    var s' := Step(plan, s, e);
    LocalStepFrame(plan, s, e);
    if e.Ack? { AckedHasNoJob(plan, r, s, e); }
    forall id | id in s'.workers ensures WorkerInv(plan, r, s', id) {
      if id == e.id { WorkerLocalStep(plan, r, s, e); } else { SameWorker(plan, r, s, s', id); }
    }
    forall t: TaskId | TaskOk(plan, t) ensures TaskInv(plan, r, s', t) { TaskLocalStep(plan, r, s, e, t); }
  }

  predicate IsTransferStep(plan: Plan, s: State, e: Event) {
    && Enabled(plan, s, e)
    && (|| e.BeginUpload? || e.Transfer? || e.EndUpload? || e.FailUpload?
        || (e.Crash? && s.workers[e.id].stage.Uploading?))
  }

  /** The upload event inside a step that has one. */
  function Inner(plan: Plan, s: State, e: Event): Upload.Event
    requires Enabled(plan, s, e)
    requires e.BeginUpload? || e.Transfer? || e.EndUpload? || e.FailUpload? || e.Crash?
  {
    match e
    case BeginUpload(id) =>
      var task := plan.tasks[s.workers[id].task];
      Begin(id, Put(task.target, s.local[task.file]))
    case Transfer(_, inner) => inner
    case EndUpload(id) => Finish(id)
    case FailUpload(id) => Abort(id)
    case Crash(id) => Abort(id)
  }

  /** What its own upload event does to a worker's job. */
  lemma OwnTransfer(plan: Plan, r: Remote, s: State, e: Upload.Event)
    requires WellPlanned(plan) && Inv(plan, r, s) && Upload.Enabled(plan.cfg, s.up, e) && e.id in s.workers
    ensures var jobs := Upload.Step(plan.cfg, s.up, e).jobs;
      && (e.id in jobs <==> !e.Finish? && !e.Abort?)
      && (e.id in jobs ==> jobs[e.id].put == if e.Begin? then e.put else s.up.jobs[e.id].put)
      && (e.id in jobs && jobs[e.id].phase == Renamed ==> e.Rename?)
      && jobs.Keys <= s.up.jobs.Keys + {e.id}
  {
    hide Inv, WellPlanned, WriteAt;
  }

  lemma OwnWorkerAfter(plan: Plan, s: State, e: Event)
    requires Enabled(plan, s, e)
    requires e.BeginUpload? || e.Transfer? || e.EndUpload? || e.FailUpload?
    ensures var s' := Step(plan, s, e);
      && e.id in s'.workers && s'.workers[e.id].task == s.workers[e.id].task
      && s'.workers[e.id].stage == (if e.EndUpload? then Synced else if e.FailUpload? then Wanting else Uploading)
      && s'.up == Upload.Step(plan.cfg, s.up, Inner(plan, s, e))
  {
    hide Upload.Step;
  }

  /** A worker about to upload, or uploading: its task can be put. */
  lemma UploaderCanPut(plan: Plan, r: Remote, s: State, e: Event)
    requires Inv(plan, r, s) && Enabled(plan, s, e)
    requires e.BeginUpload? || e.Transfer? || e.EndUpload? || e.FailUpload?
    ensures var t, inner := s.workers[e.id].task, Inner(plan, s, e);
      && CanPut(plan, r, t) && inner.id == e.id
      && (inner.Finish? <==> e.EndUpload?) && (inner.Abort? <==> e.FailUpload?) && (inner.Begin? <==> e.BeginUpload?)
      && (e.BeginUpload? ==> inner.put == PutOf(plan, t))
      && (!e.BeginUpload? ==> e.id in s.up.jobs && s.up.jobs[e.id].put == PutOf(plan, t))
      && (e.EndUpload? ==> Landed(plan, r, s, t))
  {
    hide CanPut, Guarded, Reachable, Landed;
    var t := s.workers[e.id].task;
    assert WorkerInv(plan, r, s, e.id) && TaskInv(plan, r, s, t);
  }

  /** What makes a worker that has begun its upload sound. */
  lemma UploaderIsSound(plan: Plan, r: Remote, s: State, id: JobId)
    requires id in s.workers && var t, stage := s.workers[id].task, s.workers[id].stage;
      && (stage == Wanting || stage == Uploading || stage == Synced) && TaskOk(plan, t) && CanPut(plan, r, t)
      && (id in s.up.jobs <==> stage.Uploading?)
      && (id in s.up.jobs ==> s.up.jobs[id].put == PutOf(plan, t))
      && (stage.Synced? || (id in s.up.jobs && s.up.jobs[id].phase == Renamed) ==> Landed(plan, r, s, t))
    ensures WorkerInv(plan, r, s, id)
  {
  }

  /** A rename lands its own task's content. */
  lemma RenameLands(plan: Plan, r: Remote, s: State, e: Upload.Event, t: TaskId)
    requires WellPlanned(plan) && Inv(plan, r, s) && Upload.Enabled(plan.cfg, s.up, e) && e.Rename?
    requires e.id in s.workers && s.workers[e.id].task == t && TaskOk(plan, t)
    ensures Landed(plan, r, UploadStep(plan, s, e), t)
  {
    hide Upload.Step, Upload.Inv, Upload.Enabled, Separated, WorkerInv, CanPut, NeedsPut, Guarded;
    TransferTarget(plan, r, s, e, t);
  }

  lemma OwnWorkerKeepsInv(plan: Plan, r: Remote, s: State, e: Event)
    requires WellPlanned(plan) && Inv(plan, r, s) && Enabled(plan, s, e)
    requires e.BeginUpload? || e.Transfer? || e.EndUpload? || e.FailUpload?
    ensures WorkerInv(plan, r, Step(plan, s, e), e.id)
  {
    var t, inner := s.workers[e.id].task, Inner(plan, s, e);
    OwnWorkerAfter(plan, s, e);
    UploaderCanPut(plan, r, s, e);
    InnerIsEnabled(plan, r, s, e);
    SameRemote(plan, r, UploadStep(plan, s, inner), Step(plan, s, e), t);
    assert TaskOk(plan, t);
    hide *;
    OwnTransfer(plan, r, s, inner);
    TransferSettles(plan, r, s, inner, t);
    if inner.Rename? { RenameLands(plan, r, s, inner, t); }
    UploaderIsSound(plan, r, Step(plan, s, e), e.id);
  }

  lemma SameRemote(plan: Plan, r: Remote, s: State, s': State, t: TaskId)
    requires s'.up == s.up && TaskOk(plan, t)
    ensures Landed(plan, r, s, t) == Landed(plan, r, s', t)
  {
  }

  lemma InnerIsEnabled(plan: Plan, r: Remote, s: State, e: Event)
    requires WellPlanned(plan) && Inv(plan, r, s) && Enabled(plan, s, e)
    requires IsTransferStep(plan, s, e)
    ensures var inner := Inner(plan, s, e);
      && inner.id == e.id && Upload.Enabled(plan.cfg, s.up, inner)
      && (inner.Begin? ==> inner.put in plan.cfg.work)
  {
    hide Upload.Inv, Separated;
    assert WorkerInv(plan, r, s, e.id) && TaskInv(plan, r, s, s.workers[e.id].task);
  }

  lemma SameTask(plan: Plan, r: Remote, s: State, s': State, t: TaskId)
    requires s'.up == s.up && s'.local == s.local && s'.done == s.done
    requires TaskOk(plan, t) && TaskInv(plan, r, s, t)
    ensures TaskInv(plan, r, s', t)
  {
  }

  lemma TransferStepKeepsInv(plan: Plan, r: Remote, s: State, e: Event)
    requires WellPlanned(plan) && Inv(plan, r, s) && Enabled(plan, s, e)
    requires IsTransferStep(plan, s, e)
    ensures Inv(plan, r, Step(plan, s, e))
  {
    hide Upload.Step, Upload.Inv, Separated, WorkerInv, TaskInv;
    var s', inner := Step(plan, s, e), Inner(plan, s, e);
    if !e.Crash? { OwnWorkerKeepsInv(plan, r, s, e); }
    InnerIsEnabled(plan, r, s, e);
    TransferKeepsOthers(plan, r, s, inner);
    OwnTransfer(plan, r, s, inner);
    var mid := UploadStep(plan, s, inner);
    forall id | id in s'.workers && id != e.id ensures WorkerInv(plan, r, s', id) { SameWorker(plan, r, mid, s', id); }
    forall t: TaskId | TaskOk(plan, t) ensures TaskInv(plan, r, s', t) { SameTask(plan, r, mid, s', t); }
  }

  lemma StepKeepsPlan(plan: Plan, r: Remote, s: State, e: Event)
    requires WellPlanned(plan) && Inv(plan, r, s)
    ensures Inv(plan, r, Step(plan, s, e))
  {
    if Enabled(plan, s, e) {
      if e.Deliver? || e.StatLocal? || e.StatTarget? || e.Delete? || e.Ack? {
        LocalStepKeepsInv(plan, r, s, e);
      } else if e.Crash? && !s.workers[e.id].stage.Uploading? {
        var s' := Step(plan, s, e);
        assert WorkerInv(plan, r, s, e.id);
        forall id | id in s'.workers ensures WorkerInv(plan, r, s', id) { SameWorker(plan, r, s, s', id); }
        forall t: TaskId | TaskOk(plan, t) ensures TaskInv(plan, r, s', t) { SameTask(plan, r, s, s', t); }
      } else {
        TransferStepKeepsInv(plan, r, s, e);
      }
    }
  }

  lemma {:induction false} RunKeepsPlan(plan: Plan, r: Remote, s: State, es: seq<Event>)
    requires WellPlanned(plan) && Inv(plan, r, s)
    ensures Inv(plan, r, Run(plan, s, es))
  {
    if es != [] {
      RunKeepsPlan(plan, r, s, es[..|es| - 1]);
      StepKeepsPlan(plan, r, Run(plan, s, es[..|es| - 1]), es[|es| - 1]);
    }
  }

  // ---- At-least-once delivery ---------------------------------------------------------------

  /** What the tasks of one content leave at the target of t. */
  ghost function Settled(plan: Plan, r: Remote, t: TaskId): Value
    requires TaskOk(plan, t)
  {
    if exists u: TaskId :: SameTarget(plan, t, u) && CanPut(plan, r, u) then Holds(PutOf(plan, t).content)
    else At(r, TargetOf(plan, t))
  }

  /** A target of one's own is guarded, and settles on what one run of the task leaves there. */
  lemma OwnTargetIsGuarded(plan: Plan, r: Remote, t: TaskId)
    requires TaskOk(plan, t) && forall u: TaskId :: SameTarget(plan, t, u) ==> u == t
    ensures Guarded(plan, r, t) && Settled(plan, r, t) == Outcome(plan, r, t)
  {
    assert SameTarget(plan, t, t);
  }

  /** Whatever is delivered, repeated, interrupted or run at the same time, a target at which no
      second content can be put holds its first value or the one it settles on, and the latter
      once a task that needs it has succeeded. */
  lemma DeliveryIsIdempotent(plan: Plan, r: Remote, es: seq<Event>, t: TaskId)
    requires WellPlanned(plan) && TempsArePrefixes(plan.cfg, r) && TaskOk(plan, t) && Guarded(plan, r, t)
    ensures var s := Run(plan, Start(plan, r), es);
      && At(s.up.remote, TargetOf(plan, t)) in {At(r, TargetOf(plan, t)), Settled(plan, r, t)}
      && (t in s.done ==> At(s.up.remote, TargetOf(plan, t)) in {Outcome(plan, r, t), Settled(plan, r, t)})
  {
    StartInv(plan, r);
    RunKeepsPlan(plan, r, Start(plan, r), es);
    assert TaskInv(plan, r, Run(plan, Start(plan, r), es), t);
    hide Run;
  }

  lemma SizesDifferOrCanPut(plan: Plan, r: Remote, t: TaskId, u: TaskId)
    requires SameTarget(plan, u, t)
    ensures |PutOf(plan, t).content| == |PutOf(plan, u).content| || CanPut(plan, r, t)
  {
    assert SameTarget(plan, t, u);
  }

  /** With every target guarded, a task that can put its content needs to. */
  lemma GuardedCanPut(plan: Plan, r: Remote, t: TaskId)
    requires TaskOk(plan, t) && CanPut(plan, r, t) && forall u: TaskId :: TaskOk(plan, u) ==> Guarded(plan, r, u)
    ensures NeedsPut(plan, r, t)
  {
    forall u: TaskId | SameTarget(plan, t, u) ensures |PutOf(plan, u).content| == |PutOf(plan, t).content| {
      SizesDifferOrCanPut(plan, r, u, t);
    }
  }

  /** Paths that are neither temporary files nor targets are never touched. */
  lemma {:induction false} OtherPathsUntouched(plan: Plan, r: Remote, es: seq<Event>, p: Path)
    requires WellPlanned(plan) && TempsArePrefixes(plan.cfg, r)
    requires p !in Temps(plan.cfg) && forall t: TaskId :: TaskOk(plan, t) ==> TargetOf(plan, t) != p
    ensures At(Run(plan, Start(plan, r), es).up.remote, p) == At(r, p)
  {
    if es != [] {
      var s, e := Run(plan, Start(plan, r), es[..|es| - 1]), es[|es| - 1];
      OtherPathsUntouched(plan, r, es[..|es| - 1], p);
      StartInv(plan, r);
      RunKeepsPlan(plan, r, Start(plan, r), es[..|es| - 1]);
      StepLeavesOthers(plan, r, s, e, p);
    }
  }

  /** The remote changes by the step's upload event, if it has one, and not otherwise. */
  lemma RemoteAfterStep(plan: Plan, s: State, e: Event)
    ensures Step(plan, s, e).up ==
      if IsTransferStep(plan, s, e) then Upload.Step(plan.cfg, s.up, Inner(plan, s, e)) else s.up
  {
    hide Upload.Step, Upload.Enabled;
  }

  lemma StepLeavesOthers(plan: Plan, r: Remote, s: State, e: Event, p: Path)
    requires WellPlanned(plan) && Inv(plan, r, s)
    requires p !in Temps(plan.cfg) && forall t: TaskId :: TaskOk(plan, t) ==> TargetOf(plan, t) != p
    ensures At(Step(plan, s, e).up.remote, p) == At(s.up.remote, p)
  {
    RemoteAfterStep(plan, s, e);
    if IsTransferStep(plan, s, e) {
      InnerIsEnabled(plan, r, s, e);
      hide Step, IsTransferStep;
      InnerLeavesOthers(plan, r, s, Inner(plan, s, e), p);
    }
  }

  lemma InnerLeavesOthers(plan: Plan, r: Remote, s: State, e: Upload.Event, p: Path)
    requires WellPlanned(plan) && Inv(plan, r, s) && Upload.Enabled(plan.cfg, s.up, e)
    requires p !in Temps(plan.cfg) && forall t: TaskId :: TaskOk(plan, t) ==> TargetOf(plan, t) != p
    ensures At(Upload.Step(plan.cfg, s.up, e).remote, p) == At(s.up.remote, p)
  {
    hide Upload.Step, Upload.Inv, Separated, CanPut, Landed, Reachable;
    if e.Rename? {
      assert WorkerInv(plan, r, s, e.id);
      assert s.up.jobs[e.id].put == PutOf(plan, s.workers[e.id].task);
    }
    forall w | w in plan.cfg.work ensures plan.cfg.temp(w) != p { assert plan.cfg.temp(w) in Temps(plan.cfg); }
    TransferFrame(plan.cfg, s.up, e, p);
  }

  /** Once all its tasks have succeeded, a guarded target holds what it settles on. */
  lemma AllDoneIsSettled(plan: Plan, r: Remote, es: seq<Event>, t: TaskId)
    requires WellPlanned(plan) && TempsArePrefixes(plan.cfg, r) && TaskOk(plan, t)
    requires forall u: TaskId :: TaskOk(plan, u) ==> Guarded(plan, r, u) && u in Run(plan, Start(plan, r), es).done
    ensures At(Run(plan, Start(plan, r), es).up.remote, TargetOf(plan, t)) == Settled(plan, r, t)
  {
    hide Run, WellPlanned;
    DeliveryIsIdempotent(plan, r, es, t);
    if u: TaskId :| SameTarget(plan, t, u) && CanPut(plan, r, u) {
      GuardedCanPut(plan, r, u);
      DeliveryIsIdempotent(plan, r, es, u);
      assert SameTarget(plan, u, u);
    }
  }

  /** Any two runs in which every task has succeeded at least once, however often it was
      delivered and however it was interrupted, leave the same remote tree, temporary files
      aside: redelivery adds nothing to a run that delivers each task once. */
  lemma FinalTreeIsDetermined(plan: Plan, r: Remote, es: seq<Event>, fs: seq<Event>)
    requires WellPlanned(plan) && TempsArePrefixes(plan.cfg, r)
    requires forall t: TaskId :: TaskOk(plan, t) ==>
      && Guarded(plan, r, t)
      && t in Run(plan, Start(plan, r), es).done && t in Run(plan, Start(plan, r), fs).done
    ensures View(plan.cfg, Run(plan, Start(plan, r), es).up.remote) ==
      View(plan.cfg, Run(plan, Start(plan, r), fs).up.remote)
  {
    hide Run, WellPlanned, Guarded, Settled;
    var a, b := Run(plan, Start(plan, r), es), Run(plan, Start(plan, r), fs);
    forall p | p !in Temps(plan.cfg) ensures At(a.up.remote, p) == At(b.up.remote, p) {
      if t: TaskId :| TaskOk(plan, t) && TargetOf(plan, t) == p {
        AllDoneIsSettled(plan, r, es, t);
        AllDoneIsSettled(plan, r, fs, t);
      } else {
        OtherPathsUntouched(plan, r, es, p);
        OtherPathsUntouched(plan, r, fs, p);
      }
    }
    SameAtSameView(plan.cfg, a.up.remote, b.up.remote);
  }

  lemma SameAtSameView(cfg: Config, a: Remote, b: Remote)
    requires forall p :: p !in Temps(cfg) ==> At(a, p) == At(b, p)
    ensures View(cfg, a) == View(cfg, b)
  {
    forall p | p in View(cfg, a) || p in View(cfg, b)
      ensures p in View(cfg, a) && p in View(cfg, b) && View(cfg, a)[p] == View(cfg, b)[p]
    {
      assert At(a, p) == At(b, p);
    }
  }

  // ---- No bytes are lost ------------------------------------------------------------------

  /** In a state, every published file is still in place or whole at its target. */
  ghost predicate NothingLost(plan: Plan, s: State) {
    forall t: TaskId :: TaskOk(plan, t) ==>
      var file := plan.tasks[t].file;
      || (file in s.local && s.local[file] == plan.source[file])
      || At(s.up.remote, TargetOf(plan, t)) == Holds(plan.source[file])
  }

  /** A file that no task names is never touched. */
  lemma {:induction false} FilesWithoutTasksStay(plan: Plan, r: Remote, es: seq<Event>, file: File)
    requires file in plan.source && forall t: TaskId :: TaskOk(plan, t) ==> plan.tasks[t].file != file
    ensures var local := Run(plan, Start(plan, r), es).local; file in local && local[file] == plan.source[file]
  {
    if es != [] {
      FilesWithoutTasksStay(plan, r, es[..|es| - 1], file);
      LocalAfterStep(plan, Run(plan, Start(plan, r), es[..|es| - 1]), es[|es| - 1], file);
    }
  }

  lemma LocalAfterStep(plan: Plan, s: State, e: Event, file: File)
    requires forall t: TaskId :: TaskOk(plan, t) ==> plan.tasks[t].file != file
    requires file in s.local
    ensures file in Step(plan, s, e).local && Step(plan, s, e).local[file] == s.local[file]
  {
    hide Upload.Step, Upload.Enabled;
  }

  // ---- Deletions -----------------------------------------------------------------------------

  /** The event is a try of one of t's workers, done with its target, to delete its file. */
  predicate TriesDeletion(plan: Plan, s: State, e: Event, t: TaskId) {
    && e.Delete? && e.id in s.workers && s.workers[e.id] == Worker(t, Synced)
    && TaskOk(plan, t) && plan.tasks[t].deleteAfter
  }

  ghost predicate Tried(plan: Plan, s: State, es: seq<Event>, t: TaskId) {
    exists k :: 0 <= k < |es| && TriesDeletion(plan, Run(plan, s, es[..k]), es[k], t)
  }

  /** A try of some task of the file succeeds. */
  ghost predicate RemovesNow(plan: Plan, s: State, e: Event, file: File) {
    e.Delete? && e.removed && exists t: TaskId :: TriesDeletion(plan, s, e, t) && plan.tasks[t].file == file
  }

  ghost predicate Removed(plan: Plan, s: State, es: seq<Event>, file: File) {
    exists k :: 0 <= k < |es| && RemovesNow(plan, Run(plan, s, es[..k]), es[k], file)
  }

  lemma TriesSnoc(plan: Plan, s: State, es: seq<Event>, e: Event, t: TaskId)
    ensures Tried(plan, s, es + [e], t) <==> Tried(plan, s, es, t) || TriesDeletion(plan, Run(plan, s, es), e, t)
  {
    hide TriesDeletion, Run;
    var all := es + [e];
    assert all[..|es|] == es && all[|es|] == e;
    assert forall k :: 0 <= k < |es| ==> all[..k] == es[..k] && all[k] == es[k];
  }

  lemma RemovedSnoc(plan: Plan, s: State, es: seq<Event>, e: Event, file: File)
    ensures Removed(plan, s, es + [e], file) <==>
      (Removed(plan, s, es, file) || RemovesNow(plan, Run(plan, s, es), e, file))
  {
    hide Run, RemovesNow;
    var all := es + [e];
    assert all[..|es|] == es && all[|es|] == e;
    assert forall k :: 0 <= k < |es| ==> all[..k] == es[..k] && all[k] == es[k];
  }

  /** A worker is past deletion, and a deleting task is acknowledged, only after a try. */
  lemma StepKeepsTried(plan: Plan, s: State, e: Event, t: TaskId, id: JobId)
    requires TaskOk(plan, t) && plan.tasks[t].deleteAfter
    ensures t in Step(plan, s, e).done ==> t in s.done || Worker(t, Deleted) in s.workers.Values
    ensures id in Step(plan, s, e).workers && Step(plan, s, e).workers[id] == Worker(t, Deleted) ==>
      (id in s.workers && s.workers[id] == Worker(t, Deleted)) || TriesDeletion(plan, s, e, t)
  {
    hide Upload.Step, Upload.Enabled;
    if e.Ack? && Enabled(plan, s, e) && s.workers[e.id].task == t {
      assert s.workers[e.id] in s.workers.Values;
    }
  }

  lemma {:induction false} DeletedAfterTry(plan: Plan, r: Remote, es: seq<Event>, t: TaskId)
    requires TaskOk(plan, t) && plan.tasks[t].deleteAfter
    ensures var s := Run(plan, Start(plan, r), es);
      t in s.done || Worker(t, Deleted) in s.workers.Values ==> Tried(plan, Start(plan, r), es, t)
  {
    if es != [] {
      var front, e := es[..|es| - 1], es[|es| - 1];
      var s := Run(plan, Start(plan, r), front);
      DeletedAfterTry(plan, r, front, t);
      TriesSnoc(plan, Start(plan, r), front, e, t);
      assert front + [e] == es;
      hide Step, TriesDeletion, Tried;
      forall id ensures id in Step(plan, s, e).workers && Step(plan, s, e).workers[id] == Worker(t, Deleted) ==>
        Tried(plan, Start(plan, r), es, t)
      {
        StepKeepsTried(plan, s, e, t, id);
      }
      StepKeepsTried(plan, s, e, t, 0);
    }
  }

  lemma StepRemoves(plan: Plan, s: State, e: Event, file: File)
    ensures file !in Step(plan, s, e).local <==> (file !in s.local || RemovesNow(plan, s, e, file))
  {
    hide Upload.Step, Upload.Enabled;
    if e.Delete? && Enabled(plan, s, e) {
      assert TriesDeletion(plan, s, e, s.workers[e.id].task);
    }
  }

  lemma {:induction false} GoneIffRemoved(plan: Plan, r: Remote, es: seq<Event>, file: File)
    requires file in plan.source
    ensures file !in Run(plan, Start(plan, r), es).local <==> Removed(plan, Start(plan, r), es, file)
  {
    if es != [] {
      var front, e := es[..|es| - 1], es[|es| - 1];
      GoneIffRemoved(plan, r, front, file);
      RemovedSnoc(plan, Start(plan, r), front, e, file);
      assert front + [e] == es;
      StepRemoves(plan, Run(plan, Start(plan, r), front), e, file);
    }
  }

  /** In every run, a task that asks for deletion is acknowledged only after one of its workers,
      done with the target, has tried to delete the file; and a published file is gone exactly
      when such a try, of a task that asks for it, removed the file. */
  lemma DeletionsAreTried(plan: Plan, r: Remote, es: seq<Event>, t: TaskId)
    requires TaskOk(plan, t)
    ensures var s := Run(plan, Start(plan, r), es);
      && (t in s.done && plan.tasks[t].deleteAfter ==> Tried(plan, Start(plan, r), es, t))
      && (plan.tasks[t].file !in s.local <==> Removed(plan, Start(plan, r), es, plan.tasks[t].file))
  {
    if plan.tasks[t].deleteAfter { DeletedAfterTry(plan, r, es, t); }
    GoneIffRemoved(plan, r, es, plan.tasks[t].file);
  }
}
