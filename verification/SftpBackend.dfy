/** SFTPBackend.UploadFile as written: one call, from taking its lock to giving it back, over a
    connection that may be cut after any number of remote operations. Every operation is also
    recorded as an event of the upload machine, so what is proved of its runs holds here. */
module SftpBackend {
  import opened Paths
  import opened Upload
  import opened Common

  datatype UploadResult = Waiting | Failed | Uploaded

  class SFTPBackend {
    const cfg: Config
    /** The server's files, the stripes taken, and how many more remote operations the
        connection will carry. */
    var remote: Remote
    var held: map<nat, JobId>
    var link: nat

    ghost const start: State
    ghost var machine: State
    ghost var events: seq<Event>

    ghost predicate Valid()
      reads this
    {
      && Separated(cfg) && Inv(cfg, machine)
      && machine == Run(cfg, start, events)
      && machine.remote == remote && machine.held == held
    }

    constructor (cfg: Config, start: State, link: nat)
      requires Separated(cfg) && Inv(cfg, start)
      ensures Valid() && this.cfg == cfg && machine == start && events == [] && this.link == link
    {
      this.cfg, this.remote, this.held, this.link := cfg, start.remote, start.held, link;
      this.start, this.machine, this.events := start, start, [];
    }

    lemma TempIsPrefix(id: JobId)
      requires Valid() && id in machine.jobs
      ensures var w := machine.jobs[id].put; cfg.temp(w) in remote ==> remote[cfg.temp(w)] <= w.content
    {
      assert JobInv(cfg, machine, id);
    }

    lemma StartsAtOffset(id: JobId)
      requires Valid() && id in machine.jobs && machine.jobs[id].phase.Opening?
      ensures var temp, offset := cfg.temp(machine.jobs[id].put), machine.jobs[id].phase.offset;
        && offset <= |machine.jobs[id].put.content|
        && (offset > 0 || cfg.resume ==> (if temp in remote then |remote[temp]| else 0) == offset)
    {
      assert JobInv(cfg, machine, id);
      TempIsPrefix(id);
    }

    lemma CopiedSoFar(id: JobId)
      requires Valid() && id in machine.jobs && machine.jobs[id].phase.Copying? && machine.jobs[id].put.content != []
      ensures var temp, pos := cfg.temp(machine.jobs[id].put), machine.jobs[id].phase.pos;
        && temp in remote && pos <= |machine.jobs[id].put.content|
        && remote[temp] == machine.jobs[id].put.content[..pos]
    {
      assert JobInv(cfg, machine, id);
    }

    /** The decision of UploadFile, from the temporary file's size. */
    static lemma ResumeDecision(cfg: Config, remote: Remote, w: Put, size: Option<nat>)
      requires size == if cfg.temp(w) in remote then Some(|remote[cfg.temp(w)]|) else None
      ensures Resume(cfg, remote, w) ==
        if cfg.resume && size.Some? && size.value == |w.content| then Renaming
        else if cfg.resume && size.Some? && 0 < size.value < |w.content| then Opening(size.value)
        else Opening(0)
    {
    }

    /** Bookkeeping after the fields have been changed as event e says. */
    ghost method Record(e: Event)
      requires Separated(cfg) && Inv(cfg, machine) && machine == Run(cfg, start, events)
      requires e.Begin? ==> e.put in cfg.work
      requires Step(cfg, machine, e).remote == remote && Step(cfg, machine, e).held == held
      modifies this`machine, this`events
      ensures Valid() && machine == Step(cfg, old(machine), e) && events == old(events) + [e]
    {
      StepKeepsInv(cfg, machine, e);
      assert (events + [e])[..|events|] == events;
      machine, events := Step(cfg, machine, e), events + [e];
    }

    /** One remote operation: false when the connection is gone. */
    method UseLink() returns (ok: bool)
      modifies this`link
      ensures ok <==> old(link) > 0
      ensures link == if ok then old(link) - 1 else 0
    {
      ok := link > 0;
      if ok { link := link - 1; }
    }

    method LockFile(id: JobId, w: Put)
      requires Valid() && w in cfg.work && id !in machine.jobs && cfg.stripe(w.key) !in held
      modifies this`held, this`machine, this`events
      ensures Valid() && events == old(events) + [Begin(id, w)]
      ensures machine.jobs == old(machine.jobs)[id := Job(w, Locked)]
      ensures held == old(held)[cfg.stripe(w.key) := id]
    {
      held := held[cfg.stripe(w.key) := id];
      Record(Begin(id, w));
    }

    /** The deferred unlock, on success (done) or on any error. */
    method UnlockFile(id: JobId, w: Put, done: bool)
      requires Valid() && id in machine.jobs && machine.jobs[id].put == w
      requires done <==> machine.jobs[id].phase == Renamed
      modifies this`held, this`machine, this`events
      ensures Valid() && events == old(events) + [if done then Finish(id) else Abort(id)]
      ensures machine.jobs == old(machine.jobs) - {id}
      ensures held == old(held) - {cfg.stripe(w.key)}
    {
      hide Inv, Separated, Run;
      held := held - {cfg.stripe(w.key)};
      Record(if done then Finish(id) else Abort(id));
    }

    /** The size of what an earlier attempt left, and the decision taken from it. */
    method StatTemp(id: JobId, w: Put) returns (ok: bool, ghost phase: Phase, size: Option<nat>)
      requires Valid() && id in machine.jobs && machine.jobs[id] == Job(w, Locked)
      modifies this`link, this`machine, this`events
      ensures Valid() && link == if ok then old(link) - 1 else 0
      ensures ok <==> old(link) > 0
      ensures !ok ==> machine == old(machine) && events == old(events)
      ensures ok ==> events == old(events) + [Stat(id)]
      ensures ok ==> size == if cfg.temp(w) in remote then Some(|remote[cfg.temp(w)]|) else None
      ensures ok ==> machine.jobs == old(machine.jobs)[id := Job(w, phase)] && phase == Resume(cfg, remote, w)
      ensures ok && cfg.resume && size == Some(|w.content|) ==> phase == Renaming
      ensures ok && cfg.resume && size.Some? && 0 < size.value < |w.content| ==> phase == Opening(size.value)
      ensures ok && (!cfg.resume || size.None? || size.value > |w.content| || (size.value == 0 && w.content != [])) ==>
        phase == Opening(0)
    {
      size, phase := None, Locked;
      ok := UseLink();
      if ok {
        if cfg.temp(w) in remote { size := Some(|remote[cfg.temp(w)]|); }
        phase := Resume(cfg, remote, w);
        Record(Stat(id));
      }
    }

    method OpenTemp(id: JobId, w: Put, offset: nat) returns (ok: bool)
      requires Valid() && id in machine.jobs && machine.jobs[id] == Job(w, Opening(offset))
      modifies this`remote, this`link, this`machine, this`events
      ensures Valid() && link == if ok then old(link) - 1 else 0
      ensures ok <==> old(link) > 0
      ensures !ok ==> machine == old(machine) && events == old(events) && remote == old(remote)
      ensures ok ==> events == old(events) + [Open(id)]
      ensures ok ==> machine.jobs == old(machine.jobs)[id := Job(w, Copying(offset, offset > 0))]
      ensures ok ==> remote == old(remote)[cfg.temp(w) := w.content[..offset]]
    {
      hide Inv, Separated, Run;
      StartsAtOffset(id);
      TempIsPrefix(id);
      ok := UseLink();
      if ok {
        if offset == 0 { remote := remote[cfg.temp(w) := []]; }
        Record(Open(id));
        if offset > 0 { CopiedSoFar(id); }
      }
    }

    method WriteChunk(id: JobId, w: Put, pos: nat, append: bool, n: nat) returns (ok: bool)
      requires Valid() && id in machine.jobs && machine.jobs[id] == Job(w, Copying(pos, append))
      requires 0 < n <= |w.content| - pos
      modifies this`remote, this`link, this`machine, this`events
      ensures Valid() && link == if ok then old(link) - 1 else 0
      ensures ok <==> old(link) > 0
      ensures !ok ==> machine == old(machine) && events == old(events) && remote == old(remote)
      ensures ok ==> events == old(events) + [Write(id, n)]
      ensures ok ==> machine.jobs == old(machine.jobs)[id := Job(w, Copying(pos + n, append))]
      ensures ok ==> remote == old(remote)[cfg.temp(w) := w.content[..pos + n]]
    {
      hide Inv, Separated, Run;
      var temp := cfg.temp(w);
      CopiedSoFar(id);
      ok := UseLink();
      if ok {
        var data := w.content[pos..pos + n];
        remote := remote[temp := if append then remote[temp] + data else WriteAt(remote[temp], pos, data)];
        Record(Write(id, n));
        CopiedSoFar(id);
      }
    }

    method CloseTemp(id: JobId, w: Put, append: bool)
      requires Valid() && id in machine.jobs && machine.jobs[id] == Job(w, Copying(|w.content|, append))
      modifies this`machine, this`events
      ensures Valid() && events == old(events) + [CloseFile(id)]
      ensures machine.jobs == old(machine.jobs)[id := Job(w, Renaming)]
    {
      Record(CloseFile(id));
    }

    method RenameFile(id: JobId, w: Put) returns (ok: bool)
      requires Valid() && id in machine.jobs && machine.jobs[id] == Job(w, Renaming) && cfg.temp(w) in remote
      modifies this`remote, this`link, this`machine, this`events
      ensures Valid() && link == if ok then old(link) - 1 else 0
      ensures ok <==> old(link) > 0
      ensures !ok ==> machine == old(machine) && events == old(events) && remote == old(remote)
      ensures ok ==> events == old(events) + [Rename(id)]
      ensures ok ==> machine.jobs == old(machine.jobs)[id := Job(w, Renamed)]
      ensures ok ==> remote == (old(remote) - {cfg.temp(w)})[cfg.target(w) := w.content]
    {
      assert JobInv(cfg, machine, id);
      TempIsPrefix(id);
      ok := UseLink();
      if ok {
        remote := (remote - {cfg.temp(w)})[cfg.target(w) := remote[cfg.temp(w)]];
        Record(Rename(id));
      }
    }

    /** Copies w.content[offset..] into the temporary file, at most chunk bytes at a time. */
    method UploadWithResume(id: JobId, w: Put, offset: nat, chunk: nat) returns (ok: bool)
      requires chunk > 0 && Valid() && id in machine.jobs && machine.jobs[id] == Job(w, Opening(offset))
      modifies this`remote, this`link, this`machine, this`events
      ensures Valid() && held == old(held) && old(events) <= events
      ensures id in machine.jobs && machine.jobs[id].put == w && machine.jobs - {id} == old(machine.jobs) - {id}
      ensures machine.jobs[id].phase == Renaming <==> ok
      ensures machine.jobs[id].phase != Renamed
      ensures ok ==> remote == old(remote)[cfg.temp(w) := w.content]
      ensures !ok ==> remote - {cfg.temp(w)} == old(remote) - {cfg.temp(w)}
      ensures !ok && cfg.resume && cfg.temp(w) in old(remote) ==>
        cfg.temp(w) in remote && old(remote)[cfg.temp(w)] <= remote[cfg.temp(w)]
      ensures old(link) > |w.content| - offset ==> ok && link >= old(link) - 1 - (|w.content| - offset)
    {
      hide Inv, Separated, Run;
      var temp := cfg.temp(w);
      StartsAtOffset(id);
      TempIsPrefix(id);
      ghost var before, jobs := remote, machine.jobs;
      ok := OpenTemp(id, w, offset);
      if !ok { return; }
      var pos, append := offset, offset > 0;
      while pos < |w.content|
        invariant offset <= pos <= |w.content| && Valid() && held == old(held) && old(events) <= events
        invariant machine.jobs == jobs[id := Job(w, Copying(pos, append))]
        invariant remote == before[temp := w.content[..pos]]
        invariant old(link) > |w.content| - offset ==> link >= old(link) - 1 - (pos - offset)
      {
        var n := if chunk < |w.content| - pos then chunk else |w.content| - pos;
        ok := WriteChunk(id, w, pos, append, n);
        if !ok {
          return;
        }
        pos := pos + n;
      }
      CloseTemp(id, w, append);
      ok := true;
      assert w.content[..pos] == w.content;
    }

    /** The body of an upload call while it holds its lock. */
    method UploadLocked(id: JobId, w: Put, chunk: nat) returns (ok: bool)
      requires chunk > 0 && Valid() && id in machine.jobs && machine.jobs[id] == Job(w, Locked)
      modifies this`remote, this`link, this`machine, this`events
      ensures Valid() && held == old(held) && old(events) <= events
      ensures id in machine.jobs && machine.jobs[id].put == w && machine.jobs - {id} == old(machine.jobs) - {id}
      ensures ok <==> machine.jobs[id].phase == Renamed
      ensures ok ==> remote == (old(remote) - {cfg.temp(w)})[cfg.target(w) := w.content]
      ensures !ok ==> remote - {cfg.temp(w)} == old(remote) - {cfg.temp(w)}
      ensures !ok && cfg.resume && cfg.temp(w) in old(remote) ==>
        cfg.temp(w) in remote && old(remote)[cfg.temp(w)] <= remote[cfg.temp(w)]
      ensures old(link) > |w.content| + 2 ==> ok
      // What an earlier attempt left need not be sent again, with resume.
      ensures cfg.resume && cfg.temp(w) in old(remote) ==>
        old(link) > |w.content| - |old(remote)[cfg.temp(w)]| + 2 ==> ok
    {
      hide Inv, Separated, Run, Resume;
      ghost var before, jobs := remote, machine.jobs;
      TempIsPrefix(id);
      var stat, phase, size := StatTemp(id, w);
      if !stat { return false; }
      assert machine.jobs - {id} == jobs - {id};
      var offset, skip := 0, false;
      if cfg.resume && size.Some? {
        if size.value == |w.content| { skip := true; }
        else if 0 < size.value < |w.content| { offset := size.value; }
      }
      ResumeDecision(cfg, remote, w, size);
      if !skip {
        ok := UploadWithResume(id, w, offset, chunk);
        if !ok { return; }
      }
      assert remote - {cfg.temp(w)} == before - {cfg.temp(w)};
      ghost var jobs' := machine.jobs;
      assert jobs' - {id} == jobs - {id};
      ok := RenameFile(id, w);
      assert machine.jobs - {id} == jobs' - {id};
      assert machine.jobs - {id} == jobs - {id};
    }

    /** One upload call. The source is None when it cannot be read. A call that finds its stripe
        taken is still waiting for it. */
    method UploadFile(id: JobId, key: Path, source: Option<Bytes>, chunk: nat) returns (r: UploadResult)
      requires chunk > 0 && Valid() && id !in machine.jobs
      requires source.Some? ==> Put(key, source.value) in cfg.work
      modifies this`remote, this`held, this`link, this`machine, this`events
      ensures Valid() && held == old(held) && machine.jobs == old(machine.jobs) && old(events) <= events
      ensures r.Waiting? <==> cfg.stripe(key) in held
      ensures r.Waiting? ==> remote == old(remote) && link == old(link) && machine == old(machine)
      ensures r.Uploaded? ==> source.Some? && var w := Put(key, source.value);
        remote == (old(remote) - {cfg.temp(w)})[cfg.target(w) := w.content]
      ensures r.Failed? && source.None? ==> remote == old(remote)
      ensures r.Failed? && source.Some? ==> var temp := cfg.temp(Put(key, source.value));
        && remote - {temp} == old(remote) - {temp}
        && (temp in remote ==> remote[temp] <= source.value)
        && (cfg.resume && temp in old(remote) ==> temp in remote && old(remote)[temp] <= remote[temp])
      ensures source.Some? && old(link) > |source.value| + 2 ==> !r.Failed?
      ensures source.Some? && cfg.resume ==> var temp := cfg.temp(Put(key, source.value));
        temp in old(remote) && old(link) > |source.value| - |old(remote)[temp]| + 2 ==> !r.Failed?
    {
      hide Inv, Separated, Run, Resume;
      if cfg.stripe(key) in held { return Waiting; }
      if source.None? { return Failed; }
      var w := Put(key, source.value);
      LockFile(id, w);
      var ok := UploadLocked(id, w, chunk);
      TempIsPrefix(id);
      UnlockFile(id, w, ok);
      r := if ok then Uploaded else Failed;
      assert held == old(held);
      assert machine.jobs == old(machine.jobs);
    }
  }
}
