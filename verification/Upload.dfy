/** Concurrent, interruptible, resumable uploads to an SFTP server, one step per remote
    operation. A run is any sequence of events; an event that is not enabled changes nothing. */
module Upload {
  import opened Paths

  newtype byte = x: int | 0 <= x < 256
  type Bytes = seq<byte>
  type JobId = nat
  type Remote = map<Path, Bytes>

  /** One (key, source content) pair that callers may upload. */
  datatype Put = Put(key: Path, content: Bytes)

  /** temp and target are the remote paths of a put, stripe the index of a key's lock, and
      resume is EnableResume. */
  datatype Config = Config(work: iset<Put>, temp: Put -> Path, target: Put -> Path, stripe: Path -> nat, resume: bool)

  /** The SFTP backend's configuration: hash is the 64-bit content hash. */
  function SftpConfig(work: iset<Put>, hash: Bytes -> Hash64, stripe: Path -> nat, resume: bool): Config {
    Config(work, (w: Put) => TempPath(w.key, hash(w.content)), (w: Put) => Clean(w.key), stripe, resume)
  }

  datatype Phase =
    | Locked                            // lock held, source size and hash known
    | Opening(offset: nat)              // resume decision taken
    | Copying(pos: nat, append: bool)   // remote file open, source read up to pos
    | Renaming
    | Renamed

  datatype Job = Job(put: Put, phase: Phase)

  /** sent counts the bytes written to a temporary file since it was last renamed away. */
  datatype State = State(remote: Remote, jobs: map<JobId, Job>, held: map<nat, JobId>, sent: map<Path, nat>)

  datatype Event =
    | Begin(id: JobId, put: Put)
    | Stat(id: JobId)
    | Open(id: JobId)
    | Write(id: JobId, n: nat)
    | CloseFile(id: JobId)
    | Rename(id: JobId)
    | Finish(id: JobId)
    | Abort(id: JobId)                  // any error, cancellation, cut connection or killed worker

  // ---- The steps ------------------------------------------------------------------

  /** What UploadFile does with what an earlier attempt left behind. */
  function Resume(cfg: Config, remote: Remote, w: Put): Phase {
    if cfg.resume && cfg.temp(w) in remote then
      var size := |remote[cfg.temp(w)]|;
      if size == |w.content| then Renaming
      else if 0 < size < |w.content| then Opening(size)
      else Opening(0)
    else Opening(0)
  }

  /** A write through a handle opened by Create: at the handle's own offset. */
  function WriteAt(file: Bytes, pos: nat, data: Bytes): (r: Bytes)
    ensures |r| == if pos + |data| <= |file| then |file| else pos + |data|
    ensures forall i :: 0 <= i < |data| ==> r[pos + i] == data[i]
    ensures forall i :: 0 <= i < |file| && (i < pos || pos + |data| <= i) ==> r[i] == file[i]
    ensures forall i :: |file| <= i < pos ==> r[i] == 0
  {
    var padded := if pos <= |file| then file else file + seq(pos - |file|, _ => 0);
    padded[..pos] + data + (if pos + |data| <= |file| then file[pos + |data|..] else [])
  }

  function Sent(s: State, p: Path): nat {
    if p in s.sent then s.sent[p] else 0
  }

  function SetPhase(s: State, id: JobId, phase: Phase): State
    requires id in s.jobs
  {
    s.(jobs := s.jobs[id := s.jobs[id].(phase := phase)])
  }

  /** The deferred unlock: whatever the outcome, the job's stripe becomes free. */
  function Release(cfg: Config, s: State, id: JobId): State
    requires id in s.jobs
  {
    var stripe := cfg.stripe(s.jobs[id].put.key);
    s.(jobs := s.jobs - {id}, held := s.held - {stripe})
  }

  predicate Enabled(cfg: Config, s: State, e: Event) {
    if e.Begin? then
      e.id !in s.jobs && cfg.stripe(e.put.key) !in s.held
    else
      && e.id in s.jobs
      && var job := s.jobs[e.id];
      match e
      case Begin(_, _) => false
      case Stat(_) => job.phase.Locked?
      case Open(_) => job.phase.Opening? && (job.phase.offset == 0 || cfg.temp(job.put) in s.remote)
      case Write(_, n) =>
        job.phase.Copying? && 0 < n <= |job.put.content| - job.phase.pos && cfg.temp(job.put) in s.remote
      case CloseFile(_) => job.phase.Copying? && job.phase.pos == |job.put.content|
      case Rename(_) => job.phase.Renaming? && cfg.temp(job.put) in s.remote
      case Finish(_) => job.phase.Renamed?
      case Abort(_) => true
  }

  function Step(cfg: Config, s: State, e: Event): State {
    if !Enabled(cfg, s, e) then s else
    match e
    case Begin(id, w) =>
      s.(jobs := s.jobs[id := Job(w, Locked)], held := s.held[cfg.stripe(w.key) := id])
    case Stat(id) =>
      SetPhase(s, id, Resume(cfg, s.remote, s.jobs[id].put))
    case Open(id) =>
      var job := s.jobs[id];
      if job.phase.offset > 0 then SetPhase(s, id, Copying(job.phase.offset, true))
      else SetPhase(s.(remote := s.remote[cfg.temp(job.put) := []]), id, Copying(0, false))
    case Write(id, n) =>
      var job := s.jobs[id];
      var temp, pos := cfg.temp(job.put), job.phase.pos;
      var data := job.put.content[pos..pos + n];
      var file := if job.phase.append then s.remote[temp] + data else WriteAt(s.remote[temp], pos, data);
      var s' := s.(remote := s.remote[temp := file], sent := s.sent[temp := Sent(s, temp) + n]);
      SetPhase(s', id, Copying(pos + n, job.phase.append))
    case CloseFile(id) =>
      SetPhase(s, id, Renaming)
    case Rename(id) =>
      var w := s.jobs[id].put;
      var remote := (s.remote - {cfg.temp(w)})[cfg.target(w) := s.remote[cfg.temp(w)]];
      SetPhase(s.(remote := remote, sent := s.sent - {cfg.temp(w)}), id, Renamed)
    case Finish(id) => Release(cfg, s, id)
    case Abort(id) => Release(cfg, s, id)
  }

  function Run(cfg: Config, s: State, es: seq<Event>): State {
    if es == [] then s else Step(cfg, Run(cfg, s, es[..|es| - 1]), es[|es| - 1])
  }

  /** Callers upload only pairs of the configured work. */
  ghost predicate Submits(cfg: Config, es: seq<Event>) {
    forall e :: e in es && e.Begin? ==> e.put in cfg.work
  }

  // ---- The specification: atomic puts ------------------------------------------------

  ghost function Temps(cfg: Config): iset<Path> {
    iset w | w in cfg.work :: cfg.temp(w)
  }

  /** The remote tree with temporary files hidden. */
  ghost function View(cfg: Config, r: Remote): Remote {
    map p | p in r && p !in Temps(cfg) :: r[p]
  }

  function ApplyPuts(cfg: Config, r: Remote, ws: seq<Put>): Remote {
    if ws == [] then r
    else ApplyPuts(cfg, r, ws[..|ws| - 1])[cfg.target(ws[|ws| - 1]) := ws[|ws| - 1].content]
  }

  /** The puts of a run: one for each rename that happened, in order. */
  function Puts(cfg: Config, s: State, es: seq<Event>): seq<Put> {
    if es == [] then []
    else
      var before, e := Run(cfg, s, es[..|es| - 1]), es[|es| - 1];
      Puts(cfg, s, es[..|es| - 1]) +
      (if e.Rename? && Enabled(cfg, before, e) then [before.jobs[e.id].put] else [])
  }

  // ---- What uploads of the work may not share -------------------------------------------

  /** Uploads that write the same temporary file agree on content and target and, unless there is
      nothing to write, exclude each other; and no temporary file is a target. */
  ghost predicate Separated(cfg: Config) {
    && NamesSeparate(cfg)
    && StripesAgree(cfg)
  }

  ghost predicate NamesSeparate(cfg: Config) {
    && (forall a, b :: a in cfg.work && b in cfg.work && cfg.temp(a) == cfg.temp(b) ==>
        a.content == b.content && cfg.target(a) == cfg.target(b))
    && (forall a, b :: a in cfg.work && b in cfg.work ==> cfg.temp(a) != cfg.target(b))
  }

  /** Keys that meet in one non-empty temporary file meet in one lock. */
  ghost predicate StripesAgree(cfg: Config) {
    forall a, b :: a in cfg.work && b in cfg.work && cfg.temp(a) == cfg.temp(b) && a.content != [] ==>
      cfg.stripe(a.key) == cfg.stripe(b.key)
  }

  ghost predicate HashInjective(work: iset<Put>, hash: Bytes -> Hash64) {
    forall a, b :: a in work && b in work && hash(a.content) == hash(b.content) ==> a.content == b.content
  }

  /** What a caller can check key by key: clean keys that do not look temporary. */
  ghost predicate CleanKeys(work: iset<Put>) {
    forall w :: w in work ==> FileKey(w.key) && !TempShaped(w.key)
  }

  lemma CleanKeysSeparate(work: iset<Put>, hash: Bytes -> Hash64, stripe: Path -> nat, resume: bool)
    requires CleanKeys(work) && HashInjective(work, hash)
    ensures Separated(SftpConfig(work, hash, stripe, resume))
  {
    var cfg := SftpConfig(work, hash, stripe, resume);
    forall a, b | a in work && b in work
      ensures cfg.temp(a) != cfg.target(b)
      ensures cfg.temp(a) == cfg.temp(b) ==> a == b
    {
      TempKeyIsClean(a.key, hash(a.content));
      if cfg.temp(a) == cfg.temp(b) {
        TempPathInjective(a.key, hash(a.content), b.key, hash(b.content));
      }
    }
  }

  // ---- The invariant ---------------------------------------------------------------------

  /** Every temporary file is a prefix of the content its hash names. */
  ghost predicate TempsArePrefixes(cfg: Config, r: Remote) {
    forall w :: w in cfg.work && cfg.temp(w) in r ==> r[cfg.temp(w)] <= w.content
  }

  ghost predicate JobInv(cfg: Config, s: State, id: JobId)
    requires id in s.jobs
  {
    var w, phase := s.jobs[id].put, s.jobs[id].phase;
    && w in cfg.work
    && cfg.stripe(w.key) in s.held && s.held[cfg.stripe(w.key)] == id
    && PhaseInv(cfg, s.remote, w, phase)
  }

  /** An empty source has nothing to keep: its uploads may share their temporary file. */
  ghost predicate PhaseInv(cfg: Config, r: Remote, w: Put, phase: Phase) {
    var temp, c := cfg.temp(w), w.content;
    match phase
    case Locked => true
    case Opening(offset) =>
      if offset > 0 then temp in r && |r[temp]| == offset < |c|
      else c != [] && cfg.resume && temp in r ==> r[temp] == []
    case Copying(pos, _) => pos <= |c| && (c != [] ==> temp in r && r[temp] == c[..pos])
    case Renaming => c != [] ==> temp in r && r[temp] == c
    case Renamed => true
  }

  ghost predicate Inv(cfg: Config, s: State) {
    && TempsArePrefixes(cfg, s.remote)
    && (forall id :: id in s.jobs ==> JobInv(cfg, s, id))
  }

  /** Between process starts there are no jobs and no locks; what the remote holds stays. */
  ghost predicate Idle(cfg: Config, s: State) {
    s.jobs == map[] && s.held == map[] && TempsArePrefixes(cfg, s.remote)
  }

  lemma OthersUntouched(cfg: Config, s: State, id: JobId, other: JobId)
    requires Separated(cfg) && Inv(cfg, s)
    requires id in s.jobs && other in s.jobs && id != other
    ensures cfg.temp(s.jobs[id].put) != cfg.temp(s.jobs[other].put) || s.jobs[other].put.content == []
    ensures cfg.target(s.jobs[id].put) != cfg.temp(s.jobs[other].put)
    ensures cfg.stripe(s.jobs[id].put.key) != cfg.stripe(s.jobs[other].put.key)
  {
    assert JobInv(cfg, s, id) && JobInv(cfg, s, other);
  }

  /** A step changes no path but its job's temporary file and, for a rename, its target. */
  lemma StepFrame(cfg: Config, s: State, e: Event, p: Path)
    requires Enabled(cfg, s, e)
    requires !e.Begin? ==> p != cfg.temp(s.jobs[e.id].put)
    requires e.Rename? ==> p != cfg.target(s.jobs[e.id].put)
    ensures var r, r' := s.remote, Step(cfg, s, e).remote; (p in r <==> p in r') && (p in r ==> r'[p] == r[p])
  {
  }

  /** A step leaves the other jobs as they are, and every stripe but its own job's. */
  lemma JobsFrame(cfg: Config, s: State, e: Event, other: JobId)
    requires Enabled(cfg, s, e) && other != e.id
    ensures var s' := Step(cfg, s, e);
      && (other in s.jobs <==> other in s'.jobs) && (other in s.jobs ==> s'.jobs[other] == s.jobs[other])
      && forall k :: k in s.held && k != cfg.stripe((if e.Begin? then e.put else s.jobs[e.id].put).key) ==>
           k in s'.held && s'.held[k] == s.held[k]
  {
  }

  lemma OtherJobKeepsInv(cfg: Config, s: State, e: Event, other: JobId)
    requires Separated(cfg) && Inv(cfg, s) && Enabled(cfg, s, e)
    requires other in s.jobs && other != e.id
    ensures var s' := Step(cfg, s, e); other in s'.jobs && s'.jobs[other] == s.jobs[other] && JobInv(cfg, s', other)
  {
    assert JobInv(cfg, s, other);
    if !e.Begin? { OthersUntouched(cfg, s, e.id, other); }
    assert e.Begin? ==> cfg.stripe(e.put.key) !in s.held;
    hide Step, Enabled;
    if s.jobs[other].put.content != [] { StepFrame(cfg, s, e, cfg.temp(s.jobs[other].put)); }
    JobsFrame(cfg, s, e, other);
  }

  /** A write at the end of a prefix gives the longer prefix, whichever way the file was opened. */
  lemma WriteExtendsPrefix(c: Bytes, pos: nat, n: nat)
    requires pos + n <= |c|
    ensures c[..pos] + c[pos..pos + n] == c[..pos + n]
    ensures WriteAt(c[..pos], pos, c[pos..pos + n]) == c[..pos + n]
  {
  }

  /** What a job's own step leaves in its temporary file, and the invariant of the job itself. */
  ghost predicate OwnJobFine(cfg: Config, s: State, e: Event)
    requires Enabled(cfg, s, e)
  {
    var s' := Step(cfg, s, e);
    && (e.id in s'.jobs ==> JobInv(cfg, s', e.id))
    && (!e.Begin? && cfg.temp(s.jobs[e.id].put) in s'.remote ==>
        s'.remote[cfg.temp(s.jobs[e.id].put)] <= s.jobs[e.id].put.content)
  }

  lemma OwnWriteKeepsInv(cfg: Config, s: State, e: Event)
    requires Inv(cfg, s) && Enabled(cfg, s, e) && e.Write?
    ensures OwnJobFine(cfg, s, e)
  {
    assert JobInv(cfg, s, e.id);
    WriteExtendsPrefix(s.jobs[e.id].put.content, s.jobs[e.id].phase.pos, e.n);
    hide WriteAt, TempsArePrefixes;
  }

  lemma OwnJobKeepsInv(cfg: Config, s: State, e: Event)
    requires Separated(cfg) && Inv(cfg, s) && Enabled(cfg, s, e)
    requires e.Begin? ==> e.put in cfg.work
    ensures OwnJobFine(cfg, s, e)
  {
    if e.Write? {
      OwnWriteKeepsInv(cfg, s, e);
    } else if !e.Begin? {
      assert JobInv(cfg, s, e.id);
    }
  }

  lemma TempStaysPrefix(cfg: Config, s: State, e: Event, w: Put)
    requires Separated(cfg) && Inv(cfg, s) && Enabled(cfg, s, e) && OwnJobFine(cfg, s, e)
    requires w in cfg.work && cfg.temp(w) in Step(cfg, s, e).remote
    ensures Step(cfg, s, e).remote[cfg.temp(w)] <= w.content
  {
    if !e.Begin? {
      assert JobInv(cfg, s, e.id);
      hide Step, Enabled, PhaseInv;
      assert e.Rename? ==> cfg.temp(w) != cfg.target(s.jobs[e.id].put);
      if cfg.temp(w) == cfg.temp(s.jobs[e.id].put) {
        assert w.content == s.jobs[e.id].put.content;
      } else {
        StepFrame(cfg, s, e, cfg.temp(w));
      }
    }
  }

  lemma StepKeepsInv(cfg: Config, s: State, e: Event)
    requires Separated(cfg) && Inv(cfg, s)
    requires e.Begin? ==> e.put in cfg.work
    ensures Inv(cfg, Step(cfg, s, e))
  {
    if Enabled(cfg, s, e) {
      var s' := Step(cfg, s, e);
      OwnJobKeepsInv(cfg, s, e);
      hide Step, Enabled, JobInv, Separated;
      forall w | w in cfg.work && cfg.temp(w) in s'.remote ensures s'.remote[cfg.temp(w)] <= w.content {
        TempStaysPrefix(cfg, s, e, w);
      }
      forall id | id in s'.jobs ensures JobInv(cfg, s', id) {
        if id != e.id {
          JobsFrame(cfg, s, e, id);
          OtherJobKeepsInv(cfg, s, e, id);
        }
      }
    }
  }

  /** Safety over every run: from an idle process on any remote whose temporary files are
      prefixes, through any interleaving of uploads, cuts, crashes and retries. */
  lemma {:induction false} RunKeepsInv(cfg: Config, s: State, es: seq<Event>)
    requires Separated(cfg) && Inv(cfg, s) && Submits(cfg, es)
    ensures Inv(cfg, Run(cfg, s, es))
  {
    if es != [] {
      RunKeepsInv(cfg, s, es[..|es| - 1]);
      StepKeepsInv(cfg, Run(cfg, s, es[..|es| - 1]), es[|es| - 1]);
    }
  }

  // ---- Refinement --------------------------------------------------------------------------

  lemma StepRefines(cfg: Config, s: State, e: Event)
    requires Separated(cfg) && Inv(cfg, s)
    ensures e.Rename? && Enabled(cfg, s, e) ==>
      && s.jobs[e.id].put in cfg.work
      && View(cfg, Step(cfg, s, e).remote) ==
         View(cfg, s.remote)[cfg.target(s.jobs[e.id].put) := s.jobs[e.id].put.content]
    ensures !(e.Rename? && Enabled(cfg, s, e)) ==> View(cfg, Step(cfg, s, e).remote) == View(cfg, s.remote)
  {
    if Enabled(cfg, s, e) {
      if !e.Begin? {
        assert JobInv(cfg, s, e.id);
        assert cfg.temp(s.jobs[e.id].put) in Temps(cfg);
      }
      var r' := Step(cfg, s, e).remote;
      var after := if e.Rename? then View(cfg, s.remote)[cfg.target(s.jobs[e.id].put) := s.jobs[e.id].put.content]
                   else View(cfg, s.remote);
      forall p | p !in Temps(cfg)
        ensures (p in after <==> p in r') && (p in r' ==> after[p] == r'[p])
      {
        if e.Rename? && p == cfg.target(s.jobs[e.id].put) {
        } else {
          StepFrame(cfg, s, e, p);
        }
      }
      if e.Rename? { assert cfg.target(s.jobs[e.id].put) !in Temps(cfg); }
      assert View(cfg, r') == after;
    }
  }

  /** With temporary files hidden, every run does exactly what the atomic puts of its renames
      do, and each of them is a put the callers asked for. */
  lemma {:induction false} UploadRefinesAtomicPut(cfg: Config, s: State, es: seq<Event>)
    requires Separated(cfg) && Inv(cfg, s) && Submits(cfg, es)
    ensures View(cfg, Run(cfg, s, es).remote) == ApplyPuts(cfg, View(cfg, s.remote), Puts(cfg, s, es))
    ensures forall w :: w in Puts(cfg, s, es) ==> w in cfg.work
  {
    if es != [] {
      var init, e := es[..|es| - 1], es[|es| - 1];
      var before := Run(cfg, s, init);
      UploadRefinesAtomicPut(cfg, s, init);
      RunKeepsInv(cfg, s, init);
      StepRefines(cfg, before, e);
      if e.Rename? && Enabled(cfg, before, e) {
        var ws, w := Puts(cfg, s, es), before.jobs[e.id].put;
        assert ws == Puts(cfg, s, init) + [w];
        assert ws[..|ws| - 1] == Puts(cfg, s, init) && ws[|ws| - 1] == w;
      } else {
        assert Puts(cfg, s, es) == Puts(cfg, s, init);
      }
    }
  }
}
