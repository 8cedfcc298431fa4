/** What the cache's answers are worth. */
module CacheTheorems {
  import opened Common
  import opened Cache

  // ---- Positive answers -----------------------------------------------------------------

  ghost predicate Backed(s: State, key: Key, info: FileInfo) {
    info.exists_ ==> key in s.backend
  }

  ghost predicate ResultBacked(s: State, key: Key, result: Option<CheckResult>) {
    result.Some? ==> Backed(s, key, result.value.info)
  }

  ghost predicate CallBacked(s: State, c: Call) {
    match c.pc
    case Writing(info) => Backed(s, c.key, info)
    case Releasing(result) => ResultBacked(s, c.key, result)
    case Unlocking(result) => ResultBacked(s, c.key, result)
    case Finished(result) => ResultBacked(s, c.key, result)
    case _ => true
  }

  ghost predicate AllBacked(s: State) {
    && (forall k :: k in s.redis ==> Backed(s, k, s.redis[k]))
    && (forall id :: id in s.calls ==> CallBacked(s, s.calls[id]))
    && (forall id :: id in s.uploads && s.uploads[id].stored ==> s.uploads[id].key in s.backend)
  }

  /** Objects are never taken out of the backend, so what was backed stays backed. */
  lemma BackingGrows(cfg: Config, s: State, e: Event)
    ensures s.backend.Keys <= Step(cfg, s, e).backend.Keys
  {
  }

  lemma OwnStepKeepsCallBacked(cfg: Config, s: State, e: Event)
    requires AllBacked(s) && Enabled(cfg, s, e) && CallEvent(e)
    ensures e.id in Step(cfg, s, e).calls && CallBacked(Step(cfg, s, e), Step(cfg, s, e).calls[e.id])
  {
    assert CallBacked(s, s.calls[e.id]);
  }

  lemma StepKeepsCallBacked(cfg: Config, s: State, e: Event, id: Id)
    requires AllBacked(s) && id in Step(cfg, s, e).calls
    ensures CallBacked(Step(cfg, s, e), Step(cfg, s, e).calls[id])
  {
    BackingGrows(cfg, s, e);
    if !Enabled(cfg, s, e) {
      assert Step(cfg, s, e) == s;
    } else if CallEvent(e) && id == e.id {
      OwnStepKeepsCallBacked(cfg, s, e);
    } else {
      StepMovesOneCall(cfg, s, e);
      if id in s.calls { assert CallBacked(s, s.calls[id]); }
      assert e.Check? && id == e.id ==> Step(cfg, s, e).calls[id].pc.Reading?;
      hide Step, Enabled;
    }
  }

  /** Where a cache entry comes from. */
  lemma EntryAfterStep(cfg: Config, s: State, e: Event, k: Key)
    requires k in Step(cfg, s, e).redis
    ensures var info := Step(cfg, s, e).redis[k];
      || (k in s.redis && s.redis[k] == info)
      || (e.WriteBack? && e.id in s.calls && s.calls[e.id].pc == Writing(info) && s.calls[e.id].key == k)
      || (e.UploadSet? && e.id in s.uploads && s.uploads[e.id].stored && s.uploads[e.id].key == k)
  {
  }

  lemma StepKeepsCacheBacked(cfg: Config, s: State, e: Event, k: Key)
    requires AllBacked(s) && k in Step(cfg, s, e).redis
    ensures Backed(Step(cfg, s, e), k, Step(cfg, s, e).redis[k])
  {
    hide CallBacked, Step, Enabled;
    BackingGrows(cfg, s, e);
    EntryAfterStep(cfg, s, e, k);
    if e.WriteBack? && e.id in s.calls && s.calls[e.id].pc.Writing? { WritingIsBacked(s, e.id); }
  }

  /** Where an upload stands after a step. */
  lemma UploadAfterStep(cfg: Config, s: State, e: Event, id: Id)
    requires id in Step(cfg, s, e).uploads
    ensures var s' := Step(cfg, s, e);
      || (id in s.uploads && s.uploads[id] == s'.uploads[id])
      || !s'.uploads[id].stored
      || s'.uploads[id].key in s'.backend
  {
  }

  lemma UploadsStayBacked(cfg: Config, s: State, e: Event, id: Id)
    requires AllBacked(s) && id in Step(cfg, s, e).uploads && Step(cfg, s, e).uploads[id].stored
    ensures Step(cfg, s, e).uploads[id].key in Step(cfg, s, e).backend
  {
    hide Step, CallBacked;
    BackingGrows(cfg, s, e);
    UploadAfterStep(cfg, s, e, id);
  }

  lemma StepKeepsBacked(cfg: Config, s: State, e: Event)
    requires AllBacked(s)
    ensures AllBacked(Step(cfg, s, e))
  {
    var s' := Step(cfg, s, e);
    hide Step, CallBacked, Backed;
    forall id | id in s'.calls ensures CallBacked(s', s'.calls[id]) { StepKeepsCallBacked(cfg, s, e, id); }
    forall k | k in s'.redis ensures Backed(s', k, s'.redis[k]) { StepKeepsCacheBacked(cfg, s, e, k); }
    forall id | id in s'.uploads && s'.uploads[id].stored ensures s'.uploads[id].key in s'.backend {
      UploadsStayBacked(cfg, s, e, id);
    }
  }

  lemma WritingIsBacked(s: State, id: Id)
    requires id in s.calls && CallBacked(s, s.calls[id]) && s.calls[id].pc.Writing?
    ensures Backed(s, s.calls[id].key, s.calls[id].pc.info)
  {
  }

  lemma {:induction false} RunKeepsBacked(cfg: Config, s: State, es: seq<Event>)
    requires AllBacked(s)
    ensures AllBacked(Run(cfg, s, es))
  {
    if es != [] {
      RunKeepsBacked(cfg, s, es[..|es| - 1]);
      StepKeepsBacked(cfg, Run(cfg, s, es[..|es| - 1]), es[|es| - 1]);
    }
  }

  predicate AnsweredExists(pc: Pc) {
    pc.Finished? && pc.result.Some? && pc.result.value.info.exists_
  }

  /** In every interleaving of checks, uploads, clears and failures, starting from a cache whose
      positive entries are true: a cached or an answered "exists" means the object is in the
      backend, which deletes nothing. */
  lemma PositiveAnswersAreSound(cfg: Config, redis: map<Key, FileInfo>, backend: map<Key, nat>, es: seq<Event>, id: Id)
    requires forall k :: k in redis && redis[k].exists_ ==> k in backend
    ensures var s := Run(cfg, Start(cfg, redis, backend), es);
      && (forall k :: k in s.redis && s.redis[k].exists_ ==> k in s.backend)
      && (id in s.calls && AnsweredExists(s.calls[id].pc) ==> s.calls[id].key in s.backend)
  {
    RunKeepsBacked(cfg, Start(cfg, redis, backend), es);
    var s := Run(cfg, Start(cfg, redis, backend), es);
    assert id in s.calls ==> CallBacked(s, s.calls[id]);
  }

  // ---- Agreement with the backend -----------------------------------------------------------

  predicate UploadRuns(s: State, k: Key) {
    exists u :: u in s.uploads && s.uploads[u].key == k
  }

  predicate CheckRuns(s: State, k: Key) {
    exists c :: c in s.calls && s.calls[c].key == k && !s.calls[c].pc.Finished?
  }

  /** How a run can be untidy about one key: a check starts during an upload, an upload starts
      during a check or during another upload, or an upload that has stored its object does not
      record it. */
  datatype Overlap = CheckUnderUpload | UploadUnderCheck | UploadUnderUpload | RecordFails | DiesUnrecorded

  ghost function Overlaps(k: Key, s: State, e: Event): set<Overlap> {
    match e
    case Check(_, key) => if key == k && UploadRuns(s, k) then {CheckUnderUpload} else {}
    case UploadStart(_, key, _) =>
      if key != k then {}
      else (if UploadRuns(s, k) then {UploadUnderUpload} else {}) + (if CheckRuns(s, k) then {UploadUnderCheck} else {})
    case UploadSet(id, redis) => if id in s.uploads && s.uploads[id].key == k && !redis then {RecordFails} else {}
    case UploadFail(id) =>
      if id in s.uploads && s.uploads[id].key == k && s.uploads[id].stored then {DiesUnrecorded} else {}
    case _ => {}
  }

  /** Nothing is asked of other keys. */
  ghost predicate Calm(k: Key, s: State, e: Event) {
    Overlaps(k, s, e) == {}
  }

  /** A run whose untidiness about k is of the permitted kinds. */
  ghost predicate Permitted(cfg: Config, k: Key, overlaps: set<Overlap>, s: State, es: seq<Event>) {
    es == [] || (&& Permitted(cfg, k, overlaps, s, es[..|es| - 1])
                 && Overlaps(k, Run(cfg, s, es[..|es| - 1]), es[|es| - 1]) <= overlaps)
  }

  ghost predicate Agrees(s: State, k: Key) {
    k in s.redis ==> s.redis[k] == Look(s.backend, k)
  }

  ghost predicate AgreeInv(s: State, k: Key) {
    && (forall u, v :: u in s.uploads && v in s.uploads && s.uploads[u].key == k && s.uploads[v].key == k ==> u == v)
    && (UploadRuns(s, k) ==> !CheckRuns(s, k))
    && (forall u :: u in s.uploads && s.uploads[u].key == k && s.uploads[u].stored ==>
        Look(s.backend, k) == FileInfo(true, s.uploads[u].size))
    && ((forall u :: u in s.uploads && s.uploads[u].key == k ==> !s.uploads[u].stored) ==> Agrees(s, k))
    && (forall c :: c in s.calls && s.calls[c].key == k && s.calls[c].pc.Writing? ==>
        s.calls[c].pc.info == Look(s.backend, k))
  }

  /** What a call's step or a clear does to the cache, and what a call that is about to write has
      just been told. */
  lemma AnswersAreFresh(cfg: Config, s: State, e: Event)
    requires Enabled(cfg, s, e) && (CallEvent(e) || e.Check? || e.Clear?)
    ensures var s' := Step(cfg, s, e);
      && s'.uploads == s.uploads && s'.backend == s.backend
      && s'.redis == (if e.WriteBack? && e.redis then s.redis[s.calls[e.id].key := s.calls[e.id].pc.info]
                      else if e.Clear? then s.redis - e.keys else s.redis)
      && (CallEvent(e) ==>
          && s'.calls[e.id].key == s.calls[e.id].key && !s.calls[e.id].pc.Finished?
          && (s'.calls[e.id].pc.Writing? ==> s'.calls[e.id].pc.info == Look(s.backend, s.calls[e.id].key)))
      && (e.Check? ==> s'.calls[e.id] == Call(e.key, Reading))
  {
    StepMovesOneCall(cfg, s, e);
  }

  predicate NotUpload(e: Event) {
    CallEvent(e) || e.Check? || e.Clear?
  }

  lemma ChecksStayApart(cfg: Config, s: State, e: Event, k: Key)
    requires AgreeInv(s, k) && Calm(k, s, e) && Enabled(cfg, s, e) && NotUpload(e)
    ensures UploadRuns(Step(cfg, s, e), k) ==> !CheckRuns(Step(cfg, s, e), k)
  {
    var s' := Step(cfg, s, e);
    StepMovesOneCall(cfg, s, e);
    AnswersAreFresh(cfg, s, e);
    assert e.Check? && e.key == k ==> !UploadRuns(s, k);
    assert !CheckRuns(s, k) || !UploadRuns(s, k);
    hide Step, Enabled, Calm, AgreeInv;
  }

  lemma AnswersStayRight(cfg: Config, s: State, e: Event, k: Key, c: Id)
    requires AgreeInv(s, k) && Enabled(cfg, s, e) && NotUpload(e)
    requires c in Step(cfg, s, e).calls && Step(cfg, s, e).calls[c].key == k && Step(cfg, s, e).calls[c].pc.Writing?
    ensures Step(cfg, s, e).calls[c].pc.info == Look(s.backend, k)
  {
    StepMovesOneCall(cfg, s, e);
    AnswersAreFresh(cfg, s, e);
    hide Step, Enabled, Look;
  }

  /** A write-back with a check running means no upload is running. */
  lemma EntryStaysRight(cfg: Config, s: State, e: Event, k: Key)
    requires AgreeInv(s, k) && Enabled(cfg, s, e) && NotUpload(e)
    requires forall u :: u in s.uploads && s.uploads[u].key == k ==> !s.uploads[u].stored
    ensures Agrees(Step(cfg, s, e), k)
  {
    AnswersAreFresh(cfg, s, e);
    assert e.WriteBack? ==> s.calls[e.id].pc.Writing?;
    hide Step, Enabled, Look;
  }

  lemma CallStepKeepsAgreement(cfg: Config, s: State, e: Event, k: Key)
    requires AgreeInv(s, k) && Calm(k, s, e) && Enabled(cfg, s, e) && NotUpload(e)
    ensures AgreeInv(Step(cfg, s, e), k)
  {
    var s' := Step(cfg, s, e);
    AnswersAreFresh(cfg, s, e);
    ChecksStayApart(cfg, s, e, k);
    if forall u :: u in s.uploads && s.uploads[u].key == k ==> !s.uploads[u].stored { EntryStaysRight(cfg, s, e, k); }
    hide Step, Enabled, Calm, Agrees, Look, CheckRuns, UploadRuns;
    forall c | c in s'.calls && s'.calls[c].key == k && s'.calls[c].pc.Writing?
      ensures s'.calls[c].pc.info == Look(s.backend, k)
    {
      AnswersStayRight(cfg, s, e, k, c);
    }
  }

  /** Nothing the agreement at k looks at has changed. */
  ghost predicate SameAt(s: State, s': State, k: Key) {
    && s'.calls == s.calls
    && (k in s'.redis <==> k in s.redis) && (k in s.redis ==> s'.redis[k] == s.redis[k])
    && Look(s'.backend, k) == Look(s.backend, k)
    && (forall u :: u in s'.uploads && s'.uploads[u].key == k ==> u in s.uploads && s.uploads[u] == s'.uploads[u])
    && (forall u :: u in s.uploads && s.uploads[u].key == k ==> u in s'.uploads && s'.uploads[u] == s.uploads[u])
  }

  lemma SameAtKeepsAgreement(s: State, s': State, k: Key)
    requires AgreeInv(s, k) && SameAt(s, s', k)
    ensures AgreeInv(s', k)
  {
    hide Look;
    if UploadRuns(s', k) { assert UploadRuns(s, k); }
  }

  predicate UploadEvent(e: Event) {
    e.UploadStart? || e.UploadPut? || e.UploadSet? || e.UploadFail?
  }

  function UploadKey(s: State, e: Event): Key
    requires UploadEvent(e) && (e.UploadStart? || e.id in s.uploads)
  {
    if e.UploadStart? then e.key else s.uploads[e.id].key
  }

  lemma UploadElsewhere(cfg: Config, s: State, e: Event, k: Key)
    requires Enabled(cfg, s, e) && UploadEvent(e) && UploadKey(s, e) != k
    ensures SameAt(s, Step(cfg, s, e), k)
  {
  }

  /** When an upload of k ends, what it leaves behind is in order. */
  lemma UploadEnds(cfg: Config, s: State, e: Event, k: Key)
    requires cfg.allowed(k) && AgreeInv(s, k) && Calm(k, s, e) && Enabled(cfg, s, e)
    requires (e.UploadSet? || e.UploadFail?) && UploadKey(s, e) == k
    ensures AgreeInv(Step(cfg, s, e), k)
  {
    var s' := Step(cfg, s, e);
    assert s'.uploads == s.uploads - {e.id} && s'.backend == s.backend && s'.calls == s.calls;
    assert UploadRuns(s, k);
    assert !UploadRuns(s', k);
    assert e.UploadFail? ==> s' == s.(uploads := s'.uploads);
    assert e.UploadSet? ==> k in s'.redis && s'.redis[k] == FileInfo(true, s.uploads[e.id].size);
    hide Step, Enabled, Calm, Look;
    if e.UploadFail? { assert forall u :: u in s.uploads && s.uploads[u].key == k ==> u == e.id; }
    assert Agrees(s', k);
  }

  lemma UploadMovesOn(cfg: Config, s: State, e: Event, k: Key)
    requires AgreeInv(s, k) && Calm(k, s, e) && Enabled(cfg, s, e)
    requires (e.UploadStart? || e.UploadPut?) && UploadKey(s, e) == k
    ensures AgreeInv(Step(cfg, s, e), k)
  {
    var s' := Step(cfg, s, e);
    assert s'.calls == s.calls && s'.redis == s.redis;
    assert e.UploadPut? ==> UploadRuns(s, k);
    assert !CheckRuns(s, k) && CheckRuns(s', k) == CheckRuns(s, k);
    assert forall u :: u in s'.uploads && s'.uploads[u].key == k ==> u == e.id;
    assert e.id in s'.uploads && s'.uploads[e.id].key == k;
    assert s'.uploads[e.id].stored ==> Look(s'.backend, k) == FileInfo(true, s'.uploads[e.id].size);
    if e.UploadStart? {
      assert s'.backend == s.backend && !UploadRuns(s, k);
      assert Agrees(s, k);
    } else {
      assert s'.uploads[e.id].stored;
    }
    hide Step, Enabled, Calm, Look;
  }

  lemma UploadStepKeepsAgreement(cfg: Config, s: State, e: Event, k: Key)
    requires cfg.allowed(k) && AgreeInv(s, k) && Calm(k, s, e) && Enabled(cfg, s, e) && UploadEvent(e)
    ensures AgreeInv(Step(cfg, s, e), k)
  {
    assert e.UploadStart? || e.id in s.uploads;
    hide Step, AgreeInv, SameAt, Calm;
    if UploadKey(s, e) != k {
      UploadElsewhere(cfg, s, e, k);
      SameAtKeepsAgreement(s, Step(cfg, s, e), k);
    } else if e.UploadStart? || e.UploadPut? {
      UploadMovesOn(cfg, s, e, k);
    } else {
      UploadEnds(cfg, s, e, k);
    }
  }

  lemma {:induction false} RunKeepsAgreement(cfg: Config, s: State, es: seq<Event>, k: Key)
    requires cfg.allowed(k) && AgreeInv(s, k) && Permitted(cfg, k, {}, s, es)
    ensures AgreeInv(Run(cfg, s, es), k)
  {
    if es != [] {
      var before, e := Run(cfg, s, es[..|es| - 1]), es[|es| - 1];
      RunKeepsAgreement(cfg, s, es[..|es| - 1], k);
      assert Calm(k, before, e);
      hide AgreeInv, Calm;
      if Enabled(cfg, before, e) {
        if NotUpload(e) { CallStepKeepsAgreement(cfg, before, e, k); }
        else { UploadStepKeepsAgreement(cfg, before, e, k); }
      }
    }
  }

  /** Whenever no upload of the key is in progress, its cache entry, if any, has the backend's
      existence flag and size. */
  ghost predicate Settled(s: State, k: Key) {
    !UploadRuns(s, k) ==> Agrees(s, k)
  }

  /** An allowed key whose checks and uploads do not overlap and whose uploads record themselves
      is settled, however other keys, clears and failures interleave. */
  lemma CacheAgreesWithBackend(cfg: Config, redis: map<Key, FileInfo>, backend: map<Key, nat>, es: seq<Event>, k: Key)
    requires cfg.allowed(k) && (k in redis ==> redis[k] == Look(backend, k))
    requires Permitted(cfg, k, {}, Start(cfg, redis, backend), es)
    ensures Settled(Run(cfg, Start(cfg, redis, backend), es), k)
  {
    RunKeepsAgreement(cfg, Start(cfg, redis, backend), es, k);
  }
}
