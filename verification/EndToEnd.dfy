/** From publishing calls to the files: what running the queued tasks can do to them. */
module EndToEnd {
  import opened Common
  import opened Paths
  import opened Upload
  import opened Sync
  import opened SyncLoss
  import P = Publisher

  // ---- Queued payloads as a plan ----------------------------------------------------------

  ghost function Work(ps: seq<P.Payload>, source: map<File, Bytes>): iset<Put> {
    iset i | 0 <= i < |ps| && P.FileOf(ps[i]) in source :: Put(ps[i].target, source[P.FileOf(ps[i])])
  }

  /** The queue's payloads as tasks over the local files and the SFTP backend. */
  ghost function PlanOf(ps: seq<P.Payload>, source: map<File, Bytes>, hash: Bytes -> Hash64, stripe: Path -> nat,
                        resume: bool): Plan
  {
    Plan(seq(|ps|, i requires 0 <= i < |ps| => Task(P.FileOf(ps[i]), ps[i].target, ps[i].deleteAfter, ps[i].overwrite)),
         source, SftpConfig(Work(ps, source), hash, stripe, resume))
  }

  /** What must hold of the payloads: the files are there and named once, the targets are clean and
      not named like temporary files, and the 64-bit hash tells the contents apart. */
  ghost predicate Uploadable(ps: seq<P.Payload>, source: map<File, Bytes>, hash: Bytes -> Hash64) {
    && P.DistinctFiles(ps)
    && (forall p :: p in ps ==> P.FileOf(p) in source && FileKey(p.target) && !TempShaped(p.target))
    && (forall p, q :: p in ps && q in ps ==> HashTells(source, hash, P.FileOf(p), P.FileOf(q)))
  }

  predicate HashTells(source: map<File, Bytes>, hash: Bytes -> Hash64, f: File, g: File) {
    f in source && g in source && hash(source[f]) == hash(source[g]) ==> source[f] == source[g]
  }

  lemma KeptIsUploadable(ps: seq<P.Payload>, ids: set<Path>, source: map<File, Bytes>, hash: Bytes -> Hash64)
    requires Uploadable(ps, source, hash)
    ensures Uploadable(P.Kept(ids, ps), source, hash) && forall p :: p in P.Kept(ids, ps) ==> p in ps
  {
    P.KeptIsDistinct(ids, ps);
    hide P.Kept, P.DistinctFiles, FileKey, TempShaped, HashTells;
    forall p | p in P.Kept(ids, ps) ensures p in ps { P.KeptExact(ids, ps, p); }
  }

  lemma WorkIsClean(ps: seq<P.Payload>, source: map<File, Bytes>, hash: Bytes -> Hash64)
    requires Uploadable(ps, source, hash)
    ensures CleanKeys(Work(ps, source)) && HashInjective(Work(ps, source), hash)
  {
    hide FileKey, TempShaped, P.DistinctFiles, P.FileOf;
    var work := Work(ps, source);
    forall w | w in work ensures FileKey(w.key) && !TempShaped(w.key) {
      var i :| 0 <= i < |ps| && P.FileOf(ps[i]) in source && w == Put(ps[i].target, source[P.FileOf(ps[i])]);
      assert ps[i] in ps;
    }
    forall a, b | a in work && b in work && hash(a.content) == hash(b.content) ensures a.content == b.content {
      var i :| 0 <= i < |ps| && P.FileOf(ps[i]) in source && a == Put(ps[i].target, source[P.FileOf(ps[i])]);
      var j :| 0 <= j < |ps| && P.FileOf(ps[j]) in source && b == Put(ps[j].target, source[P.FileOf(ps[j])]);
      assert ps[i] in ps && ps[j] in ps && HashTells(source, hash, P.FileOf(ps[i]), P.FileOf(ps[j]));
    }
  }

  /** One payload as a task. */
  lemma TaskOfPayload(ps: seq<P.Payload>, source: map<File, Bytes>, hash: Bytes -> Hash64, stripe: Path -> nat,
                      resume: bool, t: TaskId)
    requires Uploadable(ps, source, hash)
    ensures var plan := PlanOf(ps, source, hash, stripe, resume);
      && (TaskOk(plan, t) <==> t < |ps|) && |plan.tasks| == |ps|
      && (t < |ps| ==>
          && PutOf(plan, t) in plan.cfg.work && PutOf(plan, t).content == source[P.FileOf(ps[t])]
          && TargetOf(plan, t) == ps[t].target
          && plan.tasks[t] == Task(P.FileOf(ps[t]), ps[t].target, ps[t].deleteAfter, ps[t].overwrite))
  {
    if t < |ps| {
      assert ps[t] in ps;
      assert Clean(ps[t].target) == ps[t].target;
    }
    hide P.FileOf, P.DistinctFiles, FileKey, TempShaped, HashTells, Clean;
  }

  /** Payloads that are uploadable meet every hypothesis of the sync and upload machines, whatever
      targets they share. */
  lemma QueueIsWellPlanned(ps: seq<P.Payload>, source: map<File, Bytes>, hash: Bytes -> Hash64, stripe: Path -> nat,
                           resume: bool)
    requires Uploadable(ps, source, hash)
    ensures WellPlanned(PlanOf(ps, source, hash, stripe, resume))
  {
    var plan := PlanOf(ps, source, hash, stripe, resume);
    WorkIsClean(ps, source, hash);
    CleanKeysSeparate(Work(ps, source), hash, stripe, resume);
    assert plan.cfg == SftpConfig(Work(ps, source), hash, stripe, resume);
    assert P.DistinctFiles(ps);
    hide Separated, Uploadable, PlanOf, Work, P.FileOf;
    TaskOfPayload(ps, source, hash, stripe, resume, 0);
    forall t: TaskId | t < |ps|
      ensures TaskOk(plan, t) && PutOf(plan, t) in plan.cfg.work
      ensures TargetOf(plan, t) == plan.tasks[t].target && plan.tasks[t].file == P.FileOf(ps[t])
    {
      TaskOfPayload(ps, source, hash, stripe, resume, t);
    }
  }

  // ---- When a payload's bytes are safe ----------------------------------------------------------

  /** The file's bytes, wherever they are: still in place, or whole at the target. */
  ghost predicate Safe(source: map<File, Bytes>, p: P.Payload, s: Sync.State)
    requires P.FileOf(p) in source
  {
    || (P.FileOf(p) in s.local && s.local[P.FileOf(p)] == source[P.FileOf(p)])
    || At(s.up.remote, p.target) == Holds(source[P.FileOf(p)])
  }

  /** A target that the skip rule cannot mistake for the content: in particular an absent one. */
  predicate Fits(overwrite: bool, r: Remote, target: Path, content: Bytes) {
    overwrite || target !in r || |r[target]| != |content| || r[target] == content
  }

  /** Of the queued payloads, q can put another content at p's target. */
  ghost predicate Disturbs(ps: seq<P.Payload>, source: map<File, Bytes>, r: Remote, p: P.Payload, q: P.Payload)
    requires forall x :: x in ps ==> P.FileOf(x) in source
    requires p in ps && q in ps
  {
    var n := |source[P.FileOf(q)]|;
    && q.target == p.target && source[P.FileOf(q)] != source[P.FileOf(p)]
    && (|| q.overwrite || q.target !in r || |r[q.target]| != n
        || exists x :: x in ps && x.target == q.target && |source[P.FileOf(x)]| != n)
  }

  ghost predicate Undisturbed(ps: seq<P.Payload>, source: map<File, Bytes>, r: Remote, p: P.Payload)
    requires (forall x :: x in ps ==> P.FileOf(x) in source) && p in ps
  {
    && Fits(p.overwrite, r, p.target, source[P.FileOf(p)])
    && forall q :: q in ps ==> !Disturbs(ps, source, r, p, q)
  }

  lemma CanPutMeans(ps: seq<P.Payload>, source: map<File, Bytes>, hash: Bytes -> Hash64, stripe: Path -> nat,
                    resume: bool, r: Remote, t: TaskId, u: TaskId)
    requires Uploadable(ps, source, hash) && t < |ps| && u < |ps|
    ensures var plan := PlanOf(ps, source, hash, stripe, resume);
      && TaskOk(plan, t) && TaskOk(plan, u)
      && (Disturbs(ps, source, r, ps[t], ps[u]) <==>
          SameTarget(plan, t, u) && CanPut(plan, r, u) && PutOf(plan, u).content != PutOf(plan, t).content)
  {
    var plan := PlanOf(ps, source, hash, stripe, resume);
    TaskOfPayload(ps, source, hash, stripe, resume, t);
    TaskOfPayload(ps, source, hash, stripe, resume, u);
    assert ps[t] in ps && ps[u] in ps;
    var n := |source[P.FileOf(ps[u])]|;
    OtherSizeMeans(ps, source, hash, stripe, resume, u);
    hide Uploadable, PlanOf, P.FileOf;
  }

  lemma OtherSizeMeans(ps: seq<P.Payload>, source: map<File, Bytes>, hash: Bytes -> Hash64, stripe: Path -> nat,
                       resume: bool, u: TaskId)
    requires Uploadable(ps, source, hash) && u < |ps|
    ensures var plan := PlanOf(ps, source, hash, stripe, resume);
      && TaskOk(plan, u) && ps[u] in ps && (forall x :: x in ps ==> P.FileOf(x) in source)
      && ((exists w: TaskId :: SameTarget(plan, u, w) && |PutOf(plan, w).content| != |PutOf(plan, u).content|) <==>
          exists x :: x in ps && x.target == ps[u].target && |source[P.FileOf(x)]| != |source[P.FileOf(ps[u])]|)
  {
    var plan := PlanOf(ps, source, hash, stripe, resume);
    TaskOfPayload(ps, source, hash, stripe, resume, u);
    assert ps[u] in ps && forall x :: x in ps ==> P.FileOf(x) in source;
    hide Uploadable, PlanOf, P.FileOf;
    if w: TaskId :| SameTarget(plan, u, w) && |PutOf(plan, w).content| != |PutOf(plan, u).content| {
      TaskOfPayload(ps, source, hash, stripe, resume, w);
      assert ps[w] in ps;
    }
    if x :| x in ps && x.target == ps[u].target && |source[P.FileOf(x)]| != |source[P.FileOf(ps[u])]| {
      var w: TaskId :| w < |ps| && ps[w] == x;
      TaskOfPayload(ps, source, hash, stripe, resume, w);
      assert SameTarget(plan, u, w);
    }
  }

  lemma GuardedMeansNoneDisturbs(ps: seq<P.Payload>, source: map<File, Bytes>, hash: Bytes -> Hash64,
                                 stripe: Path -> nat, resume: bool, r: Remote, t: TaskId)
    requires Uploadable(ps, source, hash) && t < |ps|
    ensures var plan := PlanOf(ps, source, hash, stripe, resume);
      && TaskOk(plan, t) && ps[t] in ps && (forall x :: x in ps ==> P.FileOf(x) in source)
      && (Guarded(plan, r, t) <==> forall q :: q in ps ==> !Disturbs(ps, source, r, ps[t], q))
  {
    var plan := PlanOf(ps, source, hash, stripe, resume);
    TaskOfPayload(ps, source, hash, stripe, resume, t);
    assert ps[t] in ps && forall x :: x in ps ==> P.FileOf(x) in source;
    hide Uploadable, PlanOf, P.FileOf, Disturbs, CanPut;
    if Guarded(plan, r, t) {
      forall q | q in ps ensures !Disturbs(ps, source, r, ps[t], q) {
        var u: TaskId :| u < |ps| && ps[u] == q;
        CanPutMeans(ps, source, hash, stripe, resume, r, t, u);
      }
    }
    if forall q :: q in ps ==> !Disturbs(ps, source, r, ps[t], q) {
      forall u: TaskId | SameTarget(plan, t, u) && CanPut(plan, r, u)
        ensures PutOf(plan, u).content == PutOf(plan, t).content
      {
        TaskOfPayload(ps, source, hash, stripe, resume, u);
        CanPutMeans(ps, source, hash, stripe, resume, r, t, u);
      }
    }
  }

  lemma SparedMeansUndisturbed(ps: seq<P.Payload>, source: map<File, Bytes>, hash: Bytes -> Hash64, stripe: Path -> nat,
                               resume: bool, r: Remote, t: TaskId)
    requires Uploadable(ps, source, hash) && t < |ps| && ps[t].deleteAfter
    ensures var plan := PlanOf(ps, source, hash, stripe, resume);
      && TaskOk(plan, t) && ps[t] in ps && (forall x :: x in ps ==> P.FileOf(x) in source)
      && (Spared(plan, r, t) <==> Undisturbed(ps, source, r, ps[t]))
  {
    TaskOfPayload(ps, source, hash, stripe, resume, t);
    GuardedMeansNoneDisturbs(ps, source, hash, stripe, resume, r, t);
    hide Uploadable, PlanOf, P.FileOf, Disturbs, Guarded;
  }

  // ---- A queue of payloads -----------------------------------------------------------------------

  /** A payload that the queue dropped names a file of no task. */
  lemma DroppedStays(ps: seq<P.Payload>, ids: set<Path>, source: map<File, Bytes>, hash: Bytes -> Hash64,
                     stripe: Path -> nat, resume: bool, r: Remote, es: seq<Sync.Event>, p: P.Payload)
    requires Uploadable(ps, source, hash) && p in ps && p !in P.Kept(ids, ps)
    ensures P.FileOf(p) in source
    ensures Safe(source, p, Sync.Run(PlanOf(P.Kept(ids, ps), source, hash, stripe, resume),
                                     Start(PlanOf(P.Kept(ids, ps), source, hash, stripe, resume), r), es))
  {
    var qs := P.Kept(ids, ps);
    var plan := PlanOf(qs, source, hash, stripe, resume);
    KeptIsUploadable(ps, ids, source, hash);
    assert P.FileOf(p) in source && plan.source == source;
    forall t: TaskId | TaskOk(plan, t) ensures plan.tasks[t].file != P.FileOf(p) {
      TaskOfPayload(qs, source, hash, stripe, resume, t);
      assert qs[t] in qs && qs[t] in ps;
      FilesTellPayloads(ps, p, qs[t]);
    }
    hide P.Kept, Uploadable, PlanOf, P.FileOf, Sync.Run;
    FilesWithoutTasksStay(plan, r, es, P.FileOf(p));
  }

  lemma FilesTellPayloads(ps: seq<P.Payload>, p: P.Payload, q: P.Payload)
    requires P.DistinctFiles(ps) && p in ps && q in ps
    ensures P.FileOf(p) == P.FileOf(q) ==> p == q
  {
    hide P.FileOf;
    var i :| 0 <= i < |ps| && ps[i] == p;
    var j :| 0 <= j < |ps| && ps[j] == q;
    assert i < j || j < i || i == j;
  }

  lemma SafeMeansNothingLost(qs: seq<P.Payload>, source: map<File, Bytes>, hash: Bytes -> Hash64, stripe: Path -> nat,
                             resume: bool, s: Sync.State)
    requires Uploadable(qs, source, hash)
    ensures forall p :: p in qs ==> P.FileOf(p) in source
    ensures NothingLost(PlanOf(qs, source, hash, stripe, resume), s) <==> forall p :: p in qs ==> Safe(source, p, s)
  {
    var plan := PlanOf(qs, source, hash, stripe, resume);
    assert plan.source == source && forall p :: p in qs ==> P.FileOf(p) in source;
    hide Uploadable, PlanOf, P.FileOf;
    forall p | p in qs && NothingLost(plan, s) ensures Safe(source, p, s) {
      var t: TaskId :| t < |qs| && qs[t] == p;
      TaskOfPayload(qs, source, hash, stripe, resume, t);
    }
    if forall p :: p in qs ==> Safe(source, p, s) {
      forall t: TaskId | TaskOk(plan, t)
        ensures var file := plan.tasks[t].file;
          || (file in s.local && s.local[file] == plan.source[file])
          || At(s.up.remote, TargetOf(plan, t)) == Holds(plan.source[file])
      {
        TaskOfPayload(qs, source, hash, stripe, resume, t);
        assert qs[t] in qs;
      }
    }
  }

  /** Every offered payload keeps its bytes. */
  ghost predicate AllSafe(ps: seq<P.Payload>, source: map<File, Bytes>, s: Sync.State)
    requires forall p :: p in ps ==> P.FileOf(p) in source
  {
    forall p :: p in ps ==> Safe(source, p, s)
  }

  ghost predicate AllUndisturbed(qs: seq<P.Payload>, source: map<File, Bytes>, r: Remote)
    requires forall p :: p in qs ==> P.FileOf(p) in source
  {
    forall p :: p in qs && p.deleteAfter ==> Undisturbed(qs, source, r, p)
  }

  lemma OfferedSafeMeansKeptSafe(ps: seq<P.Payload>, ids: set<Path>, source: map<File, Bytes>, hash: Bytes -> Hash64,
                                 stripe: Path -> nat, resume: bool, r: Remote, es: seq<Sync.Event>)
    requires Uploadable(ps, source, hash)
    ensures forall p :: p in ps ==> P.FileOf(p) in source
    ensures var plan := PlanOf(P.Kept(ids, ps), source, hash, stripe, resume);
      var s := Sync.Run(plan, Start(plan, r), es); AllSafe(ps, source, s) <==> NothingLost(plan, s)
  {
    var qs := P.Kept(ids, ps);
    KeptIsUploadable(ps, ids, source, hash);
    assert forall p :: p in ps ==> P.FileOf(p) in source;
    hide P.Kept, Uploadable, PlanOf, P.FileOf, Sync.Run, Safe, NothingLost;
    var plan := PlanOf(qs, source, hash, stripe, resume);
    var s := Sync.Run(plan, Start(plan, r), es);
    SafeMeansNothingLost(qs, source, hash, stripe, resume, s);
    forall p | p in ps && p !in qs ensures Safe(source, p, s) {
      DroppedStays(ps, ids, source, hash, stripe, resume, r, es, p);
    }
  }

  lemma SparedAllMeansUndisturbed(qs: seq<P.Payload>, source: map<File, Bytes>, hash: Bytes -> Hash64,
                                  stripe: Path -> nat, resume: bool, r: Remote)
    requires Uploadable(qs, source, hash)
    ensures forall p :: p in qs ==> P.FileOf(p) in source
    ensures var plan := PlanOf(qs, source, hash, stripe, resume);
      AllUndisturbed(qs, source, r) <==>
      forall t: TaskId :: TaskOk(plan, t) && plan.tasks[t].deleteAfter ==> Spared(plan, r, t)
  {
    var plan := PlanOf(qs, source, hash, stripe, resume);
    assert forall p :: p in qs ==> P.FileOf(p) in source;
    hide Uploadable, PlanOf, P.FileOf, Undisturbed, Spared;
    if AllUndisturbed(qs, source, r) {
      forall t: TaskId | TaskOk(plan, t) && plan.tasks[t].deleteAfter ensures Spared(plan, r, t) {
        TaskOfPayload(qs, source, hash, stripe, resume, t);
        SparedMeansUndisturbed(qs, source, hash, stripe, resume, r, t);
      }
    }
    if forall t: TaskId :: TaskOk(plan, t) && plan.tasks[t].deleteAfter ==> Spared(plan, r, t) {
      forall p | p in qs && p.deleteAfter ensures Undisturbed(qs, source, r, p) {
        var t: TaskId :| t < |qs| && qs[t] == p;
        TaskOfPayload(qs, source, hash, stripe, resume, t);
        SparedMeansUndisturbed(qs, source, hash, stripe, resume, r, t);
      }
    }
  }

  /** Offer payloads to a queue with any task ids taken, and run what it keeps in any interleaving
      with any crashes, cut uploads and redeliveries: every offered file keeps its bytes in every
      reachable state of every run if and only if every queued deleting payload is undisturbed. */
  lemma QueueLosesNothingIff(ps: seq<P.Payload>, ids: set<Path>, source: map<File, Bytes>, hash: Bytes -> Hash64,
                             stripe: Path -> nat, resume: bool, r: Remote)
    requires Uploadable(ps, source, hash)
    requires TempsArePrefixes(PlanOf(P.Kept(ids, ps), source, hash, stripe, resume).cfg, r)
    ensures forall p :: p in ps || p in P.Kept(ids, ps) ==> P.FileOf(p) in source
    ensures var qs := P.Kept(ids, ps);
      var plan := PlanOf(qs, source, hash, stripe, resume);
      (forall es :: AllSafe(ps, source, Sync.Run(plan, Start(plan, r), es))) <==> AllUndisturbed(qs, source, r)
  {
    var qs := P.Kept(ids, ps);
    KeptIsUploadable(ps, ids, source, hash);
    QueueIsWellPlanned(qs, source, hash, stripe, resume);
    SparedAllMeansUndisturbed(qs, source, hash, stripe, resume, r);
    OfferedSafeMeansKeptSafe(ps, ids, source, hash, stripe, resume, r, []);
    hide *;
    var plan := PlanOf(qs, source, hash, stripe, resume);
    forall es
      ensures AllSafe(ps, source, Sync.Run(plan, Start(plan, r), es)) <==>
        NothingLost(plan, Sync.Run(plan, Start(plan, r), es))
    {
      OfferedSafeMeansKeptSafe(ps, ids, source, hash, stripe, resume, r, es);
    }
    NoBytesLostIff(plan, r);
  }

  /** And a payload whose task has been acknowledged is whole at its target, if that fitted and no
      other content can come there. */
  lemma AcknowledgedIsDelivered(qs: seq<P.Payload>, source: map<File, Bytes>, hash: Bytes -> Hash64,
                                stripe: Path -> nat, resume: bool, r: Remote, es: seq<Sync.Event>, t: TaskId)
    requires Uploadable(qs, source, hash) && t < |qs|
    requires TempsArePrefixes(PlanOf(qs, source, hash, stripe, resume).cfg, r)
    requires var plan := PlanOf(qs, source, hash, stripe, resume); t in Sync.Run(plan, Start(plan, r), es).done
    ensures (forall p :: p in qs ==> P.FileOf(p) in source) && qs[t] in qs
    ensures var plan := PlanOf(qs, source, hash, stripe, resume);
      Undisturbed(qs, source, r, qs[t]) ==>
        At(Sync.Run(plan, Start(plan, r), es).up.remote, qs[t].target) == Holds(source[P.FileOf(qs[t])])
  {
    var plan := PlanOf(qs, source, hash, stripe, resume);
    QueueIsWellPlanned(qs, source, hash, stripe, resume);
    TaskOfPayload(qs, source, hash, stripe, resume, t);
    GuardedMeansNoneDisturbs(qs, source, hash, stripe, resume, r, t);
    hide Uploadable, PlanOf, P.FileOf, Sync.Run, WellPlanned, Guarded, Disturbs;
    if Undisturbed(qs, source, r, qs[t]) {
      DeliveryIsIdempotent(plan, r, es, t);
      assert SameTarget(plan, t, t);
    }
  }

  // ---- A publishing call -----------------------------------------------------------------------

  /** The files of the items, up to the first that is refused, are there with their contents. */
  ghost predicate Describes(source: map<File, Bytes>, fs: map<Path, P.Source>, items: seq<P.SyncItem>) {
    items == [] || P.Refusal(fs, items[0]).Some? ||
    (DescribesTree(source, fs[items[0].from.value].found) && Describes(source, fs, items[1..]))
  }

  ghost predicate DescribesTree(source: map<File, Bytes>, found: P.Found) {
    forall p :: P.HasLeaf(found.node, p) ==>
      found.path.segs + p in source && source[found.path.segs + p] == P.LeafContent(found.node, p)
  }

  lemma ItemFilesAreThere(source: map<File, Bytes>, item: P.SyncItem, found: P.Found, p: P.Payload)
    requires item.to.Some? && DescribesTree(source, found) && p in P.ItemPayloads(item, found, P.Leaves(found.node))
    ensures P.FileOf(p) in source
  {
    var i :| 0 <= i < |P.Leaves(found.node)| && p == P.PayloadFor(item, found, P.Leaves(found.node)[i]);
    P.LeavesExact(found.node, P.Leaves(found.node)[i]);
    hide P.Leaves, P.HasLeaf;
  }

  lemma {:induction false} OfferedFilesAreThere(source: map<File, Bytes>, fs: map<Path, P.Source>,
                                                items: seq<P.SyncItem>, p: P.Payload)
    requires Describes(source, fs, items) && p in P.Offered(fs, items)
    ensures P.FileOf(p) in source
  {
    var found := fs[items[0].from.value].found;
    if p in P.ItemPayloads(items[0], found, P.Leaves(found.node)) {
      ItemFilesAreThere(source, items[0], found, p);
    } else {
      OfferedFilesAreThere(source, fs, items[1..], p);
    }
  }

  /** What a caller can check: no file is offered twice, and the targets are clean and do not look
      temporary; and the hash tells the contents apart. */
  ghost predicate CallPublishable(fs: map<Path, P.Source>, items: seq<P.SyncItem>, source: map<File, Bytes>,
                                  hash: Bytes -> Hash64)
  {
    && Describes(source, fs, items) && P.DistinctFiles(P.Offered(fs, items))
    && (forall p :: p in P.Offered(fs, items) ==> FileKey(p.target) && !TempShaped(p.target))
    && (forall p, q :: p in P.Offered(fs, items) && q in P.Offered(fs, items) ==>
        HashTells(source, hash, P.FileOf(p), P.FileOf(q)))
  }

  lemma CallIsUploadable(fs: map<Path, P.Source>, items: seq<P.SyncItem>, source: map<File, Bytes>,
                         hash: Bytes -> Hash64, ps: seq<P.Payload>)
    requires CallPublishable(fs, items, source, hash) && ps <= P.Offered(fs, items)
    ensures Uploadable(ps, source, hash)
  {
    hide P.Offered, Describes, P.FileOf, FileKey, TempShaped, HashTells;
    forall p | p in ps ensures p in P.Offered(fs, items) && P.FileOf(p) in source {
      OfferedFilesAreThere(source, fs, items, p);
    }
  }

  /** A whole call, of any items with any flags and targets, as far as it got: ps are the payloads
      that PublishFileSyncTaskAsFiles offered to a queue with the task ids ids, which grew by what
      it kept of them. The offered files keep their bytes in every run if and only if the queued
      deleting ones are undisturbed. */
  lemma PublishedCallLosesNothing(fs: map<Path, P.Source>, items: seq<P.SyncItem>, ps: seq<P.Payload>, ids: set<Path>,
                                  source: map<File, Bytes>, hash: Bytes -> Hash64, stripe: Path -> nat, resume: bool,
                                  r: Remote)
    requires CallPublishable(fs, items, source, hash) && ps <= P.Offered(fs, items)
    requires TempsArePrefixes(PlanOf(P.Kept(ids, ps), source, hash, stripe, resume).cfg, r)
    ensures forall p :: p in ps || p in P.Kept(ids, ps) ==> P.FileOf(p) in source
    ensures var qs := P.Kept(ids, ps);
      var plan := PlanOf(qs, source, hash, stripe, resume);
      (forall es :: AllSafe(ps, source, Sync.Run(plan, Start(plan, r), es))) <==> AllUndisturbed(qs, source, r)
  {
    CallIsUploadable(fs, items, source, hash, ps);
    hide *;
    QueueLosesNothingIff(ps, ids, source, hash, stripe, resume, r);
  }

  // ---- One directory ----------------------------------------------------------------------------

  /** What the publisher of a directory must see to: a clean target directory, leaves whose names,
      cut at their backslashes, are names of files and not of temporary ones, and contents that
      the 64-bit hash tells apart. */
  ghost predicate Publishable(item: P.SyncItem, found: P.Found, hash: Bytes -> Hash64) {
    && item.to.Some? && found.node.Dir? && P.WellFormed(found.node) && P.Readable(found.node)
    && CleanSegs(item.to.value.rooted, P.ToDir(item.to.value)) == P.ToDir(item.to.value)
    && (forall p :: P.HasLeaf(found.node, p) ==> Ordinary(P.Slashed(p)))
    && (forall p, q :: P.HasLeaf(found.node, p) && P.HasLeaf(found.node, q) ==>
          var a, b := P.LeafContent(found.node, p), P.LeafContent(found.node, q);
          hash(a) == hash(b) ==> a == b)
  }

  predicate Ordinary(segs: seq<string>) {
    segs != [] && !TempShapedName(segs[|segs| - 1]) && forall name :: name in segs ==> P.FileName(name)
  }

  lemma {:induction false} FileNamesStayClean(rooted: bool, dir: seq<string>, rel: seq<string>)
    requires CleanSegs(rooted, dir) == dir && forall name :: name in rel ==> P.FileName(name)
    ensures CleanSegs(rooted, dir + rel) == dir + rel
  {
    if rel == [] {
      assert dir + rel == dir;
    } else {
      var init, x := rel[..|rel| - 1], rel[|rel| - 1];
      assert (dir + rel)[..|dir + rel| - 1] == dir + init && x in rel;
      FileNamesStayClean(rooted, dir, init);
      assert CleanSegs(rooted, dir + rel) == CleanSegs(rooted, dir + init) + [x];
      assert dir + rel == (dir + init) + [x];
    }
  }

  lemma TargetIsFileKey(item: P.SyncItem, found: P.Found, hash: Bytes -> Hash64, p: File)
    requires Publishable(item, found, hash) && P.HasLeaf(found.node, p)
    ensures FileKey(P.LeafTarget(item, p)) && !TempShaped(P.LeafTarget(item, p))
  {
    var to, segs := item.to.value, P.Slashed(p);
    assert Ordinary(segs);
    hide P.HasLeaf, P.Slashed, P.WellFormed, P.Readable, TempShapedName;
    FileNamesStayClean(to.rooted, P.ToDir(to), segs);
    assert segs[|segs| - 1] in segs;
    assert P.LeafTarget(item, p).segs[|P.LeafTarget(item, p).segs| - 1] == segs[|segs| - 1];
  }

  lemma LeafIsUploadable(item: P.SyncItem, found: P.Found, source: map<File, Bytes>, hash: Bytes -> Hash64, p: File)
    requires Publishable(item, found, hash) && DescribesTree(source, found) && P.HasLeaf(found.node, p)
    ensures var q := P.LeafPayload(item, found, p);
      && P.FileOf(q) in source && source[P.FileOf(q)] == P.LeafContent(found.node, p)
      && FileKey(q.target) && !TempShaped(q.target)
  {
    TargetIsFileKey(item, found, hash, p);
    hide P.HasLeaf, P.LeafTarget, FileKey, TempShaped, Publishable;
  }

  lemma LeafHashTells(item: P.SyncItem, found: P.Found, source: map<File, Bytes>, hash: Bytes -> Hash64,
                      p: File, q: File)
    requires Publishable(item, found, hash) && DescribesTree(source, found)
    requires P.HasLeaf(found.node, p) && P.HasLeaf(found.node, q)
    ensures HashTells(source, hash, P.FileOf(P.LeafPayload(item, found, p)), P.FileOf(P.LeafPayload(item, found, q)))
  {
    LeafIsUploadable(item, found, source, hash, p);
    LeafIsUploadable(item, found, source, hash, q);
    hide P.HasLeaf, P.LeafPayload, P.FileOf, P.WellFormed, P.Readable, Ordinary, FileKey, TempShaped, DescribesTree;
  }

  lemma UploadableByIndex(ps: seq<P.Payload>, source: map<File, Bytes>, hash: Bytes -> Hash64)
    requires P.DistinctFiles(ps)
    requires forall i :: 0 <= i < |ps| ==>
      P.FileOf(ps[i]) in source && FileKey(ps[i].target) && !TempShaped(ps[i].target)
    requires forall i, j :: 0 <= i < |ps| && 0 <= j < |ps| ==> HashTells(source, hash, P.FileOf(ps[i]), P.FileOf(ps[j]))
    ensures Uploadable(ps, source, hash)
  {
    hide P.FileOf, FileKey, TempShaped, HashTells, P.DistinctFiles;
  }

  lemma DirectoryIsUploadable(item: P.SyncItem, found: P.Found, source: map<File, Bytes>, hash: Bytes -> Hash64)
    requires Publishable(item, found, hash) && DescribesTree(source, found)
    ensures Uploadable(P.ItemPayloads(item, found, P.Leaves(found.node)), source, hash)
  {
    assert item.to.Some? && found.node.Dir? && P.WellFormed(found.node);
    hide *;
    var files, ps := P.DirectoryPayloads(item, found);
    forall i | 0 <= i < |ps| ensures P.FileOf(ps[i]) in source && FileKey(ps[i].target) && !TempShaped(ps[i].target) {
      LeafIsUploadable(item, found, source, hash, files[i]);
    }
    forall i, j | 0 <= i < |ps| && 0 <= j < |ps| ensures HashTells(source, hash, P.FileOf(ps[i]), P.FileOf(ps[j])) {
      LeafHashTells(item, found, source, hash, files[i], files[j]);
    }
    UploadableByIndex(ps, source, hash);
  }

  /** The leaf's bytes are in place or whole at its target. */
  ghost predicate LeafSafe(item: P.SyncItem, found: P.Found, p: File, s: Sync.State)
    requires item.to.Some? && P.HasLeaf(found.node, p)
  {
    var file := found.path.segs + p;
    || (file in s.local && s.local[file] == P.LeafContent(found.node, p))
    || At(s.up.remote, P.LeafTarget(item, p)) == Holds(P.LeafContent(found.node, p))
  }

  ghost predicate AllLeavesSafe(item: P.SyncItem, found: P.Found, s: Sync.State)
    requires item.to.Some?
  {
    forall p :: P.HasLeaf(found.node, p) ==> LeafSafe(item, found, p, s)
  }

  /** Leaves that are deleted after their sync meet targets that fit; a leaf without a task is not
      deleted. */
  ghost predicate AllFit(item: P.SyncItem, found: P.Found, ids: set<Path>, r: Remote)
    requires item.to.Some?
  {
    forall p :: P.HasLeaf(found.node, p) && P.Accepted(item, found, ids, p) && item.deleteAfter ==>
      Fits(item.overwrite, r, P.LeafTarget(item, p), P.LeafContent(found.node, p))
  }

  /** Deleted leaves whose tasks share a target share their content. */
  ghost predicate AllAgree(item: P.SyncItem, found: P.Found, ids: set<Path>)
    requires item.to.Some?
  {
    forall p, q :: P.HasLeaf(found.node, p) && P.HasLeaf(found.node, q) && item.deleteAfter ==>
      P.Accepted(item, found, ids, p) && P.Accepted(item, found, ids, q) ==>
      P.LeafTarget(item, p) == P.LeafTarget(item, q) ==> P.LeafContent(found.node, p) == P.LeafContent(found.node, q)
  }

  /** Under one set of flags, undisturbed means fitting and agreeing. */
  lemma UniformUndisturbed(qs: seq<P.Payload>, source: map<File, Bytes>, r: Remote, overwrite: bool)
    requires forall p :: p in qs ==> P.FileOf(p) in source && p.overwrite == overwrite && p.deleteAfter
    ensures AllUndisturbed(qs, source, r) <==>
      && (forall p :: p in qs ==> Fits(overwrite, r, p.target, source[P.FileOf(p)]))
      && (forall p, q :: p in qs && q in qs && p.target == q.target ==> source[P.FileOf(p)] == source[P.FileOf(q)])
  {
    hide P.FileOf;
    if AllUndisturbed(qs, source, r) {
      forall p, q | p in qs && q in qs && p.target == q.target ensures source[P.FileOf(p)] == source[P.FileOf(q)] {
        assert Undisturbed(qs, source, r, p) && Undisturbed(qs, source, r, q) && !Disturbs(qs, source, r, p, q);
      }
    }
  }

  /** The published payloads, and what the theorem about queues says of them, seen from the leaves. */
  lemma LeavesAndPayloads(item: P.SyncItem, found: P.Found, ids: set<Path>, source: map<File, Bytes>,
                          hash: Bytes -> Hash64, r: Remote)
    requires Publishable(item, found, hash) && DescribesTree(source, found)
    ensures var qs := P.Kept(ids, P.ItemPayloads(item, found, P.Leaves(found.node)));
      && (forall p :: p in qs ==> P.FileOf(p) in source)
      && (AllUndisturbed(qs, source, r) <==> AllFit(item, found, ids, r) && AllAgree(item, found, ids))
  {
    var qs := P.Kept(ids, P.ItemPayloads(item, found, P.Leaves(found.node)));
    DirectoryIsUploadable(item, found, source, hash);
    KeptIsUploadable(P.ItemPayloads(item, found, P.Leaves(found.node)), ids, source, hash);
    P.DirectoryIsPublishedOneToOne(item, found, ids);
    assert forall p :: p in qs ==> P.FileOf(p) in source && p == P.LeafPayload(item, found, p.rel);
    hide P.Kept, P.ItemPayloads, P.Leaves, P.HasLeaf, P.Accepted, P.LeafTarget;
    hide Publishable, Uploadable, Undisturbed, Fits;
    if item.deleteAfter {
      UniformUndisturbed(qs, source, r, item.overwrite);
      hide AllUndisturbed;
      LeafConditions(item, found, ids, source, qs, r);
    }
  }

  lemma LeafConditions(item: P.SyncItem, found: P.Found, ids: set<Path>, source: map<File, Bytes>, qs: seq<P.Payload>,
                       r: Remote)
    requires item.to.Some? && item.deleteAfter && DescribesTree(source, found)
    requires forall p :: p in qs ==> P.FileOf(p) in source && p == P.LeafPayload(item, found, p.rel)
    requires forall p ::
      P.LeafPayload(item, found, p) in qs <==> P.HasLeaf(found.node, p) && P.Accepted(item, found, ids, p)
    ensures AllFit(item, found, ids, r) <==>
      forall p :: p in qs ==> Fits(item.overwrite, r, p.target, source[P.FileOf(p)])
    ensures AllAgree(item, found, ids) <==>
      forall p, q :: p in qs && q in qs && p.target == q.target ==> source[P.FileOf(p)] == source[P.FileOf(q)]
  {
    hide P.HasLeaf, P.Accepted, P.LeafTarget, Fits;
    forall p ensures P.FileOf(P.LeafPayload(item, found, p)) == found.path.segs + p {}
    if forall p :: p in qs ==> Fits(item.overwrite, r, p.target, source[P.FileOf(p)]) {
      forall p | P.HasLeaf(found.node, p) && P.Accepted(item, found, ids, p)
        ensures Fits(item.overwrite, r, P.LeafTarget(item, p), P.LeafContent(found.node, p))
      {
        assert P.LeafPayload(item, found, p) in qs;
      }
    }
    if AllFit(item, found, ids, r) {
      forall p | p in qs ensures Fits(item.overwrite, r, p.target, source[P.FileOf(p)]) {
        assert P.LeafPayload(item, found, p.rel) in qs;
      }
    }
    if forall p, q :: p in qs && q in qs && p.target == q.target ==> source[P.FileOf(p)] == source[P.FileOf(q)] {
      forall p, q | P.HasLeaf(found.node, p) && P.HasLeaf(found.node, q) && P.Accepted(item, found, ids, p)
          && P.Accepted(item, found, ids, q) && P.LeafTarget(item, p) == P.LeafTarget(item, q)
        ensures P.LeafContent(found.node, p) == P.LeafContent(found.node, q)
      {
        assert P.LeafPayload(item, found, p) in qs && P.LeafPayload(item, found, q) in qs;
      }
    }
    if AllAgree(item, found, ids) {
      forall p, q | p in qs && q in qs && p.target == q.target ensures source[P.FileOf(p)] == source[P.FileOf(q)] {
        assert P.LeafPayload(item, found, p.rel) in qs && P.LeafPayload(item, found, q.rel) in qs;
      }
    }
  }

  lemma LeafSafeMeans(item: P.SyncItem, found: P.Found, source: map<File, Bytes>, p: File, s: Sync.State)
    requires item.to.Some? && P.HasLeaf(found.node, p) && DescribesTree(source, found)
    ensures P.FileOf(P.LeafPayload(item, found, p)) in source
    ensures Safe(source, P.LeafPayload(item, found, p), s) <==> LeafSafe(item, found, p, s)
  {
    hide P.LeafTarget, P.HasLeaf;
  }

  lemma SafeThroughLeaves(item: P.SyncItem, found: P.Found, source: map<File, Bytes>, files: seq<File>,
                          ps: seq<P.Payload>, s: Sync.State)
    requires item.to.Some? && DescribesTree(source, found) && |ps| == |files|
    requires forall i :: 0 <= i < |ps| ==> ps[i] == P.LeafPayload(item, found, files[i])
    requires forall p :: p in files <==> P.HasLeaf(found.node, p)
    requires forall p :: p in ps ==> P.FileOf(p) in source
    ensures AllSafe(ps, source, s) <==> AllLeavesSafe(item, found, s)
  {
    hide P.HasLeaf, P.LeafPayload, P.FileOf, DescribesTree, Safe, LeafSafe;
    if AllSafe(ps, source, s) {
      forall p | P.HasLeaf(found.node, p) ensures LeafSafe(item, found, p, s) {
        var i :| 0 <= i < |files| && files[i] == p;
        LeafSafeMeans(item, found, source, p, s);
        assert ps[i] in ps;
      }
    }
    if AllLeavesSafe(item, found, s) {
      forall p | p in ps ensures Safe(source, p, s) {
        var i :| 0 <= i < |ps| && ps[i] == p;
        assert files[i] in files;
        LeafSafeMeans(item, found, source, files[i], s);
      }
    }
  }

  lemma LeavesSafeMeansAllSafe(item: P.SyncItem, found: P.Found, source: map<File, Bytes>, hash: Bytes -> Hash64,
                               s: Sync.State)
    requires Publishable(item, found, hash) && DescribesTree(source, found)
    ensures var ps := P.ItemPayloads(item, found, P.Leaves(found.node));
      && (forall p :: p in ps ==> P.FileOf(p) in source)
      && (AllSafe(ps, source, s) <==> AllLeavesSafe(item, found, s))
  {
    DirectoryIsUploadable(item, found, source, hash);
    var files, ps := P.DirectoryPayloads(item, found);
    assert forall p :: p in ps ==> P.FileOf(p) in source;
    hide *;
    forall p ensures p in files <==> P.HasLeaf(found.node, p) { P.LeavesExact(found.node, p); }
    SafeThroughLeaves(item, found, source, files, ps, s);
  }

  ghost function DirectoryPlan(item: P.SyncItem, found: P.Found, ids: set<Path>, source: map<File, Bytes>,
                               hash: Bytes -> Hash64, stripe: Path -> nat, resume: bool): Plan
    requires item.to.Some?
  {
    PlanOf(P.Kept(ids, P.ItemPayloads(item, found, P.Leaves(found.node))), source, hash, stripe, resume)
  }

  /** Publish a directory, onto a queue with any task ids taken, and run the queued tasks in any
      interleaving with any crashes, cut uploads and redeliveries: every leaf of the tree keeps its
      bytes in every reachable state of every run if and only if, of the leaves that have a task and
      are to be deleted, none meets a target of equal size and other content with overwriting off,
      and those that share a target share their content. */
  lemma PublishedDirectoryLosesNothing(item: P.SyncItem, found: P.Found, ids: set<Path>, source: map<File, Bytes>,
                                       hash: Bytes -> Hash64, stripe: Path -> nat, resume: bool, r: Remote)
    requires Publishable(item, found, hash) && DescribesTree(source, found)
    requires TempsArePrefixes(DirectoryPlan(item, found, ids, source, hash, stripe, resume).cfg, r)
    ensures var plan := DirectoryPlan(item, found, ids, source, hash, stripe, resume);
      (forall es :: AllLeavesSafe(item, found, Sync.Run(plan, Start(plan, r), es))) <==>
      AllFit(item, found, ids, r) && AllAgree(item, found, ids)
  {
    var ps := P.ItemPayloads(item, found, P.Leaves(found.node));
    DirectoryIsUploadable(item, found, source, hash);
    QueueLosesNothingIff(ps, ids, source, hash, stripe, resume, r);
    LeavesAndPayloads(item, found, ids, source, hash, r);
    var plan := DirectoryPlan(item, found, ids, source, hash, stripe, resume);
    assert plan == PlanOf(P.Kept(ids, ps), source, hash, stripe, resume) && item.to.Some?;
    hide *;
    forall es
      ensures AllLeavesSafe(item, found, Sync.Run(plan, Start(plan, r), es)) <==>
        AllSafe(ps, source, Sync.Run(plan, Start(plan, r), es))
    {
      LeavesSafeMeansAllSafe(item, found, source, hash, Sync.Run(plan, Start(plan, r), es));
    }
  }

  /** A call on one directory that is not refused queues just that. */
  lemma OneItemIsPublished(fs: map<Path, P.Source>, item: P.SyncItem, ids: set<Path>)
    requires P.Refusal(fs, item).None?
    ensures P.FirstRefusal(fs, [item]).None?
    ensures var found := fs[item.from.value].found;
      P.Kept(ids, P.Offered(fs, [item])) == P.Kept(ids, P.ItemPayloads(item, found, P.Leaves(found.node)))
  {
    hide P.Kept, P.Leaves, P.ItemPayloads, P.Readable;
    var found := fs[item.from.value].found;
    var ps := P.ItemPayloads(item, found, P.Leaves(found.node));
    assert [item][0] == item && [item][1..] == [];
    assert P.Offered(fs, []) == [] && ps + [] == ps;
    assert P.Offered(fs, [item]) == ps;
  }

  // ---- Directories that meet the hypotheses ------------------------------------------------------

  function OneFile(path: Path, name: string, content: Bytes): P.Found {
    P.Found(path, P.Dir([P.Entry(name, P.Leaf(content))]))
  }

  lemma OneFileHasOneLeaf(path: Path, name: string, content: Bytes, p: File)
    requires P.HasLeaf(OneFile(path, name, content).node, p)
    ensures p == [name] && P.LeafContent(OneFile(path, name, content).node, p) == content
  {
    var es := [P.Entry(name, P.Leaf(content))];
    assert P.HasLeaf(es[0].node, p[1..]);
    assert p == [p[0]] + p[1..];
  }

  lemma OneFileIsWellFormed(path: Path, name: string, content: Bytes)
    requires P.FileName(name)
    ensures OneFile(path, name, content).node.Dir? && P.WellFormed(OneFile(path, name, content).node)
    ensures P.Readable(OneFile(path, name, content).node)
  {
    hide P.FileName;
    var node := OneFile(path, name, content).node;
    assert forall e :: e in node.entries ==> e == P.Entry(name, P.Leaf(content));
  }

  lemma OneNameIsOrdinary(name: string)
    requires P.FileName(name) && '\\' !in name && !TempShapedName(name)
    ensures Ordinary(P.Slashed([name]))
  {
    hide TempShapedName, P.FileName;
    P.OneName(name);
    assert P.Split(name, '\\') == [name];
  }

  /** The hypotheses can be met: one file with an ordinary name and a clean target directory. */
  lemma OneFileIsPublishable(item: P.SyncItem, path: Path, name: string, content: Bytes, hash: Bytes -> Hash64)
    requires item.to.Some? && CleanSegs(item.to.value.rooted, P.ToDir(item.to.value)) == P.ToDir(item.to.value)
    requires P.FileName(name) && '\\' !in name && !TempShapedName(name)
    ensures Publishable(item, OneFile(path, name, content), hash)
  {
    OneFileIsWellFormed(path, name, content);
    OneNameIsOrdinary(name);
    hide *;
    var found := OneFile(path, name, content);
    forall p | P.HasLeaf(found.node, p)
      ensures Ordinary(P.Slashed(p)) && P.LeafContent(found.node, p) == content
    {
      OneFileHasOneLeaf(path, name, content, p);
    }
    IsPublishable(item, found, hash, {content});
  }

  lemma IsPublishable(item: P.SyncItem, found: P.Found, hash: Bytes -> Hash64, contents: set<Bytes>)
    requires item.to.Some? && CleanSegs(item.to.value.rooted, P.ToDir(item.to.value)) == P.ToDir(item.to.value)
    requires found.node.Dir? && P.WellFormed(found.node) && P.Readable(found.node)
    requires forall p :: P.HasLeaf(found.node, p) ==> Ordinary(P.Slashed(p)) && P.LeafContent(found.node, p) in contents
    requires forall x, y :: x in contents && y in contents && hash(x) == hash(y) ==> x == y
    ensures Publishable(item, found, hash)
  {
    hide P.HasLeaf, P.WellFormed, P.Readable, P.ToDir, Ordinary, CleanSegs;
  }

  // ---- Names that collide --------------------------------------------------------------------------

  /** The file "a\b" beside the directory a with the file b. */
  function Colliding(path: Path, a: string, b: string, x: Bytes, y: Bytes): P.Found {
    P.Found(path, P.Dir([P.Entry(a + ['\\'] + b, P.Leaf(x)), P.Entry(a, P.Dir([P.Entry(b, P.Leaf(y))]))]))
  }

  lemma CollidingHasBoth(path: Path, a: string, b: string, x: Bytes, y: Bytes)
    requires '\\' !in a
    ensures var node := Colliding(path, a, b, x, y).node;
      && P.HasLeaf(node, [a + ['\\'] + b]) && P.LeafContent(node, [a + ['\\'] + b]) == x
      && P.HasLeaf(node, [a, b]) && P.LeafContent(node, [a, b]) == y
  {
    var node, name := Colliding(path, a, b, x, y).node, a + ['\\'] + b;
    assert name[|a|] == '\\' && name != a;
    var inner := [P.Entry(b, P.Leaf(y))];
    assert P.HasLeaf(node.entries[0].node, [name][1..]);
    assert [a, b][1..] == [b] && [b][1..] == [];
    assert P.HasLeaf(inner[0].node, [b][1..]) && P.HasLeaf(P.Dir(inner), [b]);
    assert P.HasLeaf(node.entries[1].node, [a, b][1..]);
    CollidingHasNoOther(path, a, b, x, y, [name]);
    CollidingHasNoOther(path, a, b, x, y, [a, b]);
  }

  lemma CollidingHasNoOther(path: Path, a: string, b: string, x: Bytes, y: Bytes, p: File)
    requires '\\' !in a && P.HasLeaf(Colliding(path, a, b, x, y).node, p)
    ensures (p == [a + ['\\'] + b] && P.LeafContent(Colliding(path, a, b, x, y).node, p) == x)
         || (p == [a, b] && P.LeafContent(Colliding(path, a, b, x, y).node, p) == y)
  {
    var node, name := Colliding(path, a, b, x, y).node, a + ['\\'] + b;
    assert name[|a|] == '\\' && name != a;
    assert p == [p[0]] + p[1..];
    var inner := P.Dir([P.Entry(b, P.Leaf(y))]);
    if p[0] == a {
      var rest := p[1..];
      assert P.HasLeaf(node.entries[1].node, rest) && P.HasLeaf(inner, rest);
      assert P.HasLeaf(inner.entries[0].node, rest[1..]);
      assert rest == [rest[0]] + rest[1..] && rest == [b];
      assert P.LeafContent(node, p) == P.LeafContent(inner, rest);
      assert P.LeafContent(inner, rest) == P.LeafContent(inner.entries[0].node, rest[1..]);
    } else {
      assert P.HasLeaf(node.entries[0].node, p[1..]);
    }
  }

  lemma CollidingIsWellFormed(path: Path, a: string, b: string, x: Bytes, y: Bytes)
    requires P.FileName(a) && P.FileName(b) && '\\' !in a
    ensures var node := Colliding(path, a, b, x, y).node; node.Dir? && P.WellFormed(node) && P.Readable(node)
  {
    var name := a + ['\\'] + b;
    assert name[|a|] == '\\' && name != a && '/' !in name;
    var inner := P.Dir([P.Entry(b, P.Leaf(y))]);
    assert forall e :: e in inner.entries ==> e == P.Entry(b, P.Leaf(y));
    assert P.WellFormed(inner) && P.Readable(inner);
    var node := Colliding(path, a, b, x, y).node;
    assert forall e :: e in node.entries ==> e == P.Entry(name, P.Leaf(x)) || e == P.Entry(a, inner);
  }

  lemma CollidingNamesAreOrdinary(a: string, b: string)
    requires P.FileName(a) && P.FileName(b) && '\\' !in a && '\\' !in b && !TempShapedName(b)
    ensures Ordinary(P.Slashed([a + ['\\'] + b])) && Ordinary(P.Slashed([a, b]))
    ensures P.Slashed([a + ['\\'] + b]) == P.Slashed([a, b])
  {
    hide TempShapedName, P.FileName;
    P.OneName(a + ['\\'] + b);
    P.OneName(a);
    P.OneMoreName([a], b);
    P.SplitAtLast(a, '\\', b);
    assert P.Split(a, '\\') == [a] && P.Split(b, '\\') == [b] && [a] + [b] == [a, b];
  }

  lemma CollidingIsPublishable(item: P.SyncItem, path: Path, a: string, b: string, x: Bytes, y: Bytes,
                               hash: Bytes -> Hash64)
    requires item.to.Some? && CleanSegs(item.to.value.rooted, P.ToDir(item.to.value)) == P.ToDir(item.to.value)
    requires P.FileName(a) && P.FileName(b) && '\\' !in a && '\\' !in b && !TempShapedName(b) && hash(x) != hash(y)
    ensures Publishable(item, Colliding(path, a, b, x, y), hash)
  {
    CollidingIsWellFormed(path, a, b, x, y);
    CollidingNamesAreOrdinary(a, b);
    hide *;
    var found := Colliding(path, a, b, x, y);
    forall p | P.HasLeaf(found.node, p)
      ensures Ordinary(P.Slashed(p)) && P.LeafContent(found.node, p) in {x, y}
    {
      CollidingHasNoOther(path, a, b, x, y, p);
    }
    IsPublishable(item, found, hash, {x, y});
  }

  /** Deleting after the sync, with no task ids in use and nothing on the remote at first, so that
      every target is absent: some run loses one of the two files, whatever the flags else. */
  lemma CollidingNamesLoseBytes(item: P.SyncItem, path: Path, a: string, b: string, x: Bytes, y: Bytes,
                                hash: Bytes -> Hash64, stripe: Path -> nat, resume: bool)
    returns (source: map<File, Bytes>, es: seq<Sync.Event>)
    requires item.to.Some? && CleanSegs(item.to.value.rooted, P.ToDir(item.to.value)) == P.ToDir(item.to.value)
    requires P.FileName(a) && P.FileName(b) && '\\' !in a && '\\' !in b && !TempShapedName(b) && hash(x) != hash(y)
    requires item.deleteAfter && !item.unique
    ensures var found := Colliding(path, a, b, x, y);
      && Publishable(item, found, hash) && DescribesTree(source, found) && AllFit(item, found, {}, map[])
      && var plan := DirectoryPlan(item, found, {}, source, hash, stripe, resume);
         !AllLeavesSafe(item, found, Sync.Run(plan, Start(plan, map[]), es))
  {
    var found := Colliding(path, a, b, x, y);
    var p, q := [a + ['\\'] + b], [a, b];
    CollidingIsPublishable(item, path, a, b, x, y, hash);
    CollidingHasBoth(path, a, b, x, y);
    CollidingNamesAreOrdinary(a, b);
    source := CollidingSource(path, a, b, x, y);
    assert TempsArePrefixes(DirectoryPlan(item, found, {}, source, hash, stripe, resume).cfg, map[]);
    assert AllFit(item, found, {}, map[]);
    assert P.Accepted(item, found, {}, p) && P.Accepted(item, found, {}, q);
    assert P.LeafTarget(item, p) == P.LeafTarget(item, q);
    assert !AllAgree(item, found, {});
    hide *;
    var plan := DirectoryPlan(item, found, {}, source, hash, stripe, resume);
    PublishedDirectoryLosesNothing(item, found, {}, source, hash, stripe, resume, map[]);
    es :| !AllLeavesSafe(item, found, Sync.Run(plan, Start(plan, map[]), es));
  }

  lemma CollidingSource(path: Path, a: string, b: string, x: Bytes, y: Bytes) returns (source: map<File, Bytes>)
    requires '\\' !in a
    ensures DescribesTree(source, Colliding(path, a, b, x, y))
  {
    var p, q := path.segs + [a + ['\\'] + b], path.segs + [a, b];
    assert |p| != |q|;
    source := map[p := x, q := y];
    hide P.HasLeaf;
    var found := Colliding(path, a, b, x, y);
    forall f | P.HasLeaf(found.node, f)
      ensures found.path.segs + f in source && source[found.path.segs + f] == P.LeafContent(found.node, f)
    {
      CollidingHasNoOther(path, a, b, x, y, f);
    }
  }
}
