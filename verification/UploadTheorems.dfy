/** What callers get from the refinement: whole files only, each byte sent once, and exactly
    which keys the per-key lock protects. */
module UploadTheorems {
  import opened Paths
  import opened Upload

  // ---- Whole files only ---------------------------------------------------------------

  ghost predicate WholeFile(cfg: Config, before: Remote, after: Remote, p: Path) {
    || (p in before && p in after && after[p] == before[p])
    || (p !in before && p !in after)
    || exists w :: w in cfg.work && cfg.target(w) == p && p in after && after[p] == w.content
  }

  lemma {:induction false} PutsLeaveWholeFiles(cfg: Config, r: Remote, ws: seq<Put>, p: Path)
    requires forall w :: w in ws ==> w in cfg.work
    ensures WholeFile(cfg, r, ApplyPuts(cfg, r, ws), p)
  {
    if ws != [] {
      var w := ws[|ws| - 1];
      PutsLeaveWholeFiles(cfg, r, ws[..|ws| - 1], p);
      assert w in cfg.work;
    }
  }

  /** After any run a path that is no temporary file holds its old value or one complete
      source: never a partial or a mixed file. */
  lemma TargetsAreWholeFiles(cfg: Config, s: State, es: seq<Event>, p: Path)
    requires Separated(cfg) && Inv(cfg, s) && Submits(cfg, es)
    requires p !in Temps(cfg)
    ensures WholeFile(cfg, s.remote, Run(cfg, s, es).remote, p)
  {
    UploadRefinesAtomicPut(cfg, s, es);
    PutsLeaveWholeFiles(cfg, View(cfg, s.remote), Puts(cfg, s, es), p);
    var after := Run(cfg, s, es).remote;
    assert p in View(cfg, after) <==> p in after;
    assert p in View(cfg, s.remote) <==> p in s.remote;
  }

  // ---- Each byte once -------------------------------------------------------------------

  function Size(r: Remote, p: Path): nat {
    if p in r then |r[p]| else 0
  }

  /** The bytes sent for each temporary file are the bytes in it. */
  ghost predicate SentIsStored(cfg: Config, s: State) {
    forall w :: w in cfg.work ==> Sent(s, cfg.temp(w)) == Size(s.remote, cfg.temp(w))
  }

  lemma StepKeepsSent(cfg: Config, s: State, e: Event)
    requires cfg.resume && Separated(cfg) && Inv(cfg, s) && SentIsStored(cfg, s)
    ensures SentIsStored(cfg, Step(cfg, s, e))
  {
    if Enabled(cfg, s, e) && !e.Begin? {
      var s', own := Step(cfg, s, e), s.jobs[e.id].put;
      assert JobInv(cfg, s, e.id);
      forall w | w in cfg.work
        ensures Sent(s', cfg.temp(w)) == Size(s'.remote, cfg.temp(w))
      {
        assert cfg.temp(w) != cfg.target(own);
        if cfg.temp(w) != cfg.temp(own) {
          StepFrame(cfg, s, e, cfg.temp(w));
        } else if e.Write? && !s.jobs[e.id].phase.append {
          var pos := s.jobs[e.id].phase.pos;
          assert |WriteAt(s.remote[cfg.temp(own)], pos, own.content[pos..pos + e.n])| == pos + e.n;
        }
      }
    }
  }

  lemma {:induction false} RunKeepsSent(cfg: Config, s: State, es: seq<Event>)
    requires cfg.resume && Separated(cfg) && Inv(cfg, s) && SentIsStored(cfg, s) && Submits(cfg, es)
    ensures SentIsStored(cfg, Run(cfg, s, es))
  {
    if es != [] {
      RunKeepsSent(cfg, s, es[..|es| - 1]);
      RunKeepsInv(cfg, s, es[..|es| - 1]);
      StepKeepsSent(cfg, Run(cfg, s, es[..|es| - 1]), es[|es| - 1]);
    }
  }

  /** With resume enabled, over any number of interrupted attempts, a file about to be renamed
      has cost exactly its own length in bytes sent, because Create only ever meets an absent
      or an empty temporary file. */
  lemma EachByteSentOnce(cfg: Config, s: State, es: seq<Event>, e: Event)
    requires cfg.resume && Separated(cfg) && Inv(cfg, s) && SentIsStored(cfg, s) && Submits(cfg, es)
    requires Enabled(cfg, Run(cfg, s, es), e)
    ensures var now := Run(cfg, s, es);
      && (e.Rename? ==> Sent(now, cfg.temp(now.jobs[e.id].put)) == |now.jobs[e.id].put.content|)
      && (e.Open? && now.jobs[e.id].phase.offset == 0 ==> Size(now.remote, cfg.temp(now.jobs[e.id].put)) == 0)
  {
    RunKeepsInv(cfg, s, es);
    RunKeepsSent(cfg, s, es);
    if !e.Begin? { assert JobInv(cfg, Run(cfg, s, es), e.id); }
  }

  // ---- Exactly what the lock on the raw key protects ------------------------------------

  ghost predicate Atomic(cfg: Config, s: State, es: seq<Event>) {
    View(cfg, Run(cfg, s, es).remote) == ApplyPuts(cfg, View(cfg, s.remote), Puts(cfg, s, es))
  }

  const START := State(map[], map[], map[], map[])

  /** One upload truncates the file another has just finished writing and is about to rename. */
  function TruncatingRun(a: Put, b: Put): seq<Event> {
    [Begin(0, a), Begin(1, b), Stat(0), Stat(1)] + OverwritingTail(a)
  }

  function OverwritingTail(a: Put): seq<Event> {
    [Open(0), Write(0, |a.content|), CloseFile(0), Open(1), Rename(0)]
  }

  /** A run of two parts, the second of which renames nothing. */
  lemma {:induction false} RunConcat(cfg: Config, s: State, es: seq<Event>, fs: seq<Event>)
    ensures Run(cfg, s, es + fs) == Run(cfg, Run(cfg, s, es), fs)
    ensures Puts(cfg, s, es + fs) == Puts(cfg, s, es) + Puts(cfg, Run(cfg, s, es), fs)
  {
    if fs == [] {
      assert es + fs == es;
    } else {
      assert (es + fs)[..|es + fs| - 1] == es + fs[..|fs| - 1];
      RunConcat(cfg, s, es, fs[..|fs| - 1]);
    }
  }

  lemma RunOne(cfg: Config, s: State, e: Event)
    ensures Run(cfg, s, [e]) == Step(cfg, s, e)
    ensures Puts(cfg, s, [e]) == if e.Rename? && Enabled(cfg, s, e) then [s.jobs[e.id].put] else []
  {
    assert [e][..0] == [];
  }

  /** A run, one step after the other. */
  lemma {:induction false} RunCons(cfg: Config, s: State, e: Event, es: seq<Event>)
    ensures Run(cfg, s, [e] + es) == Run(cfg, Step(cfg, s, e), es)
    ensures Puts(cfg, s, [e] + es) ==
      (if e.Rename? && Enabled(cfg, s, e) then [s.jobs[e.id].put] else []) + Puts(cfg, Step(cfg, s, e), es)
  {
    RunConcat(cfg, s, [e], es);
    RunOne(cfg, s, e);
  }

  lemma BothDecideToCreate(cfg: Config, a: Put, b: Put)
    requires cfg.stripe(a.key) != cfg.stripe(b.key)
    ensures var s := Step(cfg, Step(cfg, Step(cfg, Step(cfg, START, Begin(0, a)), Begin(1, b)), Stat(0)), Stat(1));
      s.remote == map[] && s.jobs == map[0 := Job(a, Opening(0)), 1 := Job(b, Opening(0))]
  {
  }

  lemma UnrollTwo(cfg: Config, s: State, es: seq<Event>) returns (s': State)
    requires |es| >= 2 && !es[0].Rename? && !es[1].Rename?
    ensures s' == Step(cfg, Step(cfg, s, es[0]), es[1])
    ensures Run(cfg, s, es) == Run(cfg, s', es[2..]) && Puts(cfg, s, es) == Puts(cfg, s', es[2..])
  {
    s' := Step(cfg, Step(cfg, s, es[0]), es[1]);
    assert es == [es[0]] + es[1..] && es[1..] == [es[1]] + es[2..];
    RunCons(cfg, s, es[0], es[1..]);
    RunCons(cfg, Step(cfg, s, es[0]), es[1], es[2..]);
  }

  lemma FirstHalf(cfg: Config, a: Put, b: Put) returns (s: State)
    requires cfg.stripe(a.key) != cfg.stripe(b.key)
    ensures s.remote == map[] && s.jobs == map[0 := Job(a, Opening(0)), 1 := Job(b, Opening(0))]
    ensures Run(cfg, START, TruncatingRun(a, b)) == Run(cfg, s, OverwritingTail(a))
    ensures Puts(cfg, START, TruncatingRun(a, b)) == Puts(cfg, s, OverwritingTail(a))
  {
    var es := TruncatingRun(a, b);
    BothDecideToCreate(cfg, a, b);
    s := UnrollTwo(cfg, START, es);
    s := UnrollTwo(cfg, s, es[2..]);
  }

  lemma FirstWritesItAll(cfg: Config, s: State, a: Put) returns (s': State)
    requires a.content != [] && 0 in s.jobs && s.jobs[0] == Job(a, Opening(0))
    ensures s' == Step(cfg, Step(cfg, Step(cfg, s, Open(0)), Write(0, |a.content|)), CloseFile(0))
    ensures s'.jobs == s.jobs[0 := Job(a, Renaming)] && s'.remote == s.remote[cfg.temp(a) := a.content]
  {
    var c := a.content;
    assert c[0..|c|] == c;
    assert WriteAt([], 0, c) == c;
    s' := Step(cfg, Step(cfg, Step(cfg, s, Open(0)), Write(0, |a.content|)), CloseFile(0));
  }

  lemma UnrollThree(cfg: Config, s: State, es: seq<Event>)
    requires |es| >= 3 && forall i :: 0 <= i < 3 ==> !es[i].Rename?
    ensures var s' := Step(cfg, Step(cfg, Step(cfg, s, es[0]), es[1]), es[2]);
      Run(cfg, s, es) == Run(cfg, s', es[3..]) && Puts(cfg, s, es) == Puts(cfg, s', es[3..])
  {
    var s2 := UnrollTwo(cfg, s, es);
    assert es[2..] == [es[2]] + es[3..];
    RunCons(cfg, s2, es[2], es[3..]);
  }

  lemma SecondTruncatesIt(cfg: Config, s: State, a: Put, b: Put)
    requires cfg.temp(a) == cfg.temp(b) && s.remote == map[cfg.temp(a) := a.content]
    requires s.jobs == map[0 := Job(a, Renaming), 1 := Job(b, Opening(0))]
    ensures Run(cfg, s, [Open(1), Rename(0)]).remote == map[cfg.target(a) := []]
    ensures Puts(cfg, s, [Open(1), Rename(0)]) == [a]
  {
    var s' := Step(cfg, s, Open(1));
    assert s'.remote == map[cfg.temp(a) := []];
    assert s'.remote - {cfg.temp(a)} == map[];
    assert [Open(1), Rename(0)] == [Open(1)] + [Rename(0)];
    RunCons(cfg, s, Open(1), [Rename(0)]);
    RunOne(cfg, s', Rename(0));
  }

  lemma FirstPartOfTail(cfg: Config, s: State, a: Put) returns (s': State)
    requires a.content != [] && 0 in s.jobs && s.jobs[0] == Job(a, Opening(0))
    ensures s'.jobs == s.jobs[0 := Job(a, Renaming)] && s'.remote == s.remote[cfg.temp(a) := a.content]
    ensures Run(cfg, s, OverwritingTail(a)) == Run(cfg, s', [Open(1), Rename(0)])
    ensures Puts(cfg, s, OverwritingTail(a)) == Puts(cfg, s', [Open(1), Rename(0)])
  {
    s' := FirstWritesItAll(cfg, s, a);
    assert OverwritingTail(a)[3..] == [Open(1), Rename(0)];
    UnrollThree(cfg, s, OverwritingTail(a));
  }

  lemma SecondHalf(cfg: Config, s: State, a: Put, b: Put)
    requires a.content != [] && cfg.temp(a) == cfg.temp(b)
    requires s.remote == map[] && s.jobs == map[0 := Job(a, Opening(0)), 1 := Job(b, Opening(0))]
    ensures Run(cfg, s, OverwritingTail(a)).remote == map[cfg.target(a) := []]
    ensures Puts(cfg, s, OverwritingTail(a)) == [a]
  {
    var s' := FirstPartOfTail(cfg, s, a);
    SecondTruncatesIt(cfg, s', a, b);
  }

  lemma OverlapIsNotAtomic(cfg: Config, a: Put, b: Put)
    requires NamesSeparate(cfg) && a in cfg.work && b in cfg.work
    requires a.content != [] && cfg.temp(a) == cfg.temp(b) && cfg.stripe(a.key) != cfg.stripe(b.key)
    ensures Submits(cfg, TruncatingRun(a, b)) && !Atomic(cfg, START, TruncatingRun(a, b))
  {
    var es := TruncatingRun(a, b);
    var mid := FirstHalf(cfg, a, b);
    SecondHalf(cfg, mid, a, b);
    var p, v := cfg.target(a), View(cfg, map[]);
    assert ApplyPuts(cfg, v, [a])[p] == a.content by {
      assert [a][..0] == [];
    }
    assert p !in Temps(cfg);
    assert View(cfg, map[p := []])[p] == [];
  }

  /** The lock is taken on the raw key while the server sees the cleaned one. All runs are atomic
      if and only if keys that clean to one non-empty temporary file share a lock. */
  lemma AtomicIffStripesAgree(cfg: Config)
    requires NamesSeparate(cfg)
    ensures StripesAgree(cfg) <==>
      forall s, es :: Idle(cfg, s) && Submits(cfg, es) ==> Atomic(cfg, s, es)
  {
    if StripesAgree(cfg) {
      forall s, es | Idle(cfg, s) && Submits(cfg, es) ensures Atomic(cfg, s, es) {
        UploadRefinesAtomicPut(cfg, s, es);
      }
    } else {
      var a, b :| && a in cfg.work && b in cfg.work && cfg.temp(a) == cfg.temp(b) && a.content != []
                  && cfg.stripe(a.key) != cfg.stripe(b.key);
      OverlapIsNotAtomic(cfg, a, b);
      assert Idle(cfg, START);
    }
  }

  lemma {:induction false} DoubledSlashVanishes(rooted: bool, a: seq<string>, b: seq<string>)
    ensures CleanSegs(rooted, a + [""] + b) == CleanSegs(rooted, a + b)
    ensures LastName(rooted, a + [""] + b) == LastName(rooted, a + b)
  {
    if b == [] {
      assert a + [""] + b == a + [""] && a + b == a && (a + [""])[..|a|] == a;
    } else {
      var init := b[..|b| - 1];
      assert (a + [""] + b)[..|a| + |b|] == a + [""] + init && (a + b)[..|a| + |b| - 1] == a + init;
      DoubledSlashVanishes(rooted, a, init);
    }
  }

  /** Spelling a key with a doubled slash changes the lock it takes but neither its target nor
      its temporary file, so unclean keys do meet. */
  lemma SpellingsShareTempPath(rooted: bool, a: seq<string>, b: seq<string>, h: Hash64)
    requires b != []
    ensures TempPath(Path(rooted, a + [""] + b), h) == TempPath(Path(rooted, a + b), h)
    ensures Clean(Path(rooted, a + [""] + b)) == Clean(Path(rooted, a + b))
    ensures Path(rooted, a + [""] + b) != Path(rooted, a + b)
  {
    hide CleanSegs, LastName, TempName;
    var init := b[..|b| - 1];
    var k, k' := Path(rooted, a + b), Path(rooted, a + [""] + b);
    assert k'.segs[..|k'.segs| - 1] == a + [""] + init && k.segs[..|k.segs| - 1] == a + init;
    DoubledSlashVanishes(rooted, a, b);
    DoubledSlashVanishes(rooted, a, init);
    assert TempKey(k, h) == TempKey(k', h);
    assert |k.segs| != |k'.segs|;
  }

  /** A key, and the same key with one slash doubled. */
  function Spelling(rooted: bool, a: seq<string>, b: seq<string>): Path { Path(rooted, a + b) }
  function OtherSpelling(rooted: bool, a: seq<string>, b: seq<string>): Path { Path(rooted, a + [""] + b) }

  function TwoSpellings(rooted: bool, a: seq<string>, b: seq<string>, content: Bytes): iset<Put> {
    iset{Put(Spelling(rooted, a, b), content), Put(OtherSpelling(rooted, a, b), content)}
  }

  lemma SpellingsMeet(rooted: bool, a: seq<string>, b: seq<string>, content: Bytes, hash: Bytes -> Hash64,
                      stripe: Path -> nat, resume: bool, w: Put)
    requires b != [] && FileKey(Spelling(rooted, a, b)) && w in TwoSpellings(rooted, a, b, content)
    ensures var cfg := SftpConfig(TwoSpellings(rooted, a, b, content), hash, stripe, resume);
      && w.content == content && cfg.target(w) == Spelling(rooted, a, b)
      && cfg.temp(w) == TempKey(Spelling(rooted, a, b), hash(content)) && TempShaped(cfg.temp(w))
  {
    SpellingsShareTempPath(rooted, a, b, hash(content));
    TempKeyIsClean(Spelling(rooted, a, b), hash(content));
    hide TempPath, TempKey, CleanSegs, TempShaped;
  }

  lemma SpellingsAreSeparate(rooted: bool, a: seq<string>, b: seq<string>, content: Bytes, hash: Bytes -> Hash64,
                             stripe: Path -> nat, resume: bool)
    requires b != [] && FileKey(Spelling(rooted, a, b)) && !TempShaped(Spelling(rooted, a, b))
    ensures NamesSeparate(SftpConfig(TwoSpellings(rooted, a, b, content), hash, stripe, resume))
  {
    var cfg := SftpConfig(TwoSpellings(rooted, a, b, content), hash, stripe, resume);
    assert cfg.work == TwoSpellings(rooted, a, b, content);
    hide TwoSpellings, Spelling, SftpConfig, FileKey, TempShaped, TempKey;
    forall v, w | v in cfg.work && w in cfg.work
      ensures v.content == w.content && cfg.target(v) == cfg.target(w) && cfg.temp(v) != cfg.target(w)
    {
      SpellingsMeet(rooted, a, b, content, hash, stripe, resume, v);
      SpellingsMeet(rooted, a, b, content, hash, stripe, resume, w);
    }
  }

  /** Two spellings of one clean key, uploaded with one non-empty content under two locks, are a
      real case of it: some run of the SFTP backend from an empty server is not atomic. */
  lemma TwoSpellingsAreNotAtomic(rooted: bool, a: seq<string>, b: seq<string>, content: Bytes, hash: Bytes -> Hash64,
                                 stripe: Path -> nat, resume: bool) returns (es: seq<Event>)
    requires b != [] && FileKey(Spelling(rooted, a, b)) && !TempShaped(Spelling(rooted, a, b)) && content != []
    requires stripe(Spelling(rooted, a, b)) != stripe(OtherSpelling(rooted, a, b))
    ensures var cfg := SftpConfig(TwoSpellings(rooted, a, b, content), hash, stripe, resume);
      Submits(cfg, es) && Idle(cfg, START) && !Atomic(cfg, START, es)
  {
    var cfg := SftpConfig(TwoSpellings(rooted, a, b, content), hash, stripe, resume);
    var v, w := Put(Spelling(rooted, a, b), content), Put(OtherSpelling(rooted, a, b), content);
    assert v in cfg.work && w in cfg.work && cfg.stripe(v.key) != cfg.stripe(w.key) && Idle(cfg, START);
    SpellingsMeet(rooted, a, b, content, hash, stripe, resume, v);
    SpellingsMeet(rooted, a, b, content, hash, stripe, resume, w);
    hide *;
    SpellingsAreSeparate(rooted, a, b, content, hash, stripe, resume);
    es := TruncatingRun(v, w);
    OverlapIsNotAtomic(cfg, v, w);
  }
}
