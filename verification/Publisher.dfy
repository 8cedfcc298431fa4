/** From a published directory to the queue of single-file tasks. */
module Publisher {
  import opened Paths
  import opened Upload
  import opened Sync
  import opened Common

  // ---- Directory trees ------------------------------------------------------------------

  /** Leaf is anything filepath.Walk does not call a directory, Broken what it cannot read. */
  datatype Node = Leaf(content: Bytes) | Dir(entries: seq<Entry>) | Broken
  datatype Entry = Entry(name: string, node: Node)

  predicate FileName(name: string) {
    name != "" && name != "." && name != ".." && '/' !in name
  }

  predicate WellFormed(node: Node) {
    node.Dir? ==>
      && (forall i, j :: 0 <= i < j < |node.entries| ==> node.entries[i].name != node.entries[j].name)
      && (forall e :: e in node.entries ==> FileName(e.name) && WellFormed(e.node))
  }

  predicate Readable(node: Node) {
    !node.Broken? && (node.Dir? ==> forall e :: e in node.entries ==> Readable(e.node))
  }

  /** The file that a path below the node leads to. */
  predicate HasLeaf(node: Node, p: File) {
    match node
    case Leaf(_) => p == []
    case Dir(es) => p != [] && exists i :: 0 <= i < |es| && es[i].name == p[0] && HasLeaf(es[i].node, p[1..])
    case Broken => false
  }

  ghost function LeafContent(node: Node, p: File): Bytes
    requires HasLeaf(node, p)
  {
    match node
    case Leaf(c) => c
    case Dir(es) =>
      var i :| 0 <= i < |es| && es[i].name == p[0] && HasLeaf(es[i].node, p[1..]);
      LeafContent(es[i].node, p[1..])
  }

  // ---- scanFiles ------------------------------------------------------------------------

  function Below(name: string, files: seq<File>): (r: seq<File>)
    ensures |r| == |files| && forall i :: 0 <= i < |r| ==> r[i] == [name] + files[i]
  {
    seq(|files|, i requires 0 <= i < |files| => [name] + files[i])
  }

  /** The leaves in the order of the walk. */
  function Leaves(node: Node): seq<File>
    decreases node
  {
    match node
    case Leaf(_) => [[]]
    case Dir(es) => EntryLeaves(node, |es|)
    case Broken => []
  }

  /** Those under the first k entries of a directory. */
  function EntryLeaves(node: Node, k: nat): seq<File>
    requires node.Dir? && k <= |node.entries|
    decreases node, k
  {
    if k == 0 then []
    else EntryLeaves(node, k - 1) + Below(node.entries[k - 1].name, Leaves(node.entries[k - 1].node))
  }

  /** The walk with its callback, which appends each leaf it visits and stops the walk at the
      first node that cannot be read. */
  method ScanFiles(node: Node) returns (ok: bool, files: seq<File>)
    ensures ok <==> Readable(node)
    ensures files <= Leaves(node) && (ok ==> files == Leaves(node))
    decreases node
  {
    if node.Broken? { return false, []; }
    if node.Leaf? { return true, [[]]; }
    files := [];
    for i := 0 to |node.entries|
      invariant files == EntryLeaves(node, i)
      invariant forall j :: 0 <= j < i ==> Readable(node.entries[j].node)
    {
      var entry := node.entries[i];
      var fine, below := ScanFiles(entry.node);
      EntryLeavesGrow(node, i + 1, |node.entries|);
      BelowPrefix(entry.name, below, Leaves(entry.node));
      files := files + Below(entry.name, below);
      if !fine { return false, files; }
    }
    ok := true;
  }

  lemma {:induction false} EntryLeavesGrow(node: Node, j: nat, k: nat)
    requires node.Dir? && j <= k <= |node.entries|
    ensures EntryLeaves(node, j) <= EntryLeaves(node, k)
  {
    if j < k { EntryLeavesGrow(node, j, k - 1); }
  }

  lemma BelowPrefix(name: string, files: seq<File>, more: seq<File>)
    requires files <= more
    ensures Below(name, files) <= Below(name, more)
  {
  }

  ghost predicate EntriesHave(node: Node, k: nat, p: File)
    requires node.Dir? && k <= |node.entries|
  {
    p != [] && exists i :: 0 <= i < k && node.entries[i].name == p[0] && HasLeaf(node.entries[i].node, p[1..])
  }

  /** The scan finds every leaf and nothing else. */
  lemma {:induction false} LeavesExact(node: Node, p: File)
    ensures p in Leaves(node) <==> HasLeaf(node, p)
    decreases node
  {
    if node.Dir? { EntryLeavesExact(node, |node.entries|, p); }
  }

  lemma {:induction false} EntryLeavesExact(node: Node, k: nat, p: File)
    requires node.Dir? && k <= |node.entries|
    ensures p in EntryLeaves(node, k) <==> EntriesHave(node, k, p)
    decreases node, k
  {
    if k > 0 {
      var e := node.entries[k - 1];
      EntryLeavesExact(node, k - 1, p);
      if p != [] { LeavesExact(e.node, p[1..]); }
      BelowHas(e.name, Leaves(e.node), p);
    }
  }

  lemma BelowHas(name: string, files: seq<File>, p: File)
    ensures p in Below(name, files) <==> p != [] && p[0] == name && p[1..] in files
  {
    var r := Below(name, files);
    if k :| 0 <= k < |r| && r[k] == p {
      assert p[1..] == files[k];
    }
    if p != [] && p[0] == name && p[1..] in files {
      var k :| 0 <= k < |files| && files[k] == p[1..];
      assert r[k] == p;
    }
  }

  ghost predicate NoRepeats<T>(xs: seq<T>) {
    forall i, j :: 0 <= i < j < |xs| ==> xs[i] != xs[j]
  }

  /** And finds each leaf once. */
  lemma {:induction false} LeavesDistinct(node: Node)
    requires WellFormed(node)
    ensures NoRepeats(Leaves(node))
    decreases node
  {
    if node.Dir? { EntryLeavesDistinct(node, |node.entries|); }
  }

  lemma {:induction false} EntryLeavesDistinct(node: Node, k: nat)
    requires node.Dir? && WellFormed(node) && k <= |node.entries|
    ensures NoRepeats(EntryLeaves(node, k))
    decreases node, k
  {
    if k > 0 {
      var e := node.entries[k - 1];
      var rest, last := EntryLeaves(node, k - 1), Below(e.name, Leaves(e.node));
      EntryLeavesDistinct(node, k - 1);
      LeavesDistinct(e.node);
      forall i, j | 0 <= i < j < |last| ensures last[i] != last[j] {
        assert last[i][1..] == Leaves(e.node)[i] && last[j][1..] == Leaves(e.node)[j];
      }
      forall p | p in rest && p in last ensures false {
        EntryLeavesExact(node, k - 1, p);
        BelowHas(e.name, Leaves(e.node), p);
      }
      assert forall i :: 0 <= i < |rest| ==> rest[i] in rest;
      assert forall j :: 0 <= j < |last| ==> last[j] in last;
    }
  }

  /** The walk meets p before q: where they part, p's entry comes first. */
  ghost predicate WalkedBefore(node: Node, p: File, q: File) {
    && node.Dir? && p != [] && q != []
    && exists i, j :: 0 <= i <= j < |node.entries| && node.entries[i].name == p[0] && node.entries[j].name == q[0]
         && (i == j ==> WalkedBefore(node.entries[i].node, p[1..], q[1..]))
  }

  /** The leaves are scanned in the order of the walk. */
  lemma {:induction false} LeavesInWalkOrder(node: Node)
    ensures forall a, b :: 0 <= a < b < |Leaves(node)| ==> WalkedBefore(node, Leaves(node)[a], Leaves(node)[b])
    decreases node
  {
    if node.Dir? { EntryLeavesInWalkOrder(node, |node.entries|); }
  }

  lemma {:induction false} EntryLeavesInWalkOrder(node: Node, k: nat)
    requires node.Dir? && k <= |node.entries|
    ensures forall a, b :: 0 <= a < b < |EntryLeaves(node, k)| ==>
      WalkedBefore(node, EntryLeaves(node, k)[a], EntryLeaves(node, k)[b])
    decreases node, k
  {
    if k > 0 {
      var e, early := node.entries[k - 1], EntryLeaves(node, k - 1);
      var late := Below(e.name, Leaves(e.node));
      EntryLeavesInWalkOrder(node, k - 1);
      LeavesInWalkOrder(e.node);
      forall a, b | 0 <= a < b < |late| ensures WalkedBefore(node, late[a], late[b]) {
        assert late[a][1..] == Leaves(e.node)[a] && late[b][1..] == Leaves(e.node)[b];
        SameEntry(node, k - 1, late[a], late[b]);
      }
      forall a, b | 0 <= a < |early| && 0 <= b < |late| ensures WalkedBefore(node, early[a], late[b]) {
        assert early[a] in early;
        EntryLeavesExact(node, k - 1, early[a]);
        EarlierEntry(node, k - 1, early[a], late[b]);
      }
      assert EntryLeaves(node, k) == early + late;
      hide WalkedBefore, EntryLeaves;
    }
  }

  lemma SameEntry(node: Node, i: nat, p: File, q: File)
    requires node.Dir? && i < |node.entries| && p != [] && q != [] && p[0] == q[0] == node.entries[i].name
    requires WalkedBefore(node.entries[i].node, p[1..], q[1..])
    ensures WalkedBefore(node, p, q)
  {
  }

  lemma EarlierEntry(node: Node, j: nat, p: File, q: File)
    requires node.Dir? && j < |node.entries| && EntriesHave(node, j, p) && q != [] && q[0] == node.entries[j].name
    ensures WalkedBefore(node, p, q)
  {
    var i :| 0 <= i < j && node.entries[i].name == p[0] && HasLeaf(node.entries[i].node, p[1..]);
    assert node.entries[j].name == q[0];
  }

  // ---- generateTargetPath ---------------------------------------------------------------

  function LastOf(s: string, c: char): (k: nat)
    requires c in s
    ensures k < |s| && s[k] == c && c !in s[k + 1..]
  {
    if s[|s| - 1] == c then |s| - 1 else LastOf(s[..|s| - 1], c)
  }

  /** A string cut at every c. */
  function Split(s: string, c: char): seq<string> {
    if c !in s then [s]
    else
      var k := LastOf(s, c);
      Split(s[..k], c) + [s[k + 1..]]
  }

  function Join(segs: seq<string>): string {
    if segs == [] then ""
    else if |segs| == 1 then segs[0]
    else Join(segs[..|segs| - 1]) + ['/'] + segs[|segs| - 1]
  }

  /** strings.ReplaceAll of backslashes by slashes. */
  function Replaced(s: string): (r: string)
    ensures |r| == |s| && forall i :: 0 <= i < |s| ==> r[i] == if s[i] == '\\' then '/' else s[i]
  {
    seq(|s|, i requires 0 <= i < |s| => if s[i] == '\\' then '/' else s[i])
  }

  /** The names of a path whose backslashes have become slashes. */
  function Slashed(rel: File): seq<string> {
    if rel == [] then [] else Slashed(rel[..|rel| - 1]) + Split(rel[|rel| - 1], '\\')
  }

  /** The target path with a trailing slash, if any, dropped: the separator is added either way. */
  function ToDir(to: Path): seq<string> {
    if to.segs != [] && to.segs[|to.segs| - 1] == "" then to.segs[..|to.segs| - 1] else to.segs
  }

  /** "a/" or "/". */
  predicate EndsInSlash(to: Path) {
    if to.segs == [] then to.rooted else to.segs[|to.segs| - 1] == "" && (to.rooted || |to.segs| > 1)
  }

  function GenerateTargetPath(to: Path, rel: File): Path {
    Path(to.rooted, ToDir(to) + Slashed(rel))
  }

  predicate NoBackslash(rel: File) {
    forall name :: name in rel ==> '\\' !in name
  }

  lemma {:induction false} NoBackslashIsKept(rel: File)
    requires NoBackslash(rel)
    ensures Slashed(rel) == rel
  {
    if rel != [] {
      NoBackslashIsKept(rel[..|rel| - 1]);
      assert rel == rel[..|rel| - 1] + [rel[|rel| - 1]];
    }
  }

  /** A string is cut last at its last c. */
  lemma SplitAtLast(a: string, c: char, b: string)
    requires c !in b
    ensures Split(a + [c] + b, c) == Split(a, c) + [b]
  {
    var s := a + [c] + b;
    assert s[|a|] == c && forall i :: |a| < i < |s| ==> s[i] == b[i - |a| - 1];
    var k := LastOf(s, c);
    assert forall i :: k < i < |s| ==> s[i] == s[k + 1..][i - k - 1];
    assert k == |a|;
    assert s[..k] == a && s[k + 1..] == b;
  }

  lemma LastParts(s: string, c: char) returns (a: string, b: string)
    requires c in s
    ensures s == a + [c] + b && |a| < |s| && c !in b && Split(s, c) == Split(a, c) + [b]
  {
    var k := LastOf(s, c);
    a, b := s[..k], s[k + 1..];
  }

  lemma Regroup(a: string, c: char, x: string, y: string)
    ensures a + [c] + (x + [c] + y) == a + [c] + x + [c] + y
  {
  }

  lemma {:induction false} SplitConcat(a: string, c: char, b: string)
    ensures Split(a + [c] + b, c) == Split(a, c) + Split(b, c)
    decreases |b|
  {
    if c !in b {
      SplitAtLast(a, c, b);
    } else {
      hide Split;
      var x, y := LastParts(b, c);
      SplitConcat(a, c, x);
      SplitAtLast(a + [c] + x, c, y);
      Regroup(a, c, x, y);
      assert Split(a, c) + Split(x, c) + [y] == Split(a, c) + (Split(x, c) + [y]);
    }
  }

  lemma {:induction false} JoinSplit(s: string)
    ensures Split(s, '/') != [] && Join(Split(s, '/')) == s
    decreases |s|
  {
    if '/' in s {
      var k := LastOf(s, '/');
      JoinSplit(s[..k]);
      var segs := Split(s, '/');
      assert segs[..|segs| - 1] == Split(s[..k], '/') && segs[|segs| - 1] == s[k + 1..];
      assert s == s[..k] + ['/'] + s[k + 1..];
    }
  }

  lemma ReplacedAt(a: string, b: string)
    requires '\\' !in b
    ensures Replaced(a + ['\\'] + b) == Replaced(a) + ['/'] + b
  {
  }

  lemma NothingReplaced(name: string)
    requires '\\' !in name
    ensures Replaced(name) == name
  {
  }

  lemma {:induction false} SplitReplaced(name: string)
    requires '/' !in name
    ensures Split(Replaced(name), '/') == Split(name, '\\')
    decreases |name|
  {
    if '\\' in name {
      var a, b := LastParts(name, '\\');
      hide Split, Replaced;
      assert '/' !in a && '/' !in b;
      SplitReplaced(a);
      ReplacedAt(a, b);
      SplitAtLast(Replaced(a), '/', b);
    } else {
      NothingReplaced(name);
    }
  }

  predicate SlashFree(rel: File) {
    rel != [] && forall name :: name in rel ==> '/' !in name
  }

  lemma OneName(x: string)
    ensures Slashed([x]) == Split(x, '\\') && Join([x]) == x
  {
    assert [x][..0] == [];
    assert Slashed([]) == [];
  }

  lemma OneMoreName(init: File, x: string)
    requires init != []
    ensures Slashed(init + [x]) == Slashed(init) + Split(x, '\\')
    ensures Join(init + [x]) == Join(init) + ['/'] + x
  {
    hide Split;
    var rel := init + [x];
    assert rel[..|rel| - 1] == init;
  }

  lemma ReplacedConcat(a: string, b: string)
    ensures Replaced(a + ['/'] + b) == Replaced(a) + ['/'] + Replaced(b)
  {
  }

  /** Cutting the names at their backslashes is replacing the backslashes in the joined name. */
  lemma {:induction false} SlashedIsReplaced(rel: File)
    requires SlashFree(rel)
    ensures Slashed(rel) == Split(Replaced(Join(rel)), '/') && Join(Slashed(rel)) == Replaced(Join(rel))
  {
    hide Slashed, Split, Join, Replaced;
    var init, x := rel[..|rel| - 1], rel[|rel| - 1];
    assert rel == init + [x];
    SplitReplaced(x);
    if init == [] {
      OneName(x);
    } else {
      SlashedIsReplaced(init);
      OneMoreName(init, x);
      ReplacedConcat(Join(init), x);
      SplitConcat(Replaced(Join(init)), '/', Replaced(x));
    }
    JoinSplit(Replaced(Join(rel)));
  }

  /** Two files get one target exactly when their names, backslashes replaced, are equal. */
  lemma SameTargetIff(to: Path, p: File, q: File)
    requires SlashFree(p) && SlashFree(q)
    ensures GenerateTargetPath(to, p) == GenerateTargetPath(to, q) <==> Replaced(Join(p)) == Replaced(Join(q))
  {
    var n := |ToDir(to)|;
    assert GenerateTargetPath(to, p).segs[n..] == Slashed(p);
    assert GenerateTargetPath(to, q).segs[n..] == Slashed(q);
    SlashedIsReplaced(p);
    SlashedIsReplaced(q);
  }

  /** Without backslashes the target gives the file back: drop the prefix, rejoin the base. */
  lemma TargetGivesFileBack(to: Path, rel: File)
    requires NoBackslash(rel)
    ensures var t := GenerateTargetPath(to, rel);
      ToDir(to) <= t.segs && t.segs[|ToDir(to)|..] == rel && t.rooted == to.rooted
  {
    NoBackslashIsKept(rel);
  }

  lemma JoinOfTwo(x: string, y: string)
    ensures Join([x]) == x && Join([x, y]) == x + ['/'] + y
  {
    assert [x, y][..1] == [x];
  }

  /** The file "a\b" and the file b in the directory a share their target. */
  lemma BackslashCollides(to: Path, a: string, b: string)
    requires '/' !in a && '/' !in b
    ensures [a + ['\\'] + b] != [a, b]
    ensures GenerateTargetPath(to, [a + ['\\'] + b]) == GenerateTargetPath(to, [a, b])
  {
    var name := a + ['\\'] + b;
    JoinOfTwo(name, name);
    JoinOfTwo(a, b);
    assert Replaced(name) == Replaced(a + ['/'] + b);
    hide GenerateTargetPath, Join, Replaced;
    SameTargetIff(to, [name], [a, b]);
  }

  // ---- The targets as strings -----------------------------------------------------------------

  function Text(p: Path): string {
    Root(p.rooted) + Join(p.segs)
  }

  lemma {:induction false} JoinConcat(a: seq<string>, b: seq<string>)
    requires a != [] && b != []
    ensures Join(a + b) == Join(a) + ['/'] + Join(b)
    decreases |b|
  {
    var n, ab := |b| - 1, a + b;
    assert ab[..|ab| - 1] == a + b[..n] && ab[|ab| - 1] == b[n];
    if n == 0 {
      assert a + b[..n] == a;
    } else {
      JoinConcat(a, b[..n]);
    }
  }

  lemma JoinEndsWithLast(segs: seq<string>)
    requires segs != [] && segs[|segs| - 1] != ""
    ensures var j, last := Join(segs), segs[|segs| - 1]; j != "" && j[|j| - 1] == last[|last| - 1]
  {
  }

  function Root(rooted: bool): string {
    if rooted then ['/'] else []
  }

  lemma Reassociate(r: string, a: string, b: string)
    ensures r + (a + ['/'] + b) == r + a + ['/'] + b
  {
  }

  lemma LastOfConcat(r: string, a: string)
    requires a != ""
    ensures r + a != "" && (r + a)[|r + a| - 1] == a[|a| - 1]
  {
  }

  lemma JoinTrailing(init: seq<string>)
    requires init != []
    ensures Join(init + [""]) == Join(init) + ['/']
  {
    JoinConcat(init, [""]);
    assert Join([""]) == "";
    hide Join;
    assert Join(init) + ['/'] + "" == Join(init) + ['/'];
  }

  lemma DirTextOfSlash(rooted: bool, init: seq<string>, rest: seq<string>)
    requires rest != [] && init != []
    ensures var text := Root(rooted) + Join(init + [""]);
      text != "" && text[|text| - 1] == '/' && Root(rooted) + Join(init + rest) == text + Join(rest)
  {
    hide Join, Root;
    JoinTrailing(init);
    JoinConcat(init, rest);
    Reassociate(Root(rooted), Join(init), Join(rest));
    Reassociate(Root(rooted), Join(init), "");
    var text := Root(rooted) + (Join(init) + ['/']);
    LastOfConcat(Root(rooted), Join(init) + ['/']);
    assert text == Root(rooted) + Join(init) + ['/'];
  }

  lemma DirTextOfName(rooted: bool, segs: seq<string>, rest: seq<string>)
    requires rest != [] && segs != [] && segs[|segs| - 1] != "" && '/' !in segs[|segs| - 1]
    ensures var text := Root(rooted) + Join(segs);
      text != "" && text[|text| - 1] != '/' && Root(rooted) + Join(segs + rest) == text + ['/'] + Join(rest)
  {
    hide Join, Root;
    JoinEndsWithLast(segs);
    JoinConcat(segs, rest);
    Reassociate(Root(rooted), Join(segs), Join(rest));
    LastOfConcat(Root(rooted), Join(segs));
  }

  lemma ShortDirText(to: Path, rest: seq<string>)
    requires rest != [] && Text(to) != "" && (to.segs == [] || to.segs == [""])
    ensures EndsInSlash(to) && to.rooted && Text(to) == "/" && ToDir(to) == []
    ensures Text(Path(to.rooted, ToDir(to) + rest)) == Text(to) + Join(rest)
  {
    assert [] + rest == rest;
    assert Join([""]) == "";
    hide Join;
  }

  /** How ToDir treats the three kinds of targets. */
  lemma DirKinds(to: Path)
    requires to.segs != [] && to.segs != [""]
    ensures var n := |to.segs| - 1;
      if to.segs[n] == ""
      then to.segs == to.segs[..n] + [""] && to.segs[..n] != [] && EndsInSlash(to) && ToDir(to) == to.segs[..n]
      else !EndsInSlash(to) && ToDir(to) == to.segs
  {
  }

  lemma TextMeans(rooted: bool, segs: seq<string>)
    ensures Text(Path(rooted, segs)) == Root(rooted) + Join(segs)
  {
  }

  /** A target directory's text, and the part of it that ToDir keeps. */
  lemma DirText(to: Path, rest: seq<string>)
    requires rest != [] && Text(to) != "" && forall seg :: seg in to.segs ==> '/' !in seg
    ensures EndsInSlash(to) <==> Text(to)[|Text(to)| - 1] == '/'
    ensures Text(Path(to.rooted, ToDir(to) + rest)) == Text(to) + (if EndsInSlash(to) then [] else ['/']) + Join(rest)
  {
    hide *;
    var segs := to.segs;
    if segs == [] || segs == [""] {
      ShortDirText(to, rest);
    } else {
      var n := |segs| - 1;
      DirKinds(to);
      TextMeans(to.rooted, segs);
      TextMeans(to.rooted, ToDir(to) + rest);
      if segs[n] == "" {
        DirTextOfSlash(to.rooted, segs[..n], rest);
      } else {
        assert segs[n] in segs;
        DirTextOfName(to.rooted, segs, rest);
      }
    }
  }

  lemma SlashedIsNotEmpty(rel: File)
    requires rel != []
    ensures Slashed(rel) != []
  {
    JoinSplitNotEmpty(rel[|rel| - 1]);
  }

  lemma JoinSplitNotEmpty(name: string)
    ensures Split(name, '\\') != []
  {
  }

  /** generateTargetPath on strings: the target, a slash unless it ends in one, and the relative
      path with its backslashes replaced. */
  lemma TargetText(to: Path, rel: File)
    requires Text(to) != "" && SlashFree(rel) && forall seg :: seg in to.segs ==> '/' !in seg
    ensures Text(GenerateTargetPath(to, rel)) ==
      Text(to) + (if Text(to)[|Text(to)| - 1] == '/' then [] else ['/']) + Replaced(Join(rel))
  {
    SlashedIsNotEmpty(rel);
    SlashedIsReplaced(rel);
    hide Slashed, Join, Replaced, EndsInSlash, ToDir;
    DirText(to, Slashed(rel));
  }

  /** And for a single file: its name is added to a target that ends in a slash. */
  lemma FileTargetText(to: Path, path: Path)
    requires Text(to) != "" && forall seg :: seg in to.segs ==> '/' !in seg
    ensures Text(FileTarget(to, path)) ==
      if Text(to)[|Text(to)| - 1] == '/' then Text(to) + Base(path) else Text(to)
  {
    DirText(to, [Base(path)]);
    hide Text, EndsInSlash, ToDir, Base;
    assert Join([Base(path)]) == Base(path);
  }

  // ---- PublishFileSyncTaskAsFiles -----------------------------------------------------------

  /** from == None and to == None stand for the empty strings. */
  datatype SyncItem = SyncItem(from: Option<Path>, to: Option<Path>, deleteAfter: bool, overwrite: bool, unique: bool)

  /** What EvalSymlinks and Stat find: the real path and the tree there. A path that does not
      resolve is in no file system map. */
  datatype Found = Found(path: Path, node: Node)
  datatype Source = Resolved(found: Found) | Vanished | StatFails

  /** The published file is rel below base. */
  datatype Payload = Payload(base: Path, rel: File, target: Path, deleteAfter: bool, overwrite: bool, unique: bool)

  datatype Error =
    | NoItems | NoFrom | NoTo | LinkError | NotFound | StatError | ScanError | EmptyDirectory | EnqueueFailed
  datatype Result = Ok | Err(error: Error)

  /** A target ending in a slash is a directory for a single file, another one the file itself. */
  function FileTarget(to: Path, path: Path): Path {
    if EndsInSlash(to) then Path(to.rooted, ToDir(to) + [Base(path)]) else to
  }

  function PayloadFor(item: SyncItem, found: Found, rel: File): Payload
    requires item.to.Some?
  {
    var to := item.to.value;
    var target := if found.node.Dir? then GenerateTargetPath(to, rel) else FileTarget(to, found.path);
    Payload(found.path, rel, target, item.deleteAfter, item.overwrite, item.unique)
  }

  /** Why an item is refused before any of its files is enqueued. */
  function Refusal(fs: map<Path, Source>, item: SyncItem): Option<Error> {
    if item.from.None? then Some(NoFrom)
    else if item.to.None? then Some(NoTo)
    else if item.from.value !in fs then Some(LinkError)
    else match fs[item.from.value]
      case Vanished => Some(NotFound)
      case StatFails => Some(StatError)
      case Resolved(found) =>
        if !Readable(found.node) then Some(ScanError)
        else if Leaves(found.node) == [] then Some(EmptyDirectory)
        else None
  }

  function ItemPayloads(item: SyncItem, found: Found, files: seq<File>): (ps: seq<Payload>)
    requires item.to.Some?
    ensures |ps| == |files|
  {
    seq(|files|, i requires 0 <= i < |files| => PayloadFor(item, found, files[i]))
  }

  /** Every payload offered to the queue, up to the first item that is refused. */
  function Offered(fs: map<Path, Source>, items: seq<SyncItem>): seq<Payload> {
    if items == [] || Refusal(fs, items[0]).Some? then []
    else
      var found := fs[items[0].from.value].found;
      ItemPayloads(items[0], found, Leaves(found.node)) + Offered(fs, items[1..])
  }

  function FirstRefusal(fs: map<Path, Source>, items: seq<SyncItem>): Option<Error> {
    if items == [] then None
    else if Refusal(fs, items[0]).Some? then Refusal(fs, items[0])
    else FirstRefusal(fs, items[1..])
  }

  /** The payloads a queue keeps of those offered: a unique one is dropped when its task id,
      which is its target, has been used. */
  function Kept(ids: set<Path>, ps: seq<Payload>): seq<Payload>
    decreases |ps|
  {
    if ps == [] then []
    else if ps[0].unique && ps[0].target in ids then Kept(ids, ps[1..])
    else [ps[0]] + Kept(if ps[0].unique then ids + {ps[0].target} else ids, ps[1..])
  }

  class Publisher {
    /** The asynq queue, its task ids, and how many more enqueue calls it will answer. */
    var queue: seq<Payload>
    var ids: set<Path>
    var link: nat

    constructor (queue: seq<Payload>, ids: set<Path>, link: nat)
      ensures this.queue == queue && this.ids == ids && this.link == link
    {
      this.queue, this.ids, this.link := queue, ids, link;
    }

    /** A conflict on the task id is logged and is no error. */
    method Enqueue(p: Payload) returns (ok: bool)
      modifies this
      ensures ok <==> old(link) > 0
      ensures link == if ok then old(link) - 1 else 0
      ensures !ok ==> queue == old(queue) && ids == old(ids)
      ensures ok ==> queue == old(queue) + Kept(old(ids), [p])
      ensures ok ==> queue == if p.unique && p.target in old(ids) then old(queue) else old(queue) + [p]
      ensures ok ==> ids == if p.unique then old(ids) + {p.target} else old(ids)
    {
      ok := link > 0;
      if !ok { return; }
      link := link - 1;
      if p.unique && p.target in ids { return; }
      queue := queue + [p];
      if p.unique { ids := ids + {p.target}; }
    }

    /** One task for each file of an item, until the queue stops answering. */
    method EnqueueFiles(item: SyncItem, found: Found, files: seq<File>) returns (ok: bool, ghost offered: seq<Payload>)
      requires item.to.Some?
      modifies this
      ensures offered <= ItemPayloads(item, found, files)
      ensures forall j :: 0 <= j < |offered| ==>
        var to := item.to.value;
        var target := if found.node.Dir? then GenerateTargetPath(to, files[j]) else FileTarget(to, found.path);
        offered[j] == Payload(found.path, files[j], target, item.deleteAfter, item.overwrite, item.unique)
      ensures queue == old(queue) + Kept(old(ids), offered)
      ensures ids == old(ids) + Uniques(offered) && link == old(link) - |offered|
      ensures ok ==> offered == ItemPayloads(item, found, files)
      ensures ok <==> old(link) >= |files|
      ensures !ok ==> link == 0 && |offered| < |files|
    {
      ghost var all := ItemPayloads(item, found, files);
      KeptEmpty(ids);
      offered := [];
      for j := 0 to |files|
        invariant queue == old(queue) + Kept(old(ids), offered)
        invariant ids == old(ids) + Uniques(offered)
        invariant offered == all[..j] && link == old(link) - j
      {
        var p := PayloadFor(item, found, files[j]);
        ok := Enqueue(p);
        if !ok { return; }
        KeptSnoc(old(ids), offered, p);
        offered := offered + [p];
        assert all[..j + 1] == all[..j] + [p];
      }
      assert all[..|files|] == all;
      ok := true;
    }

    /** The call, against the payloads of its items one after another. */
    method PublishItems(fs: map<Path, Source>, items: seq<SyncItem>)
      returns (r: Result, ghost offered: seq<Payload>)
      modifies this
      ensures queue == old(queue) + Kept(old(ids), offered)
      ensures items == [] ==> r == Err(NoItems) && offered == []
      ensures items != [] ==> offered <= Offered(fs, items)
      ensures items != [] && old(link) >= |Offered(fs, items)| ==>
        && offered == Offered(fs, items)
        && r == if FirstRefusal(fs, items).Some? then Err(FirstRefusal(fs, items).value) else Ok
      ensures items != [] && old(link) < |Offered(fs, items)| ==> r == Err(EnqueueFailed) && |offered| == old(link)
    {
      hide Kept, Uniques, Leaves, ItemPayloads, Readable;
      offered := [];
      KeptEmpty(ids);
      if items == [] { return Err(NoItems), offered; }
      for i := 0 to |items|
        invariant queue == old(queue) + Kept(old(ids), offered)
        invariant ids == old(ids) + Uniques(offered) && link == old(link) - |offered|
        invariant Offered(fs, items) == offered + Offered(fs, items[i..])
        invariant FirstRefusal(fs, items) == FirstRefusal(fs, items[i..])
      {
        var item := items[i];
        assert items[i..][0] == item && items[i..][1..] == items[i + 1..];
        if item.from.None? { return Err(NoFrom), offered; }
        if item.to.None? { return Err(NoTo), offered; }
        if item.from.value !in fs { return Err(LinkError), offered; }
        if fs[item.from.value].Vanished? { return Err(NotFound), offered; }
        if fs[item.from.value].StatFails? { return Err(StatError), offered; }
        var found := fs[item.from.value].found;
        var scanned, files := ScanFiles(found.node);
        if !scanned { return Err(ScanError), offered; }
        if files == [] { return Err(EmptyDirectory), offered; }
        var ok, more := EnqueueFiles(item, found, files);
        KeptConcat(old(ids), offered, more);
        offered := offered + more;
        if !ok { return Err(EnqueueFailed), offered; }
      }
      assert items[|items|..] == [];
      r := Ok;
    }

    /** With a queue that answers, all offered payloads reach it; a refused item stops the call
        and leaves the files of the items before it enqueued; a queue that stops answering
        leaves the payloads offered so far. */
    method PublishFileSyncTaskAsFiles(fs: map<Path, Source>, items: seq<SyncItem>)
      returns (r: Result, ghost offered: seq<Payload>)
      modifies this
      ensures queue == old(queue) + Kept(old(ids), offered)
      ensures items == [] ==> r == Err(NoItems) && offered == []
      ensures items != [] ==> offered <= Offered(fs, items)
      ensures items != [] && old(link) >= |Offered(fs, items)| ==>
        && offered == Offered(fs, items)
        && r == if FirstRefusal(fs, items).Some? then Err(FirstRefusal(fs, items).value) else Ok
      ensures items != [] && old(link) < |Offered(fs, items)| ==> r == Err(EnqueueFailed) && |offered| == old(link)
      // Item by item and leaf by leaf: what is offered, as far as the queue answers.
      ensures forall i, k :: 0 <= i < |items| && 0 <= k < |Leaves(Tree(fs, items[i]))| ==>
        OfferedInPlace(fs, items, offered, old(link), i, k)
      // And nothing else, up to the first item that is refused, which decides the reply.
      ensures items != [] ==> forall n :: 0 <= n <= |items| ==> EndsWith(fs, items, offered, old(link), r, n)
    {
      r, offered := PublishItems(fs, items);
      hide *;
      if items != [] {
        forall i, k | 0 <= i < |items| && 0 <= k < |Leaves(Tree(fs, items[i]))|
          ensures OfferedInPlace(fs, items, offered, old(link), i, k)
        {
          OfferedHere(fs, items, offered, old(link), i, k);
        }
        forall n | 0 <= n <= |items| ensures EndsWith(fs, items, offered, old(link), r, n) {
          OfferEnds(fs, items, offered, old(link), r, n);
        }
      }
    }
  }

  function Uniques(ps: seq<Payload>): set<Path> {
    set p | p in ps && p.unique :: p.target
  }

  lemma KeptEmpty(ids: set<Path>)
    ensures Kept(ids, []) == [] && ids + Uniques([]) == ids
  {
  }

  lemma UniquesSnoc(ps: seq<Payload>, p: Payload)
    ensures Uniques(ps + [p]) == Uniques(ps) + (if p.unique then {p.target} else {})
  {
  }

  lemma UniquesCons(p: Payload, ps: seq<Payload>)
    ensures Uniques([p] + ps) == (if p.unique then {p.target} else {}) + Uniques(ps)
  {
  }

  lemma KeptCons(ids: set<Path>, p: Payload, ps: seq<Payload>)
    ensures Kept(ids, [p] + ps) ==
      (if p.unique && p.target in ids then [] else [p]) + Kept(ids + (if p.unique then {p.target} else {}), ps)
  {
    assert ([p] + ps)[1..] == ps;
    assert p.unique && p.target in ids ==> ids + {p.target} == ids;
    assert ids + {} == ids;
  }

  lemma {:induction false} KeptSnoc(ids: set<Path>, ps: seq<Payload>, p: Payload)
    ensures Kept(ids, ps + [p]) == Kept(ids, ps) + Kept(ids + Uniques(ps), [p])
    ensures Uniques(ps + [p]) == Uniques(ps) + (if p.unique then {p.target} else {})
    decreases |ps|
  {
    hide Kept, Uniques;
    UniquesSnoc(ps, p);
    if ps == [] {
      KeptEmpty(ids);
      assert ps + [p] == [p];
    } else {
      var head, tail := ps[0], ps[1..];
      var ids' := ids + (if head.unique then {head.target} else {});
      assert ps == [head] + tail && ps + [p] == [head] + (tail + [p]);
      UniquesCons(head, tail);
      assert ids + Uniques(ps) == ids' + Uniques(tail);
      KeptCons(ids, head, tail);
      KeptCons(ids, head, tail + [p]);
      KeptSnoc(ids', tail, p);
    }
  }

  lemma {:induction false} KeptConcat(ids: set<Path>, ps: seq<Payload>, qs: seq<Payload>)
    ensures Kept(ids, ps + qs) == Kept(ids, ps) + Kept(ids + Uniques(ps), qs)
    ensures Uniques(ps + qs) == Uniques(ps) + Uniques(qs)
    decreases |qs|
  {
    if qs == [] {
      KeptEmpty(ids + Uniques(ps));
      assert ps + qs == ps;
    } else {
      var init, q := qs[..|qs| - 1], qs[|qs| - 1];
      assert ps + qs == (ps + init) + [q] && qs == init + [q];
      KeptConcat(ids, ps, init);
      KeptSnoc(ids, ps + init, q);
      KeptSnoc(ids + Uniques(ps), init, q);
      assert ids + Uniques(ps + init) == ids + Uniques(ps) + Uniques(init);
    }
  }

  /** Payloads whose unique ones have targets of their own, new to the queue, are all kept. */
  lemma {:induction false} FreshTargetsAreKept(ids: set<Path>, ps: seq<Payload>)
    requires forall i, j :: 0 <= i < j < |ps| && ps[i].unique && ps[j].unique ==> ps[i].target != ps[j].target
    requires forall p :: p in ps && p.unique ==> p.target !in ids
    ensures Kept(ids, ps) == ps
    decreases |ps|
  {
    hide Kept;
    if ps == [] {
      KeptEmpty(ids);
    } else {
      var head, tail := ps[0], ps[1..];
      assert ps == [head] + tail && head in ps;
      assert forall i :: 0 <= i < |tail| ==> tail[i] == ps[i + 1];
      KeptCons(ids, head, tail);
      FreshTargetsAreKept(ids + (if head.unique then {head.target} else {}), tail);
    }
  }

  // ---- What a call offers ------------------------------------------------------------------------

  /** The tree an item names, if there is one. */
  function Tree(fs: map<Path, Source>, item: SyncItem): Node {
    if item.from.Some? && item.from.value in fs && fs[item.from.value].Resolved? then fs[item.from.value].found.node
    else Broken
  }

  /** The leaves of the first n items together. */
  function LeafCount(fs: map<Path, Source>, items: seq<SyncItem>, n: nat): nat
    requires n <= |items|
  {
    if n == 0 then 0 else LeafCount(fs, items, n - 1) + |Leaves(Tree(fs, items[n - 1]))|
  }

  /** An item is refused for the first of these reasons, and not refused if there is none. */
  lemma RefusalMeans(fs: map<Path, Source>, item: SyncItem)
    ensures Refusal(fs, item) == Some(NoFrom) <==> item.from.None?
    ensures Refusal(fs, item) == Some(NoTo) <==> item.from.Some? && item.to.None?
    ensures Refusal(fs, item) == Some(LinkError) <==> item.from.Some? && item.to.Some? && item.from.value !in fs
    ensures item.from.Some? && item.to.Some? && item.from.value in fs ==> var found := fs[item.from.value];
      && (Refusal(fs, item) == Some(NotFound) <==> found.Vanished?)
      && (Refusal(fs, item) == Some(StatError) <==> found.StatFails?)
      && (Refusal(fs, item) == Some(ScanError) <==> found.Resolved? && !Readable(found.found.node))
      && (Refusal(fs, item) == Some(EmptyDirectory) <==>
          found.Resolved? && Readable(found.found.node) && forall p :: !HasLeaf(found.found.node, p))
      && (Refusal(fs, item) == None <==>
          found.Resolved? && Readable(found.found.node) && exists p :: HasLeaf(found.found.node, p))
  {
    NoLeavesMeans(Tree(fs, item));
    hide Readable, HasLeaf, Leaves;
  }

  lemma NoLeavesMeans(node: Node)
    ensures Leaves(node) != [] <==> exists p :: HasLeaf(node, p)
  {
    if Leaves(node) != [] {
      assert Leaves(node)[0] in Leaves(node);
      LeavesExact(node, Leaves(node)[0]);
    }
    if p :| HasLeaf(node, p) { LeavesExact(node, p); }
  }

  lemma {:induction false} LeafCountCons(fs: map<Path, Source>, items: seq<SyncItem>, n: nat)
    requires 0 < n <= |items|
    ensures LeafCount(fs, items, n) == |Leaves(Tree(fs, items[0]))| + LeafCount(fs, items[1..], n - 1)
  {
    hide Leaves, Tree;
    if n > 1 { LeafCountCons(fs, items, n - 1); }
  }

  /** The k-th leaf of the i-th item, none before being refused, is offered in its place, with its
      base, its target and the item's flags. */
  lemma {:induction false} OfferedAt(fs: map<Path, Source>, items: seq<SyncItem>, i: nat, k: nat)
    requires i < |items| && forall j :: 0 <= j <= i ==> Refusal(fs, items[j]).None?
    requires k < |Leaves(Tree(fs, items[i]))|
    ensures LeafCount(fs, items, i) + k < |Offered(fs, items)|
    ensures var item := items[i];
      && item.from.Some? && item.to.Some? && item.from.value in fs && fs[item.from.value].Resolved?
      && var found, to := fs[item.from.value].found, item.to.value;
      var leaf := Leaves(Tree(fs, item))[k];
      var target := if found.node.Dir? then GenerateTargetPath(to, leaf) else FileTarget(to, found.path);
      Offered(fs, items)[LeafCount(fs, items, i) + k] ==
      Payload(found.path, leaf, target, item.deleteAfter, item.overwrite, item.unique)
  {
    RefusalMeans(fs, items[0]);
    RefusalMeans(fs, items[i]);
    hide Leaves, GenerateTargetPath, FileTarget, Readable;
    if i > 0 {
      OfferedAt(fs, items[1..], i - 1, k);
      LeafCountCons(fs, items, i);
    }
  }

  /** And nothing else is: the offer ends with the last leaf before the first refusal. */
  lemma {:induction false} OfferedCount(fs: map<Path, Source>, items: seq<SyncItem>, n: nat)
    requires n <= |items| && (forall j :: 0 <= j < n ==> Refusal(fs, items[j]).None?)
    requires n == |items| || Refusal(fs, items[n]).Some?
    ensures |Offered(fs, items)| == LeafCount(fs, items, n)
    ensures FirstRefusal(fs, items) == if n == |items| then None else Refusal(fs, items[n])
  {
    if n > 0 {
      RefusalMeans(fs, items[0]);
      hide Leaves, Readable;
      OfferedCount(fs, items[1..], n - 1);
      LeafCountCons(fs, items, n);
    }
  }

  /** With no item up to the i-th refused and the queue answering that long, the i-th item's k-th
      leaf is offered right after those before it. */
  ghost predicate OfferedInPlace(fs: map<Path, Source>, items: seq<SyncItem>, offered: seq<Payload>, link: nat,
                                 i: nat, k: nat)
    requires i < |items| && k < |Leaves(Tree(fs, items[i]))|
  {
    (forall j :: 0 <= j <= i ==> Refusal(fs, items[j]).None?) && LeafCount(fs, items, i) + k < link ==>
    && LeafCount(fs, items, i) + k < |offered|
    && items[i].from.Some? && items[i].to.Some? && items[i].from.value in fs && fs[items[i].from.value].Resolved?
    && var found, to := fs[items[i].from.value].found, items[i].to.value;
    var leaf := Leaves(Tree(fs, items[i]))[k];
    var target := if found.node.Dir? then GenerateTargetPath(to, leaf) else FileTarget(to, found.path);
    offered[LeafCount(fs, items, i) + k] ==
    Payload(found.path, leaf, target, items[i].deleteAfter, items[i].overwrite, items[i].unique)
  }

  /** If item n is the first to be refused, or there is none and n is the number of items, the leaves
      before it are all that is offered, as far as the queue answers. */
  ghost predicate EndsWith(fs: map<Path, Source>, items: seq<SyncItem>, offered: seq<Payload>, link: nat, r: Result,
                           n: nat)
    requires n <= |items|
  {
    (n == |items| || Refusal(fs, items[n]).Some?) && (forall j :: 0 <= j < n ==> Refusal(fs, items[j]).None?) ==>
    if link < LeafCount(fs, items, n) then |offered| == link && r == Err(EnqueueFailed)
    else |offered| == LeafCount(fs, items, n) && r == if n == |items| then Ok else Err(Refusal(fs, items[n]).value)
  }

  lemma OfferedHere(fs: map<Path, Source>, items: seq<SyncItem>, offered: seq<Payload>, link: nat, i: nat, k: nat)
    requires offered <= Offered(fs, items) && i < |items| && k < |Leaves(Tree(fs, items[i]))|
    requires |offered| == |Offered(fs, items)| || |offered| == link
    ensures OfferedInPlace(fs, items, offered, link, i, k)
  {
    if (forall j :: 0 <= j <= i ==> Refusal(fs, items[j]).None?) && LeafCount(fs, items, i) + k < link {
      hide Leaves, Tree, LeafCount, Offered, Refusal, GenerateTargetPath, FileTarget, Readable, ToDir, Slashed;
      OfferedAt(fs, items, i, k);
    }
  }

  lemma OfferEnds(fs: map<Path, Source>, items: seq<SyncItem>, offered: seq<Payload>, link: nat, r: Result, n: nat)
    requires items != [] && offered <= Offered(fs, items) && n <= |items|
    requires link >= |Offered(fs, items)| ==>
      && offered == Offered(fs, items)
      && r == if FirstRefusal(fs, items).Some? then Err(FirstRefusal(fs, items).value) else Ok
    requires link < |Offered(fs, items)| ==> r == Err(EnqueueFailed) && |offered| == link
    ensures EndsWith(fs, items, offered, link, r, n)
  {
    hide Offered, FirstRefusal, Refusal, LeafCount;
    if (n == |items| || Refusal(fs, items[n]).Some?) && forall j :: 0 <= j < n ==> Refusal(fs, items[j]).None? {
      OfferedCount(fs, items, n);
    }
  }

  /** A unique payload's task id is taken, by an earlier call or an earlier payload of this one. */
  predicate IdTaken(ids: set<Path>, earlier: seq<Payload>, p: Payload) {
    p.unique && p.target in ids + Uniques(earlier)
  }

  /** The file a payload names, by its names from the root down. */
  function FileOf(p: Payload): File {
    p.base.segs + p.rel
  }

  ghost predicate DistinctFiles(ps: seq<Payload>) {
    forall i, j :: 0 <= i < j < |ps| ==> FileOf(ps[i]) != FileOf(ps[j])
  }

  ghost predicate UniqueTargetsDiffer(ps: seq<Payload>) {
    forall i, j :: 0 <= i < j < |ps| && ps[i].unique && ps[j].unique ==> ps[i].target != ps[j].target
  }

  lemma KeptOne(ids: set<Path>, p: Payload)
    ensures Kept(ids, [p]) == if p.unique && p.target in ids then [] else [p]
  {
    assert [p][1..] == [];
  }

  /** The queue keeps exactly the payloads whose task ids are not taken. */
  lemma {:induction false} KeptExact(ids: set<Path>, ps: seq<Payload>, p: Payload)
    ensures p in Kept(ids, ps) <==> exists i :: 0 <= i < |ps| && ps[i] == p && !IdTaken(ids, ps[..i], p)
    decreases |ps|
  {
    hide Kept, Uniques;
    if ps == [] {
      KeptEmpty(ids);
    } else {
      var n := |ps| - 1;
      assert ps == ps[..n] + [ps[n]];
      KeptExact(ids, ps[..n], p);
      KeptSnoc(ids, ps[..n], ps[n]);
      KeptOne(ids + Uniques(ps[..n]), ps[n]);
      assert forall i :: 0 <= i < n ==> ps[..n][..i] == ps[..i];
    }
  }

  lemma TakenMeans(ids: set<Path>, ps: seq<Payload>, i: nat)
    requires i < |ps|
    ensures IdTaken(ids, ps[..i], ps[i]) <==>
      ps[i].unique && (ps[i].target in ids || exists j :: 0 <= j < i && ps[j].unique && ps[j].target == ps[i].target)
  {
    if j :| 0 <= j < i && ps[j].unique && ps[j].target == ps[i].target { assert ps[j] in ps[..i]; }
  }

  /** A payload is kept exactly when, at some place, it is not unique or its target is no task id of
      an earlier call and no earlier unique payload's target. */
  lemma KeptMeans(ids: set<Path>, ps: seq<Payload>, p: Payload)
    ensures p in Kept(ids, ps) <==>
      exists i ::
        && 0 <= i < |ps| && ps[i] == p
        && !(p.unique && (p.target in ids || exists j :: 0 <= j < i && ps[j].unique && ps[j].target == p.target))
  {
    KeptExact(ids, ps, p);
    hide Kept, IdTaken;
    forall i | 0 <= i < |ps|
      ensures IdTaken(ids, ps[..i], ps[i]) <==>
        ps[i].unique && (ps[i].target in ids || exists j :: 0 <= j < i && ps[j].unique && ps[j].target == ps[i].target)
    {
      TakenMeans(ids, ps, i);
    }
  }

  /** What it keeps has no two unique payloads with one target, and no two with one file if none
      were offered. */
  lemma {:induction false} KeptIsDistinct(ids: set<Path>, ps: seq<Payload>)
    ensures UniqueTargetsDiffer(Kept(ids, ps)) && (DistinctFiles(ps) ==> DistinctFiles(Kept(ids, ps)))
    decreases |ps|
  {
    hide Kept, Uniques, FileOf;
    if ps == [] {
      KeptEmpty(ids);
    } else {
      var n := |ps| - 1;
      var init, last := ps[..n], ps[n];
      assert ps == init + [last];
      KeptIsDistinct(ids, init);
      KeptSnoc(ids, init, last);
      KeptOne(ids + Uniques(init), last);
      var kept := Kept(ids, init);
      if !IdTaken(ids, init, last) {
        forall i | 0 <= i < |kept|
          ensures kept[i].unique && last.unique ==> kept[i].target != last.target
          ensures DistinctFiles(ps) ==> FileOf(kept[i]) != FileOf(last)
        {
          KeptExact(ids, init, kept[i]);
          InUniques(init, kept[i]);
        }
      }
    }
  }

  lemma InUniques(ps: seq<Payload>, p: Payload)
    ensures p in ps && p.unique ==> p.target in Uniques(ps)
  {
  }

  lemma PayloadOfLeaf(item: SyncItem, found: Found, i: nat)
    requires item.to.Some? && found.node.Dir? && i < |Leaves(found.node)|
    ensures ItemPayloads(item, found, Leaves(found.node))[i] == LeafPayload(item, found, Leaves(found.node)[i])
  {
  }

  function LeafTarget(item: SyncItem, p: File): Path
    requires item.to.Some?
  {
    GenerateTargetPath(item.to.value, p)
  }

  /** The one payload of a leaf of a directory. */
  function LeafPayload(item: SyncItem, found: Found, p: File): Payload
    requires item.to.Some?
  {
    Payload(found.path, p, LeafTarget(item, p), item.deleteAfter, item.overwrite, item.unique)
  }

  lemma DirectoryPayloads(item: SyncItem, found: Found) returns (files: seq<File>, ps: seq<Payload>)
    requires item.to.Some? && found.node.Dir? && WellFormed(found.node)
    ensures files == Leaves(found.node) && ps == ItemPayloads(item, found, files)
    ensures forall i :: 0 <= i < |ps| ==> ps[i] == LeafPayload(item, found, files[i]) && HasLeaf(found.node, files[i])
    ensures NoRepeats(files) && DistinctFiles(ps)
  {
    files, ps := Leaves(found.node), ItemPayloads(item, found, Leaves(found.node));
    hide Leaves, HasLeaf, ItemPayloads, WellFormed, GenerateTargetPath;
    LeavesDistinct(found.node);
    forall i | 0 <= i < |ps| ensures ps[i] == LeafPayload(item, found, files[i]) && HasLeaf(found.node, files[i]) {
      LeavesExact(found.node, files[i]);
      PayloadOfLeaf(item, found, i);
    }
    forall i, j | 0 <= i < j < |ps| ensures FileOf(ps[i]) != FileOf(ps[j]) {
      assert FileOf(ps[i])[|found.path.segs|..] == files[i] && FileOf(ps[j])[|found.path.segs|..] == files[j];
    }
  }

  /** The walk meets no leaf with the same target before p. */
  ghost predicate FirstOfTarget(item: SyncItem, files: seq<File>, p: File)
    requires item.to.Some?
  {
    exists i :: 0 <= i < |files| && files[i] == p && !TargetBefore(item, files, i)
  }

  predicate TargetBefore(item: SyncItem, files: seq<File>, i: nat)
    requires item.to.Some? && i < |files|
  {
    exists j :: 0 <= j < i && LeafTarget(item, files[j]) == LeafTarget(item, files[i])
  }

  /** The leaf gets a task: any does unless the item is unique, and then the first with a target
      that is no taken task id. */
  ghost predicate Accepted(item: SyncItem, found: Found, ids: set<Path>, p: File)
    requires item.to.Some?
  {
    !item.unique || (LeafTarget(item, p) !in ids && FirstOfTarget(item, Leaves(found.node), p))
  }

  /** No two leaves have names that differ only in the kind of slash. */
  ghost predicate NamesStayApart(node: Node) {
    forall p, q :: HasLeaf(node, p) && HasLeaf(node, q) && Replaced(Join(p)) == Replaced(Join(q)) ==> p == q
  }

  lemma IdTakenByLeaf(item: SyncItem, found: Found, ids: set<Path>, files: seq<File>, ps: seq<Payload>, i: nat)
    requires item.to.Some? && |ps| == |files| && i < |files|
    requires forall j :: 0 <= j < |ps| ==> ps[j] == LeafPayload(item, found, files[j])
    ensures IdTaken(ids, ps[..i], ps[i]) <==>
      item.unique && (LeafTarget(item, files[i]) in ids || TargetBefore(item, files, i))
  {
    if j :| 0 <= j < i && LeafTarget(item, files[j]) == LeafTarget(item, files[i]) {
      assert ps[j] in ps[..i];
    }
  }

  lemma LeafIsKept(item: SyncItem, found: Found, ids: set<Path>, p: File)
    requires item.to.Some? && found.node.Dir? && WellFormed(found.node)
    ensures LeafPayload(item, found, p) in Kept(ids, ItemPayloads(item, found, Leaves(found.node))) <==>
      HasLeaf(found.node, p) && Accepted(item, found, ids, p)
  {
    var files, ps := DirectoryPayloads(item, found);
    KeptExact(ids, ps, LeafPayload(item, found, p));
    LeavesExact(found.node, p);
    hide Kept, WellFormed, HasLeaf, Leaves, ItemPayloads, IdTaken, LeafTarget;
    forall i | 0 <= i < |files|
      ensures IdTaken(ids, ps[..i], ps[i]) <==>
        item.unique && (LeafTarget(item, files[i]) in ids || TargetBefore(item, files, i))
    {
      IdTakenByLeaf(item, found, ids, files, ps, i);
    }
    if HasLeaf(found.node, p) && Accepted(item, found, ids, p) {
      var i :| 0 <= i < |files| && files[i] == p && (item.unique ==> !TargetBefore(item, files, i));
      assert !IdTaken(ids, ps[..i], ps[i]);
    }
  }

  lemma LeafIsSlashFree(node: Node, p: File)
    requires node.Dir? && WellFormed(node) && HasLeaf(node, p)
    ensures SlashFree(p)
  {
    LeafNames(node, p);
  }

  lemma {:induction false} LeafNames(node: Node, p: File)
    requires WellFormed(node) && HasLeaf(node, p)
    ensures forall name :: name in p ==> FileName(name)
  {
    if node.Dir? {
      var i :| 0 <= i < |node.entries| && node.entries[i].name == p[0] && HasLeaf(node.entries[i].node, p[1..]);
      assert node.entries[i] in node.entries;
      LeafNames(node.entries[i].node, p[1..]);
    }
  }

  /** Publishing a directory gives each accepted leaf exactly one task, no two of them one file;
      no two of them have one target if the item is unique or no names differ only in the kind of
      slash; and an item that is not unique leaves no leaf out. */
  lemma DirectoryIsPublishedOneToOne(item: SyncItem, found: Found, ids: set<Path>)
    requires item.to.Some? && found.node.Dir? && WellFormed(found.node)
    ensures var ps := Kept(ids, ItemPayloads(item, found, Leaves(found.node)));
      && (forall p :: LeafPayload(item, found, p) in ps <==> HasLeaf(found.node, p) && Accepted(item, found, ids, p))
      && (forall q :: q in ps ==> q == LeafPayload(item, found, q.rel))
      && DistinctFiles(ps)
      && (item.unique || NamesStayApart(found.node) ==>
          forall i, j :: 0 <= i < j < |ps| ==> ps[i].target != ps[j].target)
    ensures !item.unique ==>
      Kept(ids, ItemPayloads(item, found, Leaves(found.node))) == ItemPayloads(item, found, Leaves(found.node))
  {
    var files, all := DirectoryPayloads(item, found);
    KeptIsDistinct(ids, all);
    hide Kept, WellFormed, HasLeaf, Leaves, ItemPayloads, Accepted, NamesStayApart, LeafTarget;
    if !item.unique { FreshTargetsAreKept(ids, all); }
    var ps := Kept(ids, all);
    forall p ensures LeafPayload(item, found, p) in ps <==> HasLeaf(found.node, p) && Accepted(item, found, ids, p) {
      LeafIsKept(item, found, ids, p);
    }
    forall q | q in ps ensures q == LeafPayload(item, found, q.rel) && HasLeaf(found.node, q.rel) {
      KeptExact(ids, all, q);
    }
    forall i, j | 0 <= i < j < |ps| && (item.unique || NamesStayApart(found.node))
      ensures ps[i].target != ps[j].target
    {
      if !item.unique {
        assert ps[i] in ps && ps[j] in ps && FileOf(ps[i]) != FileOf(ps[j]);
        NamesApartTargetsApart(item, found, ps[i].rel, ps[j].rel);
      }
    }
  }

  lemma NamesApartTargetsApart(item: SyncItem, found: Found, p: File, q: File)
    requires item.to.Some? && found.node.Dir? && WellFormed(found.node) && NamesStayApart(found.node)
    requires HasLeaf(found.node, p) && HasLeaf(found.node, q) && p != q
    ensures LeafTarget(item, p) != LeafTarget(item, q)
  {
    LeafIsSlashFree(found.node, p);
    LeafIsSlashFree(found.node, q);
    SameTargetIff(item.to.value, p, q);
    hide HasLeaf, WellFormed, Replaced, Join;
  }
}
