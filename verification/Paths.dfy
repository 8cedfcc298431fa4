/** Slash-separated paths, as the lists of names between the separators, with the
    parts of Go's path/filepath that the SFTP backend relies on, and the name of the
    temporary file an upload writes before it renames it over its target. */
module Paths {

  /** "a//b/" is Path(false, ["a", "", "b", ""]), "/a" is Path(true, ["a"]); the cleaned
      forms "." and "/" are Path(false, []) and Path(true, []). */
  datatype Path = Path(rooted: bool, segs: seq<string>)

  const HASH_DIGITS := 16
  const HASH_LIMIT := 0x1_0000_0000_0000_0000
  type Hash64 = h: nat | h < HASH_LIMIT

  // ---- filepath.Clean, Dir and Base ------------------------------------------

  function CleanSegs(rooted: bool, segs: seq<string>): seq<string> {
    if segs == [] then []
    else
      var out, x := CleanSegs(rooted, segs[..|segs| - 1]), segs[|segs| - 1];
      if x == "" || x == "." then out
      else if x != ".." then out + [x]
      else if out != [] && out[|out| - 1] != ".." then out[..|out| - 1]
      else if rooted then out
      else out + [x]
  }

  /** No empty names and no "."; ".." only at the front, and nowhere in a rooted path. */
  predicate Cleaned(rooted: bool, segs: seq<string>) {
    segs == [] ||
    var init, x := segs[..|segs| - 1], segs[|segs| - 1];
    && Cleaned(rooted, init) && x != "" && x != "."
    && (x == ".." ==> !rooted && (init == [] || init[|init| - 1] == ".."))
  }

  lemma CleanedSnoc(rooted: bool, out: seq<string>, x: string)
    requires Cleaned(rooted, out) && x != "" && x != "."
    requires x == ".." ==> !rooted && (out == [] || out[|out| - 1] == "..")
    ensures Cleaned(rooted, out + [x])
  {
    assert (out + [x])[..|out|] == out;
  }

  /** filepath.Clean: the result is clean, and a clean path stays as it is. */
  lemma {:induction false} CleaningCleans(rooted: bool, segs: seq<string>)
    ensures Cleaned(rooted, CleanSegs(rooted, segs))
    ensures Cleaned(rooted, segs) ==> CleanSegs(rooted, segs) == segs
  {
    if segs != [] {
      var init, x := segs[..|segs| - 1], segs[|segs| - 1];
      var out := CleanSegs(rooted, init);
      CleaningCleans(rooted, init);
      assert segs == init + [x];
      if x != "" && x != "." && !(x == ".." && (rooted || (out != [] && out[|out| - 1] != ".."))) {
        CleanedSnoc(rooted, out, x);
      }
    }
  }

  /** What it removes: empty names, ".", a name before "..", and ".." at the root. */
  lemma CleaningRemoves(rooted: bool, init: seq<string>, x: string)
    requires x != "" && x != "." && x != ".."
    ensures CleanSegs(rooted, init + [""]) == CleanSegs(rooted, init)
    ensures CleanSegs(rooted, init + ["."]) == CleanSegs(rooted, init)
    ensures CleanSegs(rooted, init + [x]) == CleanSegs(rooted, init) + [x]
    ensures CleanSegs(rooted, init + [x] + [".."]) == CleanSegs(rooted, init)
    ensures CleanSegs(true, [".."]) == []
  {
    assert (init + [""])[..|init|] == init && (init + ["."])[..|init|] == init && (init + [x])[..|init|] == init;
    assert (init + [x] + [".."])[..|init| + 1] == init + [x];
    assert [".."][..0] == [];
  }

  function Clean(p: Path): Path {
    Path(p.rooted, CleanSegs(p.rooted, p.segs))
  }

  /** The segments up to the last separator, cleaned. */
  function Dir(p: Path): Path {
    Path(p.rooted, CleanSegs(p.rooted, if p.segs == [] then [] else p.segs[..|p.segs| - 1]))
  }

  function LastName(rooted: bool, segs: seq<string>): string {
    if segs == [] then (if rooted then "/" else ".")
    else if segs[|segs| - 1] == "" then LastName(rooted, segs[..|segs| - 1])
    else segs[|segs| - 1]
  }

  function Base(p: Path): string {
    LastName(p.rooted, p.segs)
  }

  /** A key that is already in Clean form and names a file, not a directory step. */
  predicate FileKey(p: Path) {
    Clean(p) == p && p.segs != [] && p.segs[|p.segs| - 1] != ".."
  }

  // ---- The "%016x" form of a 64-bit hash -------------------------------------

  const DIGITS := "0123456789abcdef"

  function Digits(n: nat, width: nat): (s: string)
    ensures |s| == width
    ensures forall i :: 0 <= i < width ==> s[i] in DIGITS
  {
    if width == 0 then [] else Digits(n / 16, width - 1) + [DIGITS[n % 16]]
  }

  function Hex16(h: Hash64): string {
    Digits(h, HASH_DIGITS)
  }

  function DigitValue(c: char): nat {
    if '0' <= c <= '9' then c as nat - '0' as nat
    else if 'a' <= c <= 'f' then c as nat - 'a' as nat + 10
    else 0
  }

  function ParseHex(s: string): nat {
    if s == [] then 0 else 16 * ParseHex(s[..|s| - 1]) + DigitValue(s[|s| - 1])
  }

  function Pow16(k: nat): nat {
    if k == 0 then 1 else 16 * Pow16(k - 1)
  }

  lemma DigitValueOf(d: nat)
    requires d < 16
    ensures DigitValue(DIGITS[d]) == d
  {
    if d < 8 { if d < 4 {} else {} } else { if d < 12 {} else {} }
  }

  lemma {:induction false} DigitsParse(n: nat, width: nat)
    requires n < Pow16(width)
    ensures ParseHex(Digits(n, width)) == n
  {
    if width > 0 {
      DigitsParse(n / 16, width - 1);
      assert Digits(n, width)[..width - 1] == Digits(n / 16, width - 1);
      DigitValueOf(n % 16);
    }
  }

  /** Formatting a hash loses nothing. */
  lemma HexRoundTrip(h: Hash64)
    ensures ParseHex(Hex16(h)) == h
  {
    assert Pow16(HASH_DIGITS) == HASH_LIMIT by {
      assert Pow16(4) == 0x1_0000;
      assert Pow16(8) == 0x1_0000_0000;
      assert Pow16(12) == 0x1_0000_0000_0000;
    }
    DigitsParse(h, HASH_DIGITS);
  }

  // ---- Temporary names --------------------------------------------------------

  function TempName(base: string, h: Hash64): string {
    "." + base + "." + Hex16(h)
  }

  /** filepath.Join(Dir(key), ".<base>.<hash>"); the "." directory adds no segment. */
  function TempKey(key: Path, h: Hash64): Path {
    Path(key.rooted, Dir(key).segs + [TempName(Base(key), h)])
  }

  /** Where the backend really writes: both of its uses of a key go through Clean. */
  function TempPath(key: Path, h: Hash64): Path {
    Clean(TempKey(key, h))
  }

  /** ".<name>.<16 lower-case hex digits>" with a non-empty name. */
  predicate TempShapedName(s: string) {
    && |s| > HASH_DIGITS + 2
    && s[0] == '.'
    && s[|s| - HASH_DIGITS - 1] == '.'
    && forall i :: |s| - HASH_DIGITS <= i < |s| ==> s[i] in DIGITS
  }

  predicate TempShaped(p: Path) {
    p.segs != [] && TempShapedName(p.segs[|p.segs| - 1])
  }

  lemma {:induction false} CleanShrinks(rooted: bool, segs: seq<string>)
    ensures |CleanSegs(rooted, segs)| <= |segs|
  {
    if segs != [] { CleanShrinks(rooted, segs[..|segs| - 1]); }
  }

  /** The directory of a clean file key is its text before the last separator, and its base
      the text after it. */
  lemma FileKeyParts(key: Path)
    requires FileKey(key)
    ensures Dir(key).segs == key.segs[..|key.segs| - 1]
    ensures Base(key) == key.segs[|key.segs| - 1] && Base(key) != "" && Base(key) != "."
  {
    CleanShrinks(key.rooted, key.segs[..|key.segs| - 1]);
  }

  lemma TempNameParts(base: string, h: Hash64)
    ensures var s := TempName(base, h);
      && |s| == |base| + 18 && s[0] == '.' && s[|s| - 17] == '.'
      && s[1..|s| - 17] == base && s[|s| - 16..] == Hex16(h)
      && (base != "" ==> TempShapedName(s))
  {
  }

  /** The temporary key of a clean file key needs no cleaning and is temp-shaped. */
  lemma TempKeyIsClean(key: Path, h: Hash64)
    requires FileKey(key)
    ensures TempPath(key, h) == TempKey(key, h)
    ensures TempShaped(TempKey(key, h)) && FileKey(TempKey(key, h))
  {
    FileKeyParts(key);
    CleanShrinks(key.rooted, key.segs[..|key.segs| - 1]);
    TempNameParts(Base(key), h);
    var t := TempKey(key, h);
    assert t.segs[..|t.segs| - 1] == key.segs[..|key.segs| - 1];
  }

  lemma TempNameInjective(b1: string, h1: Hash64, b2: string, h2: Hash64)
    requires TempName(b1, h1) == TempName(b2, h2)
    ensures b1 == b2 && h1 == h2
  {
    TempNameParts(b1, h1);
    TempNameParts(b2, h2);
    HexRoundTrip(h1);
    HexRoundTrip(h2);
  }

  /** Two clean file keys share a temporary path only when they are the same key, uploaded
      with the same hash. */
  lemma TempPathInjective(k1: Path, h1: Hash64, k2: Path, h2: Hash64)
    requires FileKey(k1) && FileKey(k2)
    requires TempPath(k1, h1) == TempPath(k2, h2)
    ensures k1 == k2 && h1 == h2
  {
    TempKeyIsClean(k1, h1);
    TempKeyIsClean(k2, h2);
    FileKeyParts(k1);
    FileKeyParts(k2);
    var d1, d2, n1, n2 := Dir(k1).segs, Dir(k2).segs, TempName(Base(k1), h1), TempName(Base(k2), h2);
    assert d1 + [n1] == d2 + [n2];
    assert (d1 + [n1])[|d1|] == n1 && (d2 + [n2])[|d2|] == n2 && |d1| == |d2|;
    assert (d1 + [n1])[..|d1|] == d1 && (d2 + [n2])[..|d2|] == d2;
    TempNameInjective(Base(k1), h1, Base(k2), h2);
    assert k1.segs == d1 + [Base(k1)] && k2.segs == d2 + [Base(k2)];
  }

  /** The temporary file lies beside its target. */
  lemma TempKeyIsBeside(key: Path, h: Hash64)
    requires FileKey(key)
    ensures var n := |key.segs| - 1;
      TempKey(key, h) == Path(key.rooted, key.segs[..n] + ["." + key.segs[n] + "." + Hex16(h)])
  {
    FileKeyParts(key);
    hide CleanSegs, Digits;
  }
}
