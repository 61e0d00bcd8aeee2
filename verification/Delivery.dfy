// Delivery of files into a sandbox's workspace (internal/sandbox/filedelivery.go). Host paths
// are absolute; a path is its list of components, a file system the content of its regular
// files. Writing under the delivery directory is taken to succeed.

module Delivery {
  import opened Common
  import opened Paths
  import opened Text

  const SANDBOX_GENERATED_DIR: Path := ["workspace", "generated"]

  // ---------------------------------------------------------------- paths

  /** filepath.Clean of an absolute path given by its components. */
  function Clean(raw: seq<string>): Path {
    if raw == [] then []
    else
      var before, last := Clean(raw[..|raw| - 1]), raw[|raw| - 1];
      if last == "" || last == "." then before
      else if last == ".." then (if before == [] then [] else before[..|before| - 1])
      else before + [last]
  }

  function CommonPrefix(a: Path, b: Path): nat {
    if a == [] || b == [] || a[0] != b[0] then 0 else 1 + CommonPrefix(a[1..], b[1..])
  }

  function Ups(n: nat): seq<string> {
    if n == 0 then [] else [".."] + Ups(n - 1)
  }

  /** filepath.Rel of two cleaned absolute paths; the empty result stands for ".". */
  function Rel(base: Path, target: Path): seq<string> {
    var k := CommonPrefix(base, target);
    if k <= |base| && k <= |target| then Ups(|base| - k) + target[k..] else []
  }

  /** alreadyUnder: the relative path is not ".." and does not begin with "../". */
  predicate AlreadyUnder(src: Path, hostDir: Path) {
    var rel := Rel(hostDir, src);
    rel == [] || rel[0] != ".."
  }

  predicate Cleaned(p: Path) {
    forall c <- p :: c != ".." && c != "." && c != ""
  }

  lemma PrefixCleaned(p: Path, n: nat)
    requires Cleaned(p) && n <= |p|
    ensures Cleaned(p[..n])
  {
    assert forall c <- p[..n] :: c in p;
  }

  lemma {:induction false} CleanIsCleaned(raw: seq<string>)
    ensures Cleaned(Clean(raw))
  {
    if raw != [] {
      var before, last := Clean(raw[..|raw| - 1]), raw[|raw| - 1];
      CleanIsCleaned(raw[..|raw| - 1]);
      if last == "" || last == "." {
        assert Clean(raw) == before;
      } else if last == ".." {
        if before != [] {
          PrefixCleaned(before, |before| - 1);
        }
      } else {
        assert Clean(raw) == before + [last];
      }
    }
  }

  /** A clean path is cleaned to itself. */
  lemma {:induction false} CleanedIsFixed(p: Path)
    requires Cleaned(p)
    ensures Clean(p) == p
  {
    if p != [] {
      var last := p[|p| - 1];
      assert last in p;
      PrefixCleaned(p, |p| - 1);
      CleanedIsFixed(p[..|p| - 1]);
    }
  }

  /** What precedes can be cleaned on its own. */
  lemma {:induction false} CleanInTwoParts(a: seq<string>, b: seq<string>)
    ensures Clean(a + b) == Clean(Clean(a) + b)
    decreases |b|
  {
    if b == [] {
      assert a + b == a && Clean(a) + b == Clean(a);
      CleanIsCleaned(a);
      CleanedIsFixed(Clean(a));
    } else {
      assert (a + b)[..|a + b| - 1] == a + b[..|b| - 1];
      assert (Clean(a) + b)[..|Clean(a) + b| - 1] == Clean(a) + b[..|b| - 1];
      CleanInTwoParts(a, b[..|b| - 1]);
    }
  }

  lemma CleanSnoc(a: seq<string>, x: string)
    ensures Clean(a + [x]) ==
      if x == "" || x == "." then Clean(a)
      else if x == ".." then (if Clean(a) == [] then [] else Clean(a)[..|Clean(a)| - 1])
      else Clean(a) + [x]
  {
    assert (a + [x])[..|a|] == a;
  }

  lemma SameBefore(a: seq<string>, a': seq<string>, b: seq<string>)
    requires Clean(a) == Clean(a')
    ensures Clean(a + b) == Clean(a' + b)
  {
    CleanInTwoParts(a, b);
    CleanInTwoParts(a', b);
  }

  /**
   * Where a path leads: an empty component and "." lead nowhere, ".." takes back the name
   * before it and stays at the root. With CleanedIsFixed this determines every path.
   */
  lemma CleanRules(a: seq<string>, name: string, b: seq<string>)
    ensures Clean(a + [""] + b) == Clean(a + ["."] + b) == Clean(a + b)
    ensures Cleaned([name]) ==> Clean(a + [name] + [".."] + b) == Clean(a + b)
    ensures Clean([".."] + b) == Clean(b)
  {
    CleanSnoc(a, "");
    CleanSnoc(a, ".");
    SameBefore(a + [""], a, b);
    SameBefore(a + ["."], a, b);
    if Cleaned([name]) {
      assert name in [name];
      CleanSnoc(a, name);
      CleanSnoc(a + [name], "..");
      assert (Clean(a) + [name])[..|Clean(a)|] == Clean(a);
      SameBefore(a + [name] + [".."], a, b);
    }
    CleanSnoc([], "..");
    assert [] + [".."] == [".."] && [] + b == b;
    SameBefore([".."], [], b);
  }

  lemma {:induction false} CommonPrefixIsOne(a: Path, b: Path)
    ensures CommonPrefix(a, b) <= |a| && CommonPrefix(a, b) <= |b|
    ensures CommonPrefix(a, b) == |a| <==> a <= b
  {
    if a != [] && b != [] && a[0] == b[0] {
      CommonPrefixIsOne(a[1..], b[1..]);
      if a[1..] <= b[1..] {
        assert a == [a[0]] + a[1..] && b == [b[0]] + b[1..];
      }
      if a <= b {
        assert a[1..] <= b[1..];
      }
    }
  }

  /** That check finds exactly the delivery directory and what lies inside it. */
  lemma UnderIffInside(src: Path, hostDir: Path)
    requires Cleaned(src)
    ensures AlreadyUnder(src, hostDir) <==> hostDir <= src
  {
    var k := CommonPrefix(hostDir, src);
    CommonPrefixIsOne(hostDir, src);
    if k == |hostDir| {
      assert Rel(hostDir, src) == src[k..];
      if src[k..] != [] {
        assert src[k] in src;
      }
    } else {
      assert Rel(hostDir, src)[0] == "..";
    }
  }

  // ---------------------------------------------------------------- a free name

  /** Where filepath.Ext begins: the last '.', or the end. */
  function ExtAt(base: string): (n: nat)
    ensures n <= |base|
  {
    if base == [] then 0
    else if base[|base| - 1] == '.' then |base| - 1
    else
      var n := ExtAt(base[..|base| - 1]);
      if n == |base| - 1 then |base| else n
  }

  /** base with -n before its extension. */
  function Candidate(base: string, n: nat): string {
    base[..ExtAt(base)] + ['-'] + Decimal(n) + base[ExtAt(base)..]
  }

  lemma {:induction false} ExtIsAfterLastDot(stem: string, ext: string)
    requires '.' !in ext
    ensures ExtAt(stem + ['.'] + ext) == |stem|
    decreases |ext|
  {
    var base := stem + ['.'] + ext;
    if ext != [] {
      var init := ext[..|ext| - 1];
      assert base[..|base| - 1] == stem + ['.'] + init && base[|base| - 1] == ext[|ext| - 1];
      assert ext[|ext| - 1] in ext && forall c <- init :: c in ext;
      ExtIsAfterLastDot(stem, init);
    }
  }

  lemma {:induction false} NoDotNoExt(base: string)
    requires '.' !in base
    ensures ExtAt(base) == |base|
  {
    if base != [] {
      var init := base[..|base| - 1];
      assert base[|base| - 1] in base && forall c <- init :: c in base;
      NoDotNoExt(init);
    }
  }

  /** The number stands before the extension, or at the end of a name without one. */
  lemma CandidateIsNumbered(stem: string, ext: string, n: nat)
    requires '.' !in ext
    ensures Candidate(stem + ['.'] + ext, n) == stem + "-" + Decimal(n) + "." + ext
    ensures '.' !in stem ==> Candidate(stem, n) == stem + "-" + Decimal(n)
  {
    var base := stem + ['.'] + ext;
    ExtIsAfterLastDot(stem, ext);
    assert base[..|stem|] == stem && base[|stem|..] == ['.'] + ext;
    if '.' !in stem {
      NoDotNoExt(stem);
      assert stem[..|stem|] == stem && stem[|stem|..] == [];
    }
  }

  lemma CandidateInjective(base: string, m: nat, n: nat)
    requires Candidate(base, m) == Candidate(base, n)
    ensures m == n
  {
    var stem, ext := base[..ExtAt(base)] + ['-'], base[ExtAt(base)..];
    var a, b := Candidate(base, m), Candidate(base, n);
    assert a == stem + Decimal(m) + ext && b == stem + Decimal(n) + ext;
    assert Decimal(m) == a[|stem|..|a| - |ext|];
    assert Decimal(n) == b[|stem|..|b| - |ext|];
    DecimalInjective(m, n);
  }

  function Candidates(base: string, n: nat): set<string> {
    if n == 0 then {} else Candidates(base, n - 1) + {Candidate(base, n)}
  }

  lemma {:induction false} CandidatesAreNumbered(base: string, n: nat, s: string) returns (k: nat)
    requires s in Candidates(base, n)
    ensures 1 <= k <= n && s == Candidate(base, k)
  {
    if s == Candidate(base, n) {
      k := n;
    } else {
      k := CandidatesAreNumbered(base, n - 1, s);
    }
  }

  lemma CandidateIsNew(base: string, n: nat)
    requires n > 0
    ensures Candidate(base, n) !in Candidates(base, n - 1)
  {
    if Candidate(base, n) in Candidates(base, n - 1) {
      var k := CandidatesAreNumbered(base, n - 1, Candidate(base, n));
      CandidateInjective(base, n, k);
    }
  }

  /** Different numbers give different names, so n candidates are n names. */
  lemma {:induction false} CountCandidates(base: string, n: nat)
    ensures |Candidates(base, n)| == n
  {
    if n > 0 {
      CountCandidates(base, n - 1);
      CandidateIsNew(base, n);
    }
  }

  lemma {:induction false} CandidatesTaken(base: string, used: set<string>, n: nat)
    requires forall k: nat :: 1 <= k <= n ==> Candidate(base, k) in used
    ensures Candidates(base, n) <= used
  {
    if n > 0 {
      CandidatesTaken(base, used, n - 1);
    }
  }

  lemma SubsetIsNoLarger<T>(a: set<T>, b: set<T>)
    requires a <= b
    ensures |a| <= |b|
  {
    assert b == a + (b - a);
  }

  predicate TakenBelow(base: string, used: set<string>, n: nat) {
    forall k: nat :: 1 <= k < n ==> Candidate(base, k) in used
  }

  /** base if it is free, else the free candidate with the least number. */
  ghost predicate IsUniqueBase(r: string, base: string, used: set<string>) {
    && r !in used
    && (base !in used ==> r == base)
    && (base in used ==> exists n: nat :: 1 <= n && r == Candidate(base, n) && TakenBelow(base, used, n))
  }

  /** Pigeonhole: at most |used| candidates can be taken. */
  lemma FewAreTaken(base: string, used: set<string>, n: nat)
    requires 1 <= n && TakenBelow(base, used, n)
    ensures n <= |used| + 1
  {
    CountCandidates(base, n - 1);
    CandidatesTaken(base, used, n - 1);
    SubsetIsNoLarger(Candidates(base, n - 1), used);
  }

  /** There is exactly one such name; FreeFrom counts up to it. */
  ghost function UniqueName(base: string, used: set<string>): (r: string)
    ensures IsUniqueBase(r, base, used)
  {
    if base !in used then base else Candidate(base, FreeFrom(base, used, 1))
  }

  ghost function FreeFrom(base: string, used: set<string>, n: nat): (m: nat)
    requires 1 <= n && TakenBelow(base, used, n)
    ensures 1 <= m && Candidate(base, m) !in used && TakenBelow(base, used, m)
    decreases |used| + 1 - n
  {
    if Candidate(base, n) !in used then n
    else
      FewAreTaken(base, used, n + 1);
      FreeFrom(base, used, n + 1)
  }

  lemma UniqueNameIsUnique(r: string, base: string, used: set<string>)
    requires IsUniqueBase(r, base, used)
    ensures r == UniqueName(base, used)
  {}

  method UniqueBase(base: string, used: set<string>) returns (r: string)
    ensures IsUniqueBase(r, base, used) && r == UniqueName(base, used)
  {
    if base !in used {
      return base;
    }
    var i: nat := 1;
    while true
      invariant 1 <= i && TakenBelow(base, used, i)
      decreases |used| + 1 - i
    {
      var cand := Candidate(base, i);
      FewAreTaken(base, used, i);
      if cand !in used {
        UniqueNameIsUnique(cand, base, used);
        return cand;
      }
      FewAreTaken(base, used, i + 1);
      i := i + 1;
    }
  }

  // ---------------------------------------------------------------- the run

  /** The names in the delivery directory given to sources so far, the files, and whether a copy failed. */
  datatype Progress<C> = Progress(names: map<Path, string>, fs: map<Path, C>, failed: bool)

  function InHostDir(hostDir: Path, name: string): Path {
    hostDir + [name]
  }

  /**
   * One source more: nothing after a failure or if it came before, its own base if it is
   * inside, else a copy, which fails if the source is not there.
   */
  ghost function OneMore<C>(p: Progress<C>, src: Path, hostDir: Path): Progress<C> {
    if p.failed || src in p.names then p
    else if hostDir <= src then p.(names := p.names[src := Base(src)])
    else if src !in p.fs then p.(failed := true)
    else
      var name := UniqueName(Base(src), p.names.Values);
      Progress(p.names[src := name], p.fs[InHostDir(hostDir, name) := p.fs[src]], false)
  }

  ghost function After<C>(srcs: seq<Path>, hostDir: Path, fs: map<Path, C>): Progress<C> {
    if srcs == [] then Progress(map[], fs, false)
    else OneMore(After(srcs[..|srcs| - 1], hostDir, fs), srcs[|srcs| - 1], hostDir)
  }

  function Cleans(raw: seq<seq<string>>): seq<Path> {
    seq(|raw|, i requires 0 <= i < |raw| => Clean(raw[i]))
  }

  function SandboxPaths(names: map<Path, string>): map<Path, Path> {
    map src | src in names :: SANDBOX_GENERATED_DIR + [names[src]]
  }

  /** Deliver; no delivery directory for an unknown parent or one without a workspace. */
  method Deliver<C>(raw: seq<seq<string>>, deliveryDir: Option<Path>, fs: map<Path, C>)
    returns (out: Option<map<Path, Path>>, fs': map<Path, C>)
    ensures deliveryDir.None? ==> out == None && fs' == fs
    ensures deliveryDir.Some? ==>
      var p := After(Cleans(raw), deliveryDir.value, fs);
      fs' == p.fs && out == if p.failed then None else Some(SandboxPaths(p.names))
  {
    fs' := fs;
    if deliveryDir.None? {
      return None, fs;
    }
    var hostDir := deliveryDir.value;
    var names: map<Path, string> := map[];
    ghost var srcs := Cleans(raw);
    for i := 0 to |raw|
      invariant After(srcs[..i], hostDir, fs) == Progress(names, fs', false)
    {
      assert srcs[..i + 1][..i] == srcs[..i];
      CleanIsCleaned(raw[i]);
      var ok;
      ok, names, fs' := DeliverOne(names, fs', Clean(raw[i]), hostDir);
      if !ok {
        FailedForEver(srcs, i + 1, hostDir, fs);
        return None, fs';
      }
    }
    assert srcs[..|raw|] == srcs;
    out := Some(SandboxPaths(names));
  }

  /** The body of the loop; not ok is an error from copyFile. */
  method DeliverOne<C>(names: map<Path, string>, fs: map<Path, C>, src: Path, hostDir: Path)
    returns (ok: bool, names': map<Path, string>, fs': map<Path, C>)
    requires Cleaned(src)
    ensures OneMore(Progress(names, fs, false), src, hostDir) == Progress(names', fs', !ok)
  {
    ok, names', fs' := true, names, fs;
    if src in names {
      return;
    }
    var base := Base(src);
    UnderIffInside(src, hostDir);
    if AlreadyUnder(src, hostDir) {
      names' := names[src := base];
      return;
    }
    var dstBase := UniqueBase(base, names.Values);
    if src !in fs {
      ok := false;
      return;
    }
    fs' := fs[InHostDir(hostDir, dstBase) := fs[src]];
    names' := names[src := dstBase];
  }

  lemma {:induction false} FailedForEver<C>(srcs: seq<Path>, i: nat, hostDir: Path, fs: map<Path, C>)
    requires i <= |srcs| && After(srcs[..i], hostDir, fs).failed
    ensures After(srcs, hostDir, fs) == After(srcs[..i], hostDir, fs)
    decreases |srcs| - i
  {
    if i == |srcs| {
      assert srcs[..i] == srcs;
    } else {
      assert srcs[..i + 1][..i] == srcs[..i];
      FailedForEver(srcs, i + 1, hostDir, fs);
    }
  }

  // ---------------------------------------------------------------- what is delivered

  /** Outside the directory the files are as they were. */
  ghost predicate SameOutside<C>(fs: map<Path, C>, fs': map<Path, C>, hostDir: Path) {
    forall q: Path :: !(hostDir <= q) ==> (q in fs' <==> q in fs) && (q in fs ==> fs'[q] == fs[q])
  }

  lemma OneMoreKeysAndFrame<C>(p: Progress<C>, src: Path, hostDir: Path)
    ensures var p' := OneMore(p, src, hostDir);
      && SameOutside(p.fs, p'.fs, hostDir) && (p.failed ==> p'.failed)
      && (!p'.failed ==> p'.names.Keys == p.names.Keys + {src})
  {
    var p' := OneMore(p, src, hostDir);
    if src in p'.names {
      assert hostDir <= InHostDir(hostDir, p'.names[src]);
    }
  }

  /** The keys are exactly the cleaned sources; files outside the directory are untouched, also on failure. */
  lemma {:induction false} KeysAndFrame<C>(srcs: seq<Path>, hostDir: Path, fs: map<Path, C>)
    ensures var p := After(srcs, hostDir, fs);
      SameOutside(fs, p.fs, hostDir) && (!p.failed ==> p.names.Keys == set s | s in srcs)
  {
    if srcs != [] {
      var init, last := srcs[..|srcs| - 1], srcs[|srcs| - 1];
      assert srcs == init + [last];
      KeysAndFrame(init, hostDir, fs);
      OneMoreKeysAndFrame(After(init, hostDir, fs), last, hostDir);
    }
  }

  /** Delivery fails exactly when a source outside the directory is not there. */
  lemma {:induction false} FailsIffMissing<C>(srcs: seq<Path>, hostDir: Path, fs: map<Path, C>)
    ensures After(srcs, hostDir, fs).failed <==> exists s <- srcs :: !(hostDir <= s) && s !in fs
  {
    if srcs != [] {
      var init, last := srcs[..|srcs| - 1], srcs[|srcs| - 1];
      assert srcs == init + [last];
      FailsIffMissing(init, hostDir, fs);
      KeysAndFrame(init, hostDir, fs);
    }
  }

  /** Base name of the source, or that with a number before its extension. */
  ghost predicate NamedAfter(name: string, s: Path) {
    name == Base(s) || exists n: nat :: 1 <= n && name == Candidate(Base(s), n)
  }

  /**
   * Every name given away is its source's own base, or that with a number, and the latter only
   * for a source outside the directory whose base is the name of another source.
   */
  lemma {:induction false} NamesComeFromBases<C>(srcs: seq<Path>, hostDir: Path, fs: map<Path, C>, s: Path)
    requires s in After(srcs, hostDir, fs).names
    ensures var names := After(srcs, hostDir, fs).names;
      && NamedAfter(names[s], s)
      && (names[s] != Base(s) ==> !(hostDir <= s) && exists t <- names :: t != s && names[t] == Base(s))
  {
    var init, last := srcs[..|srcs| - 1], srcs[|srcs| - 1];
    var p, p' := After(init, hostDir, fs), After(srcs, hostDir, fs);
    if s in p.names {
      NamesComeFromBases(init, hostDir, fs, s);
      if p.names[s] != Base(s) {
        var t :| t in p.names && t != s && p.names[t] == Base(s);
        assert t in p'.names && p'.names[t] == Base(s);
      }
    } else if p'.names[s] != Base(s) {
      var t :| t in p.names && p.names[t] == Base(s);
      assert t in p'.names && p'.names[t] == Base(s);
    }
  }

  predicate Injective(names: map<Path, string>) {
    forall s, t :: s in names && t in names && s != t ==> names[s] != names[t]
  }

  /** The i-th source is inside the directory, new, and its base was already given away. */
  ghost predicate TakenAt<C>(srcs: seq<Path>, i: nat, hostDir: Path, fs: map<Path, C>) {
    && i < |srcs| && hostDir <= srcs[i] && srcs[i] !in srcs[..i]
    && Base(srcs[i]) in After(srcs[..i], hostDir, fs).names.Values
  }

  ghost predicate SomeTaken<C>(srcs: seq<Path>, hostDir: Path, fs: map<Path, C>) {
    exists i: nat :: TakenAt(srcs, i, hostDir, fs)
  }

  lemma TakenInPrefix<C>(srcs: seq<Path>, i: nat, n: nat, hostDir: Path, fs: map<Path, C>)
    requires i < n <= |srcs|
    ensures TakenAt(srcs[..n], i, hostDir, fs) <==> TakenAt(srcs, i, hostDir, fs)
  {
    assert srcs[..n][..i] == srcs[..i];
  }

  /**
   * No two sources share a sandbox path if and only if no source inside the directory finds
   * its base already given to an earlier source.
   */
  lemma {:induction false} DistinctIffNoneTaken<C>(srcs: seq<Path>, hostDir: Path, fs: map<Path, C>)
    requires !After(srcs, hostDir, fs).failed
    ensures Injective(After(srcs, hostDir, fs).names) <==> !SomeTaken(srcs, hostDir, fs)
  {
    if srcs != [] {
      var n := |srcs| - 1;
      var init, last := srcs[..n], srcs[n];
      var p, p' := After(init, hostDir, fs), After(srcs, hostDir, fs);
      KeysAndFrame(init, hostDir, fs);
      DistinctIffNoneTaken(init, hostDir, fs);
      forall i: nat | i < n ensures TakenAt(init, i, hostDir, fs) <==> TakenAt(srcs, i, hostDir, fs) {
        TakenInPrefix(srcs, i, n, hostDir, fs);
      }
      assert SomeTaken(srcs, hostDir, fs) <==> SomeTaken(init, hostDir, fs) || TakenAt(srcs, n, hostDir, fs);
      if last !in p.names {
        InjectiveSnoc(p.names, last, p'.names[last]);
      }
    }
  }

  lemma InjectiveSnoc(names: map<Path, string>, src: Path, name: string)
    requires src !in names
    ensures Injective(names[src := name]) <==> Injective(names) && name !in names.Values
  {
    var more := names[src := name];
    if !Injective(names) {
      var s, t :| s in names && t in names && s != t && names[s] == names[t];
      assert more[s] == more[t];
    }
    if name in names.Values {
      var s :| s in names && names[s] == name;
      assert more[s] == more[src];
    }
  }

  /** A source outside the directory or lying directly in it, whose name there is its own. */
  predicate HasPlace(s: Path, hostDir: Path) {
    hostDir <= s ==> |s| == |hostDir| + 1
  }

  /** A source inside the directory is at the path it is given if and only if it lies directly in it. */
  lemma InsidePlaceIffDirect(s: Path, hostDir: Path)
    requires hostDir <= s
    ensures InHostDir(hostDir, Base(s)) == s <==> HasPlace(s, hostDir)
  {}

  /** Every source that has a place has its own content there. */
  ghost predicate Intact<C>(p: Progress<C>, hostDir: Path, fs: map<Path, C>) {
    forall s <- p.names :: s in fs && HasPlace(s, hostDir) ==>
      InHostDir(hostDir, p.names[s]) in p.fs && p.fs[InHostDir(hostDir, p.names[s])] == fs[s]
  }

  /** Names not given away are names of files as they were. */
  ghost predicate FreeNamesUntouched<C>(p: Progress<C>, hostDir: Path, fs: map<Path, C>) {
    forall name :: name !in p.names.Values ==>
      && (InHostDir(hostDir, name) in p.fs <==> InHostDir(hostDir, name) in fs)
      && (InHostDir(hostDir, name) in fs ==> p.fs[InHostDir(hostDir, name)] == fs[InHostDir(hostDir, name)])
  }

  lemma SameName(hostDir: Path, a: string, b: string)
    requires InHostDir(hostDir, a) == InHostDir(hostDir, b)
    ensures a == b
  {
    assert InHostDir(hostDir, a)[|hostDir|] == InHostDir(hostDir, b)[|hostDir|];
  }

  lemma ValuesGrow(names: map<Path, string>, src: Path, name: string)
    requires src !in names
    ensures names[src := name].Values == names.Values + {name}
  {
    var more := names[src := name];
    assert more[src] == name;
    forall v | v in names.Values ensures v in more.Values {
      var s :| s in names && names[s] == v;
      assert more[s] == v;
    }
  }

  lemma CopyKeepsIntact<C>(p: Progress<C>, src: Path, name: string, hostDir: Path, fs: map<Path, C>)
    requires Intact(p, hostDir, fs) && src !in p.names && name !in p.names.Values && src in fs
    ensures Intact(Progress(p.names[src := name], p.fs[InHostDir(hostDir, name) := fs[src]], false), hostDir, fs)
  {
    forall s | s in p.names && InHostDir(hostDir, p.names[s]) == InHostDir(hostDir, name) ensures false {
      assert p.names[s] in p.names.Values;
      SameName(hostDir, p.names[s], name);
    }
  }

  lemma CopyKeepsFree<C>(p: Progress<C>, src: Path, name: string, hostDir: Path, fs: map<Path, C>)
    requires FreeNamesUntouched(p, hostDir, fs) && src !in p.names && src in fs
    ensures var p' := Progress(p.names[src := name], p.fs[InHostDir(hostDir, name) := fs[src]], false);
      FreeNamesUntouched(p', hostDir, fs)
  {
    ValuesGrow(p.names, src, name);
    forall other | other != name ensures InHostDir(hostDir, other) != InHostDir(hostDir, name) {
      if InHostDir(hostDir, other) == InHostDir(hostDir, name) {
        SameName(hostDir, other, name);
      }
    }
  }

  lemma InsideKeepsIntact<C>(p: Progress<C>, src: Path, hostDir: Path, fs: map<Path, C>)
    requires Intact(p, hostDir, fs) && FreeNamesUntouched(p, hostDir, fs)
    requires src !in p.names && Base(src) !in p.names.Values && hostDir <= src
    ensures var p' := p.(names := p.names[src := Base(src)]);
      Intact(p', hostDir, fs) && FreeNamesUntouched(p', hostDir, fs)
  {
    InsidePlaceIffDirect(src, hostDir);
    ValuesGrow(p.names, src, Base(src));
  }

  lemma OneMoreIntact<C>(p: Progress<C>, src: Path, hostDir: Path, fs: map<Path, C>)
    requires Intact(p, hostDir, fs) && FreeNamesUntouched(p, hostDir, fs) && SameOutside(fs, p.fs, hostDir)
    requires src !in p.names && hostDir <= src ==> Base(src) !in p.names.Values
    ensures Intact(OneMore(p, src, hostDir), hostDir, fs) && FreeNamesUntouched(OneMore(p, src, hostDir), hostDir, fs)
  {
    if p.failed || src in p.names {
    } else if hostDir <= src {
      InsideKeepsIntact(p, src, hostDir, fs);
    } else if src in p.fs {
      CopyKeepsIntact(p, src, UniqueName(Base(src), p.names.Values), hostDir, fs);
      CopyKeepsFree(p, src, UniqueName(Base(src), p.names.Values), hostDir, fs);
    }
  }

  /** With no base taken, no copy overwrites another copy or a delivered file. */
  lemma {:induction false} DeliveredIntact<C>(srcs: seq<Path>, hostDir: Path, fs: map<Path, C>)
    requires !After(srcs, hostDir, fs).failed && !SomeTaken(srcs, hostDir, fs)
    ensures Intact(After(srcs, hostDir, fs), hostDir, fs)
    ensures FreeNamesUntouched(After(srcs, hostDir, fs), hostDir, fs)
  {
    if srcs != [] {
      var n := |srcs| - 1;
      var init, last := srcs[..n], srcs[n];
      forall i: nat | i < n ensures !TakenAt(init, i, hostDir, fs) {
        TakenInPrefix(srcs, i, n, hostDir, fs);
      }
      DeliveredIntact(init, hostDir, fs);
      KeysAndFrame(init, hostDir, fs);
      assert !TakenAt(srcs, n, hostDir, fs);
      OneMoreIntact(After(init, hostDir, fs), last, hostDir, fs);
    }
  }

  predicate OnePathEach(paths: map<Path, Path>) {
    forall s, t :: s in paths && t in paths && s != t ==> paths[s] != paths[t]
  }

  lemma SandboxPathsDistinct(names: map<Path, string>)
    ensures OnePathEach(SandboxPaths(names)) <==> Injective(names)
  {
    var paths := SandboxPaths(names);
    forall s, t | s in names && t in names ensures paths[s] == paths[t] <==> names[s] == names[t] {
      assert paths[s][2] == names[s] && paths[t][2] == names[t];
    }
    if Injective(names) {
      forall s, t | s in paths && t in paths && s != t ensures paths[s] != paths[t] {
        assert names[s] != names[t];
      }
    } else {
      var s, t :| s in names && t in names && s != t && names[s] == names[t];
      assert paths[s] == paths[t];
    }
  }

  /**
   * Of sources outside the delivery directory each gets a sandbox path of its own, directly
   * below /workspace/generated, and has its own content there in the end.
   */
  lemma OutsideSourcesDelivered<C>(srcs: seq<Path>, hostDir: Path, fs: map<Path, C>)
    requires forall s <- srcs :: !(hostDir <= s) && s in fs
    ensures var p := After(srcs, hostDir, fs);
      && !p.failed && SandboxPaths(p.names).Keys == (set s | s in srcs) && OnePathEach(SandboxPaths(p.names))
      && (forall s <- p.names :: SandboxPaths(p.names)[s] == ["workspace", "generated", p.names[s]])
      && Intact(p, hostDir, fs)
  {
    FailsIffMissing(srcs, hostDir, fs);
    KeysAndFrame(srcs, hostDir, fs);
    NoneInsideNoneTaken(srcs, hostDir, fs);
    DistinctIffNoneTaken(srcs, hostDir, fs);
    DeliveredIntact(srcs, hostDir, fs);
    SandboxPathsDistinct(After(srcs, hostDir, fs).names);
  }

  lemma NoneInsideNoneTaken<C>(srcs: seq<Path>, hostDir: Path, fs: map<Path, C>)
    requires forall s <- srcs :: !(hostDir <= s)
    ensures !SomeTaken(srcs, hostDir, fs)
  {
    forall i: nat | i < |srcs| ensures !(hostDir <= srcs[i]) {
      assert srcs[i] in srcs;
    }
  }

  /** A copied file and a later one already inside with its base: one path, and the latter is lost. */
  lemma MixedSourcesCollide<C>(hostDir: Path, elsewhere: Path, fs: map<Path, C>)
    requires elsewhere != [] && !(hostDir <= elsewhere) && elsewhere in fs
    ensures var there := InHostDir(hostDir, Base(elsewhere));
      After([elsewhere, there], hostDir, fs)
      == Progress(map[elsewhere := Base(elsewhere), there := Base(elsewhere)], fs[there := fs[elsewhere]], false)
  {
    var there := InHostDir(hostDir, Base(elsewhere));
    var one, two := [elsewhere], [elsewhere, there];
    assert one[..0] == [] && two[..1] == one;
    assert hostDir <= there && there != elsewhere;
    assert After(one, hostDir, fs) == OneMore(Progress(map[], fs, false), elsewhere, hostDir);
    assert After(one, hostDir, fs) == Progress(map[elsewhere := Base(elsewhere)], fs[there := fs[elsewhere]], false);
  }

  /** A file deeper inside is given a path of the directory itself, where it is not and nothing is put. */
  lemma NestedSourceMisplaced<C>(hostDir: Path, src: Path, fs: map<Path, C>)
    requires hostDir <= src && src in fs && InHostDir(hostDir, Base(src)) !in fs
    ensures var p := After([src], hostDir, fs);
      !p.failed && p.fs == fs && p.names == map[src := Base(src)] && InHostDir(hostDir, p.names[src]) !in p.fs
    ensures !HasPlace(src, hostDir)
  {
    var one := [src];
    assert one[..0] == [];
    InsidePlaceIffDirect(src, hostDir);
  }
}
