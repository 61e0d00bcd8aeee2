// The files a run leaves under its output directory and what a walk over them visits
// (internal/sandbox/results.go, usagereport.go). A node is named by the child names leading
// to it, so <root>/child/a/child/b is the path ["a", "b"]. Files are already parsed.

module OutputTree {
  import opened Common
  import opened Paths
  import opened Tracker

  /** usage.json: the proxy's snapshot. */
  datatype UsageJson = UsageJson(costUSD: real, perModel: map<string, real>, parseErrors: int, noUsageBlock: int)

  /** results.json, as far as roll-ups read it. */
  datatype Results = Results(
    name: string, depth: int, ownUSD: real, totalUSD: real, children: seq<string>, tokens: map<string, TokenTotals>)

  /** The four files of a node; the log holds the lines that parsed, attribution maps request to agent. */
  datatype Files = Files(
    usage: Option<UsageJson>, log: Option<seq<Record>>, attribution: Option<map<string, string>>,
    results: Option<Results>)

  const NO_FILES := Files(None, None, None, None)

  type Disk = map<Path, Files>

  function At(d: Disk, p: Path): Files {
    if p in d then d[p] else NO_FILES
  }

  function Child(p: Path, name: string): Path {
    p + [name]
  }

  function Log(d: Disk, p: Path): seq<Record> {
    if At(d, p).log.Some? then At(d, p).log.value else []
  }

  function NodeCost(d: Disk, p: Path): real {
    if At(d, p).usage.Some? then At(d, p).usage.value.costUSD else 0.0
  }

  function ListedChildren(d: Disk, p: Path): seq<string> {
    if At(d, p).results.Some? then At(d, p).results.value.children else []
  }

  /** The part of the disk at or below p; it shrinks on the way down. */
  function Under(d: Disk, p: Path): set<Path> {
    set q | q in d && p <= q
  }

  lemma UnderShrinks(d: Disk, p: Path, name: string)
    requires p in d
    ensures Under(d, Child(p, name)) < Under(d, p)
  {
    assert p <= p && p in Under(d, p) && p !in Under(d, Child(p, name));
    forall q | q in Under(d, Child(p, name)) ensures q in Under(d, p) {
      assert p == Child(p, name)[..|p|] == q[..|p|];
    }
  }

  /** The nodes a full walk visits, in order: p, then the children its results.json lists. */
  function Visits(d: Disk, p: Path): seq<Path>
    decreases Under(d, p), 1, 0
  {
    if ListedChildren(d, p) == [] then [p] else [p] + VisitsAll(d, p, ListedChildren(d, p))
  }

  function VisitsAll(d: Disk, p: Path, names: seq<string>): seq<Path>
    requires p in d
    decreases Under(d, p), 0, |names|
  {
    if names == [] then []
    else
      UnderShrinks(d, p, names[|names| - 1]);
      VisitsAll(d, p, names[..|names| - 1]) + Visits(d, Child(p, names[|names| - 1]))
  }

  // ---------------------------------------------------------------- sums over visited nodes

  function TreeCost(d: Disk, ps: seq<Path>): real {
    if ps == [] then 0.0 else TreeCost(d, ps[..|ps| - 1]) + NodeCost(d, ps[|ps| - 1])
  }

  function Logs(d: Disk, ps: seq<Path>): seq<Record> {
    if ps == [] then [] else Logs(d, ps[..|ps| - 1]) + Log(d, ps[|ps| - 1])
  }

  lemma {:induction false} LogsAppend(d: Disk, a: seq<Path>, b: seq<Path>)
    ensures Logs(d, a + b) == Logs(d, a) + Logs(d, b)
    decreases |b|
  {
    if b == [] {
      assert a + b == a;
    } else {
      assert (a + b)[..|a + b| - 1] == a + b[..|b| - 1];
      LogsAppend(d, a, b[..|b| - 1]);
    }
  }

  // ---------------------------------------------------------------- per-model token maps

  type PerModel = map<string, TokenTotals>

  function TokensOf(pm: PerModel, m: string): TokenTotals {
    if m in pm then pm[m] else NO_TOKENS
  }

  /** Model by model; a model counts as soon as either side has it. */
  function Merge(a: PerModel, b: PerModel): PerModel {
    map m | m in a.Keys + b.Keys :: Plus(TokensOf(a, m), TokensOf(b, m))
  }

  /** The entries of b a loop over it has dealt with, todo being the rest. */
  function Without<V>(b: map<string, V>, todo: set<string>): map<string, V> {
    map m | m in b && m !in todo :: b[m]
  }

  lemma MergeAssocAt(a: PerModel, b: PerModel, c: PerModel, m: string)
    ensures TokensOf(Merge(Merge(a, b), c), m) == TokensOf(Merge(a, Merge(b, c)), m)
  {}

  lemma SameTokens(a: PerModel, b: PerModel)
    requires a.Keys == b.Keys && forall m :: TokensOf(a, m) == TokensOf(b, m)
    ensures a == b
  {
    forall m | m in a ensures a[m] == b[m] {
      assert TokensOf(a, m) == TokensOf(b, m);
    }
  }

  lemma MergeAssoc(a: PerModel, b: PerModel, c: PerModel)
    ensures Merge(Merge(a, b), c) == Merge(a, Merge(b, c))
  {
    var left, right := Merge(Merge(a, b), c), Merge(a, Merge(b, c));
    assert left.Keys == right.Keys;
    forall m ensures TokensOf(left, m) == TokensOf(right, m) {
      MergeAssocAt(a, b, c, m);
    }
    SameTokens(left, right);
  }

  lemma MergeComm(a: PerModel, b: PerModel)
    ensures Merge(a, b) == Merge(b, a)
  {}

  lemma MergeEmpty(a: PerModel)
    ensures Merge(a, map[]) == a && Merge(map[], a) == a
  {}

  /** (a + b) + (c + e) == (a + c) + (b + e). */
  lemma MergeSwap(a: PerModel, b: PerModel, c: PerModel, e: PerModel)
    ensures Merge(Merge(a, b), Merge(c, e)) == Merge(Merge(a, c), Merge(b, e))
  {
    MergeAssoc(a, b, Merge(c, e));
    MergeAssoc(b, c, e);
    MergeComm(b, c);
    MergeAssoc(c, b, e);
    MergeAssoc(a, c, Merge(b, e));
  }

  lemma MergeAddRecord(a: PerModel, b: PerModel, r: Record)
    ensures Merge(a, AddRecord(b, r)) == AddRecord(Merge(a, b), r)
  {}

  lemma {:induction false} PerModelAppend(a: seq<Record>, b: seq<Record>)
    ensures PerModelTokens(a + b) == Merge(PerModelTokens(a), PerModelTokens(b))
    decreases |b|
  {
    if b == [] {
      assert a + b == a;
      MergeEmpty(PerModelTokens(a));
    } else {
      var init, r := b[..|b| - 1], b[|b| - 1];
      assert (a + b)[..|a + b| - 1] == a + init;
      PerModelAppend(a, init);
      MergeAddRecord(PerModelTokens(a), PerModelTokens(init), r);
    }
  }
}
