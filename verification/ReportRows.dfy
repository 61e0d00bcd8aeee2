// What the rows of a usage report stand for, read off the files of the visited nodes.

module ReportRows {
  import opened Common
  import opened Listing
  import opened OutputTree
  import opened Paths
  import opened Sorting
  import opened Text
  import opened Tracker
  import opened UsageReport

  // ---------------------------------------------------------------- requests

  /** A kind of request, told from its line and its node's files. */
  type Kind = (Files, Record) -> bool

  /** The attribution file of the node maps the request's id to the agent. */
  predicate MappedTo(f: Files, r: Record, agent: string) {
    f.attribution.Some? && r.requestId in f.attribution.value && f.attribution.value[r.requestId] == agent
  }

  /** The attribution file of the node has the request's id. */
  predicate Mapped(f: Files, r: Record) {
    f.attribution.Some? && r.requestId in f.attribution.value
  }

  function OfAgent(n: string): Kind {
    (f: Files, r: Record) => MappedTo(f, r, n)
  }

  function Unnamed(): Kind {
    (f: Files, r: Record) => MappedTo(f, r, "") || MappedTo(f, r, "(unnamed)")
  }

  function Unattributed(): Kind {
    (f: Files, r: Record) => !Mapped(f, r) || MappedTo(f, r, "(main)")
  }

  function OfModel(m: string): Kind {
    (f: Files, r: Record) => r.model == m
  }

  function AnyRequest(): Kind {
    (f: Files, r: Record) => true
  }

  /** Some visited node has a log line of the kind. */
  ghost predicate SomeRequest(d: Disk, ps: seq<Path>, kind: Kind) {
    exists p, r :: p in ps && r in Log(d, p) && kind(At(d, p), r)
  }

  /** Tokens, list prices and number of the log lines of the kind in one node. */
  function UsageIn(f: Files, recs: seq<Record>, kind: Kind): Usage {
    if recs == [] then NO_USAGE
    else
      var last := recs[|recs| - 1];
      Join(UsageIn(f, recs[..|recs| - 1], kind),
           if kind(f, last) then Usage(last.tokens, ListPrice(last), 1) else NO_USAGE)
  }

  /** The same over the visited nodes. */
  function UsageOfKind(d: Disk, ps: seq<Path>, kind: Kind): Usage {
    if ps == [] then NO_USAGE
    else Join(UsageOfKind(d, ps[..|ps| - 1], kind), UsageIn(At(d, ps[|ps| - 1]), Log(d, ps[|ps| - 1]), kind))
  }

  // ---------------------------------------------------------------- from lines to requests

  /** The key picks out the requests of a kind. */
  ghost predicate PicksOut(key: Line -> string, k: string, kind: Kind) {
    forall f, r :: key(LineOf(f, r)) == k <==> kind(f, r)
  }

  lemma {:induction false} HavingAppend(key: Line -> string, k: string, a: seq<Line>, b: seq<Line>)
    ensures Having(key, k, a + b) == Having(key, k, a) + Having(key, k, b)
    decreases |b|
  {
    if b == [] {
      assert a + b == a;
    } else {
      assert (a + b)[..|a + b| - 1] == a + b[..|b| - 1];
      HavingAppend(key, k, a, b[..|b| - 1]);
    }
  }

  lemma TotalHavingSnoc(key: Line -> string, k: string, lines: seq<Line>, l: Line)
    ensures Total(Having(key, k, lines + [l]))
         == Join(Total(Having(key, k, lines)), if key(l) == k then UsageOf(l) else NO_USAGE)
  {
    var had := Having(key, k, lines);
    assert (lines + [l])[..|lines|] == lines;
    if key(l) == k {
      assert (had + [l])[..|had|] == had;
    } else {
      assert had + [] == had;
    }
  }

  lemma {:induction false} NodeUsageOfKind(f: Files, recs: seq<Record>, key: Line -> string, k: string, kind: Kind)
    requires PicksOut(key, k, kind)
    ensures Total(Having(key, k, LinesOf(f, recs))) == UsageIn(f, recs, kind)
  {
    if recs != [] {
      var init, last := recs[..|recs| - 1], recs[|recs| - 1];
      assert key(LineOf(f, last)) == k <==> kind(f, last);
      NodeUsageOfKind(f, init, key, k, kind);
      TotalHavingSnoc(key, k, LinesOf(f, init), LineOf(f, last));
    }
  }

  lemma {:induction false} NodeHasKind(f: Files, recs: seq<Record>, key: Line -> string, k: string, kind: Kind)
    requires PicksOut(key, k, kind)
    ensures (exists l <- LinesOf(f, recs) :: key(l) == k) <==> (exists r <- recs :: kind(f, r))
  {
    if recs != [] {
      var init, last := recs[..|recs| - 1], recs[|recs| - 1];
      assert recs == init + [last];
      assert key(LineOf(f, last)) == k <==> kind(f, last);
      NodeHasKind(f, init, key, k, kind);
    }
  }

  lemma {:induction false} LinesOfKind(d: Disk, ps: seq<Path>, key: Line -> string, k: string, kind: Kind)
    requires PicksOut(key, k, kind)
    ensures Total(Having(key, k, Lines(d, ps))) == UsageOfKind(d, ps, kind)
    ensures (exists l <- Lines(d, ps) :: key(l) == k) <==> SomeRequest(d, ps, kind)
  {
    if ps != [] {
      var init, p := ps[..|ps| - 1], ps[|ps| - 1];
      assert ps == init + [p];
      LinesOfKind(d, init, key, k, kind);
      NodeUsageOfKind(At(d, p), Log(d, p), key, k, kind);
      NodeHasKind(At(d, p), Log(d, p), key, k, kind);
      HavingAppend(key, k, Lines(d, init), NodeLines(d, p));
      TotalAppend(Having(key, k, Lines(d, init)), Having(key, k, NodeLines(d, p)));
      SomeRequestSnoc(d, init, p, kind);
    }
  }

  lemma SomeRequestSnoc(d: Disk, ps: seq<Path>, p: Path, kind: Kind)
    ensures SomeRequest(d, ps + [p], kind)
       <==> SomeRequest(d, ps, kind) || exists r <- Log(d, p) :: kind(At(d, p), r)
  {
    if SomeRequest(d, ps, kind) {
      var q, r :| q in ps && r in Log(d, q) && kind(At(d, q), r);
      assert q in ps + [p];
    }
    if r :| r in Log(d, p) && kind(At(d, p), r) {
      assert p in ps + [p];
    }
  }

  /** A row of the lines' breakdown, in terms of requests. */
  lemma RowOfKind(d: Disk, ps: seq<Path>, key: Line -> string, k: string, kind: Kind)
    requires PicksOut(key, k, kind)
    ensures k in GroupBy(key, Lines(d, ps)) <==> SomeRequest(d, ps, kind)
    ensures UsageAt(GroupBy(key, Lines(d, ps)), k) == UsageOfKind(d, ps, kind)
  {
    RowIsTotalOfItsLines(key, Lines(d, ps), k);
    LinesOfKind(d, ps, key, k, kind);
  }

  // ---------------------------------------------------------------- the subagent table

  /** The table has a row of that name exactly if told so, and it is this one. */
  ghost predicate RowIs(rows: seq<SubagentUsage>, n: string, present: bool, usage: Usage) {
    && ((exists row <- rows :: row.name == n) <==> present)
    && (forall row <- rows | row.name == n :: row.usage == usage)
  }

  lemma {:induction false} RowsHaveNames(g: Breakdown, names: seq<string>)
    ensures |SubagentRows(g, names)| == |names|
    ensures forall i :: 0 <= i < |names| ==> SubagentRows(g, names)[i] == SubagentUsage(names[i], UsageAt(g, names[i]))
  {
    if names != [] {
      RowsHaveNames(g, names[..|names| - 1]);
    }
  }

  lemma RowIsEntry(rows: seq<SubagentUsage>, g: Breakdown, n: string)
    requires IsBySubagent(rows, g)
    ensures RowIs(rows, n, n in g, UsageAt(g, n))
  {
    var names :| SortedListing(names, g.Keys, ByCost(g)) && rows == SubagentRows(g, names);
    RowsHaveNames(g, names);
    if n in g {
      assert n in names;
      var i :| 0 <= i < |names| && names[i] == n;
      assert rows[i] in rows;
    }
    if row :| row in rows && row.name == n {
      var i :| 0 <= i < |rows| && rows[i] == row;
      assert names[i] in names;
    }
  }

  /** A row other than "(main)" is untouched by the reconciliation. */
  lemma OtherRow(r: Report, d: Disk, ps: seq<Path>, n: string, kind: Kind)
    requires Describes(r, d, ps) && n != MAIN && PicksOut(ByBucketKey(), n, kind)
    ensures RowIs(r.bySubagent, n, SomeRequest(d, ps, kind), UsageOfKind(d, ps, kind))
  {
    RowIsEntry(r.bySubagent, Buckets(Lines(d, ps), r.totalCostUSD), n);
    RowOfKind(d, ps, ByBucketKey(), n, kind);
  }

  /**
   * An agent has a row if and only if the attribution file of a visited node maps a line of
   * that node's log to it, and the row is the tokens, list prices and number of those lines.
   */
  lemma AgentRow(r: Report, d: Disk, ps: seq<Path>, n: string)
    requires Describes(r, d, ps) && n !in {"(main)", "(unnamed)", ""}
    ensures RowIs(r.bySubagent, n, SomeRequest(d, ps, OfAgent(n)), UsageOfKind(d, ps, OfAgent(n)))
  {
    OtherRow(r, d, ps, n, OfAgent(n));
  }

  /** "(unnamed)" stands for the lines mapped to the empty name, or to that name itself. */
  lemma UnnamedRow(r: Report, d: Disk, ps: seq<Path>)
    requires Describes(r, d, ps)
    ensures RowIs(r.bySubagent, "(unnamed)", SomeRequest(d, ps, Unnamed()), UsageOfKind(d, ps, Unnamed()))
    ensures forall row <- r.bySubagent :: row.name != ""
  {
    assert "(unnamed)"[1] != MAIN[1];
    OtherRow(r, d, ps, "(unnamed)", Unnamed());
    OtherRow(r, d, ps, "", (f: Files, r: Record) => false);
    assert !SomeRequest(d, ps, (f: Files, r: Record) => false);
  }

  /**
   * "(main)" stands for the lines that no attribution file maps, or that are mapped to that
   * name, and takes the part of the total cost that no line's list price explains.
   */
  lemma MainRow(r: Report, d: Disk, ps: seq<Path>)
    requires Describes(r, d, ps)
    ensures var unexplained := r.totalCostUSD - UsageOfKind(d, ps, AnyRequest()).cost;
      RowIs(r.bySubagent, "(main)", SomeRequest(d, ps, Unattributed()) || unexplained != 0.0,
            AddCost(UsageOfKind(d, ps, Unattributed()), unexplained))
  {
    var lines := Lines(d, ps);
    MainPicksOut();
    RowOfKind(d, ps, ByBucketKey(), MAIN, Unattributed());
    TotalIsOfAnyKind(d, ps);
    assert Residual(lines, r.totalCostUSD) == r.totalCostUSD - UsageOfKind(d, ps, AnyRequest()).cost;
    ReconciledRow(r.bySubagent, GroupBy(ByBucketKey(), lines), MAIN, Residual(lines, r.totalCostUSD));
  }

  lemma MainPicksOut()
    ensures PicksOut(ByBucketKey(), MAIN, Unattributed())
  {
    assert "(unnamed)"[1] != MAIN[1];
  }

  lemma ReconciledRow(rows: seq<SubagentUsage>, g: Breakdown, k: string, residual: real)
    requires IsBySubagent(rows, Reconciled(g, k, residual))
    ensures RowIs(rows, k, k in g || residual != 0.0, AddCost(UsageAt(g, k), residual))
  {
    RowIsEntry(rows, Reconciled(g, k, residual), k);
  }

  lemma {:induction false} NodeTotalIsOfAnyKind(f: Files, recs: seq<Record>)
    ensures Total(LinesOf(f, recs)) == UsageIn(f, recs, AnyRequest())
  {
    if recs != [] {
      var init, l := recs[..|recs| - 1], LineOf(f, recs[|recs| - 1]);
      NodeTotalIsOfAnyKind(f, init);
      assert (LinesOf(f, init) + [l])[..|LinesOf(f, init)|] == LinesOf(f, init);
    }
  }

  lemma {:induction false} TotalIsOfAnyKind(d: Disk, ps: seq<Path>)
    ensures Total(Lines(d, ps)) == UsageOfKind(d, ps, AnyRequest())
  {
    if ps != [] {
      var init, p := ps[..|ps| - 1], ps[|ps| - 1];
      TotalIsOfAnyKind(d, init);
      NodeTotalIsOfAnyKind(At(d, p), Log(d, p));
      TotalAppend(Lines(d, init), NodeLines(d, p));
    }
  }

  /** Where no attribution file maps a visited line there is no row but "(main)". */
  lemma OnlyMainWithoutAttribution(r: Report, d: Disk, ps: seq<Path>)
    requires Describes(r, d, ps)
    requires forall p, rec :: p in ps && rec in Log(d, p) ==> !Mapped(At(d, p), rec)
    ensures forall row <- r.bySubagent :: row.name == "(main)"
  {
    UnnamedRow(r, d, ps);
    forall row | row in r.bySubagent ensures row.name == "(main)" {
      if row.name !in {"(main)", "(unnamed)", ""} {
        AgentRow(r, d, ps, row.name);
      }
    }
  }

  /** The dearest rows come first, equally dear ones by name; no name has two rows. */
  lemma SubagentRowsInOrder(r: Report, d: Disk, ps: seq<Path>, i: nat, j: nat)
    requires Describes(r, d, ps) && i < j < |r.bySubagent|
    ensures var a, b := r.bySubagent[i], r.bySubagent[j];
      a.name != b.name
      && (a.usage.cost > b.usage.cost || (a.usage.cost == b.usage.cost && Less(a.name, b.name)))
  {
    var g := Buckets(Lines(d, ps), r.totalCostUSD);
    var names :| SortedListing(names, g.Keys, ByCost(g)) && r.bySubagent == SubagentRows(g, names);
    RowsHaveNames(g, names);
    assert ByCost(g)(names[i], names[j]);
  }

  // ---------------------------------------------------------------- the other tables

  ghost predicate ModelRowIs(rows: seq<ModelUsage>, m: string, present: bool, tokens: TokenTotals, costUSD: real) {
    && ((exists row <- rows :: row.model == m) <==> present)
    && (forall row <- rows | row.model == m :: row.tokens == tokens && row.costUSD == costUSD)
  }

  /** What the usage.json files of the visited nodes say a model cost. */
  function ModelCostOver(d: Disk, ps: seq<Path>, m: string): real {
    if ps == [] then 0.0
    else ModelCostOver(d, ps[..|ps| - 1], m) + CostAt(NodeCosts(d, ps[|ps| - 1]), m)
  }

  lemma {:induction false} ModelCostIs(d: Disk, ps: seq<Path>, m: string)
    ensures CostAt(ModelCosts(d, ps), m) == ModelCostOver(d, ps, m)
    ensures m in ModelCosts(d, ps) <==> exists p <- ps :: m in NodeCosts(d, p)
  {
    if ps != [] {
      assert ps == ps[..|ps| - 1] + [ps[|ps| - 1]];
      ModelCostIs(d, ps[..|ps| - 1], m);
    }
  }

  lemma ModelTokensAre(d: Disk, ps: seq<Path>, m: string)
    ensures m in PerModelTokens(Logs(d, ps)) <==> SomeRequest(d, ps, OfModel(m))
    ensures TokensOf(PerModelTokens(Logs(d, ps)), m) == UsageOfKind(d, ps, OfModel(m)).tokens
  {
    var g := GroupBy(ByModelKey(), Lines(d, ps));
    RowOfKind(d, ps, ByModelKey(), m, OfModel(m));
    TokenColumnIsPerModel(Lines(d, ps));
    RecordsOfWalk(d, ps);
    assert m in TokenColumn(g) <==> m in g;
  }

  lemma ModelRowPresent(models: seq<string>, rows: seq<ModelUsage>, m: string)
    requires |rows| == |models| && forall i :: 0 <= i < |rows| ==> rows[i].model == models[i]
    ensures (exists row <- rows :: row.model == m) <==> m in models
  {
    if m in models {
      var i :| 0 <= i < |models| && models[i] == m;
      assert rows[i] in rows;
    }
  }

  lemma ModelRowIsEntry(rows: seq<ModelUsage>, tokens: PerModel, costs: Costs, m: string)
    requires IsByModel(rows, tokens, costs)
    ensures ModelRowIs(rows, m, m in tokens.Keys + costs.Keys, TokensOf(tokens, m), CostAt(costs, m))
  {
    var models :| SortedListing(models, tokens.Keys + costs.Keys, ByName()) && rows == ModelRows(tokens, costs, models);
    ModelRowPresent(models, rows, m);
    assert m in models <==> m in tokens.Keys + costs.Keys;
  }

  /**
   * A model has a row if and only if a visited log line or a visited usage.json names it; the
   * row is the tokens of those lines and the costs of those files.
   */
  lemma ModelRow(r: Report, d: Disk, ps: seq<Path>, m: string)
    requires Describes(r, d, ps)
    ensures ModelRowIs(r.byModel, m, SomeRequest(d, ps, OfModel(m)) || exists p <- ps :: m in NodeCosts(d, p),
                       UsageOfKind(d, ps, OfModel(m)).tokens, ModelCostOver(d, ps, m))
  {
    ModelRowIsEntry(r.byModel, PerModelTokens(Logs(d, ps)), ModelCosts(d, ps), m);
    ModelTokensAre(d, ps, m);
    ModelCostIs(d, ps, m);
  }

  /** The models are in the order of their ids, each once. */
  lemma ModelRowsInOrder(r: Report, d: Disk, ps: seq<Path>, i: nat, j: nat)
    requires Describes(r, d, ps) && i < j < |r.byModel|
    ensures Less(r.byModel[i].model, r.byModel[j].model)
  {
    var tokens, costs := PerModelTokens(Logs(d, ps)), ModelCosts(d, ps);
    var models :| SortedListing(models, tokens.Keys + costs.Keys, ByName())
                  && r.byModel == ModelRows(tokens, costs, models);
    assert ByName()(models[i], models[j]);
  }

  /** A node's row has its own name, depth and cost, and the tokens of its own log. */
  lemma NodeRow(r: Report, d: Disk, ps: seq<Path>, i: nat)
    requires Describes(r, d, ps) && i < |ps|
    ensures |r.byChild| == |ps|
    ensures var row, f := r.byChild[i], At(d, ps[i]);
      && (f.results.Some? ==> row.name == f.results.value.name && row.depth == f.results.value.depth)
      && (f.results.None? ==> row.name == "" && row.depth == 0)
      && row.costUSD == (if f.usage.Some? then f.usage.value.costUSD else 0.0)
      && row.tokens == UsageIn(f, Log(d, ps[i]), AnyRequest()).tokens
  {
    NodeTotalIsOfAnyKind(At(d, ps[i]), Log(d, ps[i]));
  }

  function SumOver(ps: seq<Path>, f: Path -> int): int {
    if ps == [] then 0 else SumOver(ps[..|ps| - 1], f) + f(ps[|ps| - 1])
  }

  /** The drops are those of the visited usage.json files, each kind on its own. */
  lemma {:induction false} DropsAddUp(d: Disk, ps: seq<Path>)
    ensures var usage := (p: Path) => At(d, p).usage;
      && DroppedBy(d, ps).parseErrors
         == SumOver(ps, (p: Path) => if usage(p).Some? then usage(p).value.parseErrors else 0)
      && DroppedBy(d, ps).noUsageBlock
         == SumOver(ps, (p: Path) => if usage(p).Some? then usage(p).value.noUsageBlock else 0)
  {
    if ps != [] {
      DropsAddUp(d, ps[..|ps| - 1]);
    }
  }

  // ---------------------------------------------------------------- the walk

  /** Every name on the way from p down to q is listed by the node above it. */
  predicate ListedDown(d: Disk, p: Path, q: Path) {
    p <= q && forall k :: |p| <= k < |q| ==> q[k] in ListedChildren(d, q[..k])
  }

  /** A walk visits exactly the nodes that listings lead to. */
  lemma {:induction false} VisitedIffListed(d: Disk, p: Path, q: Path)
    ensures q in Visits(d, p) <==> ListedDown(d, p, q)
    decreases Under(d, p), 1, 0
  {
    var names := ListedChildren(d, p);
    if names != [] {
      VisitedBelowIffListed(d, p, names, q);
    }
    if p < q {
      ListedFromChild(d, p, q);
    } else if p <= q {
      assert p == q;
    }
  }

  /** The way down starts with a child. */
  lemma ListedFromChild(d: Disk, p: Path, q: Path)
    requires p < q
    ensures Child(p, q[|p|]) <= q
    ensures ListedDown(d, p, q) <==> q[|p|] in ListedChildren(d, p) && ListedDown(d, Child(p, q[|p|]), q)
  {
    assert q[..|p|] == p && Child(p, q[|p|]) == q[..|p| + 1];
  }

  lemma {:induction false} VisitedBelowIffListed(d: Disk, p: Path, names: seq<string>, q: Path)
    requires p in d
    ensures q in VisitsAll(d, p, names) <==> p < q && q[|p|] in names && ListedDown(d, Child(p, q[|p|]), q)
    decreases Under(d, p), 0, |names|
  {
    if names != [] {
      var init, last := names[..|names| - 1], names[|names| - 1];
      assert names == init + [last];
      UnderShrinks(d, p, last);
      VisitedBelowIffListed(d, p, init, q);
      VisitedIffListed(d, Child(p, last), q);
      if ListedDown(d, Child(p, last), q) {
        assert q[..|p|] == Child(p, last)[..|p|] == p && q[|p|] == last;
      }
    }
  }
}
