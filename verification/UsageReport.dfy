// The top-down usage report over an output tree (internal/sandbox/usagereport.go): a walk
// that fills accumulators, the sorted breakdowns built from them, and what they conserve. USD
// are exact reals.

module UsageReport {
  import opened Common
  import opened Listing
  import opened Pricing
  import opened Sorting
  import opened Text
  import opened Tracker
  import opened OutputTree
  import opened Paths
  import Rollup

  /** One parsed line of some node's usage.jsonl, with the subagent it is attributed to and its cost. */
  datatype Line = Line(bucket: string, rec: Record, usd: real)

  /** subagentEntry. */
  datatype Usage = Usage(tokens: TokenTotals, cost: real, requests: int)

  const NO_USAGE := Usage(NO_TOKENS, 0.0, 0)
  const MAIN := "(main)"

  function Join(a: Usage, b: Usage): Usage {
    Usage(Plus(a.tokens, b.tokens), a.cost + b.cost, a.requests + b.requests)
  }

  /** The list-price cost of a request, whichever vendor served it. */
  function ListPrice(r: Record): real {
    var t := r.tokens;
    AnthropicCostUSD(r.model, AnthropicCounts(t.input, t.output, t.cacheCreation, t.cacheRead))
  }

  function UsageOf(l: Line): Usage {
    Usage(l.rec.tokens, l.usd, 1)
  }

  function BucketOf(f: Files, r: Record): string {
    if f.attribution.Some? && r.requestId in f.attribution.value then
      (if f.attribution.value[r.requestId] != "" then f.attribution.value[r.requestId] else "(unnamed)")
    else MAIN
  }

  /** A line costs its list price. */
  function LineOf(f: Files, r: Record): Line {
    Line(BucketOf(f, r), r, ListPrice(r))
  }

  // ---------------------------------------------------------------- what a report is about

  function LinesOf(f: Files, recs: seq<Record>): seq<Line> {
    if recs == [] then [] else LinesOf(f, recs[..|recs| - 1]) + [LineOf(f, recs[|recs| - 1])]
  }

  function NodeLines(d: Disk, p: Path): seq<Line> {
    LinesOf(At(d, p), Log(d, p))
  }

  /** Every parsed log line of the visited nodes. */
  function Lines(d: Disk, ps: seq<Path>): seq<Line> {
    if ps == [] then [] else Lines(d, ps[..|ps| - 1]) + NodeLines(d, ps[|ps| - 1])
  }

  function RecordsOf(lines: seq<Line>): seq<Record> {
    seq(|lines|, i requires 0 <= i < |lines| => lines[i].rec)
  }

  function Total(lines: seq<Line>): Usage {
    if lines == [] then NO_USAGE else Join(Total(lines[..|lines| - 1]), UsageOf(lines[|lines| - 1]))
  }

  lemma {:induction false} TotalAppend(a: seq<Line>, b: seq<Line>)
    ensures Total(a + b) == Join(Total(a), Total(b))
    decreases |b|
  {
    if b == [] {
      assert a + b == a;
    } else {
      assert (a + b)[..|a + b| - 1] == a + b[..|b| - 1];
      TotalAppend(a, b[..|b| - 1]);
    }
  }

  lemma {:induction false} TotalCounts(lines: seq<Line>)
    ensures Total(lines).requests == |lines|
  {
    if lines != [] {
      TotalCounts(lines[..|lines| - 1]);
    }
  }

  // ---------------------------------------------------------------- breakdowns of lines

  type Breakdown = map<string, Usage>

  function UsageAt(g: Breakdown, k: string): Usage {
    if k in g then g[k] else NO_USAGE
  }

  function AddLine(g: Breakdown, k: string, l: Line): Breakdown {
    g[k := Join(UsageAt(g, k), UsageOf(l))]
  }

  function GroupBy(key: Line -> string, lines: seq<Line>): Breakdown {
    if lines == [] then map[]
    else AddLine(GroupBy(key, lines[..|lines| - 1]), key(lines[|lines| - 1]), lines[|lines| - 1])
  }

  function Having(key: Line -> string, k: string, lines: seq<Line>): seq<Line> {
    if lines == [] then []
    else
      Having(key, k, lines[..|lines| - 1]) + (if key(lines[|lines| - 1]) == k then [lines[|lines| - 1]] else [])
  }

  /** A row of a breakdown is the total of exactly the lines with its key; others have no row. */
  lemma {:induction false} RowIsTotalOfItsLines(key: Line -> string, lines: seq<Line>, k: string)
    ensures UsageAt(GroupBy(key, lines), k) == Total(Having(key, k, lines))
    ensures k in GroupBy(key, lines) <==> exists l <- lines :: key(l) == k
  {
    if lines != [] {
      var init, last := lines[..|lines| - 1], lines[|lines| - 1];
      assert lines == init + [last];
      RowIsTotalOfItsLines(key, init, k);
      if key(last) == k {
        TotalAppend(Having(key, k, init), [last]);
        assert [last][..0] == [];
      } else {
        assert Having(key, k, lines) == Having(key, k, init);
      }
    }
  }

  /** The rows of a listing added up. */
  function SumOf(g: Breakdown, names: seq<string>): Usage {
    if names == [] then NO_USAGE else Join(SumOf(g, names[..|names| - 1]), UsageAt(g, names[|names| - 1]))
  }

  lemma {:induction false} SumUnchanged(g: Breakdown, g': Breakdown, names: seq<string>)
    requires forall n <- names :: UsageAt(g', n) == UsageAt(g, n)
    ensures SumOf(g', names) == SumOf(g, names)
  {
    if names != [] {
      assert names[|names| - 1] in names;
      SumUnchanged(g, g', names[..|names| - 1]);
    }
  }

  lemma JoinSwap(a: Usage, b: Usage, c: Usage)
    ensures Join(Join(a, b), c) == Join(Join(a, c), b)
  {}

  /** Replacing one listed row changes the sum by the difference. */
  lemma {:induction false} RowReplaced(g: Breakdown, k: string, row: Usage, names: seq<string>)
    requires Distinct(names) && k in names
    ensures Join(SumOf(g[k := row], names), UsageAt(g, k)) == Join(SumOf(g, names), row)
  {
    var g', was := g[k := row], UsageAt(g, k);
    var init, last := names[..|names| - 1], names[|names| - 1];
    assert names == init + [last];
    if last == k {
      assert k !in init;
      SumUnchanged(g, g', init);
      JoinSwap(SumOf(g, init), row, was);
    } else {
      RowReplaced(g, k, row, init);
      JoinSwap(SumOf(g', init), UsageAt(g, last), was);
      JoinSwap(SumOf(g, init), row, UsageAt(g, last));
    }
  }

  lemma {:induction false} SumOfNothing(names: seq<string>)
    ensures SumOf(map[], names) == NO_USAGE
  {
    if names != [] {
      SumOfNothing(names[..|names| - 1]);
    }
  }

  /** However the lines are grouped, the rows add up to the total of the lines. */
  lemma {:induction false} BreakdownAddsUp(key: Line -> string, lines: seq<Line>, names: seq<string>)
    requires Distinct(names) && forall k <- GroupBy(key, lines) :: k in names
    ensures SumOf(GroupBy(key, lines), names) == Total(lines)
  {
    if lines == [] {
      SumOfNothing(names);
    } else {
      var init, last := lines[..|lines| - 1], lines[|lines| - 1];
      var g := GroupBy(key, init);
      assert forall k <- g :: k in GroupBy(key, lines);
      BreakdownAddsUp(key, init, names);
      assert key(last) in GroupBy(key, lines);
      RowReplaced(g, key(last), Join(UsageAt(g, key(last)), UsageOf(last)), names);
    }
  }

  // ---------------------------------------------------------------- per-model tokens

  function ByModelKey(): Line -> string {
    (l: Line) => l.rec.model
  }

  function ByBucketKey(): Line -> string {
    (l: Line) => l.bucket
  }

  function TokenColumn(g: Breakdown): PerModel {
    map k | k in g :: g[k].tokens
  }

  lemma RecordsOfSnoc(lines: seq<Line>, l: Line)
    ensures RecordsOf(lines + [l]) == RecordsOf(lines) + [l.rec]
  {}

  /** Grouping by model has the per-model tokens of the roll-up as its token column. */
  lemma {:induction false} TokenColumnIsPerModel(lines: seq<Line>)
    ensures TokenColumn(GroupBy(ByModelKey(), lines)) == PerModelTokens(RecordsOf(lines))
  {
    if lines != [] {
      var init, last := lines[..|lines| - 1], lines[|lines| - 1];
      assert lines == init + [last];
      TokenColumnIsPerModel(init);
      RecordsOfSnoc(init, last);
      assert RecordsOf(lines)[..|lines| - 1] == RecordsOf(init);
    }
  }

  lemma {:induction false} RecordsOfLines(f: Files, recs: seq<Record>)
    ensures RecordsOf(LinesOf(f, recs)) == recs
  {
    if recs != [] {
      var init := recs[..|recs| - 1];
      RecordsOfLines(f, init);
      RecordsOfSnoc(LinesOf(f, init), LineOf(f, recs[|recs| - 1]));
    }
  }

  lemma RecordsOfAppend(a: seq<Line>, b: seq<Line>)
    ensures RecordsOf(a + b) == RecordsOf(a) + RecordsOf(b)
  {}

  lemma {:induction false} RecordsOfWalk(d: Disk, ps: seq<Path>)
    ensures RecordsOf(Lines(d, ps)) == Logs(d, ps)
  {
    if ps != [] {
      var init, p := ps[..|ps| - 1], ps[|ps| - 1];
      RecordsOfWalk(d, init);
      RecordsOfLines(At(d, p), Log(d, p));
      RecordsOfAppend(Lines(d, init), NodeLines(d, p));
    }
  }

  // ---------------------------------------------------------------- per-model costs

  type Costs = map<string, real>

  function CostAt(c: Costs, m: string): real {
    if m in c then c[m] else 0.0
  }

  function MergeCosts(a: Costs, b: Costs): Costs {
    map m | m in a.Keys + b.Keys :: CostAt(a, m) + CostAt(b, m)
  }

  function NodeCosts(d: Disk, p: Path): Costs {
    if At(d, p).usage.Some? then At(d, p).usage.value.perModel else map[]
  }

  function ModelCosts(d: Disk, ps: seq<Path>): Costs {
    if ps == [] then map[] else MergeCosts(ModelCosts(d, ps[..|ps| - 1]), NodeCosts(d, ps[|ps| - 1]))
  }

  function CostSum(c: Costs, models: seq<string>): real {
    if models == [] then 0.0 else CostSum(c, models[..|models| - 1]) + CostAt(c, models[|models| - 1])
  }

  lemma {:induction false} CostSumMerge(a: Costs, b: Costs, models: seq<string>)
    ensures CostSum(MergeCosts(a, b), models) == CostSum(a, models) + CostSum(b, models)
  {
    if models != [] {
      CostSumMerge(a, b, models[..|models| - 1]);
    }
  }

  /** usage.json's total is the sum of its per-model costs, over any listing that has them all. */
  ghost predicate Itemised(d: Disk, p: Path) {
    forall models: seq<string> :: Distinct(models) && (forall m <- NodeCosts(d, p) :: m in models)
      ==> CostSum(NodeCosts(d, p), models) == NodeCost(d, p)
  }

  /** If each node's own cost is itemised, the per-model costs of the tree add up to its cost. */
  lemma {:induction false} ModelCostsAddUp(d: Disk, ps: seq<Path>, models: seq<string>)
    requires Distinct(models) && (forall m <- ModelCosts(d, ps) :: m in models)
    requires forall q <- ps :: Itemised(d, q)
    ensures CostSum(ModelCosts(d, ps), models) == TreeCost(d, ps)
  {
    if ps == [] {
      NoCosts(models);
    } else {
      var init, last := ps[..|ps| - 1], ps[|ps| - 1];
      assert last in ps;
      forall m | m in ModelCosts(d, init) || m in NodeCosts(d, last) ensures m in models {
        assert m in ModelCosts(d, ps);
      }
      ModelCostsAddUp(d, init, models);
      CostSumMerge(ModelCosts(d, init), NodeCosts(d, last), models);
    }
  }

  lemma {:induction false} NoCosts(models: seq<string>)
    ensures CostSum(map[], models) == 0.0
  {
    if models != [] {
      NoCosts(models[..|models| - 1]);
    }
  }

  // ---------------------------------------------------------------- rows per node and drops

  datatype ChildUsage = ChildUsage(name: string, depth: int, costUSD: real, tokens: TokenTotals)

  function Row(d: Disk, p: Path): ChildUsage {
    var r := At(d, p).results;
    ChildUsage(if r.Some? then r.value.name else "", if r.Some? then r.value.depth else 0,
               NodeCost(d, p), Total(NodeLines(d, p)).tokens)
  }

  function Rows(d: Disk, ps: seq<Path>): seq<ChildUsage> {
    seq(|ps|, i requires 0 <= i < |ps| => Row(d, ps[i]))
  }

  function RowTokens(rows: seq<ChildUsage>): TokenTotals {
    if rows == [] then NO_TOKENS else Plus(RowTokens(rows[..|rows| - 1]), rows[|rows| - 1].tokens)
  }

  function RowCosts(rows: seq<ChildUsage>): real {
    if rows == [] then 0.0 else RowCosts(rows[..|rows| - 1]) + rows[|rows| - 1].costUSD
  }

  lemma RowsSnoc(d: Disk, ps: seq<Path>, p: Path)
    ensures Rows(d, ps + [p]) == Rows(d, ps) + [Row(d, p)]
  {}

  lemma LinesSnoc(d: Disk, ps: seq<Path>, p: Path)
    ensures Lines(d, ps + [p]) == Lines(d, ps) + NodeLines(d, p)
  {}

  lemma RowTokensSnoc(d: Disk, ps: seq<Path>, p: Path)
    ensures RowTokens(Rows(d, ps + [p])) == Plus(RowTokens(Rows(d, ps)), Total(NodeLines(d, p)).tokens)
  {
    var rows := Rows(d, ps + [p]);
    assert rows[..|ps|] == Rows(d, ps);
    assert rows[|ps|] == Row(d, p);
  }

  lemma TotalOneNodeMore(d: Disk, ps: seq<Path>, p: Path)
    ensures Total(Lines(d, ps + [p])) == Join(Total(Lines(d, ps)), Total(NodeLines(d, p)))
  {
    LinesSnoc(d, ps, p);
    TotalAppend(Lines(d, ps), NodeLines(d, p));
  }

  lemma {:induction false} RowTokensAddUp(d: Disk, ps: seq<Path>)
    ensures RowTokens(Rows(d, ps)) == Total(Lines(d, ps)).tokens
    decreases |ps|
  {
    if ps != [] {
      var init, last := ps[..|ps| - 1], ps[|ps| - 1];
      assert ps == init + [last];
      RowTokensAddUp(d, init);
      RowTokensSnoc(d, init, last);
      TotalOneNodeMore(d, init, last);
    }
  }

  lemma {:induction false} RowCostsAddUp(d: Disk, ps: seq<Path>)
    ensures RowCosts(Rows(d, ps)) == TreeCost(d, ps)
  {
    if ps != [] {
      RowCostsAddUp(d, ps[..|ps| - 1]);
      assert Rows(d, ps)[..|ps| - 1] == Rows(d, ps[..|ps| - 1]);
    }
  }

  datatype Dropped = Dropped(parseErrors: int, noUsageBlock: int)

  function DroppedBy(d: Disk, ps: seq<Path>): Dropped {
    if ps == [] then Dropped(0, 0)
    else
      var before, u := DroppedBy(d, ps[..|ps| - 1]), At(d, ps[|ps| - 1]).usage;
      if u.None? then before
      else Dropped(before.parseErrors + u.value.parseErrors, before.noUsageBlock + u.value.noUsageBlock)
  }

  // ---------------------------------------------------------------- the walk

  lemma OneLineMore(lines: seq<Line>, l: Line)
    ensures PerModelTokens(RecordsOf(lines + [l])) == AddRecord(PerModelTokens(RecordsOf(lines)), l.rec)
    ensures GroupBy(ByBucketKey(), lines + [l]) == AddLine(GroupBy(ByBucketKey(), lines), l.bucket, l)
    ensures Total(lines + [l]) == Join(Total(lines), UsageOf(l))
  {
    assert (lines + [l])[..|lines|] == lines;
    RecordsOfSnoc(lines, l);
    assert (RecordsOf(lines) + [l.rec])[..|lines|] == RecordsOf(lines);
  }

  class Accumulator {
    var totalCostUSD: real
    var byModelTokens: PerModel
    var byModelCost: Costs
    var byChild: seq<ChildUsage>
    var bySubagent: Breakdown
    var totalComputed: real
    var dropped: Dropped

    /** What usage.jsonl files fill in, for the lines seen so far. */
    ghost predicate LinesIn(lines: seq<Line>)
      reads this`byModelTokens, this`bySubagent, this`totalComputed
    {
      && byModelTokens == PerModelTokens(RecordsOf(lines))
      && bySubagent == GroupBy(ByBucketKey(), lines)
      && totalComputed == Total(lines).cost
    }

    /** What usage.json files fill in, for the nodes seen so far. */
    ghost predicate CostsIn(d: Disk, ps: seq<Path>)
      reads this`totalCostUSD, this`byModelCost, this`dropped
    {
      && totalCostUSD == TreeCost(d, ps)
      && byModelCost == ModelCosts(d, ps)
      && dropped == DroppedBy(d, ps)
    }

    ghost predicate Covers(d: Disk, ps: seq<Path>)
      reads this
    {
      LinesIn(Lines(d, ps)) && CostsIn(d, ps) && byChild == Rows(d, ps)
    }

    constructor ()
      ensures forall d :: Covers(d, [])
    {
      totalCostUSD, byModelTokens, byModelCost, byChild := 0.0, map[], map[], [];
      bySubagent, totalComputed, dropped := map[], 0.0, Dropped(0, 0);
    }

    method ProcessUsageJson(d: Disk, p: Path, ghost ps: seq<Path>) returns (nodeCostUSD: real)
      requires CostsIn(d, ps)
      modifies this`totalCostUSD, this`byModelCost, this`dropped
      ensures CostsIn(d, ps + [p]) && nodeCostUSD == NodeCost(d, p)
    {
      assert (ps + [p])[..|ps|] == ps;
      if At(d, p).usage.None? {
        assert MergeCosts(byModelCost, map[]) == byModelCost;
        return 0.0;
      }
      var u := At(d, p).usage.value;
      totalCostUSD := totalCostUSD + u.costUSD;
      byModelCost := AddCosts(byModelCost, u.perModel);
      dropped := Dropped(dropped.parseErrors + u.parseErrors, dropped.noUsageBlock + u.noUsageBlock);
      return u.costUSD;
    }

    method ProcessUsageJsonl(d: Disk, p: Path, ghost lines: seq<Line>) returns (nodeTokens: TokenTotals)
      requires LinesIn(lines)
      modifies this`byModelTokens, this`bySubagent, this`totalComputed
      ensures LinesIn(lines + NodeLines(d, p)) && nodeTokens == Total(NodeLines(d, p)).tokens
    {
      var f, recs := At(d, p), Log(d, p);
      nodeTokens := NO_TOKENS;
      ghost var done: seq<Line> := [];
      assert lines + [] == lines;
      for i := 0 to |recs|
        invariant done == LinesOf(f, recs[..i]) && LinesIn(lines + done) && nodeTokens == Total(done).tokens
      {
        ghost var l := LineOf(f, recs[i]);
        assert recs[..i + 1][..i] == recs[..i];
        OneLineMore(done, l);
        Assoc(lines, done, [l]);
        ProcessLine(f, recs[i], lines + done);
        nodeTokens := Plus(nodeTokens, recs[i].tokens);
        done := done + [l];
      }
      assert recs[..|recs|] == recs;
    }

    /** The body of the loop. */
    method ProcessLine(f: Files, rec: Record, ghost lines: seq<Line>)
      requires LinesIn(lines)
      modifies this`byModelTokens, this`bySubagent, this`totalComputed
      ensures LinesIn(lines + [LineOf(f, rec)])
    {
      ghost var l := LineOf(f, rec);
      OneLineMore(lines, l);

      var mt := if rec.model in byModelTokens then byModelTokens[rec.model] else NO_TOKENS;
      byModelTokens := byModelTokens[rec.model := Plus(mt, rec.tokens)];

      var reqCost := ListPrice(rec);
      totalComputed := totalComputed + reqCost;

      var agentName := MAIN;
      if f.attribution.Some? && rec.requestId in f.attribution.value {
        var agent := f.attribution.value[rec.requestId];
        agentName := if agent != "" then agent else "(unnamed)";
      }
      AddToBucket(agentName, rec.tokens, reqCost);
    }

    /** Its last statements: the bucket is created on first use. */
    method AddToBucket(agentName: string, tokens: TokenTotals, reqCost: real)
      modifies this`bySubagent
      ensures bySubagent
           == old(bySubagent)[agentName := Join(UsageAt(old(bySubagent), agentName), Usage(tokens, reqCost, 1))]
    {
      if agentName !in bySubagent {
        bySubagent := bySubagent[agentName := NO_USAGE];
      }
      var sa := bySubagent[agentName];
      bySubagent := bySubagent[agentName := Usage(Plus(sa.tokens, tokens), sa.cost + reqCost, sa.requests + 1)];
    }

    method WalkUsageNode(d: Disk, p: Path, ghost ps: seq<Path>)
      requires Covers(d, ps)
      modifies this
      ensures Covers(d, ps + Visits(d, p))
      decreases Under(d, p)
    {
      VisitNode(d, p, ps);
      var r := At(d, p).results;
      if r.Some? && r.value.children != [] {
        WalkChildren(d, p, r.value.children, ps + [p]);
        Assoc(ps, [p], VisitsAll(d, p, r.value.children));
      }
    }

    /** The part of walkUsageNode before its loop. */
    method VisitNode(d: Disk, p: Path, ghost ps: seq<Path>)
      requires Covers(d, ps)
      modifies this
      ensures Covers(d, ps + [p])
    {
      LinesSnoc(d, ps, p);
      RowsSnoc(d, ps, p);
      var nodeCostUSD := ProcessUsageJson(d, p, ps);
      var nodeTokens := ProcessUsageJsonl(d, p, Lines(d, ps));
      var r := At(d, p).results;
      byChild := byChild + [ChildUsage(if r.Some? then r.value.name else "", if r.Some? then r.value.depth else 0,
                                       nodeCostUSD, nodeTokens)];
    }

    /** Its loop over the children listed in results.json. */
    method WalkChildren(d: Disk, p: Path, names: seq<string>, ghost ps: seq<Path>)
      requires Covers(d, ps) && p in d
      modifies this
      ensures Covers(d, ps + VisitsAll(d, p, names))
      decreases Under(d, p), 0
    {
      assert ps + [] == ps;
      for i := 0 to |names|
        invariant Covers(d, ps + VisitsAll(d, p, names[..i]))
      {
        assert names[..i + 1][..i] == names[..i];
        UnderShrinks(d, p, names[i]);
        ghost var before, more := VisitsAll(d, p, names[..i]), Visits(d, Child(p, names[i]));
        WalkUsageNode(d, Child(p, names[i]), ps + before);
        Assoc(ps, before, more);
        assert VisitsAll(d, p, names[..i + 1]) == before + more;
      }
      assert names[..|names|] == names;
    }

    /** The reconciliation step of buildUsageReport. */
    method Reconcile()
      modifies this`bySubagent
      ensures bySubagent == Reconciled(old(bySubagent), MAIN, totalCostUSD - totalComputed)
    {
      var residual := totalCostUSD - totalComputed;
      if residual != 0.0 {
        if MAIN !in bySubagent {
          bySubagent := bySubagent[MAIN := NO_USAGE];
        }
        var sa := bySubagent[MAIN];
        bySubagent := bySubagent[MAIN := Usage(sa.tokens, sa.cost + residual, sa.requests)];
      }
    }

    /** The subagent part of buildUsageReport: the reconciliation and the table. */
    method SubagentTable(ghost lines: seq<Line>) returns (rows: seq<SubagentUsage>)
      requires LinesIn(lines)
      modifies this`bySubagent
      ensures IsBySubagent(rows, Buckets(lines, totalCostUSD))
    {
      assert totalCostUSD - totalComputed == Residual(lines, totalCostUSD);
      Reconcile();
      rows := BySubagentRows(bySubagent);
    }

    method BuildUsageReport(ghost d: Disk, ghost ps: seq<Path>) returns (report: Report)
      requires Covers(d, ps)
      modifies this`bySubagent
      ensures Describes(report, d, ps)
    {
      RecordsOfWalk(d, ps);
      var totalTokens, cacheReadPct := TokenTotalsOf(byModelTokens);
      var byModel := ByModelRows(byModelTokens, byModelCost);
      var subagents := SubagentTable(Lines(d, ps));
      report := Report(totalCostUSD, totalTokens, cacheReadPct, byModel, byChild, subagents, dropped);
    }
  }

  lemma MergeCostsOneMore(a: Costs, b: Costs, todo: set<string>, m: string)
    requires m in b && m in todo
    ensures var so := MergeCosts(a, Without(b, todo));
      MergeCosts(a, Without(b, todo - {m})) == so[m := CostAt(so, m) + b[m]]
  {}

  /** The loop of processUsageJSON over per_model, in map order. */
  method AddCosts(a: Costs, b: Costs) returns (c: Costs)
    ensures c == MergeCosts(a, b)
  {
    c := a;
    var todo := b.Keys;
    MergeCostsNone(a, b);
    while todo != {}
      invariant todo <= b.Keys && c == MergeCosts(a, Without(b, todo))
      decreases |todo|
    {
      var m :| m in todo;
      MergeCostsOneMore(a, b, todo, m);
      todo := todo - {m};
      c := c[m := CostAt(c, m) + b[m]];
    }
    assert Without(b, {}) == b;
  }

  lemma MergeCostsNone(a: Costs, b: Costs)
    ensures MergeCosts(a, Without(b, b.Keys)) == a
  {}

  // ---------------------------------------------------------------- the report

  datatype ModelUsage = ModelUsage(model: string, tokens: TokenTotals, costUSD: real)
  datatype SubagentUsage = SubagentUsage(name: string, usage: Usage)

  datatype Report = Report(
    totalCostUSD: real, tokenTypeTotals: TokenTotals, cacheReadPct: real,
    byModel: seq<ModelUsage>, byChild: seq<ChildUsage>, bySubagent: seq<SubagentUsage>, dropped: Dropped)

  function AddCost(u: Usage, usd: real): Usage {
    Usage(u.tokens, u.cost + usd, u.requests)
  }

  /** The breakdown after a residual is folded into one of its rows, if there is any. */
  function Reconciled(g: Breakdown, k: string, residual: real): Breakdown {
    if residual == 0.0 then g else g[k := AddCost(UsageAt(g, k), residual)]
  }

  function ModelRows(tokens: PerModel, costs: Costs, models: seq<string>): seq<ModelUsage> {
    seq(|models|, i requires 0 <= i < |models| =>
      ModelUsage(models[i], TokensOf(tokens, models[i]), CostAt(costs, models[i])))
  }

  function SubagentRows(g: Breakdown, names: seq<string>): seq<SubagentUsage> {
    if names == [] then []
    else SubagentRows(g, names[..|names| - 1]) + [SubagentUsage(names[|names| - 1], UsageAt(g, names[|names| - 1]))]
  }

  /** cache_read as a percentage of the input side, 0 if there is no input side. */
  predicate IsCacheReadPct(t: TokenTotals, pct: real) {
    var inputSide := t.input + t.cacheCreation + t.cacheRead;
    if inputSide > 0 then pct * inputSide as real == 100.0 * t.cacheRead as real else pct == 0.0
  }

  ghost predicate IsTokenTotal(t: TokenTotals, pm: PerModel) {
    exists models :: Lists(models, pm.Keys) && t == TokenSum(pm, models)
  }

  /** A row for each model in either map, by model id. */
  ghost predicate IsByModel(rows: seq<ModelUsage>, tokens: PerModel, costs: Costs) {
    exists models ::
      SortedListing(models, tokens.Keys + costs.Keys, ByName()) && rows == ModelRows(tokens, costs, models)
  }

  /** Dearer buckets first, equally dear ones by name. */
  function ByCost(g: Breakdown): (string, string) -> bool {
    (a: string, b: string) =>
      UsageAt(g, a).cost > UsageAt(g, b).cost || (UsageAt(g, a).cost == UsageAt(g, b).cost && Less(a, b))
  }

  lemma ByCostIsTotal(g: Breakdown)
    ensures TotalOrder(ByCost(g))
  {
    ByNameIsTotal();
    var less, name := ByCost(g), ByName();
    forall a: string ensures !less(a, a) { assert !name(a, a); }
    forall a: string, b: string, c: string | less(a, b) && less(b, c) ensures less(a, c) {
      assert name(a, b) && name(b, c) ==> name(a, c);
    }
    forall a: string, b: string | a != b ensures less(a, b) || less(b, a) { assert name(a, b) || name(b, a); }
  }

  /** A row for each bucket, in that order. */
  ghost predicate IsBySubagent(rows: seq<SubagentUsage>, g: Breakdown) {
    exists names :: SortedListing(names, g.Keys, ByCost(g)) && rows == SubagentRows(g, names)
  }

  /** The report built from the walk over ps. */
  ghost predicate Describes(r: Report, d: Disk, ps: seq<Path>) {
    var lines := Lines(d, ps);
    && r.totalCostUSD == TreeCost(d, ps) && r.dropped == DroppedBy(d, ps) && r.byChild == Rows(d, ps)
    && IsTokenTotal(r.tokenTypeTotals, PerModelTokens(Logs(d, ps)))
    && IsCacheReadPct(r.tokenTypeTotals, r.cacheReadPct)
    && IsByModel(r.byModel, PerModelTokens(Logs(d, ps)), ModelCosts(d, ps))
    && IsBySubagent(r.bySubagent, Buckets(lines, r.totalCostUSD))
  }

  /** The reconciled buckets of a tree that cost so much. */
  function Buckets(lines: seq<Line>, totalCostUSD: real): Breakdown {
    Reconciled(GroupBy(ByBucketKey(), lines), MAIN, Residual(lines, totalCostUSD))
  }

  /** The part of a cost that the lines do not explain. */
  function Residual(lines: seq<Line>, usd: real): real {
    usd - Total(lines).cost
  }

  function TokenSum(pm: PerModel, models: seq<string>): TokenTotals {
    if models == [] then NO_TOKENS else Plus(TokenSum(pm, models[..|models| - 1]), TokensOf(pm, models[|models| - 1]))
  }

  function ByModelTokens(rows: seq<ModelUsage>): TokenTotals {
    if rows == [] then NO_TOKENS else Plus(ByModelTokens(rows[..|rows| - 1]), rows[|rows| - 1].tokens)
  }

  function ByModelCost(rows: seq<ModelUsage>): real {
    if rows == [] then 0.0 else ByModelCost(rows[..|rows| - 1]) + rows[|rows| - 1].costUSD
  }

  function BySubagentUsage(rows: seq<SubagentUsage>): Usage {
    if rows == [] then NO_USAGE else Join(BySubagentUsage(rows[..|rows| - 1]), rows[|rows| - 1].usage)
  }

  /** The first loop of buildUsageReport, over the map in some order, and the percentage. */
  method TokenTotalsOf(pm: PerModel) returns (t: TokenTotals, pct: real)
    ensures IsTokenTotal(t, pm)
    ensures IsCacheReadPct(t, pct)
  {
    t := NO_TOKENS;
    var models := KeysOf(pm.Keys);
    for i := 0 to |models|
      invariant t == TokenSum(pm, models[..i])
    {
      assert models[..i + 1][..i] == models[..i];
      t := Plus(t, TokensOf(pm, models[i]));
    }
    assert models[..|models|] == models;
    var inputSide := t.input + t.cacheCreation + t.cacheRead;
    pct := if inputSide > 0 then t.cacheRead as real / inputSide as real * 100.0 else 0.0;
    if inputSide > 0 {
      QuotientTimes(t.cacheRead as real, inputSide as real);
    }
  }

  method ByModelRows(tokens: PerModel, costs: Costs) returns (rows: seq<ModelUsage>)
    ensures IsByModel(rows, tokens, costs)
  {
    ByNameIsTotal();
    var models := SortedKeys(tokens.Keys + costs.Keys, ByName());
    rows := ModelRows(tokens, costs, models);
  }

  method BySubagentRows(g: Breakdown) returns (rows: seq<SubagentUsage>)
    ensures IsBySubagent(rows, g)
  {
    ByCostIsTotal(g);
    var names := SortedKeys(g.Keys, ByCost(g));
    rows := SubagentRows(g, names);
  }

  lemma QuotientTimes(x: real, y: real)
    requires y > 0.0
    ensures x / y * 100.0 * y == 100.0 * x
  {}

  // ---------------------------------------------------------------- conservation

  lemma {:induction false} TokenSumIsColumn(g: Breakdown, names: seq<string>)
    ensures TokenSum(TokenColumn(g), names) == SumOf(g, names).tokens
  {
    if names != [] {
      TokenSumIsColumn(g, names[..|names| - 1]);
    }
  }

  lemma {:induction false} ModelRowsAddUp(tokens: PerModel, costs: Costs, models: seq<string>)
    ensures ByModelTokens(ModelRows(tokens, costs, models)) == TokenSum(tokens, models)
    ensures ByModelCost(ModelRows(tokens, costs, models)) == CostSum(costs, models)
  {
    if models != [] {
      ModelRowsAddUp(tokens, costs, models[..|models| - 1]);
      assert ModelRows(tokens, costs, models)[..|models| - 1] == ModelRows(tokens, costs, models[..|models| - 1]);
    }
  }

  lemma BySubagentSnoc(rows: seq<SubagentUsage>, row: SubagentUsage)
    ensures BySubagentUsage(rows + [row]) == Join(BySubagentUsage(rows), row.usage)
  {}

  lemma {:induction false} SubagentRowsAddUp(g: Breakdown, names: seq<string>)
    ensures BySubagentUsage(SubagentRows(g, names)) == SumOf(g, names)
  {
    if names != [] {
      var init, n := names[..|names| - 1], names[|names| - 1];
      SubagentRowsAddUp(g, init);
      BySubagentSnoc(SubagentRows(g, init), SubagentUsage(n, UsageAt(g, n)));
    }
  }

  /** Per-model token sums over any listing that has every model are the lines' total. */
  lemma TokenSumIsTotal(lines: seq<Line>, models: seq<string>)
    requires Distinct(models) && forall m <- PerModelTokens(RecordsOf(lines)) :: m in models
    ensures TokenSum(PerModelTokens(RecordsOf(lines)), models) == Total(lines).tokens
  {
    var g := GroupBy(ByModelKey(), lines);
    TokenColumnIsPerModel(lines);
    forall m | m in g ensures m in models {
      assert m in TokenColumn(g);
    }
    TokenSumIsColumn(g, models);
    BreakdownAddsUp(ByModelKey(), lines, models);
  }

  lemma ReconciledAddsUp(g: Breakdown, k: string, residual: real, names: seq<string>)
    requires Distinct(names) && forall n <- Reconciled(g, k, residual) :: n in names
    ensures SumOf(Reconciled(g, k, residual), names) == AddCost(SumOf(g, names), residual)
  {
    if residual != 0.0 {
      assert k in Reconciled(g, k, residual);
      RowReplaced(g, k, AddCost(UsageAt(g, k), residual), names);
    }
  }

  /**
   * Whatever the tree, the rows of each breakdown add up to the same token totals, the
   * subagent rows to the total cost and to the number of log lines, the per-node rows to the
   * total cost; there is one of those per visited node.
   */
  lemma ReportConserves(r: Report, d: Disk, ps: seq<Path>)
    requires Describes(r, d, ps)
    ensures r.tokenTypeTotals == Total(Lines(d, ps)).tokens
    ensures ByModelTokens(r.byModel) == r.tokenTypeTotals
    ensures RowTokens(r.byChild) == r.tokenTypeTotals && RowCosts(r.byChild) == r.totalCostUSD
    ensures |r.byChild| == |ps|
    ensures BySubagentUsage(r.bySubagent) == Usage(r.tokenTypeTotals, r.totalCostUSD, |Lines(d, ps)|)
  {
    RowTokensAddUp(d, ps);
    RowCostsAddUp(d, ps);
    ModelsConserve(r, d, ps);
    SubagentsConserve(r.bySubagent, Lines(d, ps), r.totalCostUSD);
  }

  lemma ModelsConserve(r: Report, d: Disk, ps: seq<Path>)
    requires Describes(r, d, ps)
    ensures r.tokenTypeTotals == Total(Lines(d, ps)).tokens == ByModelTokens(r.byModel)
  {
    var lines := Lines(d, ps);
    var tokens, costs := PerModelTokens(Logs(d, ps)), ModelCosts(d, ps);
    RecordsOfWalk(d, ps);
    var all :| Lists(all, tokens.Keys) && r.tokenTypeTotals == TokenSum(tokens, all);
    TokenSumIsTotal(lines, all);
    var models :| SortedListing(models, tokens.Keys + costs.Keys, ByName())
                  && r.byModel == ModelRows(tokens, costs, models);
    TokenSumIsTotal(lines, models);
    ModelRowsAddUp(tokens, costs, models);
  }

  /** The rows of a table add up to its breakdown, summed over the keys the table lists. */
  lemma TableAddsUp(rows: seq<SubagentUsage>, g: Breakdown) returns (names: seq<string>)
    requires IsBySubagent(rows, g)
    ensures Distinct(names) && (forall n <- g :: n in names) && BySubagentUsage(rows) == SumOf(g, names)
  {
    names :| SortedListing(names, g.Keys, ByCost(g)) && rows == SubagentRows(g, names);
    SubagentRowsAddUp(g, names);
  }

  lemma ReconciledTableAddsUp(rows: seq<SubagentUsage>, lines: seq<Line>, k: string, residual: real)
    requires IsBySubagent(rows, Reconciled(GroupBy(ByBucketKey(), lines), k, residual))
    ensures BySubagentUsage(rows) == AddCost(Total(lines), residual)
  {
    var names := TableAddsUp(rows, Reconciled(GroupBy(ByBucketKey(), lines), k, residual));
    BucketsConserve(lines, k, residual, names);
  }

  lemma SubagentTableAddsUp(rows: seq<SubagentUsage>, lines: seq<Line>, usd: real)
    requires IsBySubagent(rows, Buckets(lines, usd))
    ensures BySubagentUsage(rows) == AddCost(Total(lines), Residual(lines, usd))
  {
    ReconciledTableAddsUp(rows, lines, MAIN, Residual(lines, usd));
  }

  lemma SubagentsConserve(rows: seq<SubagentUsage>, lines: seq<Line>, usd: real)
    requires IsBySubagent(rows, Buckets(lines, usd))
    ensures BySubagentUsage(rows) == Usage(Total(lines).tokens, usd, |lines|)
  {
    SubagentTableAddsUp(rows, lines, usd);
    TotalWithCost(lines, usd);
  }

  lemma TotalWithCost(lines: seq<Line>, usd: real)
    ensures AddCost(Total(lines), Residual(lines, usd)) == Usage(Total(lines).tokens, usd, |lines|)
  {
    TotalCounts(lines);
  }

  lemma BucketsConserve(lines: seq<Line>, k: string, residual: real, names: seq<string>)
    requires Distinct(names) && forall n <- Reconciled(GroupBy(ByBucketKey(), lines), k, residual) :: n in names
    ensures SumOf(Reconciled(GroupBy(ByBucketKey(), lines), k, residual), names)
         == AddCost(Total(lines), residual)
  {
    var g := GroupBy(ByBucketKey(), lines);
    assert forall n <- g :: n in Reconciled(g, k, residual);
    ReconciledAddsUp(g, k, residual, names);
    BreakdownAddsUp(ByBucketKey(), lines, names);
  }

  /** With itemised usage.json files the per-model costs add up to the total as well. */
  lemma ModelCostsConserve(r: Report, d: Disk, ps: seq<Path>)
    requires Describes(r, d, ps) && forall q <- ps :: Itemised(d, q)
    ensures ByModelCost(r.byModel) == r.totalCostUSD
  {
    var tokens, costs := PerModelTokens(Logs(d, ps)), ModelCosts(d, ps);
    var models :| SortedListing(models, tokens.Keys + costs.Keys, ByName())
                  && r.byModel == ModelRows(tokens, costs, models);
    ModelRowsAddUp(tokens, costs, models);
    ModelCostsAddUp(d, ps, models);
  }

  // ---------------------------------------------------------------- the residual

  /** Cost of a node not explained by list prices of its log lines. */
  function NodeResidual(d: Disk, p: Path): real {
    Residual(NodeLines(d, p), NodeCost(d, p))
  }

  function Residuals(d: Disk, ps: seq<Path>): real {
    if ps == [] then 0.0 else Residuals(d, ps[..|ps| - 1]) + NodeResidual(d, ps[|ps| - 1])
  }

  /** The residual folded into "(main)" is the sum of the nodes' residuals. */
  lemma {:induction false} ResidualIsPerNode(d: Disk, ps: seq<Path>)
    ensures Residual(Lines(d, ps), TreeCost(d, ps)) == Residuals(d, ps)
  {
    if ps != [] {
      ResidualIsPerNode(d, ps[..|ps| - 1]);
      TotalAppend(Lines(d, ps[..|ps| - 1]), NodeLines(d, ps[|ps| - 1]));
    }
  }

  /** usage.json as snapshotLocked writes it; models is the listing its cost loop ran over. */
  function SnapshotOf<TC>(v: Vendor<TC>, calls: seq<Call<TC>>, models: seq<string>): UsageJson {
    var t := AfterCalls(v, calls);
    UsageJson(CostOver(v, t.perModel, models), map m | m in t.perModel :: v.cost(m, t.perModel[m]),
              t.parseErrors, t.noUsageBlock)
  }

  /**
   * The node's files are those a tracker of vendor v left after these calls. usage.json is
   * written by the first of them: an idle proxy leaves none.
   */
  ghost predicate LeftBy<TC>(v: Vendor<TC>, f: Files, calls: seq<Call<TC>>, models: seq<string>) {
    && Lists(models, AfterCalls(v, calls).perModel.Keys)
    && f.usage == (if calls == [] then None else Some(SnapshotOf(v, calls, models)))
    && (if f.log.Some? then f.log.value else []) == LogOf(v, calls)
  }

  ghost predicate FromTracker<TC(!new)>(v: Vendor<TC>, f: Files) {
    exists calls, models :: LeftBy(v, f, calls, models)
  }

  lemma {:induction false} LoggedCostIsCallCost(f: Files, calls: seq<Call<AnthropicCounts>>)
    ensures Total(LinesOf(f, LogOf(ANTHROPIC, calls))).cost == CostOfCalls(ANTHROPIC, calls)
  {
    if calls != [] {
      var init, last := calls[..|calls| - 1], calls[|calls| - 1];
      LoggedCostIsCallCost(f, init);
      var log := LogOf(ANTHROPIC, init);
      if last.Add? {
        var rec := Record(last.requestId, NameOf(last.model), ANTHROPIC.tokens(last.counts));
        assert ListPrice(rec) == ANTHROPIC.cost(rec.model, last.counts);
        assert (log + [rec])[..|log|] == log;
        var lines, l := LinesOf(f, log), LineOf(f, rec);
        OneLineMore(lines, l);
      } else {
        assert LogOf(ANTHROPIC, calls) == log;
      }
    }
  }

  /** A node served by the Anthropic proxy leaves no residual. */
  lemma AnthropicNodeHasNoResidual(d: Disk, p: Path)
    requires FromTracker(ANTHROPIC, At(d, p))
    ensures NodeResidual(d, p) == 0.0
  {
    var calls, models :| LeftBy(ANTHROPIC, At(d, p), calls, models);
    VendorsAreLinear();
    SnapshotCostIsSumOfRequests(ANTHROPIC, calls, models);
    LoggedCostIsCallCost(At(d, p), calls);
  }

  /** In a tree served by the Anthropic proxy nothing is folded into "(main)". */
  lemma {:induction false} AnthropicTreeHasNoResidual(d: Disk, ps: seq<Path>)
    requires forall q <- ps :: FromTracker(ANTHROPIC, At(d, q))
    ensures Total(Lines(d, ps)).cost == TreeCost(d, ps)
    ensures Buckets(Lines(d, ps), TreeCost(d, ps)) == GroupBy(ByBucketKey(), Lines(d, ps))
  {
    ResidualIsPerNode(d, ps);
    NoResiduals(d, ps);
  }

  lemma {:induction false} NoResiduals(d: Disk, ps: seq<Path>)
    requires forall q <- ps :: FromTracker(ANTHROPIC, At(d, q))
    ensures Residuals(d, ps) == 0.0
  {
    if ps != [] {
      assert ps[|ps| - 1] in ps;
      AnthropicNodeHasNoResidual(d, ps[|ps| - 1]);
      NoResiduals(d, ps[..|ps| - 1]);
    }
  }

  lemma {:induction false} UnpricedLinesCostNothing(f: Files, recs: seq<Record>)
    requires forall r <- recs :: LookupPricing(ANTHROPIC_CATALOG, r.model).None?
    ensures Total(LinesOf(f, recs)).cost == 0.0
  {
    if recs != [] {
      var init, last := recs[..|recs| - 1], recs[|recs| - 1];
      assert last in recs;
      UnpricedLinesCostNothing(f, init);
      OneLineMore(LinesOf(f, init), LineOf(f, last));
    }
  }

  /** A node is residual in full if and only if its lines' list prices add up to nothing. */
  lemma UnpricedNodeIsResidual(d: Disk, p: Path)
    ensures NodeResidual(d, p) == NodeCost(d, p) <==> Total(NodeLines(d, p)).cost == 0.0
    ensures (forall r <- Log(d, p) :: LookupPricing(ANTHROPIC_CATALOG, r.model).None?)
              ==> NodeResidual(d, p) == NodeCost(d, p)
  {
    if forall r <- Log(d, p) :: LookupPricing(ANTHROPIC_CATALOG, r.model).None? {
      UnpricedLinesCostNothing(At(d, p), Log(d, p));
    }
  }

  /** What either proxy writes is itemised. */
  lemma TrackerFilesAreItemised<TC(!new)>(v: Vendor<TC>, d: Disk, p: Path)
    requires Linear(v) && FromTracker(v, At(d, p))
    ensures Itemised(d, p)
  {
    var calls, listed :| LeftBy(v, At(d, p), calls, listed);
    var pm := AfterCalls(v, calls).perModel;
    SnapshotCostIsSumOfRequests(v, calls, listed);
    forall models: seq<string> | Distinct(models) && forall m <- NodeCosts(d, p) :: m in models
      ensures CostSum(NodeCosts(d, p), models) == NodeCost(d, p)
    {
      forall m | m in pm ensures m in models {
        assert m in NodeCosts(d, p);
      }
      SnapshotCostIsSumOfRequests(v, calls, models);
      CostSumIsCostOver(v, pm, models);
    }
  }

  lemma {:induction false} CostSumIsCostOver<TC(!new)>(v: Vendor<TC>, pm: map<string, TC>, models: seq<string>)
    requires Linear(v)
    ensures CostSum(map m | m in pm :: v.cost(m, pm[m]), models) == CostOver(v, pm, models)
  {
    if models != [] {
      CostSumIsCostOver(v, pm, models[..|models| - 1]);
    }
  }

  // ---------------------------------------------------------------- top-down and bottom-up

  /** UsageReport, from the resolved directory. */
  method MakeReport(d: Disk, root: Path) returns (report: Report)
    ensures Describes(report, d, Visits(d, root))
  {
    var acc := new Accumulator();
    acc.WalkUsageNode(d, root, []);
    assert [] + Visits(d, root) == Visits(d, root);
    report := acc.BuildUsageReport(d, Visits(d, root));
  }

  /**
   * The report from a finished node agrees with the results.json written there, if every
   * visited node's cost was unchanged between its reading and its copying and no child
   * finished between two passes of its parent.
   */
  lemma ReportAgreesWithResults(s: Rollup.State, p: Path, r: Report)
    requires Rollup.Reachable(s) && Rollup.Finished(s.disk, p) && Describes(r, s.disk, Visits(s.disk, p))
    requires forall q <- Visits(s.disk, p) ::
      Rollup.OwnOf(s.disk, q) == NodeCost(s.disk, q) && Rollup.LateOf(s, q) == []
    ensures r.totalCostUSD == At(s.disk, p).results.value.totalUSD
    ensures SameModels(r.byModel, At(s.disk, p).results.value.tokens)
  {
    Rollup.WrittenTotalIsWalkCost(s, p);
    Rollup.WrittenTokensAreWalkTokens(s, p);
    ModelTableHasTokens(r.byModel, Rollup.WalkTokens(s.disk, p), ModelCosts(s.disk, Visits(s.disk, p)));
  }

  /** The rows have the written tokens, a row without written tokens has none, every written model has a row. */
  ghost predicate SameModels(rows: seq<ModelUsage>, tokens: PerModel) {
    && (forall row <- rows :: row.tokens == TokensOf(tokens, row.model))
    && (forall m <- tokens :: exists row <- rows :: row.model == m)
  }

  lemma ModelTableHasTokens(rows: seq<ModelUsage>, tokens: PerModel, costs: Costs)
    requires IsByModel(rows, tokens, costs)
    ensures SameModels(rows, tokens)
  {
    var models :| SortedListing(models, tokens.Keys + costs.Keys, ByName()) && rows == ModelRows(tokens, costs, models);
    forall m | m in tokens ensures exists row <- rows :: row.model == m {
      assert m in tokens.Keys + costs.Keys;
      assert m in models;
      var i :| 0 <= i < |models| && models[i] == m;
      assert rows[i] in rows;
    }
  }

  // ---------------------------------------------------------------- one report only

  lemma SamePct(t: TokenTotals, a: real, b: real)
    requires IsCacheReadPct(t, a) && IsCacheReadPct(t, b)
    ensures a == b
  {
    var inputSide := t.input + t.cacheCreation + t.cacheRead;
    if inputSide > 0 {
      var x := inputSide as real;
      assert (a - b) * x == a * x - b * x == 0.0;
    }
  }

  lemma SameFigures(r: Report, r': Report, d: Disk, ps: seq<Path>)
    requires Describes(r, d, ps) && Describes(r', d, ps)
    ensures r.totalCostUSD == r'.totalCostUSD && r.byChild == r'.byChild && r.dropped == r'.dropped
    ensures r.tokenTypeTotals == r'.tokenTypeTotals && r.cacheReadPct == r'.cacheReadPct
  {
    ModelsConserve(r, d, ps);
    ModelsConserve(r', d, ps);
    SamePct(r.tokenTypeTotals, r.cacheReadPct, r'.cacheReadPct);
  }

  /** Although it reads maps in whatever order they yield, the report is determined by the files. */
  lemma ReportIsDetermined(r: Report, r': Report, d: Disk, ps: seq<Path>)
    requires Describes(r, d, ps) && Describes(r', d, ps)
    ensures r == r'
  {
    SameFigures(r, r', d, ps);
    assert r.byModel == r'.byModel by {
      SameByModel(r.byModel, r'.byModel, PerModelTokens(Logs(d, ps)), ModelCosts(d, ps));
    }
    assert r.bySubagent == r'.bySubagent by {
      SameBySubagent(r.bySubagent, r'.bySubagent, Buckets(Lines(d, ps), r.totalCostUSD));
    }
  }

  lemma SameByModel(a: seq<ModelUsage>, b: seq<ModelUsage>, tokens: PerModel, costs: Costs)
    requires IsByModel(a, tokens, costs) && IsByModel(b, tokens, costs)
    ensures a == b
  {
    var keys := tokens.Keys + costs.Keys;
    var m :| SortedListing(m, keys, ByName()) && a == ModelRows(tokens, costs, m);
    var n :| SortedListing(n, keys, ByName()) && b == ModelRows(tokens, costs, n);
    ByNameIsTotal();
    OneSortedListing(m, n, keys, ByName());
  }

  lemma SameBySubagent(a: seq<SubagentUsage>, b: seq<SubagentUsage>, g: Breakdown)
    requires IsBySubagent(a, g) && IsBySubagent(b, g)
    ensures a == b
  {
    var m :| SortedListing(m, g.Keys, ByCost(g)) && a == SubagentRows(g, m);
    var n :| SortedListing(n, g.Keys, ByCost(g)) && b == SubagentRows(g, n);
    ByCostIsTotal(g);
    OneSortedListing(m, n, g.Keys, ByCost(g));
  }
}
