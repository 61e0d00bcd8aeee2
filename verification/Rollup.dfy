// The bottom-up roll-up of usage into results.json (internal/sandbox/results.go) as runs of
// a tree of agents finish in any order, and its agreement with a walk from the top.
//
// The proxy keeps its own usage.json and usage.jsonl while it serves. finishAgentRun reads
// the cost from there, copies both files into /out, sums the children's costs in one pass
// over /out/child and their tokens in another, and writes results.json. Each of these is a
// step of its own here, so the proxy serves and other nodes finish in between.

module Rollup {
  import opened Common
  import opened Tracker
  import opened OutputTree
  import opened Paths

  /** The proxy's own files; usage.json is missing until its first call. */
  datatype Proxy = Proxy(usage: Option<UsageJson>, log: Option<seq<Record>>)

  const NO_PROXY_FILES := Proxy(None, None)

  function ProxyCost(x: Proxy): real {
    if x.usage.Some? then x.usage.value.costUSD else 0.0
  }

  /** Where a node's finishAgentRun stands. */
  datatype Phase =
    | Active                                               // the agent is running
    | OwnRead(own: real)                                   // readUsageSnapshot done
    | UsageCopied(own: real)                               // copyUsageToOut has done usage.json
    | Copied(own: real)                                    // and usage.jsonl
    | CostsSummed(own: real, names: seq<string>, childTotal: real)
    | TokensSummed(own: real, names: seq<string>, childTotal: real, late: seq<string>, tokens: PerModel)
    | Written(late: seq<string>)

  datatype State = State(disk: Disk, phase: map<Path, Phase>, proxy: map<Path, Proxy>)

  const INIT := State(map[], map[], map[])

  datatype Label =
    | Create(p: Path)
    | Serve(p: Path, files: Proxy)
    | ReadOwn(p: Path)
    | CopyUsage(p: Path)
    | CopyLog(p: Path, attribution: Option<map<string, string>>)
    | SumCosts(p: Path, names: seq<string>)
    | SumTokens(p: Path, late: seq<string>)
    | WriteResults(p: Path, name: string, depth: int)

  predicate Finished(d: Disk, p: Path) {
    At(d, p).results.Some?
  }

  /**
   * The children a pass over /out/child may count: directories whose results.json it could
   * read. A pass that takes a while may miss one that appears meanwhile, so any selection of
   * the finished children is allowed, each once.
   */
  predicate Selection(d: Disk, p: Path, names: seq<string>) {
    && (forall i :: 0 <= i < |names| ==> Finished(d, Child(p, names[i])))
    && (forall i, j :: 0 <= i < j < |names| ==> names[i] != names[j])
  }

  function ChildTotals(d: Disk, p: Path, names: seq<string>): real {
    if names == [] then 0.0
    else
      var c := At(d, Child(p, names[|names| - 1]));
      ChildTotals(d, p, names[..|names| - 1]) + (if c.results.Some? then c.results.value.totalUSD else 0.0)
  }

  function ChildTokens(d: Disk, p: Path, names: seq<string>): PerModel {
    if names == [] then map[]
    else
      var c := At(d, Child(p, names[|names| - 1]));
      Merge(ChildTokens(d, p, names[..|names| - 1]), if c.results.Some? then c.results.value.tokens else map[])
  }

  /** The proxy's cost never falls, and its files do not go away. */
  predicate Grows(was: Proxy, now: Proxy) {
    && ProxyCost(was) <= ProxyCost(now) && (was.usage.Some? ==> now.usage.Some?)
    && (was.log.Some? ==> now.log.Some? && was.log.value <= now.log.value)
  }

  predicate Enabled(s: State, l: Label) {
    if l.Create? then l.p !in s.disk
    else
      l.p in s.disk && l.p in s.phase && l.p in s.proxy &&
      match l
      case Serve(p, files) => Grows(s.proxy[p], files)
      case ReadOwn(p) => s.phase[p].Active?
      case CopyUsage(p) => s.phase[p].OwnRead?
      case CopyLog(p, _) => s.phase[p].UsageCopied?
      case SumCosts(p, names) => s.phase[p].Copied? && Selection(s.disk, p, names)
      // The second pass finds the children of the first again, and the late ones.
      case SumTokens(p, late) => s.phase[p].CostsSummed? && Selection(s.disk, p, s.phase[p].names + late)
      case WriteResults(p, _, _) => s.phase[p].TokensSummed?
  }

  function Apply(s: State, l: Label): State
    requires Enabled(s, l)
  {
    match l
    case Create(p) => State(s.disk[p := NO_FILES], s.phase[p := Active], s.proxy[p := NO_PROXY_FILES])
    case Serve(p, files) => s.(proxy := s.proxy[p := files])
    case ReadOwn(p) => s.(phase := s.phase[p := OwnRead(ProxyCost(s.proxy[p]))])
    case CopyUsage(p) =>
      s.(disk := s.disk[p := s.disk[p].(usage := s.proxy[p].usage)], phase := s.phase[p := UsageCopied(s.phase[p].own)])
    case CopyLog(p, attribution) =>
      s.(disk := s.disk[p := s.disk[p].(log := s.proxy[p].log, attribution := attribution)],
         phase := s.phase[p := Copied(s.phase[p].own)])
    case SumCosts(p, names) =>
      s.(phase := s.phase[p := CostsSummed(s.phase[p].own, names, ChildTotals(s.disk, p, names))])
    case SumTokens(p, late) =>
      var ph := s.phase[p];
      var tokens := Merge(PerModelTokens(Log(s.disk, p)), ChildTokens(s.disk, p, ph.names + late));
      s.(phase := s.phase[p := TokensSummed(ph.own, ph.names, ph.childTotal, late, tokens)])
    case WriteResults(p, name, depth) =>
      var ph := s.phase[p];
      var r := Results(name, depth, ph.own, ph.own + ph.childTotal, ph.names, ph.tokens);
      s.(disk := s.disk[p := s.disk[p].(results := Some(r))], phase := s.phase[p := Written(ph.late)])
  }

  /** A run from the start: every label is enabled where it is taken. */
  ghost predicate Legal(ls: seq<Label>)
    decreases |ls|, 0
  {
    ls == [] || (Legal(ls[..|ls| - 1]) && Enabled(Exec(ls[..|ls| - 1]), ls[|ls| - 1]))
  }

  ghost function Exec(ls: seq<Label>): State
    requires Legal(ls)
    decreases |ls|, 1
  {
    if ls == [] then INIT else Apply(Exec(ls[..|ls| - 1]), ls[|ls| - 1])
  }

  ghost predicate Reachable(s: State) {
    exists ls :: Legal(ls) && Exec(ls) == s
  }

  // ---------------------------------------------------------------- what every step keeps

  /** The numbers gathered so far still are what the disk says; the own cost is no more than the copied one. */
  predicate NodeInv(s: State, p: Path)
    requires p in s.disk && p in s.phase && p in s.proxy
  {
    var f := s.disk[p];
    && (f.results.Some? <==> s.phase[p].Written?)
    && match s.phase[p]
       case Active => true
       case OwnRead(own) => own <= ProxyCost(s.proxy[p])
       case UsageCopied(own) => own <= NodeCost(s.disk, p)
       case Copied(own) => own <= NodeCost(s.disk, p)
       case CostsSummed(own, names, total) =>
         && Selection(s.disk, p, names) && total == ChildTotals(s.disk, p, names)
         && own <= NodeCost(s.disk, p)
       case TokensSummed(own, names, total, late, tokens) =>
         && Selection(s.disk, p, names + late) && Selection(s.disk, p, names)
         && total == ChildTotals(s.disk, p, names)
         && tokens == Merge(PerModelTokens(Log(s.disk, p)), ChildTokens(s.disk, p, names + late))
         && own <= NodeCost(s.disk, p)
       case Written(late) =>
         var r := f.results.value;
         && Selection(s.disk, p, r.children + late) && Selection(s.disk, p, r.children)
         && r.totalUSD == r.ownUSD + ChildTotals(s.disk, p, r.children)
         && r.tokens == Merge(PerModelTokens(Log(s.disk, p)), ChildTokens(s.disk, p, r.children + late))
         && r.ownUSD <= NodeCost(s.disk, p)
  }

  predicate Inv(s: State) {
    && s.disk.Keys == s.phase.Keys == s.proxy.Keys
    && (forall p <- s.disk :: NodeInv(s, p))
  }

  /** A finished node's files never change again; the log of a copied node neither. */
  predicate Keeps(d: Disk, d': Disk, p: Path) {
    Finished(d, p) ==> At(d', p) == At(d, p)
  }

  lemma {:induction false} SelectionKept(d: Disk, d': Disk, p: Path, names: seq<string>)
    requires Selection(d, p, names) && forall q: Path :: Keeps(d, d', q)
    ensures Selection(d', p, names)
    ensures ChildTotals(d', p, names) == ChildTotals(d, p, names)
    ensures ChildTokens(d', p, names) == ChildTokens(d, p, names)
  {
    forall i | 0 <= i < |names| ensures Finished(d', Child(p, names[i])) {
      assert Keeps(d, d', Child(p, names[i]));
    }
    if names != [] {
      assert Keeps(d, d', Child(p, names[|names| - 1]));
      SelectionKept(d, d', p, names[..|names| - 1]);
    }
  }

  lemma StepKeepsFinished(s: State, l: Label)
    requires Inv(s) && Enabled(s, l)
    ensures forall q: Path :: Keeps(s.disk, Apply(s, l).disk, q)
  {}

  lemma OtherNodeKept(s: State, s': State, p: Path)
    requires p in s.disk && p in s.phase && p in s.proxy && NodeInv(s, p)
    requires p in s'.disk && p in s'.phase && p in s'.proxy
    requires s'.phase[p] == s.phase[p] && s'.disk[p] == s.disk[p] && Grows(s.proxy[p], s'.proxy[p])
    requires forall q: Path :: Keeps(s.disk, s'.disk, q)
    ensures NodeInv(s', p)
  {
    match s.phase[p] {
      case CostsSummed(_, names, _) => SelectionKept(s.disk, s'.disk, p, names);
      case TokensSummed(_, names, _, late, _) =>
        SelectionKept(s.disk, s'.disk, p, names);
        SelectionKept(s.disk, s'.disk, p, names + late);
      case Written(late) =>
        SelectionKept(s.disk, s'.disk, p, s.disk[p].results.value.children);
        SelectionKept(s.disk, s'.disk, p, s.disk[p].results.value.children + late);
      case _ =>
    }
  }

  lemma WriteKept(s: State, p: Path, name: string, depth: int)
    requires Enabled(s, WriteResults(p, name, depth)) && NodeInv(s, p)
    ensures NodeInv(Apply(s, WriteResults(p, name, depth)), p)
  {
    var s' := Apply(s, WriteResults(p, name, depth));
    assert forall q: Path :: Keeps(s.disk, s'.disk, q);
    SelectionKept(s.disk, s'.disk, p, s.phase[p].names);
    SelectionKept(s.disk, s'.disk, p, s.phase[p].names + s.phase[p].late);
  }

  lemma SumTokensKept(s: State, p: Path, late: seq<string>)
    requires Enabled(s, SumTokens(p, late)) && NodeInv(s, p)
    ensures NodeInv(Apply(s, SumTokens(p, late)), p)
  {}

  lemma OwnNodeKept(s: State, l: Label)
    requires Enabled(s, l) && (!l.Create? ==> NodeInv(s, l.p))
    ensures NodeInv(Apply(s, l), l.p)
  {
    match l {
      case WriteResults(p, name, depth) => WriteKept(s, p, name, depth);
      case SumTokens(p, late) => SumTokensKept(s, p, late);
      case _ =>
    }
  }

  lemma InvKept(s: State, l: Label)
    requires Inv(s) && Enabled(s, l)
    ensures Inv(Apply(s, l))
  {
    var s' := Apply(s, l);
    StepKeepsFinished(s, l);
    forall p | p in s'.disk ensures NodeInv(s', p) {
      if p == l.p && !l.Serve? {
        assert p in s.disk ==> NodeInv(s, p);
        OwnNodeKept(s, l);
      } else {
        assert NodeInv(s, p);
        OtherNodeKept(s, s', p);
      }
    }
  }

  lemma {:induction false} InvAlways(ls: seq<Label>)
    requires Legal(ls)
    ensures Inv(Exec(ls))
  {
    if ls != [] {
      InvAlways(ls[..|ls| - 1]);
      InvKept(Exec(ls[..|ls| - 1]), ls[|ls| - 1]);
    }
  }

  lemma ReachableInv(s: State)
    requires Reachable(s)
    ensures Inv(s)
  {
    var ls :| Legal(ls) && Exec(ls) == s;
    InvAlways(ls);
  }

  lemma ReachableStep(s: State, l: Label)
    requires Reachable(s) && Enabled(s, l)
    ensures Reachable(Apply(s, l))
  {
    var ls :| Legal(ls) && Exec(ls) == s;
    assert (ls + [l])[..|ls|] == ls;
    assert Legal(ls + [l]) && Exec(ls + [l]) == Apply(s, l);
  }

  // ---------------------------------------------------------------- bottom-up equals top-down

  function OwnOf(d: Disk, p: Path): real {
    if At(d, p).results.Some? then At(d, p).results.value.ownUSD else 0.0
  }

  function OwnCosts(d: Disk, ps: seq<Path>): real {
    if ps == [] then 0.0 else OwnCosts(d, ps[..|ps| - 1]) + OwnOf(d, ps[|ps| - 1])
  }

  lemma {:induction false} OwnCostsAppend(d: Disk, a: seq<Path>, b: seq<Path>)
    ensures OwnCosts(d, a + b) == OwnCosts(d, a) + OwnCosts(d, b)
    decreases |b|
  {
    if b == [] {
      assert a + b == a;
    } else {
      assert (a + b)[..|a + b| - 1] == a + b[..|b| - 1];
      OwnCostsAppend(d, a, b[..|b| - 1]);
    }
  }

  /** In a finished node the walk stays within finished nodes and the total is their own costs. */
  lemma {:induction false} TotalIsSumOfOwn(s: State, p: Path)
    requires Inv(s) && Finished(s.disk, p)
    ensures At(s.disk, p).results.value.totalUSD == OwnCosts(s.disk, Visits(s.disk, p))
    ensures forall q <- Visits(s.disk, p) :: Finished(s.disk, q)
    decreases Under(s.disk, p), 1, 0
  {
    assert NodeInv(s, p);
    var kids := ListedChildren(s.disk, p);
    assert [p][..0] == [] && OwnCosts(s.disk, [p]) == OwnCosts(s.disk, []) + OwnOf(s.disk, p);
    if kids != [] {
      TotalsAreSumsOfOwn(s, p, kids);
      OwnCostsAppend(s.disk, [p], VisitsAll(s.disk, p, kids));
    }
  }

  lemma {:induction false} TotalsAreSumsOfOwn(s: State, p: Path, names: seq<string>)
    requires Inv(s) && p in s.disk && Selection(s.disk, p, names)
    ensures ChildTotals(s.disk, p, names) == OwnCosts(s.disk, VisitsAll(s.disk, p, names))
    ensures forall q <- VisitsAll(s.disk, p, names) :: Finished(s.disk, q)
    decreases Under(s.disk, p), 0, |names|
  {
    if names != [] {
      var init, last := names[..|names| - 1], names[|names| - 1];
      UnderShrinks(s.disk, p, last);
      TotalsAreSumsOfOwn(s, p, init);
      TotalIsSumOfOwn(s, Child(p, last));
      OwnCostsAppend(s.disk, VisitsAll(s.disk, p, init), Visits(s.disk, Child(p, last)));
    }
  }

  /** What a full walk from p adds up over the usage.json files. */
  function WalkCost(d: Disk, p: Path): real {
    TreeCost(d, Visits(d, p))
  }

  /** What the proxy added to the nodes' costs between the reading and the copying, over a list. */
  function AddedSince(d: Disk, ps: seq<Path>): real {
    if ps == [] then 0.0
    else AddedSince(d, ps[..|ps| - 1]) + (NodeCost(d, ps[|ps| - 1]) - OwnOf(d, ps[|ps| - 1]))
  }

  lemma {:induction false} OwnPlusAdded(d: Disk, ps: seq<Path>)
    ensures TreeCost(d, ps) == OwnCosts(d, ps) + AddedSince(d, ps)
  {
    if ps != [] {
      OwnPlusAdded(d, ps[..|ps| - 1]);
    }
  }

  /** Costs only grow, so what was added is nothing only if no node's cost changed in between. */
  lemma {:induction false} NothingAddedIff(d: Disk, ps: seq<Path>)
    requires forall q <- ps :: OwnOf(d, q) <= NodeCost(d, q)
    ensures AddedSince(d, ps) >= 0.0
    ensures AddedSince(d, ps) == 0.0 <==> forall q <- ps :: OwnOf(d, q) == NodeCost(d, q)
  {
    if ps != [] {
      var init, last := ps[..|ps| - 1], ps[|ps| - 1];
      assert ps == init + [last];
      NothingAddedIff(d, init);
    }
  }

  /**
   * In every reachable state, whatever the order in which nodes finished and whichever late
   * children were missed, a written total is at most the walk's cost. The two are equal if
   * and only if no visited node's proxy added cost between the reading and the copying.
   */
  lemma WrittenTotalIsWalkCost(s: State, p: Path)
    requires Reachable(s) && Finished(s.disk, p)
    ensures At(s.disk, p).results.value.totalUSD <= WalkCost(s.disk, p)
    ensures At(s.disk, p).results.value.totalUSD == WalkCost(s.disk, p)
       <==> forall q <- Visits(s.disk, p) :: OwnOf(s.disk, q) == NodeCost(s.disk, q)
  {
    ReachableInv(s);
    TotalIsSumOfOwn(s, p);
    var ps := Visits(s.disk, p);
    forall q | q in ps ensures OwnOf(s.disk, q) <= NodeCost(s.disk, q) {
      assert NodeInv(s, q);
    }
    OwnPlusAdded(s.disk, ps);
    NothingAddedIff(s.disk, ps);
  }

  /** The children that finished between p's two passes over /out/child. */
  function LateOf(s: State, p: Path): seq<string> {
    if p in s.phase && s.phase[p].Written? then s.phase[p].late else []
  }

  /** The tokens of such late children, over the walk. */
  function LateTokens(s: State, ps: seq<Path>): PerModel {
    if ps == [] then map[]
    else
      var q := ps[|ps| - 1];
      Merge(LateTokens(s, ps[..|ps| - 1]), ChildTokens(s.disk, q, LateOf(s, q)))
  }

  lemma {:induction false} LateTokensAppend(s: State, a: seq<Path>, b: seq<Path>)
    ensures LateTokens(s, a + b) == Merge(LateTokens(s, a), LateTokens(s, b))
    decreases |b|
  {
    if b == [] {
      assert a + b == a;
      MergeEmpty(LateTokens(s, a));
    } else {
      var init, q := b[..|b| - 1], b[|b| - 1];
      assert (a + b)[..|a + b| - 1] == a + init;
      LateTokensAppend(s, a, init);
      MergeAssoc(LateTokens(s, a), LateTokens(s, init), ChildTokens(s.disk, q, LateOf(s, q)));
    }
  }

  lemma {:induction false} ChildTokensAppend(d: Disk, p: Path, a: seq<string>, b: seq<string>)
    ensures ChildTokens(d, p, a + b) == Merge(ChildTokens(d, p, a), ChildTokens(d, p, b))
    decreases |b|
  {
    if b == [] {
      assert a + b == a;
      MergeEmpty(ChildTokens(d, p, a));
    } else {
      var init := b[..|b| - 1];
      assert (a + b)[..|a + b| - 1] == a + init;
      ChildTokensAppend(d, p, a, init);
      var c := At(d, Child(p, b[|b| - 1]));
      var t := if c.results.Some? then c.results.value.tokens else map[];
      MergeAssoc(ChildTokens(d, p, a), ChildTokens(d, p, init), t);
    }
  }

  /** Walked tokens and late tokens of a list of nodes, together. */
  function Recorded(s: State, ps: seq<Path>): PerModel {
    Merge(PerModelTokens(Logs(s.disk, ps)), LateTokens(s, ps))
  }

  lemma RecordedAppend(s: State, a: seq<Path>, b: seq<Path>)
    ensures Recorded(s, a + b) == Merge(Recorded(s, a), Recorded(s, b))
  {
    LogsAppend(s.disk, a, b);
    PerModelAppend(Logs(s.disk, a), Logs(s.disk, b));
    LateTokensAppend(s, a, b);
    MergeSwap(PerModelTokens(Logs(s.disk, a)), PerModelTokens(Logs(s.disk, b)), LateTokens(s, a), LateTokens(s, b));
  }

  lemma RecordedOne(s: State, p: Path)
    ensures Recorded(s, [p]) == Merge(PerModelTokens(Log(s.disk, p)), ChildTokens(s.disk, p, LateOf(s, p)))
  {
    assert [p][..0] == [];
    assert Logs(s.disk, [p]) == Logs(s.disk, []) + Log(s.disk, p) == Log(s.disk, p);
    assert LateTokens(s, [p]) == Merge(LateTokens(s, []), ChildTokens(s.disk, p, LateOf(s, p)));
    MergeEmpty(ChildTokens(s.disk, p, LateOf(s, p)));
  }

  lemma {:induction false} TokensAreRecorded(s: State, p: Path)
    requires Inv(s) && Finished(s.disk, p)
    ensures At(s.disk, p).results.value.tokens == Recorded(s, Visits(s.disk, p))
    decreases Under(s.disk, p), 1, 0
  {
    assert NodeInv(s, p);
    var kids, late := ListedChildren(s.disk, p), LateOf(s, p);
    var own := PerModelTokens(Log(s.disk, p));
    RecordedOne(s, p);
    ChildTokensAppend(s.disk, p, kids, late);
    if kids == [] {
      MergeEmpty(ChildTokens(s.disk, p, late));
    } else {
      ChildrenTokensAreRecorded(s, p, kids);
      RecordedAppend(s, [p], VisitsAll(s.disk, p, kids));
      var k, t := ChildTokens(s.disk, p, kids), ChildTokens(s.disk, p, late);
      MergeComm(k, t);
      MergeAssoc(own, t, k);
    }
  }

  lemma {:induction false} ChildrenTokensAreRecorded(s: State, p: Path, names: seq<string>)
    requires Inv(s) && p in s.disk && Selection(s.disk, p, names)
    ensures ChildTokens(s.disk, p, names) == Recorded(s, VisitsAll(s.disk, p, names))
    decreases Under(s.disk, p), 0, |names|
  {
    if names != [] {
      var init, last := names[..|names| - 1], names[|names| - 1];
      UnderShrinks(s.disk, p, last);
      ChildrenTokensAreRecorded(s, p, init);
      TokensAreRecorded(s, Child(p, last));
      RecordedAppend(s, VisitsAll(s.disk, p, init), Visits(s.disk, Child(p, last)));
    }
  }

  /** What a full walk from p computes over the usage.jsonl files. */
  function WalkTokens(d: Disk, p: Path): PerModel {
    PerModelTokens(Logs(d, Visits(d, p)))
  }

  /**
   * In every reachable state a written token map is the walk's map plus the tokens of the
   * children that finished between the two passes of some node on the walk. It equals the
   * walk's map exactly when those late children add nothing: no new model and no tokens.
   */
  lemma WrittenTokensAreWalkTokens(s: State, p: Path)
    requires Reachable(s) && Finished(s.disk, p)
    ensures var walk, late := WalkTokens(s.disk, p), LateTokens(s, Visits(s.disk, p));
      && At(s.disk, p).results.value.tokens == Merge(walk, late)
      && (At(s.disk, p).results.value.tokens == walk
          <==> forall m <- late :: m in walk && late[m] == NO_TOKENS)
    ensures (forall q <- Visits(s.disk, p) :: LateOf(s, q) == [])
              ==> At(s.disk, p).results.value.tokens == WalkTokens(s.disk, p)
  {
    ReachableInv(s);
    TokensAreRecorded(s, p);
    var walk, late := WalkTokens(s.disk, p), LateTokens(s, Visits(s.disk, p));
    MergeChangesNothing(walk, late);
    if forall q <- Visits(s.disk, p) :: LateOf(s, q) == [] {
      NoLateTokens(s, Visits(s.disk, p));
    }
  }

  lemma MergeChangesNothing(a: PerModel, b: PerModel)
    ensures Merge(a, b) == a <==> forall m <- b :: m in a && b[m] == NO_TOKENS
  {}

  lemma {:induction false} NoLateTokens(s: State, ps: seq<Path>)
    requires forall q <- ps :: LateOf(s, q) == []
    ensures LateTokens(s, ps) == map[]
  {
    if ps != [] {
      assert ps[|ps| - 1] in ps;
      NoLateTokens(s, ps[..|ps| - 1]);
      MergeEmpty(map[]);
    }
  }

  // ---------------------------------------------------------------- runs in which the two differ

  /** The proxy serves once more after its cost was read. */
  lemma ServedAfterRead(s: State, p: Path, usage: Option<UsageJson>) returns (s': State)
    requires Reachable(s) && p in s.disk && p in s.phase && p in s.proxy && s.phase[p].Active?
    requires Grows(s.proxy[p], s.proxy[p].(usage := usage))
    ensures Reachable(s') && s'.disk == s.disk && s'.proxy == s.proxy[p := s.proxy[p].(usage := usage)]
    ensures s'.phase == s.phase[p := OwnRead(ProxyCost(s.proxy[p]))]
  {
    var files := s.proxy[p].(usage := usage);
    ReachableStep(s, ReadOwn(p));
    s' := Apply(s, ReadOwn(p));
    ReachableStep(s', Serve(p, files));
    s' := Apply(s', Serve(p, files));
  }

  lemma FilesCopied(s: State, p: Path) returns (s': State)
    requires Reachable(s) && p in s.disk && p in s.phase && p in s.proxy && s.phase[p].OwnRead?
    ensures Reachable(s') && s'.proxy == s.proxy && s'.phase == s.phase[p := Copied(s.phase[p].own)]
    ensures s'.disk == s.disk[p := s.disk[p].(usage := s.proxy[p].usage, log := s.proxy[p].log, attribution := None)]
  {
    ReachableStep(s, CopyUsage(p));
    s' := Apply(s, CopyUsage(p));
    ReachableStep(s', CopyLog(p, None));
    s' := Apply(s', CopyLog(p, None));
  }

  /** From there through the copies to the first pass, which finds no child. */
  lemma CostsSummedOverNoChild(s: State, p: Path) returns (s': State)
    requires Reachable(s) && p in s.disk && p in s.phase && p in s.proxy
    requires s.phase[p].OwnRead? && s.disk[p] == NO_FILES
    ensures Reachable(s') && s'.proxy == s.proxy
    ensures s'.disk == s.disk[p := NO_FILES.(usage := s.proxy[p].usage, log := s.proxy[p].log)]
    ensures s'.phase == s.phase[p := CostsSummed(s.phase[p].own, [], 0.0)]
  {
    s' := FilesCopied(s, p);
    ReachableStep(s', SumCosts(p, []));
    s' := Apply(s', SumCosts(p, []));
  }

  lemma WrittenWithNoChild(s: State, p: Path) returns (s': State)
    requires Reachable(s) && p in s.disk && p in s.phase && p in s.proxy
    requires s.phase[p].CostsSummed? && s.phase[p].names == [] && s.phase[p].childTotal == 0.0
    ensures Reachable(s') && s'.proxy == s.proxy && s'.disk.Keys == s.disk.Keys && s'.phase.Keys == s.phase.Keys
    ensures forall q <- s.disk :: q != p ==> s'.disk[q] == s.disk[q]
    ensures forall q <- s.phase :: q != p ==> s'.phase[q] == s.phase[q]
    ensures Finished(s'.disk, p) && s'.disk[p].usage == s.disk[p].usage && ListedChildren(s'.disk, p) == []
    ensures s'.disk[p].results.value.totalUSD == s'.disk[p].results.value.ownUSD == s.phase[p].own
    ensures s'.disk[p].results.value.tokens == PerModelTokens(Log(s.disk, p))
  {
    var none: seq<string> := [];
    assert none + none == none;
    ReachableStep(s, SumTokens(p, []));
    s' := Apply(s, SumTokens(p, []));
    MergeEmpty(PerModelTokens(Log(s.disk, p)));
    ReachableStep(s', WriteResults(p, "", 1));
    s' := Apply(s', WriteResults(p, "", 1));
  }

  const ROOT: Path := []
  const LATE_LOG := [Record("r", "m", TokenTotals(1, 0, 0, 0))]

  lemma Created() returns (s: State)
    ensures Reachable(s) && s.disk == map[ROOT := NO_FILES]
    ensures s.phase == map[ROOT := Active] && s.proxy == map[ROOT := NO_PROXY_FILES]
  {
    assert Legal([]) && Exec([]) == INIT;
    ReachableStep(INIT, Create(ROOT));
    s := Apply(INIT, Create(ROOT));
  }

  const ONE_DOLLAR := UsageJson(1.0, map[], 0, 0)

  /** A request served between the reading and the copying is in the walk but not in the total. */
  lemma CostBetweenReadAndCopy() returns (s: State)
    ensures Reachable(s) && Finished(s.disk, ROOT)
    ensures At(s.disk, ROOT).results.value.totalUSD == 0.0 && WalkCost(s.disk, ROOT) == 1.0
  {
    s := Created();
    s := ServedAfterRead(s, ROOT, Some(ONE_DOLLAR));
    s := CostsSummedOverNoChild(s, ROOT);
    s := WrittenWithNoChild(s, ROOT);
    WalkOfOne(s.disk, ROOT);
  }

  lemma WalkOfOne(d: Disk, p: Path)
    requires ListedChildren(d, p) == []
    ensures WalkCost(d, p) == NodeCost(d, p)
  {
    assert [p][..0] == [] && TreeCost(d, [p]) == TreeCost(d, []) + NodeCost(d, p);
  }

  lemma WithChild() returns (s: State)
    ensures Reachable(s) && s.disk == map[ROOT := NO_FILES, Child(ROOT, "late") := NO_FILES]
    ensures s.phase == map[ROOT := Active, Child(ROOT, "late") := Active]
    ensures s.proxy == map[ROOT := NO_PROXY_FILES, Child(ROOT, "late") := Proxy(None, Some(LATE_LOG))]
  {
    var kid := Child(ROOT, "late");
    s := Created();
    ReachableStep(s, Create(kid));
    s := Apply(s, Create(kid));
    ReachableStep(s, Serve(kid, Proxy(None, Some(LATE_LOG))));
    s := Apply(s, Serve(kid, Proxy(None, Some(LATE_LOG))));
  }

  /** The root has summed its children's costs, finding none; then its one child finishes. */
  lemma LateChildFinishes() returns (s: State)
    ensures Reachable(s) && ROOT in s.disk && ROOT in s.phase && ROOT in s.proxy
    ensures s.phase[ROOT] == CostsSummed(0.0, [], 0.0) && s.disk[ROOT] == NO_FILES
    ensures Finished(s.disk, Child(ROOT, "late"))
    ensures At(s.disk, Child(ROOT, "late")).results.value.tokens == PerModelTokens(LATE_LOG)
  {
    s := WithChild();
    s := ServedAfterRead(s, ROOT, None);
    s := CostsSummedOverNoChild(s, ROOT);
    s := ServedAfterRead(s, Child(ROOT, "late"), None);
    s := CostsSummedOverNoChild(s, Child(ROOT, "late"));
    s := WrittenWithNoChild(s, Child(ROOT, "late"));
  }

  lemma ModelInTokens(d: Disk, p: Path, name: string, m: string)
    requires Finished(d, Child(p, name)) && m in At(d, Child(p, name)).results.value.tokens
    ensures m in ChildTokens(d, p, [name])
  {}

  lemma NothingWalked(d: Disk, p: Path)
    requires ListedChildren(d, p) == [] && Log(d, p) == []
    ensures WalkTokens(d, p) == map[]
  {
    assert [p][..0] == [] && [p][0] == p;
    assert Logs(d, [p]) == Logs(d, []) + Log(d, p);
  }

  lemma LateTokensWritten(s: State, name: string, m: string) returns (s': State)
    requires Reachable(s) && ROOT in s.disk && ROOT in s.phase && ROOT in s.proxy
    requires s.phase[ROOT] == CostsSummed(0.0, [], 0.0) && s.disk[ROOT] == NO_FILES
    requires Finished(s.disk, Child(ROOT, name)) && m in At(s.disk, Child(ROOT, name)).results.value.tokens
    ensures Reachable(s') && Finished(s'.disk, ROOT) && m in At(s'.disk, ROOT).results.value.tokens
    ensures ListedChildren(s'.disk, ROOT) == [] && Log(s'.disk, ROOT) == []
  {
    var none: seq<string> := [];
    assert none + [name] == [name];
    ModelInTokens(s.disk, ROOT, name, m);
    ReachableStep(s, SumTokens(ROOT, [name]));
    s' := Apply(s, SumTokens(ROOT, [name]));
    ReachableStep(s', WriteResults(ROOT, "", 0));
    s' := Apply(s', WriteResults(ROOT, "", 0));
  }

  lemma LastModelCounts(recs: seq<Record>)
    requires recs != []
    ensures recs[|recs| - 1].model in PerModelTokens(recs)
  {}

  /**
   * A child that finishes between its parent's two passes is in the parent's tokens but not
   * among its children, so the walk does not find them.
   */
  lemma ChildBetweenPasses() returns (s: State)
    ensures Reachable(s) && Finished(s.disk, ROOT)
    ensures At(s.disk, ROOT).results.value.tokens != WalkTokens(s.disk, ROOT)
  {
    var s1 := LateChildFinishes();
    LastModelCounts(LATE_LOG);
    s := LateTokensWritten(s1, "late", "m");
    NothingWalked(s.disk, ROOT);
  }

  // ---------------------------------------------------------------- the code of one roll-up

  datatype DirEntry = DirEntry(name: string, isDir: bool)

  /** The directories among the entries whose results.json could be read, in listing order. */
  function FinishedOf(d: Disk, p: Path, entries: seq<DirEntry>): seq<string> {
    if entries == [] then []
    else
      var e := entries[|entries| - 1];
      FinishedOf(d, p, entries[..|entries| - 1])
      + (if e.isDir && Finished(d, Child(p, e.name)) then [e.name] else [])
  }

  lemma FinishedOfFirst(d: Disk, p: Path, entries: seq<DirEntry>, i: nat)
    requires i < |entries|
    ensures FinishedOf(d, p, entries[..i + 1])
         == FinishedOf(d, p, entries[..i])
            + (if entries[i].isDir && Finished(d, Child(p, entries[i].name)) then [entries[i].name] else [])
  {
    assert entries[..i + 1][..i] == entries[..i];
  }

  lemma {:induction false} FinishedOfMembers(d: Disk, p: Path, entries: seq<DirEntry>)
    ensures forall n :: n in FinishedOf(d, p, entries)
              <==> exists e <- entries :: e.isDir && e.name == n && Finished(d, Child(p, n))
  {
    if entries != [] {
      var init, last := entries[..|entries| - 1], entries[|entries| - 1];
      assert entries == init + [last];
      FinishedOfMembers(d, p, init);
    }
  }

  /** With every finished child of p listed once by name, the pass selects exactly those. */
  lemma {:induction false} FinishedOfIsSelection(d: Disk, p: Path, entries: seq<DirEntry>)
    requires forall i, j :: 0 <= i < j < |entries| ==> entries[i].name != entries[j].name
    ensures Selection(d, p, FinishedOf(d, p, entries))
    ensures forall n :: n in FinishedOf(d, p, entries)
              <==> exists e <- entries :: e.isDir && e.name == n && Finished(d, Child(p, n))
  {
    FinishedOfMembers(d, p, entries);
    if entries != [] {
      var init, last := entries[..|entries| - 1], entries[|entries| - 1];
      FinishedOfIsSelection(d, p, init);
      assert last.name !in FinishedOf(d, p, init) by {
        assert forall e <- init :: e.name != last.name;
      }
    }
  }

  lemma ChildTotalsSnoc(d: Disk, p: Path, names: seq<string>, n: string)
    requires Finished(d, Child(p, n))
    ensures ChildTotals(d, p, names + [n]) == ChildTotals(d, p, names) + At(d, Child(p, n)).results.value.totalUSD
  {
    assert (names + [n])[..|names|] == names;
  }

  /** sumChildResults: the names come sorted because ReadDir lists entries by name. */
  method SumChildResults(d: Disk, p: Path, entries: seq<DirEntry>) returns (names: seq<string>, total: real)
    ensures names == FinishedOf(d, p, entries) && total == ChildTotals(d, p, names)
  {
    names, total := [], 0.0;
    for i := 0 to |entries|
      invariant names == FinishedOf(d, p, entries[..i]) && total == ChildTotals(d, p, names)
    {
      FinishedOfFirst(d, p, entries, i);
      names, total := CountChild(d, p, entries[i], names, total);
    }
    assert entries[..|entries|] == entries;
  }

  /** The body of the loop. */
  method CountChild(d: Disk, p: Path, e: DirEntry, names: seq<string>, total: real)
    returns (names': seq<string>, total': real)
    requires total == ChildTotals(d, p, names)
    ensures names' == names + (if e.isDir && Finished(d, Child(p, e.name)) then [e.name] else [])
    ensures total' == ChildTotals(d, p, names')
  {
    names', total' := names, total;
    var c := At(d, Child(p, e.name));
    if e.isDir && c.results.Some? {
      ChildTotalsSnoc(d, p, names, e.name);
      names' := names + [e.name];
      total' := total + c.results.value.totalUSD;
    }
  }

  /** readPerModelTokens over the lines that parsed. */
  method ReadPerModelTokens(recs: seq<Record>) returns (result: PerModel)
    ensures result == PerModelTokens(recs)
  {
    result := map[];
    for i := 0 to |recs|
      invariant result == PerModelTokens(recs[..i])
    {
      assert recs[..i + 1][..i] == recs[..i];
      var r := recs[i];
      var t := if r.model in result then result[r.model] else NO_TOKENS;
      result := result[r.model := TokenTotals(
        t.input + r.tokens.input, t.output + r.tokens.output,
        t.cacheCreation + r.tokens.cacheCreation, t.cacheRead + r.tokens.cacheRead)];
    }
    assert recs[..|recs|] == recs;
  }

  lemma MergeOneMore(a: PerModel, b: PerModel, todo: set<string>, m: string)
    requires m in b && m in todo
    ensures var so := Merge(a, Without(b, todo));
      Merge(a, Without(b, todo - {m})) == so[m := Plus(TokensOf(so, m), b[m])]
  {
    var so, then' := Merge(a, Without(b, todo)), Merge(a, Without(b, todo - {m}));
    assert then'.Keys == so.Keys + {m};
    forall k | k in then' ensures then'[k] == so[m := Plus(TokensOf(so, m), b[m])][k] {
      if k != m {
        assert TokensOf(Without(b, todo - {m}), k) == TokensOf(Without(b, todo), k);
      }
    }
  }

  /** addPerModelTokens: a copy of a, then b added key by key in map order. */
  method AddPerModelTokens(a: PerModel, b: PerModel) returns (result: PerModel)
    ensures result == Merge(a, b)
  {
    result := a;
    var todo := b.Keys;
    assert Without(b, todo) == map[];
    MergeEmpty(a);
    while todo != {}
      invariant todo <= b.Keys && result == Merge(a, Without(b, todo))
      decreases |todo|
    {
      var m :| m in todo;
      MergeOneMore(a, b, todo, m);
      todo := todo - {m};
      result := result[m := Plus(TokensOf(result, m), b[m])];
    }
    assert Without(b, {}) == b;
  }

  lemma ChildTokensSnoc(d: Disk, p: Path, names: seq<string>, n: string)
    requires Finished(d, Child(p, n))
    ensures ChildTokens(d, p, names + [n])
         == Merge(ChildTokens(d, p, names), At(d, Child(p, n)).results.value.tokens)
  {}

  /** sumChildPerModelTokens: its own pass over the same directory. */
  method SumChildPerModelTokens(d: Disk, p: Path, entries: seq<DirEntry>) returns (result: PerModel)
    ensures result == ChildTokens(d, p, FinishedOf(d, p, entries))
  {
    result := map[];
    ghost var names: seq<string> := [];
    for i := 0 to |entries|
      invariant names == FinishedOf(d, p, entries[..i]) && result == ChildTokens(d, p, names)
    {
      assert entries[..i + 1][..i] == entries[..i];
      var c := At(d, Child(p, entries[i].name));
      if entries[i].isDir && c.results.Some? {
        ChildTokensSnoc(d, p, names, entries[i].name);
        result := AddPerModelTokens(result, c.results.value.tokens);
        names := names + [entries[i].name];
      }
    }
    assert entries[..|entries|] == entries;
  }

  /** writeResults when no child finishes between its two passes. */
  method WriteResultsAtOnce(d: Disk, p: Path, entries: seq<DirEntry>, name: string, depth: int, ownUSD: real)
    returns (res: Results)
    ensures res.children == FinishedOf(d, p, entries)
    ensures res.totalUSD == ownUSD + ChildTotals(d, p, res.children) && res.ownUSD == ownUSD
    ensures res.tokens == Merge(PerModelTokens(Log(d, p)), ChildTokens(d, p, res.children))
  {
    var children, childTotal := SumChildResults(d, p, entries);
    var own := ReadPerModelTokens(Log(d, p));
    var below := SumChildPerModelTokens(d, p, entries);
    var perModel := AddPerModelTokens(own, below);
    res := Results(name, depth, ownUSD, ownUSD + childTotal, children, perModel);
  }
}
