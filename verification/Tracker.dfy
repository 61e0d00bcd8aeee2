// The per-model usage totals and the append-only request log that each usage proxy keeps
// (internal/proxies/proxycommon/tracker.go), for any vendor, and the two vendors.

module Tracker {
  import opened Common
  import opened Listing
  import opened Pricing

  /** The four token types of one line of usage.jsonl, and of the reports built from it. */
  datatype TokenTotals = TokenTotals(input: int, output: int, cacheCreation: int, cacheRead: int)

  const NO_TOKENS := TokenTotals(0, 0, 0, 0)

  function Plus(a: TokenTotals, b: TokenTotals): TokenTotals {
    TokenTotals(a.input + b.input, a.output + b.output, a.cacheCreation + b.cacheCreation, a.cacheRead + b.cacheRead)
  }

  /** One parsed line of usage.jsonl (its timestamp is not modelled). */
  datatype Record = Record(requestId: string, model: string, tokens: TokenTotals)

  /** What a vendor supplies: its per-request counts and the callbacks given to NewTracker. */
  datatype Vendor<!TC> = Vendor(
    zero: TC,
    combine: (TC, TC) -> TC,
    cost: (string, TC) -> real,
    tokens: TC -> TokenTotals)

  /** The vendor's cost of a model is additive in the counts. */
  ghost predicate Linear<TC(!new)>(v: Vendor<TC>) {
    && (forall m :: v.cost(m, v.zero) == 0.0)
    && (forall m, a, b :: v.cost(m, v.combine(a, b)) == v.cost(m, a) + v.cost(m, b))
  }

  /** One call on the tracker. */
  datatype Call<TC> = Add(model: string, counts: TC, requestId: string) | DropParseError | DropNoUsage

  datatype Totals<TC> = Totals(perModel: map<string, TC>, parseErrors: nat, noUsageBlock: nat)

  function NameOf(model: string): string {
    if model == "" then "unknown" else model
  }

  /** The counts a model has, zero if it was never seen. */
  function CountsOf<TC>(v: Vendor<TC>, perModel: map<string, TC>, m: string): TC {
    if m in perModel then perModel[m] else v.zero
  }

  function AfterCall<TC>(v: Vendor<TC>, t: Totals<TC>, c: Call<TC>): Totals<TC> {
    match c
    case Add(model, tc, _) =>
      var m := NameOf(model);
      t.(perModel := t.perModel[m := v.combine(CountsOf(v, t.perModel, m), tc)])
    case DropParseError => t.(parseErrors := t.parseErrors + 1)
    case DropNoUsage => t.(noUsageBlock := t.noUsageBlock + 1)
  }

  function AfterCalls<TC>(v: Vendor<TC>, calls: seq<Call<TC>>): Totals<TC> {
    if calls == [] then Totals(map[], 0, 0)
    else AfterCall(v, AfterCalls(v, calls[..|calls| - 1]), calls[|calls| - 1])
  }

  /** The log lines a sequence of calls appends, in order. */
  function LogOf<TC>(v: Vendor<TC>, calls: seq<Call<TC>>): seq<Record> {
    if calls == [] then []
    else
      var last := calls[|calls| - 1];
      LogOf(v, calls[..|calls| - 1])
      + (if last.Add? then [Record(last.requestId, NameOf(last.model), v.tokens(last.counts))] else [])
  }

  /** The Add calls among the calls made. */
  function Adds<TC>(calls: seq<Call<TC>>): seq<Call<TC>> {
    if calls == [] then []
    else Adds(calls[..|calls| - 1]) + (if calls[|calls| - 1].Add? then [calls[|calls| - 1]] else [])
  }

  /** One line per Add call, in order: its request id, its model unless that is empty, its tokens. */
  lemma {:induction false} LogLineOfAdd<TC>(v: Vendor<TC>, calls: seq<Call<TC>>, k: nat)
    requires k < |Adds(calls)|
    ensures |LogOf(v, calls)| == |Adds(calls)| && Adds(calls)[k].Add?
    ensures var line, call := LogOf(v, calls)[k], Adds(calls)[k];
      && line.requestId == call.requestId && line.tokens == v.tokens(call.counts)
      && line.model == (if call.model != "" then call.model else "unknown")
  {
    var init := calls[..|calls| - 1];
    LogLength(v, init);
    if k < |Adds(init)| {
      LogLineOfAdd(v, init, k);
    }
  }

  lemma {:induction false} LogLength<TC>(v: Vendor<TC>, calls: seq<Call<TC>>)
    ensures |LogOf(v, calls)| == |Adds(calls)|
  {
    if calls != [] {
      LogLength(v, calls[..|calls| - 1]);
    }
  }

  /** Each kind of drop is counted as often as it was reported, whatever else was. */
  lemma {:induction false} DropsAreCounted<TC>(v: Vendor<TC>, calls: seq<Call<TC>>)
    ensures AfterCalls(v, calls).parseErrors == multiset(calls)[DropParseError]
    ensures AfterCalls(v, calls).noUsageBlock == multiset(calls)[DropNoUsage]
  {
    if calls != [] {
      DropsAreCounted(v, calls[..|calls| - 1]);
      assert calls == calls[..|calls| - 1] + [calls[|calls| - 1]];
    }
  }

  class UsageTracker<TC> {
    const vendor: Vendor<TC>
    const persists: bool       // usagePath is not empty
    var perModel: map<string, TC>
    var log: seq<Record>       // usage.jsonl
    var parseErrors: nat
    var noUsageBlock: nat
    ghost var calls: seq<Call<TC>>

    /** The totals and the log are those of the calls made so far. */
    ghost predicate Valid()
      reads this
    {
      && Totals(perModel, parseErrors, noUsageBlock) == AfterCalls(vendor, calls)
      && log == (if persists then LogOf(vendor, calls) else [])
    }

    constructor (vendor: Vendor<TC>, persists: bool)
      ensures Valid() && calls == [] && this.vendor == vendor && this.persists == persists
    {
      this.vendor, this.persists := vendor, persists;
      perModel, log, parseErrors, noUsageBlock, calls := map[], [], 0, 0, [];
    }

    method Add(modelID: string, tc: TC, requestID: string)
      requires Valid()
      modifies this`perModel, this`log, this`calls
      ensures Valid() && calls == old(calls) + [Call.Add(modelID, tc, requestID)]
    {
      var m := if modelID == "" then "unknown" else modelID;
      if m !in perModel {
        perModel := perModel[m := vendor.zero];
      }
      perModel := perModel[m := vendor.combine(perModel[m], tc)];
      if persists {
        log := log + [Record(requestID, m, vendor.tokens(tc))];
      }
      calls := calls + [Call.Add(modelID, tc, requestID)];
    }

    method AddDroppedParseError()
      requires Valid()
      modifies this`parseErrors, this`calls
      ensures Valid() && calls == old(calls) + [DropParseError]
    {
      parseErrors := parseErrors + 1;
      calls := calls + [DropParseError];
    }

    method AddDroppedNoUsageBlock()
      requires Valid()
      modifies this`noUsageBlock, this`calls
      ensures Valid() && calls == old(calls) + [DropNoUsage]
    {
      noUsageBlock := noUsageBlock + 1;
      calls := calls + [DropNoUsage];
    }

    /** The cost loop of snapshotLocked; models is any listing of the keys, sorted in the source. */
    method SnapshotCost(models: seq<string>) returns (costUSD: real)
      requires Valid() && Lists(models, perModel.Keys)
      ensures costUSD == CostOver(vendor, perModel, models)
    {
      costUSD := 0.0;
      for i := 0 to |models|
        invariant costUSD == CostOver(vendor, perModel, models[..i])
      {
        assert models[..i + 1][..i] == models[..i];
        costUSD := costUSD + vendor.cost(models[i], CountsOf(vendor, perModel, models[i]));
      }
      assert models[..|models|] == models;
    }
  }

  function CostOver<TC>(v: Vendor<TC>, perModel: map<string, TC>, models: seq<string>): real {
    if models == [] then 0.0
    else
      var m := models[|models| - 1];
      CostOver(v, perModel, models[..|models| - 1]) + v.cost(m, CountsOf(v, perModel, m))
  }

  /** The cost of each call on its own, summed. */
  function CostOfCalls<TC>(v: Vendor<TC>, calls: seq<Call<TC>>): real {
    if calls == [] then 0.0
    else
      var last := calls[|calls| - 1];
      CostOfCalls(v, calls[..|calls| - 1]) + (if last.Add? then v.cost(NameOf(last.model), last.counts) else 0.0)
  }

  lemma {:induction false} CostUnchanged<TC>(v: Vendor<TC>, pm: map<string, TC>, pm': map<string, TC>, ms: seq<string>)
    requires forall i :: 0 <= i < |ms| ==> CountsOf(v, pm', ms[i]) == CountsOf(v, pm, ms[i])
    ensures CostOver(v, pm', ms) == CostOver(v, pm, ms)
  {
    if ms != [] {
      CostUnchanged(v, pm, pm', ms[..|ms| - 1]);
    }
  }

  /** Adding to one listed model adds that request's cost, wherever the model is listed. */
  lemma {:induction false} CostGrows<TC(!new)>(v: Vendor<TC>, pm: map<string, TC>, m: string, tc: TC, ms: seq<string>)
    requires Linear(v) && Distinct(ms)
    ensures CostOver(v, pm[m := v.combine(CountsOf(v, pm, m), tc)], ms)
         == CostOver(v, pm, ms) + (if m in ms then v.cost(m, tc) else 0.0)
  {
    var pm' := pm[m := v.combine(CountsOf(v, pm, m), tc)];
    if ms != [] {
      var init, last := ms[..|ms| - 1], ms[|ms| - 1];
      assert ms == init + [last];
      if last == m {
        assert m !in init;
        CostUnchanged(v, pm, pm', init);
      } else {
        CostGrows(v, pm, m, tc, init);
      }
    }
  }

  lemma {:induction false} CostOfUnseen<TC(!new)>(v: Vendor<TC>, ms: seq<string>)
    requires Linear(v)
    ensures CostOver(v, map[], ms) == 0.0
  {
    if ms != [] {
      CostOfUnseen(v, ms[..|ms| - 1]);
    }
  }

  /**
   * Totals and log agree on money: the snapshot cost, summed over the models in any order, is
   * the sum of the costs of the single requests.
   */
  lemma {:induction false} SnapshotCostIsSumOfRequests<TC(!new)>(
      v: Vendor<TC>, calls: seq<Call<TC>>, models: seq<string>)
    requires Linear(v) && Distinct(models)
    requires AfterCalls(v, calls).perModel.Keys <= set m | m in models
    ensures CostOver(v, AfterCalls(v, calls).perModel, models) == CostOfCalls(v, calls)
  {
    if calls == [] {
      CostOfUnseen(v, models);
    } else {
      var init, last := calls[..|calls| - 1], calls[|calls| - 1];
      var before := AfterCalls(v, init);
      assert before.perModel.Keys <= AfterCalls(v, calls).perModel.Keys;
      SnapshotCostIsSumOfRequests(v, init, models);
      if last.Add? {
        var m := NameOf(last.model);
        assert m in AfterCalls(v, calls).perModel.Keys;
        CostGrows(v, before.perModel, m, last.counts, models);
      }
    }
  }

  /** One log line added to per-model sums. */
  function AddRecord(pm: map<string, TokenTotals>, r: Record): map<string, TokenTotals> {
    pm[r.model := Plus(if r.model in pm then pm[r.model] else NO_TOKENS, r.tokens)]
  }

  /** Tokens per model, summed over log lines. */
  function PerModelTokens(recs: seq<Record>): map<string, TokenTotals> {
    if recs == [] then map[] else AddRecord(PerModelTokens(recs[..|recs| - 1]), recs[|recs| - 1])
  }

  ghost predicate TokensAdd<TC(!new)>(v: Vendor<TC>) {
    v.tokens(v.zero) == NO_TOKENS && forall a, b :: v.tokens(v.combine(a, b)) == Plus(v.tokens(a), v.tokens(b))
  }

  /** Totals and log agree on tokens: per model, the log adds up to the running totals. */
  lemma {:induction false} LogMatchesTotals<TC(!new)>(v: Vendor<TC>, calls: seq<Call<TC>>)
    requires TokensAdd(v)
    ensures var pm := AfterCalls(v, calls).perModel;
      PerModelTokens(LogOf(v, calls)) == map m | m in pm :: v.tokens(pm[m])
  {
    if calls != [] {
      var init, last := calls[..|calls| - 1], calls[|calls| - 1];
      LogMatchesTotals(v, init);
      if last.Add? {
        var r := Record(last.requestId, NameOf(last.model), v.tokens(last.counts));
        assert (LogOf(v, init) + [r])[..|LogOf(v, init)|] == LogOf(v, init);
      } else {
        assert LogOf(v, calls) == LogOf(v, init);
      }
    }
  }

  // ---------------------------------------------------------------- the two vendors

  const ANTHROPIC := Vendor(
    AnthropicCounts(0, 0, 0, 0),
    (a: AnthropicCounts, b: AnthropicCounts) => AnthropicCounts(
      a.input + b.input, a.output + b.output, a.cacheCreation + b.cacheCreation, a.cacheRead + b.cacheRead),
    (m: string, t: AnthropicCounts) => AnthropicCostUSD(m, t),
    (t: AnthropicCounts) => TokenTotals(t.input, t.output, t.cacheCreation, t.cacheRead))

  const OPENAI := Vendor(
    OpenAiCounts(0, 0, 0, 0, 0),
    (a: OpenAiCounts, b: OpenAiCounts) => OpenAiCounts(
      a.input + b.input, a.output + b.output, a.total + b.total, a.cached + b.cached, a.reasoning + b.reasoning),
    (m: string, t: OpenAiCounts) => OpenAiCostUSD(m, t),
    (t: OpenAiCounts) => TokenTotals(t.input, t.output, 0, t.cached))

  /** A count that adds up when totals are combined. */
  ghost predicate Counts<TC(!new)>(v: Vendor<TC>, f: TC -> int) {
    f(v.zero) == 0 && forall a, b :: f(v.combine(a, b)) == f(a) + f(b)
  }

  /** The count over the Add calls for a model. */
  function SumFor<TC>(calls: seq<Call<TC>>, m: string, f: TC -> int): int {
    if calls == [] then 0
    else
      var last := calls[|calls| - 1];
      SumFor(calls[..|calls| - 1], m, f)
      + (if last.Add? && last.model == m then f(last.counts) else 0)
  }

  /** A model's totals are the sums over its requests; "unknown" has those without a model as well. */
  lemma {:induction false} TotalsAreSums<TC(!new)>(v: Vendor<TC>, calls: seq<Call<TC>>, m: string, f: TC -> int)
    requires Counts(v, f) && m != ""
    ensures f(CountsOf(v, AfterCalls(v, calls).perModel, m))
         == SumFor(calls, m, f) + (if m == "unknown" then SumFor(calls, "", f) else 0)
  {
    if calls != [] {
      TotalsAreSums(v, calls[..|calls| - 1], m, f);
    }
  }

  /** Every count of either vendor adds up. */
  lemma EveryCountAddsUp()
    ensures Counts(ANTHROPIC, (c: AnthropicCounts) => c.input) && Counts(ANTHROPIC, (c: AnthropicCounts) => c.output)
    ensures Counts(ANTHROPIC, (c: AnthropicCounts) => c.cacheCreation)
    ensures Counts(ANTHROPIC, (c: AnthropicCounts) => c.cacheRead)
    ensures Counts(OPENAI, (c: OpenAiCounts) => c.input) && Counts(OPENAI, (c: OpenAiCounts) => c.output)
    ensures Counts(OPENAI, (c: OpenAiCounts) => c.total) && Counts(OPENAI, (c: OpenAiCounts) => c.cached)
    ensures Counts(OPENAI, (c: OpenAiCounts) => c.reasoning)
  {}

  /** What the log says of a request to either vendor, count by count. */
  lemma LoggedCounts(a: seq<Call<AnthropicCounts>>, o: seq<Call<OpenAiCounts>>, k: nat)
    ensures k < |Adds(a)| ==>
      && k < |LogOf(ANTHROPIC, a)| && Adds(a)[k].Add?
      && var t, c := LogOf(ANTHROPIC, a)[k].tokens, Adds(a)[k].counts;
      t.input == c.input && t.output == c.output && t.cacheCreation == c.cacheCreation && t.cacheRead == c.cacheRead
    ensures k < |Adds(o)| ==>
      && k < |LogOf(OPENAI, o)| && Adds(o)[k].Add?
      && var t, c := LogOf(OPENAI, o)[k].tokens, Adds(o)[k].counts;
      t.input == c.input && t.output == c.output && t.cacheCreation == 0 && t.cacheRead == c.cached
  {
    if k < |Adds(a)| {
      LogLineOfAdd(ANTHROPIC, a, k);
    }
    if k < |Adds(o)| {
      LogLineOfAdd(OPENAI, o, k);
    }
  }

  lemma PerMTokAdds(a: int, b: int, rate: real)
    ensures PerMTok(a + b, rate) == PerMTok(a, rate) + PerMTok(b, rate)
  {
    var x, y := a as real / 1000000.0, b as real / 1000000.0;
    assert (x + y) * rate == x * rate + y * rate;
  }

  lemma AnthropicCostAdds(m: string, a: AnthropicCounts, b: AnthropicCounts)
    ensures ANTHROPIC.cost(m, ANTHROPIC.combine(a, b)) == ANTHROPIC.cost(m, a) + ANTHROPIC.cost(m, b)
  {
    match LookupPricing(ANTHROPIC_CATALOG, m) {
      case None =>
      case Some(p) =>
        PerMTokAdds(a.input, b.input, p.inputPerMTok);
        PerMTokAdds(a.output, b.output, p.outputPerMTok);
        PerMTokAdds(a.cacheCreation, b.cacheCreation, p.cacheWritePerMTok);
        PerMTokAdds(a.cacheRead, b.cacheRead, p.cacheReadPerMTok);
    }
  }

  lemma OpenAiCostAdds(m: string, a: OpenAiCounts, b: OpenAiCounts)
    ensures OPENAI.cost(m, OPENAI.combine(a, b)) == OPENAI.cost(m, a) + OPENAI.cost(m, b)
  {
    match LookupPricing(OPENAI_CATALOG, m) {
      case None =>
      case Some(p) =>
        PerMTokAdds(a.input - a.cached, b.input - b.cached, p.inputPerMTok);
        PerMTokAdds(a.cached, b.cached, p.cachedInputPerMTok);
        PerMTokAdds(a.output, b.output, p.outputPerMTok);
    }
  }

  /** Both vendors' costs are additive, so the theorem above applies to both. */
  lemma VendorsAreLinear()
    ensures Linear(ANTHROPIC) && Linear(OPENAI) && TokensAdd(ANTHROPIC) && TokensAdd(OPENAI)
  {
    forall m, a, b ensures ANTHROPIC.cost(m, ANTHROPIC.combine(a, b)) == ANTHROPIC.cost(m, a) + ANTHROPIC.cost(m, b) {
      AnthropicCostAdds(m, a, b);
    }
    forall m, a, b ensures OPENAI.cost(m, OPENAI.combine(a, b)) == OPENAI.cost(m, a) + OPENAI.cost(m, b) {
      OpenAiCostAdds(m, a, b);
    }
  }
}
