// Price catalogs and indicative costs (internal/proxies/proxycommon/pricing.go,
// anthropic/pricing.go, openai/pricing.go). USD amounts are exact reals.

module Pricing {
  import opened Common

  datatype Entry<P> = Entry(alias: string, prefix: string, price: P)

  predicate Matches<P>(e: Entry<P>, id: string) {
    e.prefix <= id
  }

  /** The first entry whose prefix is a prefix of id. */
  function LookupPricing<P>(catalog: seq<Entry<P>>, id: string): Option<P> {
    if catalog == [] then None
    else if Matches(catalog[0], id) then Some(catalog[0].price)
    else LookupPricing(catalog[1..], id)
  }

  /** No entry's prefix is a prefix of another entry's. */
  predicate NoShadowing<P>(catalog: seq<Entry<P>>) {
    forall i, j :: 0 <= i < |catalog| && 0 <= j < |catalog| && i != j ==> !(catalog[i].prefix <= catalog[j].prefix)
  }

  /** Entry i matches id and no matching entry has a longer prefix. */
  predicate LongestMatch<P>(catalog: seq<Entry<P>>, id: string, i: nat)
    requires i < |catalog|
  {
    && Matches(catalog[i], id)
    && forall j :: 0 <= j < |catalog| && Matches(catalog[j], id) ==> |catalog[j].prefix| <= |catalog[i].prefix|
  }

  lemma {:induction false} LookupFinds<P>(catalog: seq<Entry<P>>, id: string)
    ensures LookupPricing(catalog, id) == None ==> forall i :: 0 <= i < |catalog| ==> !(Matches(catalog[i], id))
    ensures LookupPricing(catalog, id).Some? ==>
              exists i :: 0 <= i < |catalog| && Matches(catalog[i], id)
                && LookupPricing(catalog, id).value == catalog[i].price
  {
    if catalog != [] {
      LookupFinds(catalog[1..], id);
      if !(Matches(catalog[0], id)) && LookupPricing(catalog, id).Some? {
        var k :| 0 <= k < |catalog[1..]| && Matches(catalog[1..][k], id)
                 && LookupPricing(catalog[1..], id) == Some(catalog[1..][k].price);
        assert catalog[k + 1] == catalog[1..][k];
      }
      forall i | LookupPricing(catalog, id) == None && 0 <= i < |catalog| ensures !(Matches(catalog[i], id)) {
        if i > 0 {
          assert catalog[1..][i - 1] == catalog[i];
        }
      }
    }
  }

  /** Two prefixes of one string are comparable. */
  lemma PrefixesCompare(p: string, q: string, id: string)
    requires p <= id && q <= id && |p| <= |q|
    ensures p <= q
  {}

  ghost predicate OneMatchAtMost<P>(catalog: seq<Entry<P>>) {
    forall id, i, j ::
      0 <= i < |catalog| && 0 <= j < |catalog| && Matches(catalog[i], id) && Matches(catalog[j], id) ==> i == j
  }

  /** Absence of shadowing is exactly that no model id can match two entries. */
  lemma NoShadowingIffOneMatch<P(!new)>(catalog: seq<Entry<P>>)
    ensures NoShadowing(catalog) <==> OneMatchAtMost(catalog)
  {
    if NoShadowing(catalog) {
      forall id, i, j | 0 <= i < |catalog| && 0 <= j < |catalog|
        && Matches(catalog[i], id) && Matches(catalog[j], id)
        ensures i == j
      {
        if |catalog[i].prefix| <= |catalog[j].prefix| {
          PrefixesCompare(catalog[i].prefix, catalog[j].prefix, id);
        } else {
          PrefixesCompare(catalog[j].prefix, catalog[i].prefix, id);
        }
      }
    } else {
      var i, j :| 0 <= i < |catalog| && 0 <= j < |catalog| && i != j && catalog[i].prefix <= catalog[j].prefix;
      var id := catalog[j].prefix;
      assert Matches(catalog[i], id) && Matches(catalog[j], id);
    }
  }

  /** First match is longest match, for every model id. */
  lemma FirstMatchIsLongest<P(!new)>(catalog: seq<Entry<P>>, id: string)
    requires NoShadowing(catalog)
    ensures forall i :: 0 <= i < |catalog| && LongestMatch(catalog, id, i)
              ==> LookupPricing(catalog, id) == Some(catalog[i].price)
    ensures LookupPricing(catalog, id).Some? ==> exists i :: 0 <= i < |catalog| && LongestMatch(catalog, id, i)
  {
    LookupFinds(catalog, id);
    NoShadowingIffOneMatch(catalog);
    if LookupPricing(catalog, id).Some? {
      var i :| 0 <= i < |catalog| && Matches(catalog[i], id) && LookupPricing(catalog, id) == Some(catalog[i].price);
      assert LongestMatch(catalog, id, i);
    }
  }

  /** The order of the catalog does not matter. */
  lemma LookupIgnoresOrder<P(!new)>(catalog: seq<Entry<P>>, reordered: seq<Entry<P>>, id: string)
    requires NoShadowing(catalog) && NoShadowing(reordered)
    requires forall e :: e in catalog <==> e in reordered
    ensures LookupPricing(reordered, id) == LookupPricing(catalog, id)
  {
    LookupFinds(catalog, id);
    LookupFinds(reordered, id);
    NoShadowingIffOneMatch(catalog);
    if LookupPricing(reordered, id).Some? {
      var j :| 0 <= j < |reordered| && Matches(reordered[j], id)
               && LookupPricing(reordered, id) == Some(reordered[j].price);
      assert reordered[j] in catalog;
      var i :| 0 <= i < |catalog| && catalog[i] == reordered[j];
    } else {
      forall i | 0 <= i < |catalog| ensures !Matches(catalog[i], id) {
        assert catalog[i] in reordered;
      }
    }
  }

  // ---------------------------------------------------------------- Anthropic

  datatype AnthropicRates = AnthropicRates(inputPerMTok: real, outputPerMTok: real,
                                           cacheWritePerMTok: real, cacheReadPerMTok: real)

  const ANTHROPIC_CATALOG: seq<Entry<AnthropicRates>> := [
    Entry("sonnet", "claude-sonnet-5", AnthropicRates(2.0, 10.0, 2.5, 0.2)),
    Entry("opus", "claude-opus-5", AnthropicRates(4.0, 20.0, 5.0, 0.2)),
    Entry("fable", "claude-fable-5", AnthropicRates(10.0, 50.0, 12.5, 0.25)),
    Entry("haiku", "claude-haiku-4-5", AnthropicRates(1.0, 5.0, 1.25, 0.1))]

  datatype AnthropicCounts = AnthropicCounts(input: int, output: int, cacheCreation: int, cacheRead: int)

  function PerMTok(tokens: int, rate: real): real {
    tokens as real / 1000000.0 * rate
  }

  /** Unknown models cost nothing. */
  function AnthropicCostUSD(id: string, t: AnthropicCounts): real {
    match LookupPricing(ANTHROPIC_CATALOG, id)
    case None => 0.0
    case Some(p) =>
      PerMTok(t.input, p.inputPerMTok) + PerMTok(t.output, p.outputPerMTok)
      + PerMTok(t.cacheCreation, p.cacheWritePerMTok) + PerMTok(t.cacheRead, p.cacheReadPerMTok)
  }

  // ---------------------------------------------------------------- OpenAI

  datatype OpenAiRates = OpenAiRates(inputPerMTok: real, outputPerMTok: real, cachedInputPerMTok: real)

  const OPENAI_CATALOG: seq<Entry<OpenAiRates>> := [
    Entry("gpt-6.1-sol", "gpt-6.1-sol", OpenAiRates(2.0, 10.0, 0.1)),
    Entry("gpt-6-astra", "gpt-6-astra", OpenAiRates(10.0, 50.0, 1.0)),
    Entry("gpt-6-sol", "gpt-6-sol", OpenAiRates(2.0, 10.0, 0.2)),
    Entry("gpt-6-luna", "gpt-6-luna", OpenAiRates(0.1, 0.5, 0.01)),
    Entry("gpt-5.6-sol", "gpt-5.6-sol", OpenAiRates(4.0, 20.0, 0.4)),
    Entry("gpt-5.6-terra", "gpt-5.6-terra", OpenAiRates(2.0, 12.0, 0.2)),
    Entry("gpt-5.6-luna", "gpt-5.6-luna", OpenAiRates(0.2, 1.2, 0.02)),
    Entry("gpt-5.5", "gpt-5.5", OpenAiRates(5.0, 30.0, 0.5))]

  datatype OpenAiCounts = OpenAiCounts(input: int, output: int, total: int, cached: int, reasoning: int)

  /** Cached tokens are part of the input count and billed at their own rate. */
  function OpenAiCostUSD(id: string, t: OpenAiCounts): real {
    match LookupPricing(OPENAI_CATALOG, id)
    case None => 0.0
    case Some(p) =>
      PerMTok(t.input - t.cached, p.inputPerMTok) + PerMTok(t.cached, p.cachedInputPerMTok)
      + PerMTok(t.output, p.outputPerMTok)
  }

  // ---------------------------------------------------------------- what a cost is made of

  const MILLION := 1000000

  lemma MillionCostsTheRate(rate: real)
    ensures PerMTok(MILLION, rate) == rate && PerMTok(0, rate) == 0.0
  {}

  /** A million tokens of one kind cost the rate that the longest matching entry has for that kind. */
  lemma AnthropicMillionCostsTheRate(id: string, i: nat)
    requires i < |ANTHROPIC_CATALOG| && LongestMatch(ANTHROPIC_CATALOG, id, i)
    ensures var p := ANTHROPIC_CATALOG[i].price;
      && AnthropicCostUSD(id, AnthropicCounts(MILLION, 0, 0, 0)) == p.inputPerMTok
      && AnthropicCostUSD(id, AnthropicCounts(0, MILLION, 0, 0)) == p.outputPerMTok
      && AnthropicCostUSD(id, AnthropicCounts(0, 0, MILLION, 0)) == p.cacheWritePerMTok
      && AnthropicCostUSD(id, AnthropicCounts(0, 0, 0, MILLION)) == p.cacheReadPerMTok
  {
    var p := ANTHROPIC_CATALOG[i].price;
    CatalogsHaveNoShadowing();
    FirstMatchIsLongest(ANTHROPIC_CATALOG, id);
    MillionCostsTheRate(p.inputPerMTok);
    MillionCostsTheRate(p.outputPerMTok);
    MillionCostsTheRate(p.cacheWritePerMTok);
    MillionCostsTheRate(p.cacheReadPerMTok);
  }

  /**
   * The same with a million uncached input, cached input or output tokens; the cached ones
   * are counted in the input as well, and neither the total nor the reasoning count is billed.
   */
  lemma OpenAiMillionCostsTheRate(id: string, i: nat, total: int, reasoning: int)
    requires i < |OPENAI_CATALOG| && LongestMatch(OPENAI_CATALOG, id, i)
    ensures var p := OPENAI_CATALOG[i].price;
      && OpenAiCostUSD(id, OpenAiCounts(MILLION, 0, total, 0, reasoning)) == p.inputPerMTok
      && OpenAiCostUSD(id, OpenAiCounts(MILLION, 0, total, MILLION, reasoning)) == p.cachedInputPerMTok
      && OpenAiCostUSD(id, OpenAiCounts(0, MILLION, total, 0, reasoning)) == p.outputPerMTok
  {
    var p := OPENAI_CATALOG[i].price;
    CatalogsHaveNoShadowing();
    FirstMatchIsLongest(OPENAI_CATALOG, id);
    MillionCostsTheRate(p.inputPerMTok);
    MillionCostsTheRate(p.cachedInputPerMTok);
    MillionCostsTheRate(p.outputPerMTok);
  }

  lemma PerMTokIsWeighted(tokens: int, rate: real)
    ensures MILLION as real * PerMTok(tokens, rate) == tokens as real * PerMTok(MILLION, rate)
  {
    var x := tokens as real;
    assert 1000000.0 * (x / 1000000.0 * rate) == x * rate;
    MillionCostsTheRate(rate);
  }

  /** Any counts cost what a million of each kind costs, weighted by the counts. */
  lemma AnthropicCostIsWeighted(id: string, t: AnthropicCounts)
    ensures MILLION as real * AnthropicCostUSD(id, t)
         == t.input as real * AnthropicCostUSD(id, AnthropicCounts(MILLION, 0, 0, 0))
            + t.output as real * AnthropicCostUSD(id, AnthropicCounts(0, MILLION, 0, 0))
            + t.cacheCreation as real * AnthropicCostUSD(id, AnthropicCounts(0, 0, MILLION, 0))
            + t.cacheRead as real * AnthropicCostUSD(id, AnthropicCounts(0, 0, 0, MILLION))
  {
    match LookupPricing(ANTHROPIC_CATALOG, id) {
      case None =>
      case Some(p) =>
        PerMTokIsWeighted(t.input, p.inputPerMTok);
        PerMTokIsWeighted(t.output, p.outputPerMTok);
        PerMTokIsWeighted(t.cacheCreation, p.cacheWritePerMTok);
        PerMTokIsWeighted(t.cacheRead, p.cacheReadPerMTok);
    }
  }

  /** The same with the input split into uncached and cached. */
  lemma OpenAiCostIsWeighted(id: string, t: OpenAiCounts)
    ensures MILLION as real * OpenAiCostUSD(id, t)
         == (t.input - t.cached) as real * OpenAiCostUSD(id, OpenAiCounts(MILLION, 0, 0, 0, 0))
            + t.cached as real * OpenAiCostUSD(id, OpenAiCounts(MILLION, 0, 0, MILLION, 0))
            + t.output as real * OpenAiCostUSD(id, OpenAiCounts(0, MILLION, 0, 0, 0))
  {
    match LookupPricing(OPENAI_CATALOG, id) {
      case None =>
      case Some(p) =>
        PerMTokIsWeighted(t.input - t.cached, p.inputPerMTok);
        PerMTokIsWeighted(t.cached, p.cachedInputPerMTok);
        PerMTokIsWeighted(t.output, p.outputPerMTok);
    }
  }

  lemma {:induction false} NoMatchNoPrice<P>(catalog: seq<Entry<P>>, id: string)
    requires forall e <- catalog :: !(e.prefix <= id)
    ensures LookupPricing(catalog, id) == None
  {
    if catalog != [] {
      assert catalog[0] in catalog && forall e <- catalog[1..] :: e in catalog;
      NoMatchNoPrice(catalog[1..], id);
    }
  }

  /** A model that no entry matches costs nothing. */
  lemma UnknownModelIsFree(id: string, a: AnthropicCounts, o: OpenAiCounts)
    ensures (forall e <- ANTHROPIC_CATALOG :: !(e.prefix <= id)) ==> AnthropicCostUSD(id, a) == 0.0
    ensures (forall e <- OPENAI_CATALOG :: !(e.prefix <= id)) ==> OpenAiCostUSD(id, o) == 0.0
  {
    if forall e <- ANTHROPIC_CATALOG :: !(e.prefix <= id) {
      NoMatchNoPrice(ANTHROPIC_CATALOG, id);
    }
    if forall e <- OPENAI_CATALOG :: !(e.prefix <= id) {
      NoMatchNoPrice(OPENAI_CATALOG, id);
    }
  }

  // Families differ in a letter that both prefixes are long enough to have.

  lemma AnthropicHasNoShadowing()
    ensures NoShadowing(ANTHROPIC_CATALOG)
  {
    var a := ANTHROPIC_CATALOG;
    assert forall i, j :: 0 <= i < j < |a| ==> a[i].prefix[7] != a[j].prefix[7];
  }

  lemma OpenAiPairDiffers(i: nat, j: nat)
    requires i < j < |OPENAI_CATALOG|
    ensures var p, q := OPENAI_CATALOG[i].prefix, OPENAI_CATALOG[j].prefix; !(p <= q) && !(q <= p)
  {
    var o := OPENAI_CATALOG;
    if i < 4 <= j {
      assert o[i].prefix[4] == '6' && o[j].prefix[4] == '5';
    } else if j < 4 || j == 7 {
      assert o[i].prefix[6] != o[j].prefix[6];
    } else {
      assert o[i].prefix[8] != o[j].prefix[8];
    }
  }

  /** Both shipped catalogs meet the hypothesis. */
  lemma CatalogsHaveNoShadowing()
    ensures NoShadowing(ANTHROPIC_CATALOG) && NoShadowing(OPENAI_CATALOG)
  {
    AnthropicHasNoShadowing();
    var o := OPENAI_CATALOG;
    forall i, j | 0 <= i < |o| && 0 <= j < |o| && i != j ensures !(o[i].prefix <= o[j].prefix) {
      OpenAiPairDiffers(if i < j then i else j, if i < j then j else i);
    }
  }
}
