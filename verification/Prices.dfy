/**
 What a request costs (src/providers/mod.rs): list prices per million tokens, in exact reals.
 */
module Prices {
  import opened Wrappers

  datatype PriceTable = PriceTable(inputPerM: real, outputPerM: real)

  function DefaultPrices(provider: string): (r: Option<PriceTable>)
    ensures r.Some? ==> r.value.inputPerM >= 0.0 && r.value.outputPerM >= 0.0
  {
    if provider == "openai" then Some(PriceTable(2.5, 10.0))
    else if provider == "gemini" then Some(PriceTable(1.25, 5.0))
    else if provider == "nvidia" then Some(PriceTable(0.0, 0.0))
    else if provider == "groq" then Some(PriceTable(0.27, 0.27))
    else if provider == "deepseek" then Some(PriceTable(0.14, 0.28))
    else if provider == "kimi" then Some(PriceTable(1.0, 3.0))
    else if provider == "openrouter" then Some(PriceTable(2.0, 6.0))
    else if provider == "ollama" || provider == "lmstudio" then Some(PriceTable(0.0, 0.0))
    else None
  }

  /** Which providers have no trusted prices, which are free, and what the others charge. */
  lemma PricesAre(provider: string)
    ensures DefaultPrices(provider).None? <==>
            provider !in {"openai", "gemini", "nvidia", "groq", "deepseek", "kimi", "openrouter", "ollama", "lmstudio"}
    ensures DefaultPrices(provider) == Some(PriceTable(0.0, 0.0)) <==> provider in {"nvidia", "ollama", "lmstudio"}
    ensures provider in LIST_PRICES ==>
              DefaultPrices(provider) == Some(PriceTable(LIST_PRICES[provider].0, LIST_PRICES[provider].1))
  {
  }

  /** Dollars per million tokens of input and of output. */
  const LIST_PRICES: map<string, (real, real)> :=
    map["openai" := (2.5, 10.0), "gemini" := (1.25, 5.0), "groq" := (0.27, 0.27), "deepseek" := (0.14, 0.28),
        "kimi" := (1.0, 3.0), "openrouter" := (2.0, 6.0)]

  function EstimateCost(prices: PriceTable, prompt: nat, completion: nat): real {
    (prompt as real * prices.inputPerM + completion as real * prices.outputPerM) / 1000000.0
  }

  /** A million tokens cost their list price, and costs add up. */
  lemma CostIsPerMillion(prices: PriceTable, a: nat, b: nat, c: nat, d: nat)
    ensures EstimateCost(prices, 1_000_000, 0) == prices.inputPerM && EstimateCost(prices, 0, 1_000_000) == prices.outputPerM
    ensures EstimateCost(prices, a + c, b + d) == EstimateCost(prices, a, b) + EstimateCost(prices, c, d)
  {
    assert (a + c) as real * prices.inputPerM == a as real * prices.inputPerM + c as real * prices.inputPerM;
    assert (b + d) as real * prices.outputPerM == b as real * prices.outputPerM + d as real * prices.outputPerM;
  }

  /** Bounds on the tokens bound the cost. */
  lemma CostIsMonotone(prices: PriceTable, prompt: nat, completion: nat, promptBound: nat, completionBound: nat)
    requires prices.inputPerM >= 0.0 && prices.outputPerM >= 0.0
    requires prompt <= promptBound && completion <= completionBound
    ensures 0.0 <= EstimateCost(prices, prompt, completion) <= EstimateCost(prices, promptBound, completionBound)
  {
  }
}
