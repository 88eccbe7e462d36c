/** The launch-buy quote (src/pumpfun/quote.rs): closed-form inverse of the
    two-ceiling fee scheme, and the token amount it buys. */
module Quote {
  import opened Common
  import opened Fees
  import opened Quotients

  const PROTOCOL_FEE_BPS: nat := 95
  const CREATOR_FEE_BPS: nat := 30
  const COMBINED: nat := 10_125

  datatype BuyQuote = BuyQuote(amountTokens: nat, maxSolCost: nat)

  /** `x as u64` for a wider unsigned x. */
  function AsU64(x: nat): nat {
    x % U64
  }

  /** The combined-denominator estimate of the net amount. */
  function Estimate(solIn: nat): nat {
    AsU64(solIn * 10_000 / COMBINED)
  }

  /** `net_sol`: the estimate, less one when its fees do not fit. */
  function NetSol(solIn: nat): int {
    var x := Estimate(solIn);
    var fp := AsU64((x * PROTOCOL_FEE_BPS + 9_999) / 10_000);
    var fc := AsU64((x * CREATOR_FEE_BPS + 9_999) / 10_000);
    x - (if x + fp + fc > solIn then 1 else 0)
  }

  /** `quote_buy_at_create`; None stands for the division-by-zero panic. */
  function QuoteBuyAtCreate(vSol: nat, vTokens: nat, solIn: nat): Option<BuyQuote>
    requires vSol < U64 && vTokens < U64 && solIn < U64
  {
    NetSolExact(solIn);
    QuoteForNet(vSol, vTokens, NetSol(solIn), solIn)
  }

  function QuoteForNet(vSol: nat, vTokens: nat, net: nat, solIn: nat): Option<BuyQuote> {
    if net == 0 || vTokens == 0 then Some(BuyQuote(0, solIn))
    else if vSol + (net - 1) == 0 then None
    else Some(BuyQuote(AsU64(Swapped(net - 1, vTokens, vSol)), solIn))
  }

  /** Output of a constant-product swap of s into reserve v, against reserve t. */
  function Swapped(s: nat, t: nat, v: nat): nat
    requires v + s > 0
  {
    assert s * t >= 0;
    s * t / (v + s)
  }

  // ---------------------------------------------------------------- exactness

  /** What a net amount costs once both fees are rounded up. */
  function Total(n: nat): (t: nat)
    ensures t == n + (95 * n + 9_999) / 10_000 + (30 * n + 9_999) / 10_000
  {
    FeeValue(n, PROTOCOL_FEE_BPS);
    FeeValue(n, CREATOR_FEE_BPS);
    n + Fee(n, PROTOCOL_FEE_BPS) + Fee(n, CREATOR_FEE_BPS)
  }

  lemma {:induction false} TotalStrict(a: nat, b: nat)
    requires a < b
    ensures Total(a) < Total(b)
  {
  }

  lemma {:induction false} TotalBounds(n: nat)
    ensures 10_125 * n <= 10_000 * Total(n) <= 10_125 * n + 19_998
  {
  }

  lemma {:induction false} EstimateIsFloor(solIn: nat)
    requires solIn < U64
    ensures Estimate(solIn) <= solIn
    ensures 10_125 * Estimate(solIn) <= 10_000 * solIn < 10_125 * (Estimate(solIn) + 1)
  {
    assert solIn * 10_000 / COMBINED <= solIn;
  }

  lemma {:induction false} NetSolByTotal(solIn: nat)
    requires solIn < U64
    ensures NetSol(solIn) == Estimate(solIn) - (if Total(Estimate(solIn)) > solIn then 1 else 0)
  {
    EstimateIsFloor(solIn);
    var x := Estimate(solIn);
    FeeFitsU64(x, PROTOCOL_FEE_BPS);
    FeeFitsU64(x, CREATOR_FEE_BPS);
  }

  lemma {:induction false} FeeFitsU64(x: nat, bps: nat)
    requires x < U64 && bps <= 95
    ensures AsU64((x * bps + 9_999) / 10_000) == Fee(x, bps)
  {
    FeeValue(x, bps);
    ScaleMonotone(bps, 95, x);
    assert x * bps == bps * x;
    CastFits(x * bps);
  }

  lemma {:induction false} CastFits(p: nat)
    requires p <= 95 * U64
    ensures AsU64((p + 9_999) / 10_000) == (p + 9_999) / 10_000
  {
  }

  /** The estimate overshoots by at most one, so one decrement is exact and never
      underflows: `net_sol` is the greatest n whose total fits the budget. */
  lemma {:induction false} NetSolExact(solIn: nat)
    requires solIn < U64
    ensures NetSol(solIn) >= 0
    ensures Total(NetSol(solIn)) <= solIn < Total(NetSol(solIn) + 1)
    ensures forall n: nat :: Total(n) <= solIn <==> n <= NetSol(solIn)
    ensures Estimate(solIn) - 1 <= NetSol(solIn) <= Estimate(solIn)
  {
    EstimateIsFloor(solIn);
    NetSolByTotal(solIn);
    var x, net := Estimate(solIn), NetSol(solIn);
    TotalBounds(x);
    TotalBounds(x + 1);
    if x > 0 {
      TotalBounds(x - 1);
    }
    forall n: nat
      ensures Total(n) <= solIn <==> n <= net
    {
      if n < net {
        TotalStrict(n, net);
      } else if net + 1 < n {
        TotalStrict(net + 1, n);
      }
    }
  }

  /** The formula of the IDL note: subtract whatever the total overshoots. */
  function DocumentedNetSol(solIn: nat): int {
    var n := solIn * 10_000 / (10_000 + (PROTOCOL_FEE_BPS + CREATOR_FEE_BPS));
    if Total(n) > solIn then n - (Total(n) - solIn) else n
  }

  lemma {:induction false} DocumentedFormulaAgrees(solIn: nat)
    requires solIn < U64
    ensures NetSol(solIn) == DocumentedNetSol(solIn)
  {
    EstimateIsFloor(solIn);
    NetSolByTotal(solIn);
    TotalBounds(Estimate(solIn));
  }

  /** The quote panics on exactly one kind of input: an empty sol reserve and a
      budget of three lamports, which nets exactly one. */
  lemma {:induction false} QuotePanicsIff(vSol: nat, vTokens: nat, solIn: nat)
    requires vSol < U64 && vTokens < U64 && solIn < U64
    ensures QuoteBuyAtCreate(vSol, vTokens, solIn).None? <==> vSol == 0 && vTokens > 0 && solIn == 3
  {
    NetSolExact(solIn);
    assert Total(0) == 0 && Total(1) == 3 && Total(2) == 4;
  }

  /** No cast in the quote loses anything. */
  lemma {:induction false} QuoteIsExactQuotient(vSol: nat, vTokens: nat, solIn: nat)
    requires 0 < vSol < U64 && vTokens < U64 && solIn < U64
    ensures QuoteBuyAtCreate(vSol, vTokens, solIn).Some?
    ensures
      var q := QuoteBuyAtCreate(vSol, vTokens, solIn).value;
      && q.maxSolCost == solIn
      && (NetSol(solIn) == 0 ==> q.amountTokens == 0)
      && (NetSol(solIn) > 0 ==>
            q.amountTokens == Swapped(NetSol(solIn) - 1, vTokens, vSol))
      && (vTokens > 0 ==> q.amountTokens < vTokens)
  {
    NetSolExact(solIn);
    QuoteForNetExact(vSol, vTokens, NetSol(solIn), solIn);
  }

  lemma {:induction false} QuoteForNetExact(vSol: nat, vTokens: nat, net: nat, solIn: nat)
    requires 0 < vSol < U64 && vTokens < U64
    ensures
      var q := QuoteForNet(vSol, vTokens, net, solIn);
      && q.Some? && q.value.maxSolCost == solIn
      && (net == 0 ==> q.value.amountTokens == 0)
      && (net > 0 ==> q.value.amountTokens == Swapped(net - 1, vTokens, vSol))
      && (vTokens > 0 ==> q.value.amountTokens < vTokens)
  {
    if net > 0 {
      SwapBelowReserve(net - 1, vTokens, vSol);
      var out := Swapped(net - 1, vTokens, vSol);
      assert AsU64(out) == out;
    }
  }

  /** A constant-product swap never empties the other reserve. */
  lemma {:induction false} SwapBelowReserve(s: nat, t: nat, v: nat)
    requires v > 0
    ensures Swapped(s, t, v) <= t
    ensures t > 0 ==> Swapped(s, t, v) < t
  {
    assert t * (v + s) == t * v + s * t;
    assert t > 0 ==> t * v > 0;
    QuotientAtLeast(s * t, v + s, t);
    QuotientAtLeast(s * t, v + s, t + 1);
    assert (t + 1) * (v + s) == t * (v + s) + (v + s);
    assert t * v >= 0;
  }
}
