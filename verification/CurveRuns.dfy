/** Whole trading histories on one bonding curve. Reserves move by the pre-fee
    amounts the SDK helpers quote; fees go elsewhere. */
module CurveRuns {
  import opened Common
  import opened Quotients
  import opened Fees
  import opened Quote
  import opened BondingCurve
  import opened QuoteLaws

  datatype Reserves = Reserves(tok: nat, sol: nat)

  datatype Trade =
    | BuyTokens(tokens: nat)      // exact tokens out
    | SpendSol(lamports: nat)     // exact lamports in, net of fees
    | SellTokens(tokens: nat)     // exact tokens in

  predicate Live(r: Reserves) {
    r.tok > 0 && r.sol > 0
  }

  /** A buy must leave tokens in the virtual reserve. */
  predicate Legal(r: Reserves, t: Trade) {
    t.BuyTokens? ==> 1 <= t.tokens < r.tok
  }

  function Step(r: Reserves, t: Trade): (r': Reserves)
    requires Live(r) && Legal(r, t)
    ensures Live(r')
  {
    match t
    case BuyTokens(n) => Reserves(r.tok - n, r.sol + BuyCost(n, r.tok, r.sol))
    case SpendSol(s) =>
      SwapBelowReserve(s, r.tok, r.sol);
      Reserves(r.tok - Swapped(s, r.tok, r.sol), r.sol + s)
    case SellTokens(n) =>
      SwapBelowReserve(n, r.sol, r.tok);
      Reserves(r.tok + n, r.sol - Swapped(n, r.sol, r.tok))
  }

  /** A trade moves the reserves by exactly what the SDK's helpers quote for it, and no
      other amounts would do: a buy pays the least that grows the product, the other
      two take the most that keeps it. */
  lemma {:induction false} StepIsQuoted(r: Reserves, t: Trade)
    requires Live(r) && Legal(r, t)
    ensures
      var r' := Step(r, t);
      match t
      case BuyTokens(n) =>
        && r'.tok == r.tok - n && r'.sol >= r.sol && LeastCost(r'.sol - r.sol, n, r.tok, r.sol)
        && BuySolQuote(n, r.tok, r.sol) == Some(r'.sol - r.sol)
      case SpendSol(s) =>
        && r'.sol == r.sol + s && r'.tok <= r.tok && GreatestOut(r.tok - r'.tok, s, r.tok, r.sol)
        && BuyTokenQuote(s, r.tok, r.sol) == Some(r.tok - r'.tok)
      case SellTokens(n) =>
        && r'.tok == r.tok + n && r'.sol <= r.sol && GreatestOut(r.sol - r'.sol, n, r.sol, r.tok)
        && SellSolQuote(n, r.tok, r.sol) == Some(r.sol - r'.sol)
  {
    match t
    case BuyTokens(n) => CostIsLeast(n, r.tok, r.sol);
    case SpendSol(s) =>
      SwapBelowReserve(s, r.tok, r.sol);
      SwapIsGreatest(s, r.tok, r.sol);
    case SellTokens(n) =>
      SwapBelowReserve(n, r.sol, r.tok);
      SwapIsGreatest(n, r.sol, r.tok);
  }

  /** rs is the sequence of reserves a list of legal trades goes through. */
  ghost predicate IsRun(rs: seq<Reserves>, trades: seq<Trade>) {
    && |rs| == |trades| + 1
    && (forall i :: 0 <= i < |rs| ==> Live(rs[i]))
    && (forall i :: 0 <= i < |trades| ==> Legal(rs[i], trades[i]) && rs[i + 1] == Step(rs[i], trades[i]))
  }

  predicate HasExactBuy(trades: seq<Trade>) {
    exists i :: 0 <= i < |trades| && trades[i].BuyTokens?
  }

  function Product(r: Reserves): nat {
    r.tok * r.sol
  }

  lemma {:induction false} BuyGrowsProduct(r: Reserves, n: nat)
    requires Live(r) && 1 <= n < r.tok
    ensures Product(Step(r, BuyTokens(n))) > Product(r)
  {
    var c := BuyCost(n, r.tok, r.sol);
    assert n * r.sol >= 0;
    QuotientBounds(n * r.sol, r.tok - n);
    assert c * (r.tok - n) > n * r.sol;
    assert (r.tok - n) * (r.sol + c) == r.tok * r.sol - n * r.sol + c * (r.tok - n);
  }

  /** A swap of s into reserve v against t never shrinks the product. */
  lemma {:induction false} SwapKeepsProduct(s: nat, t: nat, v: nat)
    requires v > 0 && t > 0
    ensures Swapped(s, t, v) < t
    ensures (t - Swapped(s, t, v)) * (v + s) >= t * v
  {
    var q := Swapped(s, t, v);
    SwapBelowReserve(s, t, v);
    QuotientAtLeast(s * t, v + s, q);
    assert (t - q) * (v + s) == t * v + s * t - q * (v + s);
  }

  lemma {:induction false} StepProduct(r: Reserves, t: Trade)
    requires Live(r) && Legal(r, t)
    ensures Product(Step(r, t)) >= Product(r)
    ensures t.BuyTokens? ==> Product(Step(r, t)) > Product(r)
  {
    match t
    case BuyTokens(n) => BuyGrowsProduct(r, n);
    case SpendSol(s) => SwapKeepsProduct(s, r.tok, r.sol);
    case SellTokens(n) =>
      SwapKeepsProduct(n, r.sol, r.tok);
      assert Product(Step(r, t)) == (r.sol - Swapped(n, r.sol, r.tok)) * (r.tok + n);
  }

  /** Over every run the reserve product never falls, and an exact-token buy
      anywhere in it makes the product strictly larger. */
  lemma {:induction false} RunProduct(rs: seq<Reserves>, trades: seq<Trade>)
    requires IsRun(rs, trades)
    ensures Product(rs[|trades|]) >= Product(rs[0])
    ensures HasExactBuy(trades) ==> Product(rs[|trades|]) > Product(rs[0])
  {
    if trades != [] {
      var n := |trades| - 1;
      StepProduct(rs[n], trades[n]);
      RunProduct(rs[..n + 1], trades[..n]);
      if HasExactBuy(trades) && !trades[n].BuyTokens? {
        var i :| 0 <= i < |trades| && trades[i].BuyTokens?;
        assert trades[..n][i].BuyTokens?;
      }
    }
  }

  /** No free lamports: a run that leaves the curve with no more tokens than it
      started with leaves it with no fewer lamports, and with more if it contained
      an exact-token buy. Buying and selling back is the two-trade case. */
  lemma {:induction false} NoFreeSol(rs: seq<Reserves>, trades: seq<Trade>)
    requires IsRun(rs, trades) && rs[|trades|].tok <= rs[0].tok
    ensures rs[|trades|].sol >= rs[0].sol
    ensures HasExactBuy(trades) ==> rs[|trades|].sol > rs[0].sol
  {
    RunProduct(rs, trades);
    SmallerTokenSide(rs[0], rs[|trades|]);
  }

  lemma {:induction false} SmallerTokenSide(r: Reserves, a: Reserves)
    requires r.tok > 0 && a.tok <= r.tok
    ensures Product(a) >= Product(r) ==> a.sol >= r.sol
    ensures Product(a) > Product(r) ==> a.sol > r.sol
  {
    var gain := a.sol - r.sol;
    assert (r.tok - a.tok) * a.sol >= 0;
    assert Product(a) + (r.tok - a.tok) * a.sol == r.tok * (r.sol + gain);
    assert r.tok * (r.sol + gain) == Product(r) + r.tok * gain;
    SignOfMultiple(r.tok, gain);
  }

  lemma {:induction false} SignOfMultiple(k: nat, x: int)
    requires k > 0
    ensures k * x >= 0 ==> x >= 0
    ensures k * x > 0 ==> x > 0
  {
  }

  /** One buy is the best way to acquire t tokens: any run, buys and sells mixed,
      that takes t tokens out of the curve puts in at least the quoted cost; a run
      with no exact-token buy may save the one added lamport. */
  lemma {:induction false} OneBuyIsBest(rs: seq<Reserves>, trades: seq<Trade>, t: nat)
    requires IsRun(rs, trades) && 1 <= t < rs[0].tok && rs[|trades|].tok == rs[0].tok - t
    ensures rs[|trades|].sol - rs[0].sol >= BuyCost(t, rs[0].tok, rs[0].sol) - 1
    ensures HasExactBuy(trades) ==> rs[|trades|].sol - rs[0].sol >= BuyCost(t, rs[0].tok, rs[0].sol)
  {
    RunProduct(rs, trades);
    CostFromProduct(rs[0], t, rs[|trades|].sol - rs[0].sol);
  }

  lemma {:induction false} CostFromProduct(r: Reserves, t: nat, paid: int)
    requires t < r.tok && r.sol + paid >= 0
    ensures (r.tok - t) * (r.sol + paid) >= Product(r) ==> paid >= BuyCost(t, r.tok, r.sol) - 1
    ensures (r.tok - t) * (r.sol + paid) > Product(r) ==> paid >= BuyCost(t, r.tok, r.sol)
  {
    var rest := r.tok - t;
    assert t * r.sol >= 0;
    assert rest * (r.sol + paid) == r.tok * r.sol - t * r.sol + paid * rest;
    QuotientAtMost(t * r.sol, rest, paid);
  }

  /** k divisors that cover a reach past the floor of the quotient. */
  lemma {:induction false} QuotientAtMost(a: nat, d: nat, k: int)
    requires d > 0
    ensures k * d >= a ==> k >= a / d
    ensures k * d > a ==> k > a / d
  {
    QuotientBounds(a, d);
    var q := a / d;
    assert q * d <= a;
    assert (q - k) * d == q * d - k * d;
  }

  /** One sell is the best way to dispose of t tokens: no run that returns t tokens
      to the curve takes out more than the quoted proceeds. */
  lemma {:induction false} OneSellIsBest(rs: seq<Reserves>, trades: seq<Trade>, t: nat)
    requires IsRun(rs, trades) && rs[|trades|].tok == rs[0].tok + t
    ensures rs[0].sol - rs[|trades|].sol <= Swapped(t, rs[0].sol, rs[0].tok)
  {
    RunProduct(rs, trades);
    ProceedsFromProduct(rs[0], t, rs[0].sol - rs[|trades|].sol);
  }

  lemma {:induction false} ProceedsFromProduct(r: Reserves, t: nat, got: int)
    requires r.tok > 0 && (r.tok + t) * (r.sol - got) >= Product(r)
    ensures got <= Swapped(t, r.sol, r.tok)
  {
    assert t * r.sol >= 0;
    assert (r.tok + t) * (r.sol - got) == r.tok * r.sol + t * r.sol - got * (r.tok + t);
    QuotientAtLeast(t * r.sol, r.tok + t, got);
  }

  /** One purchase is the best way to spend s lamports: no run that adds s lamports to
      the curve takes out more tokens than the one-trade quote. */
  lemma {:induction false} OneSpendIsBest(rs: seq<Reserves>, trades: seq<Trade>, s: nat)
    requires IsRun(rs, trades) && rs[|trades|].sol == rs[0].sol + s
    ensures rs[0].tok - rs[|trades|].tok <= Swapped(s, rs[0].tok, rs[0].sol)
  {
    RunProduct(rs, trades);
    var got := rs[0].tok - rs[|trades|].tok;
    assert (rs[0].sol + s) * (rs[0].tok - got) == Product(rs[|trades|]);
    ProceedsFromProduct(Reserves(rs[0].sol, rs[0].tok), s, got);
  }

  lemma {:induction false} TwoTrades(r: Reserves, a: Trade, b: Trade)
    requires Live(r) && Legal(r, a) && Legal(Step(r, a), b)
    ensures IsRun([r, Step(r, a), Step(Step(r, a), b)], [a, b])
  {
  }

  /** Buying t tokens and selling them straight back returns strictly less. */
  lemma {:induction false} BuyThenSellLoses(r: Reserves, t: nat)
    requires Live(r) && 1 <= t < r.tok
    ensures Swapped(t, r.sol + BuyCost(t, r.tok, r.sol), r.tok - t) < BuyCost(t, r.tok, r.sol)
  {
    TwoTrades(r, BuyTokens(t), SellTokens(t));
    assert [BuyTokens(t), SellTokens(t)][0].BuyTokens?;
    NoFreeSol([r, Step(r, BuyTokens(t)), Step(Step(r, BuyTokens(t)), SellTokens(t))], [BuyTokens(t), SellTokens(t)]);
  }

  /** The same through the exported functions: buying t tokens and selling them into
      the curve the purchase left behind loses, at whatever fees either call looks up. */
  lemma {:induction false} PublicBuyThenSellLoses(
      g: Global, cfg: FeeConfig, mintSupply: nat, before: Curve, after: Curve, t: nat)
    requires 1 <= t < before.virtualTokenReserves && t <= before.realTokenReserves && before.virtualSolReserves > 0
    requires after.virtualTokenReserves == before.virtualTokenReserves - t
    requires after.virtualSolReserves
          == before.virtualSolReserves + BuyCost(t, before.virtualTokenReserves, before.virtualSolReserves)
    ensures
      var paid := GetBuySolAmountFromTokenAmount(g, cfg, Some(mintSupply), Some(before), t);
      var got := GetSellSolAmountFromTokenAmount(g, cfg, mintSupply, after, t);
      paid.Some? && got.Some? ==> got.value < paid.value
  {
    var vTok, vSol := before.virtualTokenReserves, before.virtualSolReserves;
    BuyThenSellLoses(Reserves(vTok, vSol), t);
    BuyQuoteIsCost(t, vTok, vSol);
    var cost, proceeds := BuyCost(t, vTok, vSol), Swapped(t, after.virtualSolReserves, after.virtualTokenReserves);
    FeeNeverNegative(g, cfg, mintSupply, before, cost);
    FeeNeverNegative(g, cfg, mintSupply, after, proceeds);
  }

  /** What that round trip loses: at least the exact share of the purchase's fees, and
      a lamport. */
  lemma {:induction false} RoundTripCostsFees(
      g: Global, cfg: FeeConfig, mintSupply: nat, before: Curve, after: Curve, t: nat, r: FeesBps, r': FeesBps)
    requires 1 <= t < before.virtualTokenReserves && t <= before.realTokenReserves && before.virtualSolReserves > 0
    requires after.virtualTokenReserves == before.virtualTokenReserves - t
    requires after.virtualSolReserves
          == before.virtualSolReserves + BuyCost(t, before.virtualTokenReserves, before.virtualSolReserves)
    requires RatesAt(g, cfg, ChargedSupply(before, mintSupply), before, r)
    requires RatesAt(g, cfg, ChargedSupply(after, mintSupply), after, r')
    ensures
      var paid := GetBuySolAmountFromTokenAmount(g, cfg, Some(mintSupply), Some(before), t);
      var got := GetSellSolAmountFromTokenAmount(g, cfg, mintSupply, after, t);
      var cost := BuyCost(t, before.virtualTokenReserves, before.virtualSolReserves);
      && paid.Some? && got.Some?
      && 10_000 * (paid.value - got.value)
           >= 10_000 + cost * (r.protocolFeeBps + CreatorRate(before, false, r))
  {
    var vTok, vSol := before.virtualTokenReserves, before.virtualSolReserves;
    BuyThenSellLoses(Reserves(vTok, vSol), t);
    BuyQuoteIsCost(t, vTok, vSol);
    var cost, proceeds := BuyCost(t, vTok, vSol), Swapped(t, after.virtualSolReserves, after.virtualTokenReserves);
    FeeCharged(g, cfg, before, mintSupply, false, r, cost);
    FeeCharged(g, cfg, after, mintSupply, false, r', proceeds);
    FeeNeverNegative(g, cfg, mintSupply, after, proceeds);
    FeeIsLeast(cost, r.protocolFeeBps);
    FeeIsLeast(cost, CreatorRate(before, false, r));
    FeesNearShare(cost, Fee(cost, r.protocolFeeBps), Fee(cost, CreatorRate(before, false, r)),
                  r.protocolFeeBps, CreatorRate(before, false, r));
  }

  lemma {:induction false} BuyQuoteIsCost(t: nat, vTok: nat, vSol: nat)
    requires t < vTok
    ensures BuySolQuote(t, vTok, vSol) == Some(BuyCost(t, vTok, vSol))
  {
    assert t * vSol >= 0;
  }

  lemma {:induction false} FeeNeverNegative(g: Global, cfg: FeeConfig, mintSupply: nat, c: Curve, amount: nat)
    ensures GetFee(g, cfg, mintSupply, c, amount, false).Some? ==> GetFee(g, cfg, mintSupply, c, amount, false).value >= 0
  {
    var supply := if c.isMayhemMode then mintSupply else ONE_BILLION_SUPPLY;
    var fees := ComputeFeesBps(g, cfg, supply, c.virtualSolReserves, c.virtualTokenReserves);
    if fees.Some? {
      FeeIsCeiling(amount, fees.value.protocolFeeBps);
      FeeIsCeiling(amount, CreatorBps(c, false, fees.value));
    }
  }

  /** Splitting a buy of tokens, a buy for lamports or a sell in two is never better
      than one trade. */
  lemma {:induction false} SplittingNeverHelps(r: Reserves, a: nat, b: nat)
    requires Live(r)
    ensures 1 <= a && 1 <= b && a + b < r.tok ==>
      BuyCost(a + b, r.tok, r.sol)
        <= BuyCost(a, r.tok, r.sol) + BuyCost(b, r.tok - a, r.sol + BuyCost(a, r.tok, r.sol))
    ensures Swapped(a, r.sol, r.tok) < r.sol
    ensures Swapped(a, r.sol, r.tok) + Swapped(b, r.sol - Swapped(a, r.sol, r.tok), r.tok + a)
         <= Swapped(a + b, r.sol, r.tok)
    ensures Swapped(a, r.tok, r.sol) < r.tok
    ensures Swapped(a, r.tok, r.sol) + Swapped(b, r.tok - Swapped(a, r.tok, r.sol), r.sol + a)
         <= Swapped(a + b, r.tok, r.sol)
  {
    SplitSpend(r, a, b);
    if 1 <= a && 1 <= b && a + b < r.tok {
      TwoTrades(r, BuyTokens(a), BuyTokens(b));
      assert [BuyTokens(a), BuyTokens(b)][0].BuyTokens?;
      OneBuyIsBest([r, Step(r, BuyTokens(a)), Step(Step(r, BuyTokens(a)), BuyTokens(b))], [BuyTokens(a), BuyTokens(b)], a + b);
    }
    SwapBelowReserve(a, r.sol, r.tok);
    TwoTrades(r, SellTokens(a), SellTokens(b));
    OneSellIsBest([r, Step(r, SellTokens(a)), Step(Step(r, SellTokens(a)), SellTokens(b))], [SellTokens(a), SellTokens(b)], a + b);
  }

  lemma {:induction false} SplitSpend(r: Reserves, a: nat, b: nat)
    requires Live(r)
    ensures Swapped(a, r.tok, r.sol) < r.tok
    ensures Swapped(a, r.tok, r.sol) + Swapped(b, r.tok - Swapped(a, r.tok, r.sol), r.sol + a)
         <= Swapped(a + b, r.tok, r.sol)
  {
    SwapBelowReserve(a, r.tok, r.sol);
    TwoTrades(r, SpendSol(a), SpendSol(b));
    var mid := Step(r, SpendSol(a));
    OneSpendIsBest([r, mid, Step(mid, SpendSol(b))], [SpendSol(a), SpendSol(b)], a + b);
  }

  // ---------------------------------------------------------------- what the trader pays

  function Abs(x: int): nat {
    if x < 0 then -x else x
  }

  /** Net lamports leaving the trader, fees on the traded amount included. */
  function Paid(flow: int, pf: nat, cf: nat): int {
    flow + Fee(Abs(flow), pf) + Fee(Abs(flow), cf)
  }

  ghost function PaidOver(rs: seq<Reserves>, pf: nat, cf: nat): int {
    if |rs| <= 1 then 0
    else PaidOver(rs[..|rs| - 1], pf, cf) + Paid(rs[|rs| - 1].sol - rs[|rs| - 2].sol, pf, cf)
  }

  lemma {:induction false} PaidCoversReserve(rs: seq<Reserves>, pf: nat, cf: nat)
    requires |rs| >= 1
    ensures PaidOver(rs, pf, cf) >= rs[|rs| - 1].sol - rs[0].sol
  {
    if |rs| > 1 {
      var flow := rs[|rs| - 1].sol - rs[|rs| - 2].sol;
      FeeIsCeiling(Abs(flow), pf);
      FeeIsCeiling(Abs(flow), cf);
      PaidCoversReserve(rs[..|rs| - 1], pf, cf);
    }
  }

  /** Whatever the fee rates, a trader who ends a run holding at least the tokens
      he began with has paid lamports for it, never received them. */
  lemma {:induction false} TraderNeverProfits(rs: seq<Reserves>, trades: seq<Trade>, pf: nat, cf: nat)
    requires IsRun(rs, trades) && rs[|trades|].tok <= rs[0].tok
    ensures PaidOver(rs, pf, cf) >= 0
    ensures HasExactBuy(trades) ==> PaidOver(rs, pf, cf) > 0
  {
    PaidCoversReserve(rs, pf, cf);
    NoFreeSol(rs, trades);
  }
}
