/** What the SDK's exported quotes promise, in terms of reserves, fee tables and the
    numbers of a call alone (docs/pump-sdk/src/bondingCurve.ts, fees.ts). */
module QuoteLaws {
  import opened Common
  import opened Quotients
  import opened Fees
  import opened Quote
  import opened BondingCurve

  // ---------------------------------------------------------------- which curve, which rates

  /** The curve, supply and newness a call is priced at: what was passed, or the
      program's fresh curve when either half is missing. */
  ghost predicate PricedOn(
      g: Global, mintSupply: Option<nat>, curve: Option<Curve>, c: Curve, supply: nat, isNew: bool) {
    if mintSupply.Some? && curve.Some? then c == curve.value && supply == mintSupply.value && !isNew
    else
      && isNew && supply == g.tokenTotalSupply && c.creatorIsDefault && c.isMayhemMode == g.mayhemModeEnabled
      && c.virtualTokenReserves == g.initialVirtualTokenReserves
      && c.virtualSolReserves == g.initialVirtualSolReserves
      && c.realTokenReserves == g.initialRealTokenReserves
  }

  /** Tier i applies to a market cap of vSol * supply / vTok: the first tier when the
      cap is below its threshold, otherwise the last one whose threshold it reaches. */
  ghost predicate TierFor(tiers: seq<FeeTier>, i: nat, supply: nat, vSol: nat, vTok: nat) {
    && i < |tiers|
    && if vSol * supply < tiers[0].threshold * vTok then i == 0
       else
         && tiers[i].threshold * vTok <= vSol * supply
         && forall j :: i < j < |tiers| ==> vSol * supply < tiers[j].threshold * vTok
  }

  ghost predicate RatesAt(g: Global, cfg: FeeConfig, supply: nat, c: Curve, r: FeesBps) {
    if cfg.None? then r.protocolFeeBps == g.feeBasisPoints && r.creatorFeeBps == g.creatorFeeBasisPoints
    else exists i: nat ::
           TierFor(cfg.value, i, supply, c.virtualSolReserves, c.virtualTokenReserves) && r == cfg.value[i].fees
  }

  /** The supply the charged fee is looked up at; a quote of tokens uses the mint's own. */
  function ChargedSupply(c: Curve, supply: nat): nat {
    if c.isMayhemMode then supply else 1_000_000_000_000_000
  }

  /** The creator's rate: charged on a new curve and wherever a creator is set. */
  function CreatorRate(c: Curve, isNew: bool, r: FeesBps): nat {
    if !isNew && c.creatorIsDefault then 0 else r.creatorFeeBps
  }

  lemma {:induction false} CapAtThreshold(vSol: nat, supply: nat, vTok: nat, threshold: int)
    requires vTok > 0
    ensures threshold <= BnDiv(vSol * supply, vTok) <==> threshold * vTok <= vSol * supply
  {
    assert vSol * supply >= 0;
    QuotientAtLeast(vSol * supply, vTok, threshold);
  }

  lemma {:induction false} TierFound(tiers: seq<FeeTier>, supply: nat, vSol: nat, vTok: nat, i: nat)
    requires vTok > 0 && i < |tiers|
    ensures TierFor(tiers, i, supply, vSol, vTok) ==>
      CalculateFeeTier(tiers, BnDiv(vSol * supply, vTok)) == Some(tiers[i].fees)
  {
    var cap := BnDiv(vSol * supply, vTok);
    forall j | 0 <= j < |tiers|
      ensures tiers[j].threshold <= cap <==> tiers[j].threshold * vTok <= vSol * supply
    {
      CapAtThreshold(vSol, supply, vTok, tiers[j].threshold);
    }
  }

  lemma {:induction false} SomeTier(tiers: seq<FeeTier>, supply: nat, vSol: nat, vTok: nat)
    requires vTok > 0 && tiers != []
    ensures exists i: nat :: TierFor(tiers, i, supply, vSol, vTok)
  {
    var cap := BnDiv(vSol * supply, vTok);
    forall j | 0 <= j < |tiers|
      ensures tiers[j].threshold <= cap <==> tiers[j].threshold * vTok <= vSol * supply
    {
      CapAtThreshold(vSol, supply, vTok, tiers[j].threshold);
    }
    var i := if cap < tiers[0].threshold then 0 else LastTierAt(tiers, |tiers|, cap).value;
    assert TierFor(tiers, i, supply, vSol, vTok);
  }

  /** The lookup, for any tier table: it fails only on an empty one. */
  lemma {:induction false} RatesLookedUp(g: Global, cfg: FeeConfig, supply: nat, c: Curve, r: FeesBps)
    requires c.virtualTokenReserves > 0
    ensures ComputeFeesBps(g, cfg, supply, c.virtualSolReserves, c.virtualTokenReserves) == Some(r)
      <==> RatesAt(g, cfg, supply, c, r)
    ensures ComputeFeesBps(g, cfg, supply, c.virtualSolReserves, c.virtualTokenReserves) == None <==> cfg == Some([])
  {
    if cfg.Some? && cfg.value != [] {
      var tiers := cfg.value;
      SomeTier(tiers, supply, c.virtualSolReserves, c.virtualTokenReserves);
      var i: nat :| TierFor(tiers, i, supply, c.virtualSolReserves, c.virtualTokenReserves);
      TierFound(tiers, supply, c.virtualSolReserves, c.virtualTokenReserves, i);
      if RatesAt(g, cfg, supply, c, r) {
        var k: nat :| TierFor(tiers, k, supply, c.virtualSolReserves, c.virtualTokenReserves) && r == tiers[k].fees;
        TierFound(tiers, supply, c.virtualSolReserves, c.virtualTokenReserves, k);
      }
    }
  }

  // ---------------------------------------------------------------- what a quote is worth

  /** The least number of lamports that, for a tokens taken out, makes the product of
      the reserves strictly larger. */
  ghost predicate LeastCost(cost: nat, a: nat, vTok: nat, vSol: nat) {
    a < vTok && (vTok - a) * (vSol + cost - 1) <= vTok * vSol < (vTok - a) * (vSol + cost)
  }

  /** The most that can be taken out of reserve t, for s put into reserve v, without
      making their product smaller. */
  ghost predicate GreatestOut(q: nat, s: nat, t: nat, v: nat) {
    (t - q - 1) * (v + s) < t * v <= (t - q) * (v + s)
  }

  /** The least whole fee covering bps ten-thousandths of the amount. */
  ghost predicate LeastFee(fee: nat, amount: nat, bps: nat) {
    10_000 * (fee - 1) < amount * bps <= 10_000 * fee
  }

  /** The most that leaves room, in one lamport less than the budget, for its exact
      share of the fees. */
  ghost predicate GreatestNet(net: nat, budget: nat, bps: nat) {
    net * (10_000 + bps) <= (budget - 1) * 10_000 < (net + 1) * (10_000 + bps)
  }

  ghost predicate BuyPriced(paid: int, a: nat, c: Curve, pf: nat, cf: nat) {
    exists cost: nat, p: nat, f: nat ::
      && LeastCost(cost, a, c.virtualTokenReserves, c.virtualSolReserves)
      && LeastFee(p, cost, pf) && LeastFee(f, cost, cf) && paid == cost + p + f
  }

  ghost predicate SellPriced(got: int, a: nat, c: Curve, pf: nat, cf: nat) {
    exists gross: nat, p: nat, f: nat ::
      && GreatestOut(gross, a, c.virtualSolReserves, c.virtualTokenReserves)
      && LeastFee(p, gross, pf) && LeastFee(f, gross, cf) && got == gross - p - f
  }

  ghost predicate TokensPriced(tokens: int, budget: nat, c: Curve, bps: nat) {
    exists net: nat, q: nat ::
      && GreatestNet(net, budget, bps)
      && GreatestOut(q, net, c.virtualTokenReserves, c.virtualSolReserves)
      && tokens == if q < c.realTokenReserves then q else c.realTokenReserves
  }

  lemma {:induction false} CostIsLeast(a: nat, vTok: nat, vSol: nat)
    requires a < vTok
    ensures BuySolQuote(a, vTok, vSol) == Some(BuyCost(a, vTok, vSol))
    ensures LeastCost(BuyCost(a, vTok, vSol), a, vTok, vSol)
  {
    var cost, rest := BuyCost(a, vTok, vSol), vTok - a;
    assert a * vSol >= 0;
    QuotientBounds(a * vSol, rest);
    assert rest * (vSol + cost) == vTok * vSol - a * vSol + cost * rest;
    assert rest * (vSol + cost - 1) == vTok * vSol - a * vSol + (cost - 1) * rest;
  }

  lemma {:induction false} SwapIsGreatest(s: nat, t: nat, v: nat)
    requires v + s > 0
    ensures GreatestOut(Swapped(s, t, v), s, t, v)
  {
    var q := Swapped(s, t, v);
    assert s * t >= 0;
    QuotientBounds(s * t, v + s);
    assert (t - q) * (v + s) == t * v + s * t - q * (v + s);
    assert (t - q - 1) * (v + s) == t * v + s * t - (q + 1) * (v + s);
  }

  lemma {:induction false} FeeIsLeast(amount: nat, bps: nat)
    ensures Fee(amount, bps) >= 0 && LeastFee(Fee(amount, bps), amount, bps)
  {
    FeeIsCeiling(amount, bps);
  }

  lemma {:induction false} NetIsGreatest(budget: nat, bps: nat)
    requires budget >= 1
    ensures GreatestNet(NetInput(budget, bps), budget, bps)
  {
    QuotientBounds((budget - 1) * 10_000, bps + 10_000);
  }

  // ---------------------------------------------------------------- the exported functions

  /** No tokens asked for, or a curve that has migrated: every quote is zero. */
  lemma {:induction false} NothingToQuote(
      g: Global, cfg: FeeConfig, mintSupply: Option<nat>, curve: Option<Curve>, amount: nat,
      c: Curve, supply: nat, isNew: bool)
    requires PricedOn(g, mintSupply, curve, c, supply, isNew)
    requires amount == 0 || c.virtualTokenReserves == 0
    ensures GetBuySolAmountFromTokenAmount(g, cfg, mintSupply, curve, amount) == Some(0)
    ensures GetBuyTokenAmountFromSolAmount(g, cfg, mintSupply, curve, amount) == Some(0)
    ensures GetSellSolAmountFromTokenAmount(g, cfg, supply, c, amount) == Some(0)
  {
  }

  lemma {:induction false} FeeCharged(g: Global, cfg: FeeConfig, c: Curve, supply: nat, isNew: bool, r: FeesBps, amount: nat)
    requires c.virtualTokenReserves > 0 && RatesAt(g, cfg, ChargedSupply(c, supply), c, r)
    ensures GetFee(g, cfg, supply, c, amount, isNew)
         == Some(Fee(amount, r.protocolFeeBps) + Fee(amount, CreatorRate(c, isNew, r)))
  {
    RatesLookedUp(g, cfg, ChargedSupply(c, supply), c, r);
  }

  /** The price of tokens, on whatever curve it is asked: the least cost that grows the
      product, plus the least fees covering the protocol's and the creator's share. */
  lemma {:induction false} BuyPrice(
      g: Global, cfg: FeeConfig, mintSupply: Option<nat>, curve: Option<Curve>, amount: nat,
      c: Curve, supply: nat, isNew: bool, r: FeesBps)
    requires PricedOn(g, mintSupply, curve, c, supply, isNew) && RatesAt(g, cfg, ChargedSupply(c, supply), c, r)
    requires amount >= 1 && Min(amount, c.realTokenReserves) < c.virtualTokenReserves
    ensures
      var paid := GetBuySolAmountFromTokenAmount(g, cfg, mintSupply, curve, amount);
      paid.Some?
      && BuyPriced(paid.value, Min(amount, c.realTokenReserves), c, r.protocolFeeBps, CreatorRate(c, isNew, r))
  {
    var a := Min(amount, c.realTokenReserves);
    CostIsLeast(a, c.virtualTokenReserves, c.virtualSolReserves);
    var cost := BuyCost(a, c.virtualTokenReserves, c.virtualSolReserves);
    FeeCharged(g, cfg, c, supply, isNew, r, cost);
    FeeIsLeast(cost, r.protocolFeeBps);
    FeeIsLeast(cost, CreatorRate(c, isNew, r));
  }

  /** The proceeds of tokens: the most that keeps the product, less those fees. */
  lemma {:induction false} SellPrice(g: Global, cfg: FeeConfig, supply: nat, c: Curve, amount: nat, r: FeesBps)
    requires RatesAt(g, cfg, ChargedSupply(c, supply), c, r) && amount >= 1 && c.virtualTokenReserves > 0
    ensures
      var got := GetSellSolAmountFromTokenAmount(g, cfg, supply, c, amount);
      got.Some? && SellPriced(got.value, amount, c, r.protocolFeeBps, CreatorRate(c, false, r))
  {
    var gross := Swapped(amount, c.virtualSolReserves, c.virtualTokenReserves);
    SwapIsGreatest(amount, c.virtualSolReserves, c.virtualTokenReserves);
    FeeCharged(g, cfg, c, supply, false, r, gross);
    FeeIsLeast(gross, r.protocolFeeBps);
    FeeIsLeast(gross, CreatorRate(c, false, r));
  }

  /** The tokens a budget buys: the most the net amount takes out, never more than
      the real reserve. The rates are looked up at the mint's supply in either mode. */
  lemma {:induction false} TokensBought(
      g: Global, cfg: FeeConfig, mintSupply: Option<nat>, curve: Option<Curve>, budget: nat,
      c: Curve, supply: nat, isNew: bool, r: FeesBps)
    requires PricedOn(g, mintSupply, curve, c, supply, isNew) && RatesAt(g, cfg, supply, c, r)
    requires budget >= 1 && c.virtualTokenReserves > 0 && c.virtualSolReserves > 0
    ensures
      var tokens := GetBuyTokenAmountFromSolAmount(g, cfg, mintSupply, curve, budget);
      tokens.Some? && TokensPriced(tokens.value, budget, c, r.protocolFeeBps + CreatorRate(c, isNew, r))
  {
    RatesLookedUp(g, cfg, supply, c, r);
    var bps := r.protocolFeeBps + CreatorRate(c, isNew, r);
    NetIsGreatest(budget, bps);
    SwapIsGreatest(NetInput(budget, bps), c.virtualTokenReserves, c.virtualSolReserves);
  }

  /** The fees of a price lie between the exact share and two lamports more. */
  lemma {:induction false} FeesNearShare(cost: nat, p: nat, f: nat, pf: nat, cf: nat)
    requires LeastFee(p, cost, pf) && LeastFee(f, cost, cf)
    ensures cost * (pf + cf) <= 10_000 * (p + f) < cost * (pf + cf) + 20_000
  {
    assert cost * (pf + cf) == cost * pf + cost * cf;
  }

  // ---------------------------------------------------------------- the forward quote is tight

  /** More tokens than a net amount takes out cost more than that net amount. */
  lemma {:induction false} OneMoreCosts(q: nat, net: nat, cost: nat, vTok: nat, vSol: nat)
    requires GreatestOut(q, net, vTok, vSol) && LeastCost(cost, q + 1, vTok, vSol)
    ensures cost >= net + 1
  {
    var rest, least := vTok - q - 1, Min(cost, net);
    assert rest * (vSol + net) == rest * (vSol + least) + rest * (net - least);
    assert rest * (net - least) >= 0;
  }

  lemma {:induction false} OverBudget(net: nat, cost: nat, p: nat, f: nat, pf: nat, cf: nat, budget: nat)
    requires GreatestNet(net, budget, pf + cf) && cost >= net + 1
    requires LeastFee(p, cost, pf) && LeastFee(f, cost, cf)
    ensures cost + p + f >= budget
  {
    FeesNearShare(cost, p, f, pf, cf);
    ScaleMonotone(net + 1, cost, 10_000 + pf + cf);
    assert cost * (10_000 + pf + cf) == cost * 10_000 + cost * (pf + cf);
  }

  lemma {:induction false} OneMorePriced(tokens: nat, budget: nat, paid: int, c: Curve, pf: nat, cf: nat)
    requires TokensPriced(tokens, budget, c, pf + cf) && tokens < c.realTokenReserves
    requires BuyPriced(paid, tokens + 1, c, pf, cf)
    ensures paid >= budget
  {
    var net: nat, q: nat :|
      && GreatestNet(net, budget, pf + cf)
      && GreatestOut(q, net, c.virtualTokenReserves, c.virtualSolReserves)
      && tokens == if q < c.realTokenReserves then q else c.realTokenReserves;
    var cost: nat, p: nat, f: nat :|
      && LeastCost(cost, tokens + 1, c.virtualTokenReserves, c.virtualSolReserves)
      && LeastFee(p, cost, pf) && LeastFee(f, cost, cf) && paid == cost + p + f;
    OneMoreCosts(q, net, cost, c.virtualTokenReserves, c.virtualSolReserves);
    OverBudget(net, cost, p, f, pf, cf, budget);
  }

  /** A budget's quote is the most it can buy: priced back it costs at most two lamports
      more than the budget (at rates of at most 100%), and it takes the whole real
      reserve, or one token more already costs the whole budget. */
  lemma {:induction false} QuoteIsTight(
      g: Global, cfg: FeeConfig, mintSupply: Option<nat>, curve: Option<Curve>, budget: nat,
      c: Curve, supply: nat, isNew: bool, r: FeesBps)
    requires PricedOn(g, mintSupply, curve, c, supply, isNew)
    requires RatesAt(g, cfg, supply, c, r) && RatesAt(g, cfg, ChargedSupply(c, supply), c, r)
    requires budget >= 1 && c.virtualTokenReserves > 0 && c.virtualSolReserves > 0
    ensures
      var tokens := GetBuyTokenAmountFromSolAmount(g, cfg, mintSupply, curve, budget);
      && tokens.Some? && 0 <= tokens.value <= c.realTokenReserves
      && (tokens.value < c.realTokenReserves && tokens.value + 1 < c.virtualTokenReserves ==>
            var paid := GetBuySolAmountFromTokenAmount(g, cfg, mintSupply, curve, tokens.value + 1);
            paid.Some? && paid.value >= budget)
      && (r.protocolFeeBps + CreatorRate(c, isNew, r) <= 10_000 ==>
            var paid := GetBuySolAmountFromTokenAmount(g, cfg, mintSupply, curve, tokens.value);
            paid.Some? && paid.value <= budget + 2)
  {
    TokensBought(g, cfg, mintSupply, curve, budget, c, supply, isNew, r);
    var tokens := GetBuyTokenAmountFromSolAmount(g, cfg, mintSupply, curve, budget).value;
    if tokens < c.realTokenReserves && tokens + 1 < c.virtualTokenReserves {
      BuyPrice(g, cfg, mintSupply, curve, tokens + 1, c, supply, isNew, r);
      OneMorePriced(tokens, budget, GetBuySolAmountFromTokenAmount(g, cfg, mintSupply, curve, tokens + 1).value,
                    c, r.protocolFeeBps, CreatorRate(c, isNew, r));
    }
    if r.protocolFeeBps + CreatorRate(c, isNew, r) <= 10_000 {
      PricedBack(g, cfg, mintSupply, curve, budget, c, supply, isNew, r);
    }
  }

  lemma {:induction false} PricedBack(
      g: Global, cfg: FeeConfig, mintSupply: Option<nat>, curve: Option<Curve>, budget: nat,
      c: Curve, supply: nat, isNew: bool, r: FeesBps)
    requires PricedOn(g, mintSupply, curve, c, supply, isNew)
    requires RatesAt(g, cfg, supply, c, r) && RatesAt(g, cfg, ChargedSupply(c, supply), c, r)
    requires budget >= 1 && c.virtualTokenReserves > 0 && c.virtualSolReserves > 0
    requires r.protocolFeeBps + CreatorRate(c, isNew, r) <= 10_000
    ensures
      var tokens := GetBuyTokenAmountFromSolAmount(g, cfg, mintSupply, curve, budget);
      && tokens.Some? && tokens.value >= 0
      && var paid := GetBuySolAmountFromTokenAmount(g, cfg, mintSupply, curve, tokens.value);
         paid.Some? && paid.value <= budget + 2
  {
    RatesLookedUp(g, cfg, supply, c, r);
    RatesLookedUp(g, cfg, ChargedSupply(c, supply), c, r);
    PublicRoundTrip(g, cfg, mintSupply, curve, budget, r);
  }
}
