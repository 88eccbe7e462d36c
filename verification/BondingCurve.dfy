/** The SDK's bonding-curve quotes (docs/pump-sdk/src/bondingCurve.ts with the fee
    lookup of fees.ts), and how they meet the launch quote. */
module BondingCurve {
  import opened Common
  import opened Quotients
  import opened Fees
  import opened Quote

  datatype Global = Global(
    initialVirtualTokenReserves: nat, initialVirtualSolReserves: nat, initialRealTokenReserves: nat,
    tokenTotalSupply: nat, feeBasisPoints: nat, creatorFeeBasisPoints: nat, mayhemModeEnabled: bool)

  datatype Curve = Curve(
    virtualTokenReserves: nat, virtualSolReserves: nat, realTokenReserves: nat,
    creatorIsDefault: bool, isMayhemMode: bool)

  /** None: no fee config account; Some: its tiers. */
  type FeeConfig = Option<seq<FeeTier>>

  function NewBondingCurve(g: Global): Curve {
    Curve(g.initialVirtualTokenReserves, g.initialVirtualSolReserves, g.initialRealTokenReserves,
          true, g.mayhemModeEnabled)
  }

  // ---------------------------------------------------------------- the three price helpers

  /** Lamports for minAmount tokens. */
  function BuySolQuote(minAmount: nat, vTok: nat, vSol: nat): Option<int> {
    if vTok == minAmount then None else Some(BnDiv(minAmount * vSol, vTok - minAmount) + 1)
  }

  /** Tokens for inputAmount lamports. */
  function BuyTokenQuote(inputAmount: nat, vTok: nat, vSol: nat): Option<nat> {
    if vSol + inputAmount == 0 then None else Some(Swapped(inputAmount, vTok, vSol))
  }

  /** Lamports for inputAmount tokens sold. */
  function SellSolQuote(inputAmount: nat, vTok: nat, vSol: nat): Option<nat> {
    if vTok + inputAmount == 0 then None else Some(Swapped(inputAmount, vSol, vTok))
  }

  // ---------------------------------------------------------------- fees

  /** `computeFeesBps`: None when the lookup throws. */
  function ComputeFeesBps(g: Global, cfg: FeeConfig, mintSupply: nat, vSol: nat, vTok: nat): Option<FeesBps> {
    if cfg.None? then Some(FeesBps(g.feeBasisPoints, g.creatorFeeBasisPoints))
    else if vTok == 0 then None
    else CalculateFeeTier(cfg.value, BnDiv(vSol * mintSupply, vTok))
  }

  function CreatorBps(c: Curve, isNew: bool, fees: FeesBps): nat {
    if isNew || !c.creatorIsDefault then fees.creatorFeeBps else 0
  }

  function GetFee(g: Global, cfg: FeeConfig, mintSupply: nat, c: Curve, amount: int, isNew: bool): Option<int> {
    var supply := if c.isMayhemMode then mintSupply else ONE_BILLION_SUPPLY;
    match ComputeFeesBps(g, cfg, supply, c.virtualSolReserves, c.virtualTokenReserves)
    case None => None
    case Some(fees) => Some(Fee(amount, fees.protocolFeeBps) + Fee(amount, CreatorBps(c, isNew, fees)))
  }

  // ---------------------------------------------------------------- public quotes

  datatype OnCurve = OnCurve(curve: Curve, mintSupply: nat, isNew: bool)

  /** The defaulting step: no curve or no supply means a fresh curve. */
  function Resolve(g: Global, mintSupply: Option<nat>, curve: Option<Curve>): OnCurve {
    if curve.None? || mintSupply.None? then OnCurve(NewBondingCurve(g), g.tokenTotalSupply, true)
    else OnCurve(curve.value, mintSupply.value, false)
  }

  /** Lamports left for the curve once the fees are taken out of a gross amount. */
  function NetInput(amount: nat, totalBps: nat): nat
    requires amount >= 1
  {
    (amount - 1) * 10_000 / (totalBps + 10_000)
  }

  function GetBuyTokenAmountFromSolAmount(
      g: Global, cfg: FeeConfig, mintSupply: Option<nat>, curve: Option<Curve>, amount: nat): Option<int> {
    if amount == 0 then Some(0)
    else
      var on := Resolve(g, mintSupply, curve);
      var c := on.curve;
      if c.virtualTokenReserves == 0 then Some(0)
      else match ComputeFeesBps(g, cfg, on.mintSupply, c.virtualSolReserves, c.virtualTokenReserves)
        case None => None
        case Some(fees) =>
          var total := fees.protocolFeeBps + CreatorBps(c, on.isNew, fees);
          match BuyTokenQuote(NetInput(amount, total), c.virtualTokenReserves, c.virtualSolReserves)
          case None => None
          case Some(tokens) => Some(Min(tokens, c.realTokenReserves))
  }

  function GetBuySolAmountFromTokenAmount(
      g: Global, cfg: FeeConfig, mintSupply: Option<nat>, curve: Option<Curve>, amount: nat): Option<int> {
    if amount == 0 then Some(0)
    else
      var on := Resolve(g, mintSupply, curve);
      var c := on.curve;
      if c.virtualTokenReserves == 0 then Some(0)
      else match BuySolQuote(Min(amount, c.realTokenReserves), c.virtualTokenReserves, c.virtualSolReserves)
        case None => None
        case Some(solCost) => match GetFee(g, cfg, on.mintSupply, c, solCost, on.isNew)
          case None => None
          case Some(fee) => Some(solCost + fee)
  }

  function GetSellSolAmountFromTokenAmount(
      g: Global, cfg: FeeConfig, mintSupply: nat, c: Curve, amount: nat): Option<int> {
    if amount == 0 || c.virtualTokenReserves == 0 then Some(0)
    else match SellSolQuote(amount, c.virtualTokenReserves, c.virtualSolReserves)
      case None => None
      case Some(solCost) => match GetFee(g, cfg, mintSupply, c, solCost, false)
        case None => None
        case Some(fee) => Some(solCost - fee)
  }

  // ---------------------------------------------------------------- reverse cost of a forward quote

  /** Cost in lamports of a tokens, when the reserve holds more than a. */
  function BuyCost(a: nat, vTok: nat, vSol: nat): nat
    requires a < vTok
  {
    assert a * vSol >= 0;
    a * vSol / (vTok - a) + 1
  }

  /** The tokens that s lamports buy, or any smaller number of them, cost at most
      s + 1 lamports: the two helpers are inverse up to the added one. */
  lemma {:induction false} ReverseCostFits(s: nat, vTok: nat, vSol: nat, a: nat)
    requires vTok > 0 && vSol > 0 && a <= Swapped(s, vTok, vSol)
    ensures a < vTok && BuySolQuote(a, vTok, vSol) == Some(BuyCost(a, vTok, vSol))
    ensures BuyCost(a, vTok, vSol) <= s + 1
  {
    SwapBelowReserve(s, vTok, vSol);
    QuotientAtLeast(s * vTok, vSol + s, a);
    assert a * (vSol + s) == a * vSol + s * a;
    assert (s + 1) * (vTok - a) == s * vTok - s * a + (vTok - a);
    assert a * vSol >= 0;
    QuotientAtLeast(a * vSol, vTok - a, s + 1);
  }

  // ---------------------------------------------------------------- the launch quote lands

  /** Landing: priced by the SDK on the fresh curve at the hardcoded fee rates,
      the quoted tokens cost at most the quoted maximum, and the quote never asks
      for the whole virtual reserve, so the price is defined. */
  lemma {:induction false} LaunchQuoteLands(g: Global, cfg: FeeConfig, solIn: nat)
    requires 0 < g.initialVirtualSolReserves < U64 && 0 < g.initialVirtualTokenReserves < U64 && solIn < U64
    requires ComputeFeesBps(g, cfg, if g.mayhemModeEnabled then g.tokenTotalSupply else ONE_BILLION_SUPPLY,
                            g.initialVirtualSolReserves, g.initialVirtualTokenReserves)
          == Some(FeesBps(PROTOCOL_FEE_BPS, CREATOR_FEE_BPS))
    ensures
      var q := QuoteBuyAtCreate(g.initialVirtualSolReserves, g.initialVirtualTokenReserves, solIn);
      && q.Some?
      && q.value.amountTokens < g.initialVirtualTokenReserves
      && var cost := GetBuySolAmountFromTokenAmount(g, cfg, None, None, q.value.amountTokens);
         cost.Some? && 0 <= cost.value <= q.value.maxSolCost
  {
    var vSol, vTok := g.initialVirtualSolReserves, g.initialVirtualTokenReserves;
    QuoteIsExactQuotient(vSol, vTok, solIn);
    NetSolExact(solIn);
    var q := QuoteBuyAtCreate(vSol, vTok, solIn).value;
    var net := NetSol(solIn);
    if q.amountTokens > 0 {
      var a := Min(q.amountTokens, g.initialRealTokenReserves);
      ReverseCostFits(net - 1, vTok, vSol, a);
      var cost := BuyCost(a, vTok, vSol);
      LaunchCost(g, cfg, q.amountTokens, cost);
      if cost < net {
        TotalStrict(cost, net);
      }
    }
  }

  lemma {:induction false} LaunchCost(g: Global, cfg: FeeConfig, amount: nat, cost: nat)
    requires amount > 0 && g.initialVirtualTokenReserves > 0
    requires BuySolQuote(Min(amount, g.initialRealTokenReserves), g.initialVirtualTokenReserves, g.initialVirtualSolReserves)
          == Some(cost)
    requires ComputeFeesBps(g, cfg, if g.mayhemModeEnabled then g.tokenTotalSupply else ONE_BILLION_SUPPLY,
                            g.initialVirtualSolReserves, g.initialVirtualTokenReserves)
          == Some(FeesBps(PROTOCOL_FEE_BPS, CREATOR_FEE_BPS))
    ensures GetBuySolAmountFromTokenAmount(g, cfg, None, None, amount) == Some(Total(cost))
  {
  }

  // ---------------------------------------------------------------- launch quote against SDK forward quote

  lemma {:induction false} SwapMonotone(s: nat, s': nat, t: nat, v: nat)
    requires v > 0 && s <= s'
    ensures Swapped(s, t, v) <= Swapped(s', t, v)
  {
    var q := Swapped(s, t, v);
    QuotientAtLeast(s * t, v + s, q);
    SwapBelowReserve(s, t, v);
    assert q * (v + s) <= s * t;
    assert (s' - s) * q <= (s' - s) * t;
    assert q * (v + s') == q * (v + s) + (s' - s) * q;
    assert s' * t == s * t + (s' - s) * t;
    QuotientAtLeast(s' * t, v + s', q);
  }

  /** At the same fee rates the launch quote never promises more tokens than the
      SDK's forward quote does before its clamp to the real reserve. */
  lemma {:induction false} LaunchQuoteBelowSdk(vSol: nat, vTok: nat, solIn: nat)
    requires 0 < vSol < U64 && 0 < vTok < U64 && 1 <= solIn < U64
    ensures QuoteBuyAtCreate(vSol, vTok, solIn).Some?
    ensures QuoteBuyAtCreate(vSol, vTok, solIn).value.amountTokens
         <= BuyTokenQuote(NetInput(solIn, PROTOCOL_FEE_BPS + CREATOR_FEE_BPS), vTok, vSol).value
  {
    QuoteIsExactQuotient(vSol, vTok, solIn);
    NetSolExact(solIn);
    EstimateIsFloor(solIn);
    var net := NetSol(solIn);
    if net > 0 {
      assert net - 1 <= (solIn - 1) * 10_000 / 10_125;
      SwapMonotone(net - 1, NetInput(solIn, 125), vTok, vSol);
    }
  }

  // ---------------------------------------------------------------- SDK forward, then reverse

  lemma {:induction false} FeePairBound(cost: nat, pf: nat, cf: nat)
    ensures BPS * (Fee(cost, pf) + Fee(cost, cf)) <= cost * (pf + cf) + 19_998
  {
    FeeIsCeiling(cost, pf);
    FeeIsCeiling(cost, cf);
    assert cost * (pf + cf) == cost * pf + cost * cf;
  }

  lemma {:induction false} NetInputBound(amount: nat, f: nat)
    requires amount >= 1
    ensures NetInput(amount, f) * 10_000 + NetInput(amount, f) * f <= (amount - 1) * 10_000
  {
    var i := NetInput(amount, f);
    QuotientBounds((amount - 1) * 10_000, f + 10_000);
    assert i * (f + 10_000) == i * f + i * 10_000;
  }

  /** Quoting tokens for a budget and pricing them back at the same rates costs at
      most two lamports more than the budget, for any fees totalling at most 100%. */
  lemma {:induction false} ForwardThenReverse(vTok: nat, vSol: nat, real_: nat, pf: nat, cf: nat, amount: nat)
    requires vTok > 0 && vSol > 0 && amount >= 1 && pf + cf <= 10_000
    ensures
      var tokens := Min(BuyTokenQuote(NetInput(amount, pf + cf), vTok, vSol).value, real_);
      && tokens < vTok
      && var cost := BuyCost(tokens, vTok, vSol);
         BuySolQuote(tokens, vTok, vSol) == Some(cost)
         && cost + Fee(cost, pf) + Fee(cost, cf) <= amount + 2
  {
    var f := pf + cf;
    var i := NetInput(amount, f);
    var tokens := Min(Swapped(i, vTok, vSol), real_);
    ReverseCostFits(i, vTok, vSol, tokens);
    var cost := BuyCost(tokens, vTok, vSol);
    NetInputBound(amount, f);
    FeePairBound(cost, pf, cf);
    AtMostTwoOver(cost, i, f, Fee(cost, pf) + Fee(cost, cf), amount);
  }

  lemma {:induction false} AtMostTwoOver(cost: nat, i: nat, f: nat, fees: int, amount: nat)
    requires cost <= i + 1 && f <= 10_000
    requires 10_000 * fees <= cost * f + 19_998
    requires i * 10_000 + i * f <= (amount - 1) * 10_000
    ensures cost + fees <= amount + 2
  {
    ScaleMonotone(cost, i + 1, f);
    assert (i + 1) * f == i * f + f;
  }

  /** The two lamports are reached at the hardcoded rates. */
  lemma {:induction false} TwoLamportsReached()
    ensures
      var tokens := BuyTokenQuote(NetInput(2026, 125), 2001, 1).value;
      && tokens < 2001
      && var cost := BuyCost(tokens, 2001, 1);
         cost + Fee(cost, 95) + Fee(cost, 30) == 2026 + 2
  {
    assert NetInput(2026, 125) == 2000;
    assert Swapped(2000, 2001, 1) == 2000;
  }

  /** The same through the public entry points, whenever both directions look the
      fees up at the same rates. */
  lemma {:induction false} PublicRoundTrip(
      g: Global, cfg: FeeConfig, mintSupply: Option<nat>, curve: Option<Curve>, amount: nat, fees: FeesBps)
    requires amount >= 1
    requires
      var on := Resolve(g, mintSupply, curve);
      var c := on.curve;
      && c.virtualTokenReserves > 0 && c.virtualSolReserves > 0
      && ComputeFeesBps(g, cfg, on.mintSupply, c.virtualSolReserves, c.virtualTokenReserves) == Some(fees)
      && ComputeFeesBps(g, cfg, if c.isMayhemMode then on.mintSupply else ONE_BILLION_SUPPLY,
                        c.virtualSolReserves, c.virtualTokenReserves) == Some(fees)
      && fees.protocolFeeBps + CreatorBps(c, on.isNew, fees) <= 10_000
    ensures
      var tokens := GetBuyTokenAmountFromSolAmount(g, cfg, mintSupply, curve, amount);
      && tokens.Some? && tokens.value >= 0
      && var back := GetBuySolAmountFromTokenAmount(g, cfg, mintSupply, curve, tokens.value);
         back.Some? && back.value <= amount + 2
  {
    var on := Resolve(g, mintSupply, curve);
    var c := on.curve;
    ForwardThenReverse(c.virtualTokenReserves, c.virtualSolReserves, c.realTokenReserves,
                       fees.protocolFeeBps, CreatorBps(c, on.isNew, fees), amount);
  }
}
