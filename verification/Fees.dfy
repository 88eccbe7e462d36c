/** Ceiling fees and fee tiers (docs/pump-sdk/src/fees.ts). Numbers are
    arbitrary-precision; bn.js division truncates toward zero. */
module Fees {
  import opened Common

  const BPS: nat := 10_000
  const ONE_BILLION_SUPPLY: nat := 1_000_000_000_000_000

  /** bn.js `div`: truncation toward zero. */
  function BnDiv(a: int, b: int): int
    requires b != 0
  {
    if a >= 0 then a / b else -((-a) / b)
  }

  function CeilDiv(a: int, b: int): int
    requires b != 0
  {
    BnDiv(a + (b - 1), b)
  }

  /** Fee on an amount, rounded up to a whole lamport. */
  function Fee(amount: int, bps: int): int {
    CeilDiv(amount * bps, BPS)
  }

  lemma {:induction false} FeeValue(amount: nat, bps: nat)
    ensures Fee(amount, bps) == (bps * amount + 9_999) / 10_000
  {
    assert amount * bps == bps * amount >= 0;
  }

  /** On amounts that occur, the fee is the least whole number of lamports that
      covers bps ten-thousandths of the amount. */
  lemma {:induction false} FeeIsCeiling(amount: nat, bps: nat)
    ensures Fee(amount, bps) >= 0
    ensures BPS * (Fee(amount, bps) - 1) < amount * bps <= BPS * Fee(amount, bps)
  {
    var p := amount * bps;
    assert p >= 0;
    assert Fee(amount, bps) == (p + 9_999) / 10_000;
  }

  lemma {:induction false} FeeMonotone(a: nat, b: nat, bps: nat)
    requires a <= b
    ensures Fee(a, bps) <= Fee(b, bps)
  {
    ScaleMonotone(a, b, bps);
    CeilDivMonotone(a * bps, b * bps);
  }

  lemma {:induction false} ScaleMonotone(a: nat, b: nat, k: nat)
    requires a <= b
    ensures 0 <= a * k <= b * k
  {
    assert b * k == a * k + (b - a) * k;
  }

  lemma {:induction false} CeilDivMonotone(a: nat, b: nat)
    requires a <= b
    ensures CeilDiv(a, BPS) <= CeilDiv(b, BPS)
  {
  }

  datatype FeesBps = FeesBps(protocolFeeBps: nat, creatorFeeBps: nat)

  datatype FeeTier = FeeTier(threshold: int, fees: FeesBps)

  /** The backwards search over tiers 0..n. */
  function LastTierAt(tiers: seq<FeeTier>, n: nat, marketCap: int): (r: Option<nat>)
    requires n <= |tiers|
    ensures r.None? ==> forall j :: 0 <= j < n ==> marketCap < tiers[j].threshold
    ensures r.Some? ==> r.value < n && tiers[r.value].threshold <= marketCap
    ensures r.Some? ==> forall j :: r.value < j < n ==> marketCap < tiers[j].threshold
  {
    if n == 0 then None
    else if marketCap >= tiers[n - 1].threshold then Some(n - 1)
    else LastTierAt(tiers, n - 1, marketCap)
  }

  /** `calculateFeeTier`; reading the first of no tiers throws. */
  function CalculateFeeTier(tiers: seq<FeeTier>, marketCap: int): (r: Option<FeesBps>)
    ensures r.None? <==> tiers == []
  {
    if tiers == [] then None
    else if marketCap < tiers[0].threshold then Some(tiers[0].fees)
    else match LastTierAt(tiers, |tiers|, marketCap)
      case Some(i) => Some(tiers[i].fees)
      case None => Some(tiers[0].fees)
  }

  predicate Ascending(tiers: seq<FeeTier>) {
    forall i, j :: 0 <= i < j < |tiers| ==> tiers[i].threshold <= tiers[j].threshold
  }

  /** With ascending thresholds the tier is the one whose bracket holds the
      market cap; below every threshold it is the first. */
  lemma {:induction false} TierIsBracket(tiers: seq<FeeTier>, marketCap: int, i: nat)
    requires Ascending(tiers) && i < |tiers|
    requires i == 0 || tiers[i].threshold <= marketCap
    requires i + 1 < |tiers| ==> marketCap < tiers[i + 1].threshold
    ensures CalculateFeeTier(tiers, marketCap) == Some(tiers[i].fees)
  {
    var r := LastTierAt(tiers, |tiers|, marketCap);
    if i + 1 < |tiers| {
      assert forall j :: i + 1 < j < |tiers| ==> tiers[i + 1].threshold <= tiers[j].threshold;
    }
  }
}
