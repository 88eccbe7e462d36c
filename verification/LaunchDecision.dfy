/** The launcher's whole decision: from the leader schedule that was fetched and the
    packets that arrived to the one slot it launches in (src/leaders/, src/shreds/). */
module LaunchDecision {
  import opened Common
  import opened LeaderMap
  import opened LeaderBuild
  import opened Trigger

  /** n data shreds in a row, from index i on, are of one slot led from the country. */
  ghost predicate LeaderRow(slots: seq<nat>, i: nat, n: nat, inp: Inputs, country: Bytes) {
    i + n <= |slots| && i < |slots| && LeaderIn(inp, slots[i], country) && forall k :: i <= k < i + n ==> slots[k] == slots[i]
  }

  /** Over every schedule, file, iteration order and packet trace: the launcher has
      fired exactly when the shreds in a row of some slot whose scheduled leader is in
      the focus country reached the threshold. The right-hand side knows neither the
      file nor the order it was built in. */
  lemma {:induction false} FiredIffLeaderRow(
      f: Wire, inp: Inputs, order: seq<Bytes>, m: EpochLeaderMap, country: Bytes, trace: seq<Bytes>, fireAt: nat)
    requires inp.InRange() && IsKeyOrder(order, inp.schedule) && Disjoint(inp.schedule)
    requires Built(f, inp, order) && Loads(m, f) && ValidMap(m) && NamesFit(f.regions, REGION_LEN)
    requires NulFree(country) && forall c :: c in Countries(inp) ==> NulFree(c)
    requires fireAt < U32
    ensures After(trace, fireAt, LeaderCache(m, ResolveRegionIdx(m, country))).fired
            <==> exists i: nat :: LeaderRow(DataSlots(trace), i, Threshold(fireAt), inp, country)
  {
    var cache := LeaderCache(m, ResolveRegionIdx(m, country));
    FiredIffReached(trace, fireAt, cache);
    forall slot: nat
      ensures cache.IsFocus(slot) <==> LeaderIn(inp, slot, country)
    {
      IsFocusMeansLeaderInCountry(f, inp, order, m, country, slot);
    }
    ReachedIffLeaderRow(cache, DataSlots(trace), Threshold(fireAt), inp, country);
  }

  lemma {:induction false} ReachedIffLeaderRow(cache: LeaderCache, slots: seq<nat>, n: nat, inp: Inputs, country: Bytes)
    requires ValidMap(cache.map_) && forall slot: nat :: cache.IsFocus(slot) <==> LeaderIn(inp, slot, country)
    ensures Reached(slots, n, cache) <==> exists i: nat :: LeaderRow(slots, i, n, inp, country)
  {
    if i: nat :| RowAt(slots, i, n, cache) {
      assert LeaderRow(slots, i, n, inp, country);
    }
    if i: nat :| LeaderRow(slots, i, n, inp, country) {
      assert RowAt(slots, i, n, cache);
    }
  }

  /** The same in running code: fetched inputs are built into a file, the file is
      loaded, and a trace of packets is handled. None: there was no usable file. */
  method Watch(
      inp: Inputs, order: seq<Bytes>, decode: Decoder, country: Bytes, fireAt: nat, trace: seq<Bytes>)
    returns (launches: Option<seq<nat>>)
    requires inp.InRange() && IsKeyOrder(order, inp.schedule) && Disjoint(inp.schedule)
    requires NulFree(country) && (forall c :: c in Countries(inp) ==> NulFree(c)) && fireAt < U32
    ensures launches.Some? <==>
      |Countries(inp)| <= MAX_REGIONS && |Clients(inp)| <= MAX_SOFTWARE_CLIENTS && Loadable(inp, decode)
    ensures launches.Some? ==>
      |launches.value| == if exists i: nat :: LeaderRow(DataSlots(trace), i, Threshold(fireAt), inp, country) then 1 else 0
    ensures launches.Some? ==> forall slot :: slot in launches.value ==> LeaderIn(inp, slot, country)
  {
    var cache := BuildAndLoad(inp, order, decode, country);
    if cache.None? {
      return None;
    }
    var h := new Handler(fireAt, cache.value);
    Receive(h, trace);
    FiredIffReached(trace, fireAt, cache.value);
    LaunchesAreFocus(trace, fireAt, cache.value);
    ReachedIffLeaderRow(cache.value, DataSlots(trace), Threshold(fireAt), inp, country);
    return Some(h.launches);
  }
}
