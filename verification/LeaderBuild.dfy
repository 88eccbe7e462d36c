/** Building the per-epoch leader file from an RPC leader schedule, the vote
    accounts and the validators.app roll, and what loading that file means. */
module LeaderBuild {
  import opened Common
  import opened LeaderMap

  const DASH: byte := 45

  // ---------------------------------------------------------------- inputs

  datatype EpochInfo = EpochInfo(epoch: nat, slotIndex: nat, slotsInEpoch: nat, absoluteSlot: nat)

  datatype VoteAccount = VoteAccount(nodePubkey: Bytes, votePubkey: Bytes)

  datatype VAppEntry = VAppEntry(
    account: Option<Bytes>, dataCenterKey: Option<Bytes>, isDz: Option<bool>, softwareClient: Option<Bytes>)

  datatype Meta = Meta(
    votePubkey: Option<Bytes>, country: Option<Bytes>, isDz: Option<bool>, softwareClient: Option<Bytes>)

  const DEFAULT_META := Meta(None, None, None, None)

  type Schedule = map<Bytes, seq<nat>>

  /** The order in which a hash map hands out its keys: each exactly once. */
  ghost predicate IsKeyOrder(order: seq<Bytes>, schedule: Schedule) {
    && (forall i, j :: 0 <= i < j < |order| ==> order[i] != order[j])
    && (forall id :: id in order <==> id in schedule)
  }

  // ---------------------------------------------------------------- country codes

  /** The text before the first dash, or all of it. */
  function UpToDash(s: Bytes): Bytes {
    match Position(s, DASH)
    case None => s
    case Some(i) => s[..i]
  }

  /** `parse_country`: the second dash-separated part, when it is not empty. */
  function ParseCountry(key: Bytes): (r: Option<Bytes>)
    ensures r.Some? ==> r.value != [] && DASH !in r.value
  {
    match Position(key, DASH)
    case None => None
    case Some(i) =>
      var cc := UpToDash(key[i + 1..]);
      if cc == [] then None else Some(cc)
  }

  /** The key reads first-cc or first-cc-rest, with no dash in first or cc. */
  ghost predicate SecondPart(key: Bytes, first: Bytes, cc: Bytes, rest: Bytes) {
    && DASH !in first && DASH !in cc
    && first < key && key[|first|] == DASH && key[|first| + 1..] == cc + rest
    && (rest == [] || rest[0] == DASH)
  }

  lemma {:induction false} UpToDashSplits(s: Bytes)
    ensures
      var cc := UpToDash(s);
      |cc| <= |s| && s == cc + s[|cc|..] && DASH !in cc && (s[|cc|..] == [] || s[|cc|] == DASH)
  {
  }

  lemma {:induction false} ParseCountrySound(key: Bytes)
    ensures ParseCountry(key).Some? ==>
      exists first, rest :: SecondPart(key, first, ParseCountry(key).value, rest)
  {
    if ParseCountry(key).Some? {
      var i := Position(key, DASH).value;
      var cc := UpToDash(key[i + 1..]);
      UpToDashSplits(key[i + 1..]);
      FirstAndRest(key, i, cc);
    }
  }

  lemma {:induction false} FirstAndRest(key: Bytes, i: nat, cc: Bytes)
    requires i < |key| && key[i] == DASH && DASH !in key[..i] && DASH !in cc && |cc| <= |key| - i - 1
    requires
      var tail := key[i + 1..];
      tail == cc + tail[|cc|..] && (tail[|cc|..] == [] || tail[|cc|] == DASH)
    ensures SecondPart(key, key[..i], cc, key[i + 1..][|cc|..])
  {
    assert key == key[..i] + key[i..];
  }

  lemma {:induction false} ParseCountryComplete(key: Bytes, first: Bytes, cc: Bytes, rest: Bytes)
    requires SecondPart(key, first, cc, rest)
    ensures ParseCountry(key) == if cc == [] then None else Some(cc)
  {
    assert forall k :: 0 <= k < |first| ==> key[..|first|][k] != DASH;
    PositionUnique(key, DASH, |first|);
    if rest == [] {
      assert cc + rest == cc;
    } else {
      PositionAfter(cc, DASH, rest[1..]);
      assert cc + rest == cc + [DASH] + rest[1..];
    }
  }

  lemma {:induction false} PositionAfter(a: Bytes, x: byte, b: Bytes)
    requires x !in a
    ensures Position(a + [x] + b, x) == Some(|a|)
  {
    var s := a + [x] + b;
    assert s[..|a|] == a;
    PositionUnique(s, x, |a|);
  }

  // ---------------------------------------------------------------- metadata merge

  /** Vote account of a node: the last one listed. */
  function VoteOf(votes: seq<VoteAccount>, id: Bytes): Option<Bytes> {
    if votes == [] then None
    else
      var v := votes[|votes| - 1];
      if v.nodePubkey == id then Some(v.votePubkey) else VoteOf(votes[..|votes| - 1], id)
  }

  /** Country of a validator: the last entry for it whose key names one. */
  function CountryOf(vapp: seq<VAppEntry>, id: Bytes): (c: Option<Bytes>)
    ensures c.Some? ==> c.value != []
  {
    if vapp == [] then None
    else
      var v := vapp[|vapp| - 1];
      if v.account == Some(id) && v.dataCenterKey.Some? && ParseCountry(v.dataCenterKey.value).Some?
      then ParseCountry(v.dataCenterKey.value)
      else CountryOf(vapp[..|vapp| - 1], id)
  }

  /** The dz flag of a validator: whatever its last entry says. */
  function DzOf(vapp: seq<VAppEntry>, id: Bytes): Option<bool> {
    if vapp == [] then None
    else
      var v := vapp[|vapp| - 1];
      if v.account == Some(id) then v.isDz else DzOf(vapp[..|vapp| - 1], id)
  }

  /** Client of a validator: the last entry whose trimmed name is not empty. */
  function ClientOf(vapp: seq<VAppEntry>, id: Bytes, trim: Bytes -> Bytes): (c: Option<Bytes>)
    ensures c.Some? ==> c.value != []
  {
    if vapp == [] then None
    else
      var v := vapp[|vapp| - 1];
      if v.account == Some(id) && v.softwareClient.Some? && trim(v.softwareClient.value) != []
      then Some(trim(v.softwareClient.value))
      else ClientOf(vapp[..|vapp| - 1], id, trim)
  }

  function MetaOf(votes: seq<VoteAccount>, vapp: seq<VAppEntry>, trim: Bytes -> Bytes, id: Bytes): Meta {
    Meta(VoteOf(votes, id), CountryOf(vapp, id), DzOf(vapp, id), ClientOf(vapp, id, trim))
  }

  // What an entry says, and which entry counts, read off the lists themselves.

  /** The entry is about this identity and its key reads first-c or first-c-rest. */
  ghost predicate NamesCountry(e: VAppEntry, id: Bytes, c: Bytes) {
    && e.account == Some(id) && e.dataCenterKey.Some? && c != []
    && exists first, rest :: SecondPart(e.dataCenterKey.value, first, c, rest)
  }

  ghost predicate NamesSomeCountry(e: VAppEntry, id: Bytes) {
    exists c :: NamesCountry(e, id, c)
  }

  /** Some entry names c for this identity, and no later one names a country for it. */
  ghost predicate LatestCountry(vapp: seq<VAppEntry>, id: Bytes, c: Bytes) {
    exists k :: 0 <= k < |vapp| && NamesCountry(vapp[k], id, c)
                && forall j :: k < j < |vapp| ==> !NamesSomeCountry(vapp[j], id)
  }

  ghost predicate LatestVote(votes: seq<VoteAccount>, id: Bytes, vote: Bytes) {
    exists k :: 0 <= k < |votes| && votes[k] == VoteAccount(id, vote)
                && forall j :: k < j < |votes| ==> votes[j].nodePubkey != id
  }

  /** The last entry for this identity, whatever else it says, sets the flag. */
  ghost predicate LatestFlag(vapp: seq<VAppEntry>, id: Bytes) {
    exists k :: 0 <= k < |vapp| && vapp[k].account == Some(id) && vapp[k].isDz == Some(true)
                && forall j :: k < j < |vapp| ==> vapp[j].account != Some(id)
  }

  predicate NamesClient(e: VAppEntry, id: Bytes, trim: Bytes -> Bytes, c: Bytes) {
    e.account == Some(id) && e.softwareClient.Some? && c != [] && trim(e.softwareClient.value) == c
  }

  ghost predicate NamesSomeClient(e: VAppEntry, id: Bytes, trim: Bytes -> Bytes) {
    exists c :: NamesClient(e, id, trim, c)
  }

  ghost predicate LatestClient(vapp: seq<VAppEntry>, id: Bytes, trim: Bytes -> Bytes, c: Bytes) {
    exists k :: 0 <= k < |vapp| && NamesClient(vapp[k], id, trim, c)
                && forall j :: k < j < |vapp| ==> !NamesSomeClient(vapp[j], id, trim)
  }

  lemma {:induction false} NamesCountryIff(e: VAppEntry, id: Bytes, c: Bytes)
    ensures NamesCountry(e, id, c)
      <==> e.account == Some(id) && e.dataCenterKey.Some? && ParseCountry(e.dataCenterKey.value) == Some(c)
  {
    if e.dataCenterKey.Some? {
      var key := e.dataCenterKey.value;
      ParseCountrySound(key);
      if NamesCountry(e, id, c) {
        var first, rest :| SecondPart(key, first, c, rest);
        ParseCountryComplete(key, first, c, rest);
      }
    }
  }

  /** The country the merge records is the one the last usable entry names. */
  lemma {:induction false} CountryIsLatest(vapp: seq<VAppEntry>, id: Bytes, c: Bytes)
    ensures CountryOf(vapp, id) == Some(c) <==> LatestCountry(vapp, id, c)
    decreases |vapp|
  {
    if vapp != [] {
      var n := |vapp| - 1;
      CountryIsLatest(vapp[..n], id, c);
      NamesCountryIff(vapp[n], id, c);
      if NamesSomeCountry(vapp[n], id) {
        var c' :| NamesCountry(vapp[n], id, c');
        NamesCountryIff(vapp[n], id, c');
      } else {
        forall c' ensures !NamesCountry(vapp[n], id, c') {}
        if CountryOf(vapp, id).Some? {
          NamesCountryIff(vapp[n], id, CountryOf(vapp, id).value);
        }
        CountryStays(vapp, id, c);
      }
    }
  }

  /** An entry that names no country changes nothing. */
  lemma {:induction false} CountryStays(vapp: seq<VAppEntry>, id: Bytes, c: Bytes)
    requires vapp != [] && !NamesSomeCountry(vapp[|vapp| - 1], id)
    ensures LatestCountry(vapp, id, c) <==> LatestCountry(vapp[..|vapp| - 1], id, c)
  {
    var init := vapp[..|vapp| - 1];
    if LatestCountry(vapp, id, c) {
      var k :| 0 <= k < |vapp| && NamesCountry(vapp[k], id, c)
               && forall j :: k < j < |vapp| ==> !NamesSomeCountry(vapp[j], id);
      assert k < |init| && NamesCountry(init[k], id, c);
    }
    if LatestCountry(init, id, c) {
      var k :| 0 <= k < |init| && NamesCountry(init[k], id, c)
               && forall j :: k < j < |init| ==> !NamesSomeCountry(init[j], id);
      assert NamesCountry(vapp[k], id, c);
      assert forall j :: k < j < |init| ==> vapp[j] == init[j];
    }
  }

  lemma {:induction false} VoteIsLatest(votes: seq<VoteAccount>, id: Bytes, vote: Bytes)
    ensures VoteOf(votes, id) == Some(vote) <==> LatestVote(votes, id, vote)
    decreases |votes|
  {
    if votes != [] {
      var init, last := votes[..|votes| - 1], votes[|votes| - 1];
      VoteIsLatest(init, id, vote);
      if last.nodePubkey == id {
        assert last == VoteAccount(id, vote) ==> LatestVote(votes, id, vote);
      } else {
        if LatestVote(init, id, vote) {
          var k :| 0 <= k < |init| && init[k] == VoteAccount(id, vote)
                   && forall j :: k < j < |init| ==> init[j].nodePubkey != id;
          assert votes[k] == init[k] && forall j :: k < j < |init| ==> votes[j] == init[j];
        }
        if LatestVote(votes, id, vote) {
          var k :| 0 <= k < |votes| && votes[k] == VoteAccount(id, vote)
                   && forall j :: k < j < |votes| ==> votes[j].nodePubkey != id;
          assert init[k] == votes[k];
        }
      }
    }
  }

  lemma {:induction false} FlagIsLatest(vapp: seq<VAppEntry>, id: Bytes)
    ensures DzOf(vapp, id) == Some(true) <==> LatestFlag(vapp, id)
    decreases |vapp|
  {
    if vapp != [] {
      var init, last := vapp[..|vapp| - 1], vapp[|vapp| - 1];
      FlagIsLatest(init, id);
      if last.account == Some(id) {
        assert last.isDz == Some(true) ==> LatestFlag(vapp, id);
      } else {
        if LatestFlag(init, id) {
          var k :| 0 <= k < |init| && init[k].account == Some(id) && init[k].isDz == Some(true)
                   && forall j :: k < j < |init| ==> init[j].account != Some(id);
          assert vapp[k] == init[k] && forall j :: k < j < |init| ==> vapp[j] == init[j];
        }
        if LatestFlag(vapp, id) {
          var k :| 0 <= k < |vapp| && vapp[k].account == Some(id) && vapp[k].isDz == Some(true)
                   && forall j :: k < j < |vapp| ==> vapp[j].account != Some(id);
          assert init[k] == vapp[k];
        }
      }
    }
  }

  lemma {:induction false} ClientIsLatest(vapp: seq<VAppEntry>, id: Bytes, trim: Bytes -> Bytes, c: Bytes)
    ensures ClientOf(vapp, id, trim) == Some(c) <==> LatestClient(vapp, id, trim, c)
    decreases |vapp|
  {
    if vapp != [] {
      var init, last := vapp[..|vapp| - 1], vapp[|vapp| - 1];
      ClientIsLatest(init, id, trim, c);
      if NamesSomeClient(last, id, trim) {
        assert NamesClient(last, id, trim, c) ==> LatestClient(vapp, id, trim, c);
      } else {
        ClientStays(vapp, id, trim, c);
        assert ClientOf(vapp, id, trim) == ClientOf(init, id, trim) by {
          if last.account == Some(id) && last.softwareClient.Some? {
            assert !NamesClient(last, id, trim, trim(last.softwareClient.value));
          }
        }
      }
    }
  }

  lemma {:induction false} ClientStays(vapp: seq<VAppEntry>, id: Bytes, trim: Bytes -> Bytes, c: Bytes)
    requires vapp != [] && !NamesSomeClient(vapp[|vapp| - 1], id, trim)
    ensures LatestClient(vapp, id, trim, c) <==> LatestClient(vapp[..|vapp| - 1], id, trim, c)
  {
    var init := vapp[..|vapp| - 1];
    if LatestClient(init, id, trim, c) {
      var k :| 0 <= k < |init| && NamesClient(init[k], id, trim, c)
               && forall j :: k < j < |init| ==> !NamesSomeClient(init[j], id, trim);
      assert NamesClient(vapp[k], id, trim, c) && forall j :: k < j < |init| ==> vapp[j] == init[j];
    }
    if LatestClient(vapp, id, trim, c) {
      var k :| 0 <= k < |vapp| && NamesClient(vapp[k], id, trim, c)
               && forall j :: k < j < |vapp| ==> !NamesSomeClient(vapp[j], id, trim);
      assert NamesClient(init[k], id, trim, c);
    }
  }

  /** `metas.get(id)` with the default entry for an absent key. */
  function Lookup(metas: map<Bytes, Meta>, id: Bytes): Meta {
    if id in metas then metas[id] else DEFAULT_META
  }

  /** The merge loops over vote accounts and the validators.app roll. */
  method MergeMetas(votes: seq<VoteAccount>, vapp: seq<VAppEntry>, trim: Bytes -> Bytes)
    returns (metas: map<Bytes, Meta>)
    ensures forall id :: Lookup(metas, id) == MetaOf(votes, vapp, trim, id)
  {
    metas := map[];
    for k := 0 to |votes|
      invariant forall id :: Lookup(metas, id) == MetaOf(votes[..k], [], trim, id)
    {
      assert votes[..k + 1][..k] == votes[..k];
      var v := votes[k];
      ghost var before := metas;
      metas := metas[v.nodePubkey := Lookup(metas, v.nodePubkey).(votePubkey := Some(v.votePubkey))];
      assert forall id :: id != v.nodePubkey ==> Lookup(metas, id) == Lookup(before, id);
    }
    assert votes[..|votes|] == votes;
    for k := 0 to |vapp|
      invariant forall id :: Lookup(metas, id) == MetaOf(votes, vapp[..k], trim, id)
    {
      assert vapp[..k + 1][..k] == vapp[..k];
      var v := vapp[k];
      if v.account.None? {
        continue;
      }
      var entry := Lookup(metas, v.account.value);
      if v.dataCenterKey.Some? {
        var c := ParseCountry(v.dataCenterKey.value);
        if c.Some? {
          entry := entry.(country := c);
        }
      }
      entry := entry.(isDz := v.isDz);
      if v.softwareClient.Some? {
        var trimmed := trim(v.softwareClient.value);
        if trimmed != [] {
          entry := entry.(softwareClient := Some(trimmed));
        }
      }
      ghost var before := metas;
      metas := metas[v.account.value := entry];
      assert forall id :: id != v.account.value ==> Lookup(metas, id) == Lookup(before, id);
    }
    assert vapp[..|vapp|] == vapp;
  }

  // ---------------------------------------------------------------- interning

  /** Names a list of validators mentions. */
  ghost function NamesIn(ids: seq<Bytes>, name: Bytes -> Option<Bytes>): set<Bytes> {
    set i | 0 <= i < |ids| && name(ids[i]).Some? :: name(ids[i]).value
  }

  /** A table without repeats holding exactly `names`, and its inverse. */
  ghost predicate Interned(table: seq<Bytes>, index: map<Bytes, nat>, names: set<Bytes>) {
    && (forall i, j :: 0 <= i < j < |table| ==> table[i] != table[j])
    && (forall i :: 0 <= i < |table| ==> table[i] in index && index[table[i]] == i)
    && (forall c :: c in index ==> index[c] < |table| && table[index[c]] == c)
    && index.Keys == names
  }

  lemma {:induction false} TableSize(table: seq<Bytes>, index: map<Bytes, nat>, names: set<Bytes>)
    requires Interned(table, index, names)
    ensures |table| == |names|
  {
    DistinctSize(table);
    assert names == set x | x in table;
  }

  lemma {:induction false} DistinctSize(table: seq<Bytes>)
    requires forall i, j :: 0 <= i < j < |table| ==> table[i] != table[j]
    ensures |set x | x in table| == |table|
  {
    if table != [] {
      var last := table[|table| - 1];
      var rest := table[..|table| - 1];
      DistinctSize(rest);
      assert (set x | x in table) == (set x | x in rest) + {last};
    }
  }

  lemma {:induction false} NamesInSnoc(ids: seq<Bytes>, id: Bytes, name: Bytes -> Option<Bytes>)
    ensures NamesIn(ids + [id], name)
         == NamesIn(ids, name) + (if name(id).Some? then {name(id).value} else {})
  {
    var more := ids + [id];
    assert more[|ids|] == id;
    forall x | x in NamesIn(ids, name)
      ensures x in NamesIn(more, name)
    {
      var i :| 0 <= i < |ids| && name(ids[i]).Some? && name(ids[i]).value == x;
      assert more[i] == ids[i];
    }
    if name(id).Some? {
      assert name(more[|ids|]).value in NamesIn(more, name);
    }
  }

  lemma {:induction false} NamesInMonotone(ids: seq<Bytes>, k: nat, name: Bytes -> Option<Bytes>)
    requires k <= |ids|
    ensures NamesIn(ids[..k], name) <= NamesIn(ids, name)
  {
    forall x | x in NamesIn(ids[..k], name)
      ensures x in NamesIn(ids, name)
    {
      var i :| 0 <= i < k && name(ids[..k][i]).Some? && name(ids[..k][i]).value == x;
      assert ids[i] == ids[..k][i];
    }
  }

  lemma {:induction false} SubsetSize(a: set<Bytes>, b: set<Bytes>)
    requires a <= b
    ensures |a| <= |b|
  {
    if a != b {
      var d := b - a;
      assert b == a + d && a !! d;
    }
  }

  lemma {:induction false} NamesInNext(order: seq<Bytes>, k: nat, name: Bytes -> Option<Bytes>)
    requires k < |order|
    ensures
      var names, n := NamesIn(order[..k], name), name(order[k]);
      && NamesIn(order[..k + 1], name) == (if n.None? || n.value in names then names else names + {n.value})
      && (n.Some? ==> names + {n.value} <= NamesIn(order, name))
  {
    assert order[..k + 1] == order[..k] + [order[k]];
    NamesInSnoc(order[..k], order[k], name);
    NamesInMonotone(order, k + 1, name);
  }

  lemma {:induction false} InternedSnoc(table: seq<Bytes>, index: map<Bytes, nat>, names: set<Bytes>, x: Bytes)
    requires Interned(table, index, names) && x !in index
    ensures Interned(table + [x], index[x := |table|], names + {x})
  {
  }

  /** The interning loops: one table entry per distinct name among scheduled
      validators, refused exactly when there are more than `cap`. */
  method Intern(order: seq<Bytes>, name: Bytes -> Option<Bytes>, cap: nat)
    returns (r: Option<(seq<Bytes>, map<Bytes, nat>)>)
    ensures r.Some? <==> |NamesIn(order, name)| <= cap
    ensures r.Some? ==> Interned(r.value.0, r.value.1, NamesIn(order, name))
  {
    var index: map<Bytes, nat> := map[];
    var table: seq<Bytes> := [];
    for k := 0 to |order|
      invariant Interned(table, index, NamesIn(order[..k], name)) && |table| <= cap
    {
      ghost var names := NamesIn(order[..k], name);
      NamesInNext(order, k, name);
      var n := name(order[k]);
      if n.None? || n.value in index {
        continue;
      }
      if |table| >= cap {
        TableSize(table, index, names);
        SubsetSize(names + {n.value}, NamesIn(order, name));
        return None;
      }
      InternedSnoc(table, index, names, n.value);
      index := index[n.value := |table|];
      table := table + [n.value];
    }
    assert order[..|order|] == order;
    TableSize(table, index, NamesIn(order, name));
    return Some((table, index));
  }

  // ---------------------------------------------------------------- slot table

  /** What the slot loop leaves at slot i: the code of the last validator, in
      iteration order, that lists it. */
  function SlotCode(order: seq<Bytes>, schedule: Schedule, code: Bytes -> byte, i: nat): byte {
    if order == [] then UNKNOWN_REGION_CODE
    else
      var id := order[|order| - 1];
      if id in schedule && i in schedule[id] then code(id) else SlotCode(order[..|order| - 1], schedule, code, i)
  }

  method FillSlots(order: seq<Bytes>, schedule: Schedule, code: Bytes -> byte, slotsInEpoch: nat)
    returns (slots: seq<byte>)
    requires forall id :: id in order ==> id in schedule
    ensures |slots| == slotsInEpoch
    ensures forall i :: 0 <= i < slotsInEpoch ==> slots[i] == SlotCode(order, schedule, code, i)
  {
    var a := new byte[slotsInEpoch](_ => UNKNOWN_REGION_CODE);
    for k := 0 to |order|
      invariant forall i :: 0 <= i < slotsInEpoch ==> a[i] == SlotCode(order[..k], schedule, code, i)
    {
      assert order[..k + 1][..k] == order[..k];
      var id := order[k];
      var indices := schedule[id];
      for j := 0 to |indices|
        invariant forall i :: 0 <= i < slotsInEpoch ==>
          a[i] == if i in indices[..j] then code(id) else SlotCode(order[..k], schedule, code, i)
      {
        assert forall i: nat :: i in indices[..j + 1] <==> i in indices[..j] || i == indices[j];
        if indices[j] < a.Length {
          a[indices[j]] := code(id);
        }
      }
      assert indices[..|indices|] == indices;
    }
    assert order[..|order|] == order;
    slots := a[..];
  }

  /** In general, overlapping lists included: the last lister in iteration order decides. */
  lemma {:induction false} SlotCodeOfLast(order: seq<Bytes>, schedule: Schedule, code: Bytes -> byte, i: nat, k: nat)
    requires k < |order| && order[k] in schedule && i in schedule[order[k]]
    requires forall j :: k < j < |order| && order[j] in schedule ==> i !in schedule[order[j]]
    ensures SlotCode(order, schedule, code, i) == code(order[k])
    decreases |order|
  {
    if k < |order| - 1 {
      SlotCodeOfLast(order[..|order| - 1], schedule, code, i, k);
    }
  }

  /** No slot is listed by two validators. */
  ghost predicate Disjoint(schedule: Schedule) {
    forall a, b, i: nat :: a in schedule && b in schedule && i in schedule[a] && i in schedule[b] ==> a == b
  }

  lemma {:induction false} SlotCodeOfLeader(order: seq<Bytes>, schedule: Schedule, code: Bytes -> byte, i: nat, id: Bytes)
    requires Disjoint(schedule) && id in order && id in schedule && i in schedule[id]
    ensures SlotCode(order, schedule, code, i) == code(id)
  {
    var last := order[|order| - 1];
    if !(last in schedule && i in schedule[last]) {
      assert id in order[..|order| - 1];
      SlotCodeOfLeader(order[..|order| - 1], schedule, code, i, id);
    }
  }

  lemma {:induction false} SlotCodeOfGap(order: seq<Bytes>, schedule: Schedule, code: Bytes -> byte, i: nat)
    requires forall id :: id in schedule ==> i !in schedule[id]
    ensures SlotCode(order, schedule, code, i) == UNKNOWN_REGION_CODE
  {
    if order != [] {
      SlotCodeOfGap(order[..|order| - 1], schedule, code, i);
    }
  }

  // ---------------------------------------------------------------- the file

  datatype Inputs = Inputs(
    info: EpochInfo, schedule: Schedule, votes: seq<VoteAccount>, vapp: seq<VAppEntry>, trim: Bytes -> Bytes)
  {
    function Country(id: Bytes): (c: Option<Bytes>)
      ensures c.Some? ==> c.value != []
    {
      CountryOf(vapp, id)
    }

    function Client(id: Bytes): (c: Option<Bytes>)
      ensures c.Some? ==> c.value != []
    {
      ClientOf(vapp, id, trim)
    }

    function EpochStart(): int {
      info.absoluteSlot - info.slotIndex
    }

    function EpochEnd(): int {
      EpochStart() + info.slotsInEpoch - 1
    }

    /** The bounds the u64 arithmetic of the source needs. */
    predicate InRange() {
      info.slotIndex <= info.absoluteSlot && info.slotsInEpoch >= 1 && EpochEnd() + 1 < U64
    }
  }

  datatype BuildError = TooManyDistinctRegions | TooManyDistinctClients

  ghost function Countries(inp: Inputs): set<Bytes> {
    set id | id in inp.schedule && inp.Country(id).Some? :: inp.Country(id).value
  }

  ghost function Clients(inp: Inputs): set<Bytes> {
    set id | id in inp.schedule && inp.Client(id).Some? :: inp.Client(id).value
  }

  /** Index of a name in a table, as the file stores it. */
  function CodeOf(table: seq<Bytes>, name: Option<Bytes>): Option<byte>
    requires |table| <= 255
  {
    if name.None? then None
    else match Position(table, name.value)
      case None => None
      case Some(i) => Some(i)
  }

  function RegionCode(inp: Inputs, regions: seq<Bytes>, id: Bytes): byte
    requires |regions| <= 255
  {
    OrElse(CodeOf(regions, inp.Country(id)), UNKNOWN_REGION_CODE)
  }

  ghost predicate Distinct(s: seq<Bytes>) {
    forall i, j :: 0 <= i < j < |s| ==> s[i] != s[j]
  }

  function ValidatorOut(inp: Inputs, regions: seq<Bytes>, clients: seq<Bytes>, id: Bytes): ValidatorWire
    requires |regions| <= 255 && |clients| <= 255
  {
    ValidatorWire(id, VoteOf(inp.votes, id), CodeOf(regions, inp.Country(id)),
                  Some(OrElse(DzOf(inp.vapp, id), false)), CodeOf(clients, inp.Client(id)))
  }

  /** The file written for these inputs under this iteration order. */
  ghost predicate Built(f: Wire, inp: Inputs, order: seq<Bytes>)
    requires inp.InRange()
  {
    && f.epoch == inp.info.epoch && f.slotsInEpoch == inp.info.slotsInEpoch
    && f.epochStartSlot == inp.EpochStart() && f.epochEndSlot == inp.EpochEnd()
    && |f.regions| <= MAX_REGIONS && |f.softwareClients| <= MAX_SOFTWARE_CLIENTS
    && Distinct(f.regions) && (forall c :: c in f.regions <==> c in Countries(inp))
    && Distinct(f.softwareClients) && (forall c :: c in f.softwareClients <==> c in Clients(inp))
    && |f.validators| == |order|
    && (forall i :: 0 <= i < |order| ==> f.validators[i] == ValidatorOut(inp, f.regions, f.softwareClients, order[i]))
    && |f.slots| == f.slotsInEpoch
    && (forall i :: 0 <= i < |f.slots| ==>
          f.slots[i] == SlotCode(order, inp.schedule, id => RegionCode(inp, f.regions, id), i))
  }

  lemma {:induction false} NamesOfOrder(
      order: seq<Bytes>, schedule: Schedule, name: Bytes -> Option<Bytes>, names: set<Bytes>)
    requires IsKeyOrder(order, schedule)
    requires forall c :: c in names <==> exists id :: id in schedule && name(id) == Some(c)
    ensures NamesIn(order, name) == names
  {
    forall c | c in names
      ensures c in NamesIn(order, name)
    {
      var id :| id in schedule && name(id) == Some(c);
      assert id in order;
      var i :| 0 <= i < |order| && order[i] == id;
    }
    forall c | c in NamesIn(order, name)
      ensures c in names
    {
      var i :| 0 <= i < |order| && name(order[i]).Some? && name(order[i]).value == c;
      assert order[i] in order;
    }
  }

  lemma {:induction false} IndexIsPosition(table: seq<Bytes>, index: map<Bytes, nat>, names: set<Bytes>, c: Bytes)
    requires Interned(table, index, names)
    ensures c in index <==> c in table
    ensures c in index ==> Position(table, c) == Some(index[c])
  {
    if c in index {
      var i := index[c];
      assert forall k :: 0 <= k < i ==> table[..i][k] != c;
      PositionUnique(table, c, i);
    }
  }

  /** The validator loop, which reads the metadata and the two indexes. */
  method BuildValidators(inp: Inputs, order: seq<Bytes>, metas: map<Bytes, Meta>,
                         regions: seq<Bytes>, regionIdx: map<Bytes, nat>,
                         clients: seq<Bytes>, clientIdx: map<Bytes, nat>)
    returns (validators: seq<ValidatorWire>)
    requires |regions| <= 255 && |clients| <= 255
    requires forall id :: Lookup(metas, id) == MetaOf(inp.votes, inp.vapp, inp.trim, id)
    requires Interned(regions, regionIdx, Countries(inp)) && Interned(clients, clientIdx, Clients(inp))
    ensures |validators| == |order|
    ensures forall i :: 0 <= i < |order| ==> validators[i] == ValidatorOut(inp, regions, clients, order[i])
  {
    validators := [];
    for k := 0 to |order|
      invariant |validators| == k
      invariant forall i :: 0 <= i < k ==> validators[i] == ValidatorOut(inp, regions, clients, order[i])
    {
      var m := Lookup(metas, order[k]);
      var region: Option<byte> := None;
      if m.country.Some? {
        IndexIsPosition(regions, regionIdx, Countries(inp), m.country.value);
        if m.country.value in regionIdx {
          region := Some(regionIdx[m.country.value]);
        }
      }
      var client: Option<byte> := None;
      if m.softwareClient.Some? {
        IndexIsPosition(clients, clientIdx, Clients(inp), m.softwareClient.value);
        if m.softwareClient.value in clientIdx {
          client := Some(clientIdx[m.softwareClient.value]);
        }
      }
      validators := validators + [ValidatorWire(order[k], m.votePubkey, region, Some(OrElse(m.isDz, false)), client)];
    }
  }

  lemma {:induction false} NamesOfMetas(inp: Inputs, order: seq<Bytes>, metas: map<Bytes, Meta>,
                                         country: Bytes -> Option<Bytes>, client: Bytes -> Option<Bytes>)
    requires IsKeyOrder(order, inp.schedule)
    requires forall id :: Lookup(metas, id) == MetaOf(inp.votes, inp.vapp, inp.trim, id)
    requires forall id :: country(id) == Lookup(metas, id).country && client(id) == Lookup(metas, id).softwareClient
    ensures NamesIn(order, country) == Countries(inp) && NamesIn(order, client) == Clients(inp)
  {
    NamesOfOrder(order, inp.schedule, country, Countries(inp));
    NamesOfOrder(order, inp.schedule, client, Clients(inp));
  }

  /** The stitching part of `build_and_write`. */
  method Build(inp: Inputs, order: seq<Bytes>) returns (r: Result<Wire, BuildError>)
    requires inp.InRange() && IsKeyOrder(order, inp.schedule)
    ensures r.Ok? <==> |Countries(inp)| <= MAX_REGIONS && |Clients(inp)| <= MAX_SOFTWARE_CLIENTS
    ensures r == Err(TooManyDistinctRegions) <==> |Countries(inp)| > MAX_REGIONS
    ensures r.Ok? ==> Built(r.value, inp, order)
  {
    var metas := MergeMetas(inp.votes, inp.vapp, inp.trim);
    var country := id => Lookup(metas, id).country;
    var client := id => Lookup(metas, id).softwareClient;
    NamesOfMetas(inp, order, metas, country, client);
    var regionTable := Intern(order, country, MAX_REGIONS);
    if regionTable.None? {
      return Err(TooManyDistinctRegions);
    }
    var (regions, regionIdx) := regionTable.value;
    TableSize(regions, regionIdx, Countries(inp));
    var clientTable := Intern(order, client, MAX_SOFTWARE_CLIENTS);
    if clientTable.None? {
      return Err(TooManyDistinctClients);
    }
    var (clients, clientIdx) := clientTable.value;
    TableSize(clients, clientIdx, Clients(inp));
    var validators := BuildValidators(inp, order, metas, regions, regionIdx, clients, clientIdx);
    var slots := FillSlots(order, inp.schedule, id => RegionCode(inp, regions, id), inp.info.slotsInEpoch);
    return Ok(Wire(inp.info.epoch, inp.EpochStart(), inp.EpochEnd(), inp.info.slotsInEpoch,
                   regions, clients, validators, slots));
  }

  // ---------------------------------------------------------------- loading it back

  /** What the inputs must satisfy for the written file to load: the builder
      checks none of it. */
  ghost predicate Loadable(inp: Inputs, decode: Decoder) {
    && (forall c :: c in Countries(inp) ==> |c| <= REGION_LEN)
    && (forall c :: c in Clients(inp) ==> |c| <= SOFTWARE_CLIENT_NAME_LEN)
    && (forall id :: id in inp.schedule ==> decode(id).Some?)
    && (forall id :: id in inp.schedule && VoteOf(inp.votes, id).Some? ==> decode(VoteOf(inp.votes, id).value).Some?)
  }

  lemma {:induction false} SlotCodesInRange(order: seq<Bytes>, schedule: Schedule, code: Bytes -> byte, i: nat, table: nat)
    requires forall id :: CodeInRange(code(id), UNKNOWN_REGION_CODE, table)
    ensures CodeInRange(SlotCode(order, schedule, code, i), UNKNOWN_REGION_CODE, table)
  {
    if order != [] {
      SlotCodesInRange(order[..|order| - 1], schedule, code, i, table);
    }
  }

  lemma {:induction false} ValidatorsLoad(f: Wire, inp: Inputs, order: seq<Bytes>, decode: Decoder)
    requires inp.InRange() && IsKeyOrder(order, inp.schedule) && Built(f, inp, order)
    ensures FirstValidatorError(f.validators, |f.regions|, |f.softwareClients|, decode).None? <==>
      && (forall id :: id in inp.schedule ==> decode(id).Some?)
      && (forall id :: id in inp.schedule && VoteOf(inp.votes, id).Some? ==> decode(VoteOf(inp.votes, id).value).Some?)
  {
    forall i | 0 <= i < |order|
      ensures ValidatorError(f.validators[i], |f.regions|, |f.softwareClients|, decode).None? <==>
        decode(order[i]).Some?
        && (VoteOf(inp.votes, order[i]).Some? ==> decode(VoteOf(inp.votes, order[i]).value).Some?)
    {
    }
    forall id | id in inp.schedule
      ensures exists i :: 0 <= i < |order| && order[i] == id
    {
      assert id in order;
    }
    forall i | 0 <= i < |order| ensures order[i] in inp.schedule { assert order[i] in order; }
  }

  lemma {:induction false} NamesLoad(table: seq<Bytes>, names: set<Bytes>, width: nat)
    requires forall c :: c in table <==> c in names
    requires forall c :: c in names ==> c != []
    ensures NamesFit(table, width) <==> forall c :: c in names ==> |c| <= width
  {
    if NamesFit(table, width) {
      forall c | c in names ensures |c| <= width {
        assert c in table;
        var i :| 0 <= i < |table| && table[i] == c;
      }
    }
    forall i | 0 <= i < |table| ensures table[i] in names { assert table[i] in table; }
  }

  /** The loader accepts the builder's file exactly for loadable inputs. */
  lemma {:induction false} BuiltFileLoads(f: Wire, inp: Inputs, order: seq<Bytes>, decode: Decoder)
    requires inp.InRange() && IsKeyOrder(order, inp.schedule) && Built(f, inp, order)
    ensures FileError(f, decode).None? <==> Loadable(inp, decode)
  {
    assert Span(f.epochStartSlot, f.epochEndSlot) == f.slotsInEpoch;
    NamesLoad(f.regions, Countries(inp), REGION_LEN);
    NamesLoad(f.softwareClients, Clients(inp), SOFTWARE_CLIENT_NAME_LEN);
    ValidatorsLoad(f, inp, order, decode);
    SlotsLoad(f, inp, order);
  }

  lemma {:induction false} SlotsLoad(f: Wire, inp: Inputs, order: seq<Bytes>)
    requires inp.InRange() && IsKeyOrder(order, inp.schedule) && Built(f, inp, order)
    ensures CodesInRange(f.slots, |f.regions|)
  {
    forall i | 0 <= i < |f.slots|
      ensures CodeInRange(f.slots[i], UNKNOWN_REGION_CODE, |f.regions|)
    {
      SlotCodesInRange(order, inp.schedule, id => RegionCode(inp, f.regions, id), i, |f.regions|);
    }
  }

  /** Some validator that lists the i-th slot of the epoch is in the country, as the
      last usable entry about it says. */
  ghost predicate LedFrom(inp: Inputs, i: nat, country: Bytes) {
    exists id :: id in inp.schedule && i in inp.schedule[id] && LatestCountry(inp.vapp, id, country)
  }

  /** The leader scheduled for an absolute slot is in the given country. The epoch
      information says that `absoluteSlot` is the epoch's slot number `slotIndex`. */
  ghost predicate LeaderIn(inp: Inputs, slot: nat, country: Bytes) {
    exists i: nat :: i < inp.info.slotsInEpoch && slot + inp.info.slotIndex == inp.info.absoluteSlot + i
                     && LedFrom(inp, i, country)
  }

  /** Position of a country's tag is the country's own position. */
  lemma {:induction false} FocusIndex(f: Wire, m: EpochLeaderMap, country: Bytes)
    requires Loads(m, f) && NamesFit(f.regions, REGION_LEN) && Distinct(f.regions)
    requires NulFree(country) && forall i :: 0 <= i < |f.regions| ==> NulFree(f.regions[i])
    ensures ResolveRegionIdx(m, country) == Position(f.regions, country)
  {
    var needle := FromStr(country, REGION_LEN);
    if needle.Some? {
      forall i | 0 <= i < |f.regions|
        ensures m.regions[i] == needle.value <==> f.regions[i] == country
      {
        assert Some(m.regions[i]) == FromStr(f.regions[i], REGION_LEN);
        if m.regions[i] == needle.value {
          TagInjective(f.regions[i], country, REGION_LEN);
        }
      }
      var p := Position(f.regions, country);
      if p.Some? {
        assert forall k :: 0 <= k < p.value ==> m.regions[..p.value][k] != needle.value;
        PositionUnique(m.regions, needle.value, p.value);
      }
    } else {
      assert forall i :: 0 <= i < |f.regions| ==> f.regions[i] != country;
    }
  }

  /** End to end: load any file built from a schedule with disjoint slot lists,
      under any iteration order; then `is_focus` says exactly which slots are led
      from the focus country. The right-hand side does not mention the order. */
  lemma {:induction false} IsFocusMeansLeaderInCountry(
      f: Wire, inp: Inputs, order: seq<Bytes>, m: EpochLeaderMap, country: Bytes, slot: nat)
    requires inp.InRange() && IsKeyOrder(order, inp.schedule) && Disjoint(inp.schedule)
    requires Built(f, inp, order) && Loads(m, f) && ValidMap(m) && NamesFit(f.regions, REGION_LEN)
    requires NulFree(country) && forall c :: c in Countries(inp) ==> NulFree(c)
    ensures LeaderCache(m, ResolveRegionIdx(m, country)).IsFocus(slot) <==> LeaderIn(inp, slot, country)
  {
    forall i | 0 <= i < |f.regions| ensures NulFree(f.regions[i]) { assert f.regions[i] in f.regions; }
    FocusIndex(f, m, country);
    if inp.EpochStart() <= slot <= inp.EpochEnd() {
      var i := slot - inp.EpochStart();
      SlotNamesCountry(f, inp, order, country, i);
      assert slot + inp.info.slotIndex == inp.info.absoluteSlot + i;
    }
  }

  lemma {:induction false} SlotNamesCountry(f: Wire, inp: Inputs, order: seq<Bytes>, country: Bytes, i: nat)
    requires inp.InRange() && IsKeyOrder(order, inp.schedule) && Disjoint(inp.schedule)
    requires Built(f, inp, order) && i < |f.slots|
    ensures (Position(f.regions, country).Some? && f.slots[i] == Position(f.regions, country).value)
      <==> LedFrom(inp, i, country)
  {
    forall id | id in inp.schedule
      ensures inp.Country(id) == Some(country) <==> LatestCountry(inp.vapp, id, country)
    {
      CountryIsLatest(inp.vapp, id, country);
    }
    var code := id => RegionCode(inp, f.regions, id);
    if id :| id in inp.schedule && i in inp.schedule[id] {
      SlotCodeOfLeader(order, inp.schedule, code, i, id);
      if inp.Country(id).Some? {
        assert inp.Country(id).value in Countries(inp);
      }
      assert f.slots[i] == RegionCode(inp, f.regions, id);
      assert forall other :: other in inp.schedule && i in inp.schedule[other] ==> other == id;
    } else {
      SlotCodeOfGap(order, inp.schedule, code, i);
    }
  }

  /** The cache says of every slot whether its leader is in the country: of the i-th
      slot of the epoch by the schedule's index i, and no of any slot outside it. */
  ghost predicate TellsLeaders(cache: LeaderCache, inp: Inputs, country: Bytes)
    requires ValidMap(cache.map_)
  {
    && (forall slot: nat, i: nat ::
          i < inp.info.slotsInEpoch && slot + inp.info.slotIndex == inp.info.absoluteSlot + i ==>
          (cache.IsFocus(slot) <==> LedFrom(inp, i, country)))
    && (forall slot: nat :: cache.IsFocus(slot) <==> LeaderIn(inp, slot, country))
  }

  lemma {:induction false} CacheTellsLeaders(
      f: Wire, inp: Inputs, order: seq<Bytes>, m: EpochLeaderMap, country: Bytes)
    requires inp.InRange() && IsKeyOrder(order, inp.schedule) && Disjoint(inp.schedule)
    requires Built(f, inp, order) && Loads(m, f) && ValidMap(m) && NamesFit(f.regions, REGION_LEN)
    requires NulFree(country) && forall c :: c in Countries(inp) ==> NulFree(c)
    ensures TellsLeaders(LeaderCache(m, ResolveRegionIdx(m, country)), inp, country)
  {
    var cache := LeaderCache(m, ResolveRegionIdx(m, country));
    forall slot: nat
      ensures cache.IsFocus(slot) <==> LeaderIn(inp, slot, country)
    {
      IsFocusMeansLeaderInCountry(f, inp, order, m, country, slot);
    }
    LeadersByIndex(cache, inp, country);
  }

  lemma {:induction false} LeadersByIndex(cache: LeaderCache, inp: Inputs, country: Bytes)
    requires ValidMap(cache.map_) && forall slot: nat :: cache.IsFocus(slot) <==> LeaderIn(inp, slot, country)
    ensures TellsLeaders(cache, inp, country)
  {
    forall slot: nat, i: nat | i < inp.info.slotsInEpoch && slot + inp.info.slotIndex == inp.info.absoluteSlot + i
      ensures cache.IsFocus(slot) <==> LedFrom(inp, i, country)
    {
      assert LedFrom(inp, i, country) ==> LeaderIn(inp, slot, country);
    }
  }

  /** Build, load and resolve the focus country: the path from fetched data to the
      cache the shred handler asks. None: a cap was exceeded, or the file written does
      not load. */
  method BuildAndLoad(inp: Inputs, order: seq<Bytes>, decode: Decoder, country: Bytes) returns (r: Option<LeaderCache>)
    requires inp.InRange() && IsKeyOrder(order, inp.schedule)
    ensures r.Some? <==>
      |Countries(inp)| <= MAX_REGIONS && |Clients(inp)| <= MAX_SOFTWARE_CLIENTS && Loadable(inp, decode)
    ensures r.Some? ==> ValidMap(r.value.map_)
    ensures r.Some? && Disjoint(inp.schedule) && NulFree(country) && (forall c :: c in Countries(inp) ==> NulFree(c)) ==>
      TellsLeaders(r.value, inp, country)
  {
    var built := Build(inp, order);
    if built.Err? {
      return None;
    }
    var f := built.value;
    BuiltFileLoads(f, inp, order, decode);
    var loaded := FromWire(f, decode);
    if loaded.Err? {
      return None;
    }
    var m := loaded.value;
    if Disjoint(inp.schedule) && NulFree(country) && forall c :: c in Countries(inp) ==> NulFree(c) {
      CacheTellsLeaders(f, inp, order, m, country);
    }
    return Some(LeaderCache(m, ResolveRegionIdx(m, country)));
  }

  /** The slot the chain is at is decided by its own index in the schedule. */
  lemma {:induction false} CurrentSlotIsFocus(
      f: Wire, inp: Inputs, order: seq<Bytes>, m: EpochLeaderMap, country: Bytes)
    requires inp.InRange() && IsKeyOrder(order, inp.schedule) && Disjoint(inp.schedule)
    requires Built(f, inp, order) && Loads(m, f) && ValidMap(m) && NamesFit(f.regions, REGION_LEN)
    requires NulFree(country) && forall c :: c in Countries(inp) ==> NulFree(c)
    requires inp.info.slotIndex < inp.info.slotsInEpoch
    ensures LeaderCache(m, ResolveRegionIdx(m, country)).IsFocus(inp.info.absoluteSlot)
      <==> LedFrom(inp, inp.info.slotIndex, country)
  {
    IsFocusMeansLeaderInCountry(f, inp, order, m, country, inp.info.absoluteSlot);
  }

  /** What a loaded validator record says, read off the fetched lists: both keys, the
      region and client tables' entries, and the flag. */
  lemma {:induction false} ValidatorLoaded(
      f: Wire, inp: Inputs, order: seq<Bytes>, m: EpochLeaderMap, decode: Decoder, i: nat)
    requires inp.InRange() && IsKeyOrder(order, inp.schedule) && Built(f, inp, order) && Loads(m, f)
    requires i < |order| && LoadsValidator(m.validators[i], f.validators[i], decode)
    ensures Some(m.validators[i].pubkey) == decode(order[i])
    ensures forall vote :: LatestVote(inp.votes, order[i], vote) ==> Some(m.validators[i].votekey) == decode(vote)
    ensures (forall vote :: !LatestVote(inp.votes, order[i], vote)) ==> m.validators[i].votekey == Zeros(32)
    ensures forall c :: LatestCountry(inp.vapp, order[i], c) ==>
      m.validators[i].regionIdx < |m.regions| && Some(m.regions[m.validators[i].regionIdx]) == FromStr(c, 4)
    ensures (forall c :: !LatestCountry(inp.vapp, order[i], c)) ==> m.validators[i].regionIdx == 255
    ensures m.validators[i].isDz == if LatestFlag(inp.vapp, order[i]) then 1 else 0
    ensures forall c :: LatestClient(inp.vapp, order[i], inp.trim, c) ==>
      && m.validators[i].softwareClientIdx < |m.softwareClients|
      && Some(m.softwareClients[m.validators[i].softwareClientIdx]) == FromStr(c, 32)
    ensures (forall c :: !LatestClient(inp.vapp, order[i], inp.trim, c)) ==> m.validators[i].softwareClientIdx == 255
  {
    var id := order[i];
    assert id in order;
    forall vote ensures VoteOf(inp.votes, id) == Some(vote) <==> LatestVote(inp.votes, id, vote) {
      VoteIsLatest(inp.votes, id, vote);
    }
    forall c ensures inp.Country(id) == Some(c) <==> LatestCountry(inp.vapp, id, c) {
      CountryIsLatest(inp.vapp, id, c);
    }
    forall c ensures inp.Client(id) == Some(c) <==> LatestClient(inp.vapp, id, inp.trim, c) {
      ClientIsLatest(inp.vapp, id, inp.trim, c);
    }
    FlagIsLatest(inp.vapp, id);
    if inp.Country(id).Some? {
      assert inp.Country(id).value in Countries(inp);
      assert LatestCountry(inp.vapp, id, inp.Country(id).value);
    }
    if inp.Client(id).Some? {
      assert inp.Client(id).value in Clients(inp);
      assert LatestClient(inp.vapp, id, inp.trim, inp.Client(id).value);
    }
    if VoteOf(inp.votes, id).Some? {
      assert LatestVote(inp.votes, id, VoteOf(inp.votes, id).value);
    }
  }
}
