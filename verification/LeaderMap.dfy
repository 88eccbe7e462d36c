/** The per-epoch leader-region table: packing of region tags, validation of
    a cache file, and the questions asked of a loaded table. */
module LeaderMap {
  import opened Common
  import opened Words

  const UNKNOWN_REGION_CODE: byte := 255
  const MAX_REGIONS := 64
  const REGION_LEN: nat := 4
  const UNKNOWN_SOFTWARE_CLIENT_IDX: byte := 255
  const MAX_SOFTWARE_CLIENTS := 32
  const SOFTWARE_CLIENT_NAME_LEN: nat := 32

  // ---------------------------------------------------------------- tags

  /** `Region::from_str` (width 4) and `SoftwareClient::from_str` (width 32). */
  function FromStr(s: Bytes, width: nat): Option<Bytes> {
    if s == [] || |s| > width then None else Some(s + Zeros(width - |s|))
  }

  /** `as_str`: the bytes before the first NUL. */
  function AsStr(tag: Bytes): Bytes {
    if tag == [] || tag[0] == 0 then [] else [tag[0]] + AsStr(tag[1..])
  }

  predicate NulFree(s: Bytes) {
    forall i :: 0 <= i < |s| ==> s[i] != 0
  }

  /** Packing is undone by `as_str` exactly for the NUL-free strings. */
  lemma {:induction false} TagRoundTrip(s: Bytes, width: nat)
    requires 1 <= |s| <= width
    ensures FromStr(s, width).Some?
    ensures AsStr(FromStr(s, width).value) == s <==> NulFree(s)
  {
    if NulFree(s) {
      AsStrStopsAtNul(s, Zeros(width - |s|));
    }
    if AsStr(s + Zeros(width - |s|)) == s {
      AsStrNulFree(s + Zeros(width - |s|));
    }
  }

  lemma {:induction false} AsStrNulFree(tag: Bytes)
    ensures NulFree(AsStr(tag))
  {
    if tag != [] && tag[0] != 0 {
      AsStrNulFree(tag[1..]);
    }
  }

  lemma {:induction false} AsStrStopsAtNul(s: Bytes, z: Bytes)
    requires NulFree(s) && (z == [] || z[0] == 0)
    ensures AsStr(s + z) == s
  {
    if s == [] {
      assert s + z == z;
    } else {
      assert (s + z)[1..] == s[1..] + z;
      AsStrStopsAtNul(s[1..], z);
    }
  }

  /** On NUL-free strings packing never confuses two names. */
  lemma {:induction false} TagInjective(a: Bytes, b: Bytes, width: nat)
    requires NulFree(a) && NulFree(b)
    requires FromStr(a, width).Some? && FromStr(a, width) == FromStr(b, width)
    ensures a == b
  {
    TagRoundTrip(a, width);
    TagRoundTrip(b, width);
  }

  /** Two names share a tag exactly when they differ by trailing NULs. */
  lemma {:induction false} TagCollision(a: Bytes, b: Bytes, width: nat)
    requires 1 <= |a| <= |b| <= width
    ensures FromStr(a, width) == FromStr(b, width) <==> b == a + Zeros(|b| - |a|)
  {
    var ta, tb := a + Zeros(width - |a|), b + Zeros(width - |b|);
    if ta == tb {
      assert forall i :: 0 <= i < |b| ==> b[i] == tb[i] == ta[i];
    }
    if b == a + Zeros(|b| - |a|) {
      assert ta == tb;
    }
  }

  // ---------------------------------------------------------------- tables

  datatype ValidatorWire = ValidatorWire(
    pubkey: Bytes, votekey: Option<Bytes>, region: Option<byte>,
    isDz: Option<bool>, softwareClient: Option<byte>)

  datatype Wire = Wire(
    epoch: nat, epochStartSlot: nat, epochEndSlot: nat, slotsInEpoch: nat,
    regions: seq<Bytes>, softwareClients: seq<Bytes>,
    validators: seq<ValidatorWire>, slots: seq<byte>)

  datatype Validator = Validator(
    pubkey: Bytes, votekey: Bytes, regionIdx: byte, isDz: byte, softwareClientIdx: byte)

  datatype EpochLeaderMap = EpochLeaderMap(
    epoch: nat, epochStartSlot: nat, epochEndSlot: nat, slotsInEpoch: nat,
    regions: seq<Bytes>, softwareClients: seq<Bytes>,
    slotCodes: seq<byte>, validators: seq<Validator>)

  datatype WireError =
    | SlotCountMismatch | SpanMismatch | TooManyRegions | TooManySoftwareClients
    | BadRegion | BadSoftwareClient | BadPubkey | BadVotekey
    | RegionIndexOutOfRange | SoftwareClientIndexOutOfRange | SlotCodeOutOfRange

  /** Base58 text to 32 bytes; None stands for every decoding failure. */
  type Decoder = Bytes -> Option<Bytes>

  function Span(start: nat, end: nat): nat {
    SaturatingSub(end, start) + 1
  }

  /** A code is usable when it is the sentinel or indexes the table. */
  predicate CodeInRange(code: byte, unknown: byte, table: nat) {
    code == unknown || code < table
  }

  function OrElse<T>(o: Option<T>, d: T): T {
    if o.Some? then o.value else d
  }

  function ValidatorError(v: ValidatorWire, regions: nat, clients: nat, decode: Decoder): Option<WireError> {
    if decode(v.pubkey).None? then Some(BadPubkey)
    else if v.votekey.Some? && decode(v.votekey.value).None? then Some(BadVotekey)
    else if !CodeInRange(OrElse(v.region, UNKNOWN_REGION_CODE), UNKNOWN_REGION_CODE, regions)
    then Some(RegionIndexOutOfRange)
    else if !CodeInRange(OrElse(v.softwareClient, UNKNOWN_SOFTWARE_CLIENT_IDX), UNKNOWN_SOFTWARE_CLIENT_IDX, clients)
    then Some(SoftwareClientIndexOutOfRange)
    else None
  }

  function FirstValidatorError(vs: seq<ValidatorWire>, regions: nat, clients: nat, decode: Decoder): (e: Option<WireError>)
    ensures e.None? <==> forall i :: 0 <= i < |vs| ==> ValidatorError(vs[i], regions, clients, decode).None?
  {
    if vs == [] then None
    else
      var e := ValidatorError(vs[0], regions, clients, decode);
      if e.Some? then e else FirstValidatorError(vs[1..], regions, clients, decode)
  }

  predicate NamesFit(names: seq<Bytes>, width: nat) {
    forall i :: 0 <= i < |names| ==> 1 <= |names[i]| <= width
  }

  predicate CodesInRange(codes: seq<byte>, table: nat) {
    forall i :: 0 <= i < |codes| ==> CodeInRange(codes[i], UNKNOWN_REGION_CODE, table)
  }

  /** The complaint raised about a cache file, or None when it can be loaded. */
  function FileError(w: Wire, decode: Decoder): Option<WireError> {
    if |w.slots| != w.slotsInEpoch then Some(SlotCountMismatch)
    else if Span(w.epochStartSlot, w.epochEndSlot) != w.slotsInEpoch then Some(SpanMismatch)
    else if |w.regions| > MAX_REGIONS then Some(TooManyRegions)
    else if |w.softwareClients| > MAX_SOFTWARE_CLIENTS then Some(TooManySoftwareClients)
    else if !NamesFit(w.regions, REGION_LEN) then Some(BadRegion)
    else if !NamesFit(w.softwareClients, SOFTWARE_CLIENT_NAME_LEN) then Some(BadSoftwareClient)
    else
      var e := FirstValidatorError(w.validators, |w.regions|, |w.softwareClients|, decode);
      if e.Some? then e
      else if !CodesInRange(w.slots, |w.regions|) then Some(SlotCodeOutOfRange)
      else None
  }

  /** What every loaded table satisfies, whoever produced the file. */
  predicate ValidMap(m: EpochLeaderMap) {
    && |m.slotCodes| == m.slotsInEpoch == Span(m.epochStartSlot, m.epochEndSlot)
    && |m.regions| <= MAX_REGIONS
    && (forall i :: 0 <= i < |m.regions| ==> |m.regions[i]| == REGION_LEN)
    && CodesInRange(m.slotCodes, |m.regions|)
  }

  /** The loaded table is the file with its names packed. */
  predicate Loads(m: EpochLeaderMap, w: Wire) {
    && m.epoch == w.epoch && m.epochStartSlot == w.epochStartSlot
    && m.epochEndSlot == w.epochEndSlot && m.slotsInEpoch == w.slotsInEpoch
    && m.slotCodes == w.slots
    && |m.regions| == |w.regions|
    && (forall i :: 0 <= i < |w.regions| ==> Some(m.regions[i]) == FromStr(w.regions[i], REGION_LEN))
    && |m.softwareClients| == |w.softwareClients|
    && (forall i :: 0 <= i < |w.softwareClients| ==>
          Some(m.softwareClients[i]) == FromStr(w.softwareClients[i], SOFTWARE_CLIENT_NAME_LEN))
    && |m.validators| == |w.validators|
  }

  predicate LoadsValidator(m: Validator, v: ValidatorWire, decode: Decoder) {
    && Some(m.pubkey) == decode(v.pubkey)
    && (if v.votekey.Some? then Some(m.votekey) == decode(v.votekey.value) else m.votekey == Zeros(32))
    && m.regionIdx == OrElse(v.region, UNKNOWN_REGION_CODE)
    && m.isDz == (if v.isDz == Some(true) then 1 else 0)
    && m.softwareClientIdx == OrElse(v.softwareClient, UNKNOWN_SOFTWARE_CLIENT_IDX)
  }

  /** A validator entry as the file may hold it: both keys decode, both indices are the
      sentinel, missing, or inside their tables. */
  ghost predicate ReadableValidator(v: ValidatorWire, regions: nat, clients: nat, decode: Decoder) {
    && decode(v.pubkey) != None && (v.votekey.Some? ==> decode(v.votekey.value) != None)
    && (v.region.Some? ==> v.region.value == 255 || v.region.value < regions)
    && (v.softwareClient.Some? ==> v.softwareClient.value == 255 || v.softwareClient.value < clients)
  }

  /** Exactly which files load: one code per slot of the span, a span of one when the
      bounds are out of order, at most 64 regions named in 1 to 4 bytes and 32 clients
      named in 1 to 32, readable validators, and codes inside the region table or 255. */
  lemma {:induction false} FileAcceptedIff(w: Wire, decode: Decoder)
    ensures FileError(w, decode) == None <==>
      && |w.slots| == w.slotsInEpoch
      && w.slotsInEpoch == (if w.epochStartSlot <= w.epochEndSlot then w.epochEndSlot - w.epochStartSlot + 1 else 1)
      && |w.regions| <= 64 && (forall i :: 0 <= i < |w.regions| ==> 1 <= |w.regions[i]| <= 4)
      && |w.softwareClients| <= 32
      && (forall i :: 0 <= i < |w.softwareClients| ==> 1 <= |w.softwareClients[i]| <= 32)
      && (forall i :: 0 <= i < |w.validators| ==>
            ReadableValidator(w.validators[i], |w.regions|, |w.softwareClients|, decode))
      && (forall i :: 0 <= i < |w.slots| ==> w.slots[i] == 255 || w.slots[i] < |w.regions|)
  {
    forall i | 0 <= i < |w.validators|
      ensures ValidatorError(w.validators[i], |w.regions|, |w.softwareClients|, decode).None?
        <==> ReadableValidator(w.validators[i], |w.regions|, |w.softwareClients|, decode)
    {
    }
  }

  lemma {:induction false} FirstErrorAt(vs: seq<ValidatorWire>, k: nat, regions: nat, clients: nat, decode: Decoder)
    requires k < |vs| && ValidatorError(vs[k], regions, clients, decode).Some?
    requires forall i :: 0 <= i < k ==> ValidatorError(vs[i], regions, clients, decode).None?
    ensures FirstValidatorError(vs, regions, clients, decode) == ValidatorError(vs[k], regions, clients, decode)
  {
    if k > 0 {
      FirstErrorAt(vs[1..], k - 1, regions, clients, decode);
    }
  }

  method PackNames(names: seq<Bytes>, width: nat) returns (r: Option<seq<Bytes>>)
    ensures r.Some? <==> NamesFit(names, width)
    ensures r.Some? ==> |r.value| == |names|
    ensures r.Some? ==> forall i :: 0 <= i < |names| ==> Some(r.value[i]) == FromStr(names[i], width)
  {
    var out: seq<Bytes> := [];
    for k := 0 to |names|
      invariant |out| == k
      invariant forall i :: 0 <= i < k ==> 1 <= |names[i]| <= width && Some(out[i]) == FromStr(names[i], width)
    {
      var tag := FromStr(names[k], width);
      if tag.None? {
        return None;
      }
      out := out + [tag.value];
    }
    return Some(out);
  }

  method LoadValidator(v: ValidatorWire, regions: nat, clients: nat, decode: Decoder)
    returns (r: Result<Validator, WireError>)
    ensures r.Ok? <==> ValidatorError(v, regions, clients, decode).None?
    ensures r.Err? ==> ValidatorError(v, regions, clients, decode) == Some(r.error)
    ensures r.Ok? ==> LoadsValidator(r.value, v, decode)
  {
    var pubkey := decode(v.pubkey);
    if pubkey.None? {
      return Err(BadPubkey);
    }
    var votekey := Some(Zeros(32));
    if v.votekey.Some? {
      votekey := decode(v.votekey.value);
    }
    if votekey.None? {
      return Err(BadVotekey);
    }
    var regionIdx := OrElse(v.region, UNKNOWN_REGION_CODE);
    if regionIdx != UNKNOWN_REGION_CODE && regionIdx >= regions {
      return Err(RegionIndexOutOfRange);
    }
    var clientIdx := OrElse(v.softwareClient, UNKNOWN_SOFTWARE_CLIENT_IDX);
    if clientIdx != UNKNOWN_SOFTWARE_CLIENT_IDX && clientIdx >= clients {
      return Err(SoftwareClientIndexOutOfRange);
    }
    return Ok(Validator(pubkey.value, votekey.value, regionIdx, if OrElse(v.isDz, false) then 1 else 0, clientIdx));
  }

  /** `EpochLeaderMap::from_wire`: accepts exactly the well-formed files. */
  method FromWire(w: Wire, decode: Decoder) returns (r: Result<EpochLeaderMap, WireError>)
    requires Span(w.epochStartSlot, w.epochEndSlot) < U64
    ensures r.Ok? <==> FileError(w, decode).None?
    ensures r.Err? ==> FileError(w, decode) == Some(r.error)
    ensures r.Ok? ==> Loads(r.value, w) && ValidMap(r.value)
    ensures r.Ok? ==> forall i :: 0 <= i < |w.validators| ==>
      LoadsValidator(r.value.validators[i], w.validators[i], decode)
  {
    if |w.slots| != w.slotsInEpoch {
      return Err(SlotCountMismatch);
    }
    var span := SaturatingSub(w.epochEndSlot, w.epochStartSlot) + 1;
    if span != w.slotsInEpoch {
      return Err(SpanMismatch);
    }
    if |w.regions| > MAX_REGIONS {
      return Err(TooManyRegions);
    }
    if |w.softwareClients| > MAX_SOFTWARE_CLIENTS {
      return Err(TooManySoftwareClients);
    }
    var regions := PackNames(w.regions, REGION_LEN);
    if regions.None? {
      return Err(BadRegion);
    }
    var clients := PackNames(w.softwareClients, SOFTWARE_CLIENT_NAME_LEN);
    if clients.None? {
      return Err(BadSoftwareClient);
    }
    var validators: seq<Validator> := [];
    for k := 0 to |w.validators|
      invariant |validators| == k
      invariant forall i :: 0 <= i < k ==>
        && ValidatorError(w.validators[i], |w.regions|, |w.softwareClients|, decode).None?
        && LoadsValidator(validators[i], w.validators[i], decode)
    {
      var v := LoadValidator(w.validators[k], |regions.value|, |clients.value|, decode);
      if v.Err? {
        FirstErrorAt(w.validators, k, |w.regions|, |w.softwareClients|, decode);
        return Err(v.error);
      }
      validators := validators + [v.value];
    }
    for k := 0 to |w.slots|
      invariant forall i :: 0 <= i < k ==> CodeInRange(w.slots[i], UNKNOWN_REGION_CODE, |w.regions|)
    {
      if w.slots[k] != UNKNOWN_REGION_CODE && w.slots[k] >= |regions.value| {
        return Err(SlotCodeOutOfRange);
      }
    }
    return Ok(EpochLeaderMap(w.epoch, w.epochStartSlot, w.epochEndSlot, w.slotsInEpoch,
                             regions.value, clients.value, w.slots, validators));
  }

  /** The span test alone does not order the bounds: a one-slot file whose end
      lies before its start passes every check, and only a one-slot file can. */
  lemma {:induction false} BackwardsEpochAccepted(start: nat, end: nat, decode: Decoder)
    requires end < start
    ensures FileError(Wire(0, start, end, 1, [], [], [], [UNKNOWN_REGION_CODE]), decode).None?
    ensures forall w: Wire :: FileError(w, decode).None? && w.epochEndSlot < w.epochStartSlot ==> w.slotsInEpoch == 1
  {
    assert Span(start, end) == 1;
  }

  // ---------------------------------------------------------------- queries

  /** `resolve_region_idx`. */
  function ResolveRegionIdx(m: EpochLeaderMap, country: Bytes): (r: Option<nat>)
    ensures r.Some? ==> r.value < |m.regions|
  {
    match FromStr(country, REGION_LEN)
    case None => None
    case Some(needle) => Position(m.regions, needle)
  }

  datatype LeaderCache = LeaderCache(map_: EpochLeaderMap, focusRegionIdx: Option<nat>)
  {
    /** True iff `slot` is in the cached epoch and carries the focus code. */
    predicate IsFocus(slot: nat)
      requires ValidMap(map_)
    {
      && focusRegionIdx.Some?
      && map_.epochStartSlot <= slot <= map_.epochEndSlot
      && map_.slotCodes[slot - map_.epochStartSlot] == focusRegionIdx.value
    }

    function FocusSlotCount(): nat {
      match focusRegionIdx
      case None => 0
      case Some(idx) => CountCode(map_.slotCodes, idx)
    }
  }

  function CountCode(codes: seq<byte>, idx: nat): nat {
    if codes == [] then 0
    else CountCode(codes[..|codes| - 1], idx) + if codes[|codes| - 1] == idx then 1 else 0
  }

  function FocusSlots(c: LeaderCache): set<nat>
    requires ValidMap(c.map_)
  {
    set s: nat | c.map_.epochStartSlot <= s <= c.map_.epochEndSlot && c.IsFocus(s)
  }

  lemma {:induction false} CountIsCardinality(codes: seq<byte>, idx: nat, start: nat, n: nat, S: set<nat>)
    requires n == |codes|
    requires forall s: nat :: s in S <==> start <= s < start + n && codes[s - start] == idx
    ensures CountCode(codes, idx) == |S|
    decreases n
  {
    if n == 0 {
      assert S == {};
    } else {
      var last := start + n - 1;
      var rest := S - {last};
      CountIsCardinality(codes[..n - 1], idx, start, n - 1, rest);
      if codes[n - 1] == idx {
        assert S == rest + {last};
      } else {
        assert S == rest;
      }
    }
  }

  /** `focus_slot_count` counts the slots on which `is_focus` answers true; the
      one case where it does not is a backwards one-slot epoch. */
  lemma {:induction false} FocusCountAgrees(c: LeaderCache)
    requires ValidMap(c.map_)
    ensures c.FocusSlotCount() == |FocusSlots(c)|
      <==> c.map_.epochStartSlot <= c.map_.epochEndSlot || c.FocusSlotCount() == 0
  {
    var m := c.map_;
    if c.focusRegionIdx.None? {
      assert FocusSlots(c) == {};
    } else if m.epochStartSlot <= m.epochEndSlot {
      CountIsCardinality(m.slotCodes, c.focusRegionIdx.value, m.epochStartSlot, |m.slotCodes|, FocusSlots(c));
    } else {
      assert FocusSlots(c) == {};
    }
  }

  /** Code c is selected by name: it is the first table entry with that tag. */
  predicate Selects(m: EpochLeaderMap, name: Bytes, c: nat) {
    ResolveRegionIdx(m, name) == Some(c)
  }

  /** `EpochLeaderMap::allowed_mask`. */
  method AllowedMask(m: EpochLeaderMap, allowed: seq<Bytes>) returns (mask: nat)
    requires |m.regions| <= MAX_REGIONS
    ensures mask < U64
    ensures forall c: nat :: c < 64 ==>
      (Bit(mask, c) <==> exists i :: 0 <= i < |allowed| && Selects(m, allowed[i], c))
  {
    mask := 0;
    forall c: nat | c < 64 ensures !Bit(mask, c) { ShiftRightZero(c); }
    for k := 0 to |allowed|
      invariant mask < U64
      invariant forall c: nat :: c < 64 ==>
        (Bit(mask, c) <==> exists i :: 0 <= i < k && Selects(m, allowed[i], c))
    {
      var needle := FromStr(allowed[k], REGION_LEN);
      if needle.None? {
        continue;
      }
      var i := 0;
      while i < |m.regions|
        invariant 0 <= i <= |m.regions|
        invariant needle.value !in m.regions[..i]
      {
        if m.regions[i] == needle.value {
          break;
        }
        i := i + 1;
      }
      ghost var before := mask;
      if i < |m.regions| {
        PositionUnique(m.regions, needle.value, i);
        mask := SetBit(mask, i);
      } else {
        assert m.regions[..i] == m.regions;
      }
      assert forall c: nat :: c < 64 ==> (Bit(mask, c) <==> Bit(before, c) || Selects(m, allowed[k], c));
    }
  }

  /** `mask |= 1u64 << i`. */
  function SetBit(mask: nat, i: nat): (r: nat)
    requires mask < U64 && i < 64
    ensures r < U64
    ensures forall c: nat :: c < 64 ==> (Bit(r, c) <==> Bit(mask, c) || c == i)
  {
    SetBitBits(mask, i);
    Or(mask, ShiftLeft(1, i))
  }

  lemma {:induction false} SetBitBits(mask: nat, i: nat)
    requires mask < U64 && i < 64
    ensures Or(mask, ShiftLeft(1, i)) < U64
    ensures forall c: nat :: c < 64 ==> (Bit(Or(mask, ShiftLeft(1, i)), c) <==> Bit(mask, c) || c == i)
  {
    U64IsPow2();
    ShiftLeftBelow(1, i);
    OrBelow(mask, ShiftLeft(1, i), 64);
    forall c: nat | c < 64
      ensures Bit(Or(mask, ShiftLeft(1, i)), c) <==> Bit(mask, c) || c == i
    {
      BitOr(mask, ShiftLeft(1, i), c);
      BitShiftLeft(1, i, c);
      if i < c {
        BitBeyond(1, 1, c - i);
      }
    }
  }

  /** The documented reading of the mask, "bit c is set iff region code c
      matches one of the names", holds exactly when no name matches a tag that
      the table repeats. */
  lemma {:induction false} AllowedMaskAsDocumented(m: EpochLeaderMap, allowed: seq<Bytes>, mask: nat)
    requires |m.regions| <= MAX_REGIONS
    requires forall c: nat :: c < 64 ==>
      (Bit(mask, c) <==> exists i :: 0 <= i < |allowed| && Selects(m, allowed[i], c))
    ensures (forall c: nat :: c < |m.regions| ==> (Bit(mask, c) <==> Named(allowed, m.regions[c])))
      <==> (forall b, c :: 0 <= b < c < |m.regions| && m.regions[b] == m.regions[c] ==> !Named(allowed, m.regions[c]))
  {
    forall c: nat | c < |m.regions|
      ensures Bit(mask, c) <==> Named(allowed, m.regions[c]) && m.regions[c] !in m.regions[..c]
    {
      if Named(allowed, m.regions[c]) && m.regions[c] !in m.regions[..c] {
        var i :| 0 <= i < |allowed| && FromStr(allowed[i], REGION_LEN) == Some(m.regions[c]);
        PositionUnique(m.regions, m.regions[c], c);
        assert Selects(m, allowed[i], c);
      }
      if Bit(mask, c) {
        var i :| 0 <= i < |allowed| && Selects(m, allowed[i], c);
        assert FromStr(allowed[i], REGION_LEN) == Some(m.regions[c]);
      }
    }
    forall b, c | 0 <= b < c < |m.regions| && m.regions[b] == m.regions[c]
      ensures m.regions[c] in m.regions[..c]
    {
      assert m.regions[..c][b] == m.regions[c];
    }
  }

  predicate Named(allowed: seq<Bytes>, tag: Bytes) {
    exists i :: 0 <= i < |allowed| && FromStr(allowed[i], REGION_LEN) == Some(tag)
  }
}
