/** The shred counter that fires the launch (src/shreds/stream.rs, src/shreds/wire.rs). */
module Trigger {
  import opened Common
  import opened LeaderMap
  import WireFormat

  // ---------------------------------------------------------------- one packet

  const SIGNATURE: nat := 64
  const DATA_HEADERS: nat := 88
  const MERKLE_ROOT: nat := 32
  const PROOF_ENTRY: nat := 20
  const DATA_PAYLOAD: nat := 1_203

  datatype VariantClass = Invalid | Coding | Data(proofSize: nat, resigned: bool, capacity: nat)

  /** `data_capacity_const`. */
  function DataCapacity(proofSize: nat, resigned: bool): Option<nat> {
    var used := DATA_HEADERS + MERKLE_ROOT + proofSize * PROOF_ENTRY + if resigned then SIGNATURE else 0;
    if used > DATA_PAYLOAD then None else Some(DATA_PAYLOAD - used)
  }

  /** `classify_variant`. */
  function ClassifyVariant(b: byte): VariantClass {
    var proofSize := b % 16;
    match b / 16
    case 6 => Coding
    case 7 => Coding
    case 9 => DataClass(proofSize, false)
    case 11 => DataClass(proofSize, true)
    case _ => Invalid
  }

  function DataClass(proofSize: nat, resigned: bool): VariantClass {
    match DataCapacity(proofSize, resigned)
    case Some(c) => Data(proofSize, resigned, c)
    case None => Invalid
  }

  /** The capacity check never rejects a data variant: with the largest proof and a
      retransmit signature there is still room for payload. */
  lemma {:induction false} DataVariants(b: byte)
    ensures ClassifyVariant(b).Data? <==> b / 16 == 9 || b / 16 == 11
    ensures ClassifyVariant(b).Data? ==> 719 <= ClassifyVariant(b).capacity <= 1_083
  {
    assert (b % 16) * PROOF_ENTRY <= 300;
  }

  /** `get_slot`. */
  function GetSlot(buf: Bytes): Option<nat> {
    if |buf| < 73 then None else Some(WireFormat.FromLe(buf[65..73]))
  }

  function ClassOf(buf: Bytes): VariantClass {
    if |buf| <= SIGNATURE then Invalid else ClassifyVariant(buf[SIGNATURE])
  }

  /** The slot of a data shred; None for a packet the handler drops. */
  function DataSlot(buf: Bytes): Option<nat> {
    if ClassOf(buf).Data? then GetSlot(buf) else None
  }

  /** What the variant byte says, nibble by nibble: the high one is the kind of shred, the
      low one the number of 20-byte proof entries that, with the headers, the Merkle
      root and, for 0xB, a retransmit signature, take room from the payload. */
  lemma {:induction false} VariantNibbles(b: byte)
    ensures ClassifyVariant(b) ==
            if b / 16 == 6 || b / 16 == 7 then Coding
            else if b / 16 == 9 then Data(b % 16, false, 1_203 - 88 - 32 - 20 * (b % 16))
            else if b / 16 == 11 then Data(b % 16, true, 1_203 - 88 - 32 - 20 * (b % 16) - 64)
            else Invalid
  {
    assert 0 <= 20 * (b % 16) <= 300;
  }

  /** Eight bytes at their places, least significant first. */
  function PlaceValue(b0: nat, b1: nat, b2: nat, b3: nat, b4: nat, b5: nat, b6: nat, b7: nat): nat {
    b0 + 0x100 * b1 + 0x1_0000 * b2 + 0x100_0000 * b3 + 0x1_0000_0000 * b4
    + 0x100_0000_0000 * b5 + 0x1_0000_0000_0000 * b6 + 0x100_0000_0000_0000 * b7
  }

  lemma {:induction false} EightBytes(b: Bytes)
    requires |b| == 8
    ensures WireFormat.FromLe(b) == PlaceValue(b[0], b[1], b[2], b[3], b[4], b[5], b[6], b[7])
  {
    LastByte(b[7..]);
    FirstByte(b[6..]);
    FirstByte(b[5..]);
    FirstByte(b[4..]);
    FirstByte(b[3..]);
    FirstByte(b[2..]);
    FirstByte(b[1..]);
    FirstByte(b);
  }

  lemma {:induction false} FirstByte(b: Bytes)
    requires b != []
    ensures WireFormat.FromLe(b) == b[0] + 256 * WireFormat.FromLe(b[1..])
  {
  }

  lemma {:induction false} LastByte(b: Bytes)
    requires |b| == 1
    ensures WireFormat.FromLe(b) == b[0]
  {
    assert b[1..] == [];
  }

  /** The slot is bytes 65 to 72, least significant first; 73 bytes are needed. */
  lemma {:induction false} SlotBytes(buf: Bytes)
    ensures GetSlot(buf).Some? <==> |buf| >= 73
    ensures |buf| >= 73 ==>
      GetSlot(buf).value == PlaceValue(buf[65], buf[66], buf[67], buf[68], buf[69], buf[70], buf[71], buf[72])
  {
    if |buf| >= 73 {
      EightBytes(buf[65..73]);
    }
  }

  /** Which packets reach the slot counter: byte 64 is of a data kind, and the slot is
      all there. */
  lemma {:induction false} DataSlotIff(buf: Bytes)
    ensures DataSlot(buf).Some? <==> |buf| >= 73 && (buf[64] / 16 == 9 || buf[64] / 16 == 11)
    ensures DataSlot(buf).Some? ==> DataSlot(buf) == GetSlot(buf)
  {
    if |buf| > 64 {
      VariantNibbles(buf[64]);
    }
  }

  // ---------------------------------------------------------------- the handler

  datatype State = State(
    currentSlot: nat, shredsInSlot: nat, fired: bool, launches: seq<nat>,
    dataSeen: nat, codingSeen: nat, invalidSeen: nat)

  const INITIAL: State := State(U64 - 1, 0, false, [], 0, 0, 0)

  /** What one packet does. The shred counter is a `u32` and wraps. */
  function Step(s: State, buf: Bytes, fireAt: nat, cache: LeaderCache): State
    requires ValidMap(cache.map_)
  {
    match ClassOf(buf)
    case Invalid => s.(invalidSeen := s.invalidSeen + 1)
    case Coding => s.(codingSeen := s.codingSeen + 1)
    case Data(_, _, _) =>
      var counted := s.(dataSeen := s.dataSeen + 1);
      match GetSlot(buf)
      case None => counted.(invalidSeen := counted.invalidSeen + 1)
      case Some(slot) => Count(counted, slot, fireAt, cache)
  }

  /** Counting one shred of `slot`, and firing when the count is the threshold. */
  function Count(s: State, slot: nat, fireAt: nat, cache: LeaderCache): State
    requires ValidMap(cache.map_)
  {
    var count := ((if slot == s.currentSlot then s.shredsInSlot else 0) + 1) % U32;
    var s' := s.(currentSlot := slot, shredsInSlot := count);
    if !s.fired && count == fireAt && cache.IsFocus(slot) then
      s'.(fired := true, launches := s.launches + [slot])
    else s'
  }

  class Handler {
    const fireAt: nat
    const cache: LeaderCache
    var currentSlot: nat
    var shredsInSlot: nat
    var fired: bool
    var launches: seq<nat>
    var dataSeen: nat
    var codingSeen: nat
    var invalidSeen: nat

    ghost function View(): State
      reads this
    {
      State(currentSlot, shredsInSlot, fired, launches, dataSeen, codingSeen, invalidSeen)
    }

    constructor (fireAt: nat, cache: LeaderCache)
      ensures this.fireAt == fireAt && this.cache == cache && View() == INITIAL
    {
      this.fireAt, this.cache := fireAt, cache;
      currentSlot, shredsInSlot, fired := 0xFFFF_FFFF_FFFF_FFFF, 0, false;
      launches := [];
      dataSeen, codingSeen, invalidSeen := 0, 0, 0;
    }

    /** The per-packet closure. */
    method Handle(buf: Bytes)
      requires ValidMap(cache.map_)
      modifies this
      ensures View() == Step(old(View()), buf, fireAt, cache)
    {
      if |buf| <= SIGNATURE {
        invalidSeen := invalidSeen + 1;
        return;
      }
      match ClassifyVariant(buf[SIGNATURE]) {
        case Data(_, _, _) =>
          dataSeen := dataSeen + 1;
        case Coding =>
          codingSeen := codingSeen + 1;
          return;
        case Invalid =>
          invalidSeen := invalidSeen + 1;
          return;
      }
      var slot := GetSlot(buf);
      if slot.None? {
        invalidSeen := invalidSeen + 1;
        return;
      }
      if slot.value != currentSlot {
        currentSlot := slot.value;
        shredsInSlot := 0;
      }
      shredsInSlot := (shredsInSlot + 1) % U32;
      if !fired && shredsInSlot == fireAt && cache.IsFocus(slot.value) {
        launches := launches + [slot.value];
        fired := true;
      }
    }
  }

  /** The receive loop over a trace of packets. */
  method Receive(h: Handler, trace: seq<Bytes>)
    requires ValidMap(h.cache.map_) && h.View() == INITIAL
    modifies h
    ensures h.View() == After(trace, h.fireAt, h.cache)
  {
    for i := 0 to |trace|
      invariant h.View() == After(trace[..i], h.fireAt, h.cache)
    {
      h.Handle(trace[i]);
      assert trace[..i + 1][..i] == trace[..i];
    }
    assert trace[..|trace|] == trace;
  }

  // ---------------------------------------------------------------- whole traces

  /** The handler's state after a trace of packets. */
  function After(trace: seq<Bytes>, fireAt: nat, cache: LeaderCache): State
    requires ValidMap(cache.map_)
  {
    if trace == [] then INITIAL
    else Step(After(trace[..|trace| - 1], fireAt, cache), trace[|trace| - 1], fireAt, cache)
  }

  /** What a packet adds to the sequence of counted slots. */
  function Counted(buf: Bytes): seq<nat> {
    match DataSlot(buf)
    case Some(slot) => [slot]
    case None => []
  }

  /** The slots of the data shreds in a trace; dropped packets leave no mark. */
  function DataSlots(trace: seq<Bytes>): seq<nat> {
    if trace == [] then []
    else DataSlots(trace[..|trace| - 1]) + Counted(trace[|trace| - 1])
  }

  /** n data shreds in a row, from index i on, are of the same focus slot. */
  predicate RowAt(slots: seq<nat>, i: nat, n: nat, cache: LeaderCache)
    requires ValidMap(cache.map_)
  {
    i + n <= |slots| && i < |slots| && cache.IsFocus(slots[i]) && forall k :: i <= k < i + n ==> slots[k] == slots[i]
  }

  /** Some run of one focus slot's data shreds reached length n. */
  ghost predicate Reached(slots: seq<nat>, n: nat, cache: LeaderCache)
    requires ValidMap(cache.map_)
  {
    exists i: nat :: RowAt(slots, i, n, cache)
  }

  /** Length of the run the sequence ends with. */
  function Tail(slots: seq<nat>): (n: nat)
    ensures n <= |slots| && (n == 0 <==> slots == [])
    ensures forall k :: |slots| - n <= k < |slots| ==> slots[k] == slots[|slots| - 1]
    ensures n < |slots| ==> slots[|slots| - n - 1] != slots[|slots| - 1]
  {
    if slots == [] then 0
    else if |slots| > 1 && slots[|slots| - 2] == slots[|slots| - 1] then Tail(slots[..|slots| - 1]) + 1
    else 1
  }

  /** A threshold of 0 is met when the counter wraps. */
  function Threshold(fireAt: nat): nat {
    if fireAt == 0 then U32 else fireAt
  }

  lemma {:induction false} ReachedSnoc(slots: seq<nat>, slot: nat, n: nat, cache: LeaderCache)
    requires ValidMap(cache.map_) && n >= 1
    ensures Reached(slots + [slot], n, cache) <==>
            Reached(slots, n, cache) || (Tail(slots + [slot]) >= n && cache.IsFocus(slot))
  {
    var all := slots + [slot];
    if Reached(slots, n, cache) {
      var i: nat :| RowAt(slots, i, n, cache);
      assert RowAt(all, i, n, cache);
    }
    if Tail(all) >= n && cache.IsFocus(slot) {
      assert RowAt(all, |all| - n, n, cache);
    }
    if Reached(all, n, cache) {
      var i: nat :| RowAt(all, i, n, cache);
      if i + n <= |slots| {
        assert RowAt(slots, i, n, cache);
      } else {
        assert all[i] == slot;
        var t := Tail(all);
        assert t < |all| ==> all[|all| - t - 1] != slot;
      }
    }
  }

  lemma {:induction false} TailSnoc(slots: seq<nat>, slot: nat)
    ensures Tail(slots + [slot]) == if slots != [] && slots[|slots| - 1] == slot then Tail(slots) + 1 else 1
  {
    assert (slots + [slot])[..|slots|] == slots;
  }

  /** A run already at the threshold was noticed when it got there. */
  lemma {:induction false} TailReached(slots: seq<nat>, n: nat, cache: LeaderCache)
    requires ValidMap(cache.map_) && 1 <= n <= Tail(slots) && cache.IsFocus(slots[|slots| - 1])
    ensures Reached(slots, n, cache)
  {
    assert RowAt(slots, |slots| - n, n, cache);
  }

  /** The handler's memory: the last data slot and, modulo the counter's width, the
      length of the run it ends; nothing launched unless fired. */
  predicate Remembers(s: State, slots: seq<nat>) {
    && s.shredsInSlot == Tail(slots) % U32
    && (if slots == [] then s.currentSlot == U64 - 1 else s.currentSlot == slots[|slots| - 1])
    && |s.launches| == if s.fired then 1 else 0
  }

  lemma {:induction false} WrapStep(n: nat)
    ensures (n % U32 + 1) % U32 == (n + 1) % U32
  {
  }

  lemma {:induction false} CountMeets(run: nat, fireAt: nat)
    requires run >= 1 && fireAt < U32
    ensures run % U32 == fireAt ==> run >= Threshold(fireAt)
    ensures run == Threshold(fireAt) ==> run % U32 == fireAt
  {
  }

  lemma {:induction false} CountIsTail(s: State, slots: seq<nat>, slot: nat, fireAt: nat, cache: LeaderCache)
    requires ValidMap(cache.map_) && Remembers(s, slots)
    ensures Count(s, slot, fireAt, cache).shredsInSlot == Tail(slots + [slot]) % U32
  {
    TailSnoc(slots, slot);
    WrapStep(Tail(slots));
  }

  /** One counted shred keeps the memory right and fires exactly when the trace
      first holds a long enough run. */
  lemma {:induction false} CountFires(s: State, slots: seq<nat>, slot: nat, fireAt: nat, cache: LeaderCache)
    requires ValidMap(cache.map_) && fireAt < U32 && Remembers(s, slots)
    requires s.fired <==> Reached(slots, Threshold(fireAt), cache)
    ensures Remembers(Count(s, slot, fireAt, cache), slots + [slot])
    ensures Count(s, slot, fireAt, cache).fired <==> Reached(slots + [slot], Threshold(fireAt), cache)
  {
    var n := Threshold(fireAt);
    var all := slots + [slot];
    CountIsTail(s, slots, slot, fireAt, cache);
    ReachedSnoc(slots, slot, n, cache);
    TailSnoc(slots, slot);
    CountMeets(Tail(all), fireAt);
    var count := Count(s, slot, fireAt, cache).shredsInSlot;
    if count == fireAt {
      assert Tail(all) >= n;
    } else if Tail(all) >= n && cache.IsFocus(slot) {
      assert Tail(all) != n;
      TailReached(slots, n, cache);
    }
  }

  lemma {:induction false} StepFires(s: State, slots: seq<nat>, buf: Bytes, fireAt: nat, cache: LeaderCache)
    requires ValidMap(cache.map_) && fireAt < U32 && Remembers(s, slots)
    requires s.fired <==> Reached(slots, Threshold(fireAt), cache)
    ensures Remembers(Step(s, buf, fireAt, cache), slots + Counted(buf))
    ensures Step(s, buf, fireAt, cache).fired <==> Reached(slots + Counted(buf), Threshold(fireAt), cache)
  {
    match DataSlot(buf)
    case Some(slot) => CountFires(s.(dataSeen := s.dataSeen + 1), slots, slot, fireAt, cache);
    case None => assert slots + [] == slots;
  }

  /** Over every trace: the handler has fired exactly when some run of data shreds of
      one focus slot, dropped packets aside, reached the threshold; and it launched
      once if it fired, never otherwise. */
  lemma {:induction false} FiredIffReached(trace: seq<Bytes>, fireAt: nat, cache: LeaderCache)
    requires ValidMap(cache.map_) && fireAt < U32
    ensures After(trace, fireAt, cache).fired <==> Reached(DataSlots(trace), Threshold(fireAt), cache)
    ensures Remembers(After(trace, fireAt, cache), DataSlots(trace))
    decreases |trace|
  {
    if trace != [] {
      var rest, last := trace[..|trace| - 1], trace[|trace| - 1];
      FiredIffReached(rest, fireAt, cache);
      StepFires(After(rest, fireAt, cache), DataSlots(rest), last, fireAt, cache);
    }
  }

  lemma {:induction false} FirstReach(slots: seq<nat>, slot: nat, n: nat, cache: LeaderCache)
    requires ValidMap(cache.map_) && n >= 1
    requires !Reached(slots, n, cache) && Reached(slots + [slot], n, cache)
    ensures cache.IsFocus(slot) && Tail(slots + [slot]) == n
  {
    ReachedSnoc(slots, slot, n, cache);
    TailSnoc(slots, slot);
    if Tail(slots + [slot]) > n {
      TailReached(slots, n, cache);
    }
  }

  /** Firing is permanent and happens on one packet: the one whose shred makes the
      first focus run exactly as long as the threshold; its slot is the one launched. */
  lemma {:induction false} FiresOnce(trace: seq<Bytes>, packet: Bytes, fireAt: nat, cache: LeaderCache)
    requires ValidMap(cache.map_) && fireAt < U32
    ensures
      var before, now := After(trace, fireAt, cache), After(trace + [packet], fireAt, cache);
      if before.fired || !now.fired then now.launches == before.launches && (before.fired ==> now.fired)
      else
        && DataSlot(packet).Some? && cache.IsFocus(DataSlot(packet).value)
        && now.launches == [DataSlot(packet).value]
        && Tail(DataSlots(trace) + [DataSlot(packet).value]) == Threshold(fireAt)
  {
    FiredIffReached(trace, fireAt, cache);
    FiredIffReached(trace + [packet], fireAt, cache);
    assert (trace + [packet])[..|trace|] == trace;
    if !After(trace, fireAt, cache).fired && After(trace + [packet], fireAt, cache).fired {
      FirstReach(DataSlots(trace), DataSlot(packet).value, Threshold(fireAt), cache);
    }
  }

  /** Whatever was launched was a focus slot. */
  lemma {:induction false} LaunchesAreFocus(trace: seq<Bytes>, fireAt: nat, cache: LeaderCache)
    requires ValidMap(cache.map_)
    ensures forall slot :: slot in After(trace, fireAt, cache).launches ==> cache.IsFocus(slot)
    decreases |trace|
  {
    if trace != [] {
      LaunchesAreFocus(trace[..|trace| - 1], fireAt, cache);
    }
  }

  /** Below the counter's width a threshold of 0 never fires. */
  lemma {:induction false} ZeroNeverFires(trace: seq<Bytes>, cache: LeaderCache)
    requires ValidMap(cache.map_) && |trace| < U32
    ensures !After(trace, 0, cache).fired
  {
    FiredIffReached(trace, 0, cache);
    SlotsNoLonger(trace);
  }

  lemma {:induction false} SlotsNoLonger(trace: seq<Bytes>)
    ensures |DataSlots(trace)| <= |trace|
  {
    if trace != [] {
      SlotsNoLonger(trace[..|trace| - 1]);
    }
  }

  /** Data shreds too short to hold a slot. */
  function ShortData(trace: seq<Bytes>): nat {
    if trace == [] then 0
    else
      ShortData(trace[..|trace| - 1]) +
      if ClassOf(trace[|trace| - 1]).Data? && |trace[|trace| - 1]| < 73 then 1 else 0
  }

  /** High nibble of byte 64; 16 for a packet that has none. */
  function Kind(buf: Bytes): nat {
    if |buf| <= 64 then 16 else buf[64] / 16
  }

  /** Packets of these kinds in a trace. */
  function Tally(trace: seq<Bytes>, kinds: set<nat>): nat {
    if trace == [] then 0 else Tally(trace[1..], kinds) + if Kind(trace[0]) in kinds then 1 else 0
  }

  lemma {:induction false} TallySnoc(trace: seq<Bytes>, buf: Bytes, kinds: set<nat>)
    ensures Tally(trace + [buf], kinds) == Tally(trace, kinds) + if Kind(buf) in kinds then 1 else 0
  {
    if trace != [] {
      TallySnoc(trace[1..], buf, kinds);
      assert (trace + [buf])[1..] == trace[1..] + [buf];
    } else {
      assert [buf][1..] == [] && [] + [buf] == [buf];
    }
  }

  /** Each counter by itself: the data and coding packets by their kind, and everything
      else, together with the data packets too short to hold a slot. */
  lemma {:induction false} CountersTally(trace: seq<Bytes>, fireAt: nat, cache: LeaderCache)
    requires ValidMap(cache.map_)
    ensures
      var s := After(trace, fireAt, cache);
      && s.dataSeen == Tally(trace, {9, 11}) && s.codingSeen == Tally(trace, {6, 7})
      && s.invalidSeen == Tally(trace, OtherKinds()) + ShortData(trace)
    decreases |trace|
  {
    if trace != [] {
      var rest, last := trace[..|trace| - 1], trace[|trace| - 1];
      assert rest + [last] == trace;
      CountersTally(rest, fireAt, cache);
      TallySnoc(rest, last, {9, 11});
      TallySnoc(rest, last, {6, 7});
      TallySnoc(rest, last, OtherKinds());
      StepCounts(After(rest, fireAt, cache), last, fireAt, cache);
    }
  }

  function OtherKinds(): set<nat> {
    {0, 1, 2, 3, 4, 5, 8, 10, 12, 13, 14, 15, 16}
  }

  lemma {:induction false} StepCounts(s: State, buf: Bytes, fireAt: nat, cache: LeaderCache)
    requires ValidMap(cache.map_)
    ensures
      var s', kind := Step(s, buf, fireAt, cache), Kind(buf);
      && s'.dataSeen == s.dataSeen + (if kind in {9, 11} then 1 else 0)
      && s'.codingSeen == s.codingSeen + (if kind in {6, 7} then 1 else 0)
      && s'.invalidSeen == s.invalidSeen + (if kind in OtherKinds() then 1 else 0)
                           + (if kind in {9, 11} && |buf| < 73 then 1 else 0)
      && (ClassOf(buf).Data? <==> kind in {9, 11})
  {
    if |buf| > 64 {
      VariantNibbles(buf[64]);
    }
  }

  /** The three counters add up to the packets received, plus one for each short data
      shred, which is counted as data and again as invalid; and the data counter less
      those is the number of shreds that reached the slot counter. */
  lemma {:induction false} CountersAddUp(trace: seq<Bytes>, fireAt: nat, cache: LeaderCache)
    requires ValidMap(cache.map_)
    ensures
      var s := After(trace, fireAt, cache);
      && s.dataSeen + s.codingSeen + s.invalidSeen == |trace| + ShortData(trace)
      && s.dataSeen == |DataSlots(trace)| + ShortData(trace)
    decreases |trace|
  {
    if trace != [] {
      CountersAddUp(trace[..|trace| - 1], fireAt, cache);
    }
  }
}
