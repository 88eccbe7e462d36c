/** The per-epoch presence bitmap and the 64-slot window that slides over it. */
module LeaderWindow {
  import opened Common
  import opened Words
  import opened LeaderMap

  const HALF_WINDOW: nat := 31

  // ---------------------------------------------------------------- bit stream

  predicate AreWords(bits: seq<nat>) {
    forall i :: 0 <= i < |bits| ==> bits[i] < U64
  }

  /** Bit k of the stream; past the end every bit is clear. */
  predicate StreamBit(bits: seq<nat>, k: nat) {
    k / 64 < |bits| && Bit(bits[k / 64], k % 64)
  }

  function WordOrZero(bits: seq<nat>, i: nat): nat {
    if i < |bits| then bits[i] else 0
  }

  /** `read_u64_at_bit_offset`: 64 consecutive stream bits. */
  function ReadU64AtBitOffset(bits: seq<nat>, bitOff: nat): (r: nat)
    requires AreWords(bits)
    ensures r < U64
    ensures forall j: nat :: j < 64 ==> (Bit(r, j) <==> StreamBit(bits, bitOff + j))
  {
    var word := bitOff / 64;
    var shift := bitOff % 64;
    var lo := ShiftRight(WordOrZero(bits, word), shift);
    assert lo < U64 by { ShiftRightBelow(WordOrZero(bits, word), shift); }
    if shift == 0 then
      AlignedWord(bits, word);
      lo
    else
      var hi := ShiftLeft(WordOrZero(bits, word + 1), 64 - shift);
      SpanTwoWords(bits, bitOff);
      Or(lo, hi)
  }

  /** The 64 stream bits determine the word: no other word has them. */
  lemma {:induction false} ReadIsUnique(bits: seq<nat>, bitOff: nat, w: nat)
    requires AreWords(bits) && w < U64
    requires forall j: nat :: j < 64 ==> (Bit(w, j) <==> StreamBit(bits, bitOff + j))
    ensures w == ReadU64AtBitOffset(bits, bitOff)
  {
    U64IsPow2();
    WordsWithSameBits(w, ReadU64AtBitOffset(bits, bitOff), 64);
  }

  lemma {:induction false} StreamBitSplit(bits: seq<nat>, w: nat, k: nat)
    requires k < 64
    ensures StreamBit(bits, 64 * w + k) <==> Bit(WordOrZero(bits, w), k)
  {
    assert (64 * w + k) / 64 == w && (64 * w + k) % 64 == k;
    ShiftRightZero(k);
  }

  lemma {:induction false} AlignedWord(bits: seq<nat>, w: nat)
    ensures forall j: nat :: j < 64 ==> (Bit(ShiftRight(WordOrZero(bits, w), 0), j) <==> StreamBit(bits, 64 * w + j))
  {
    forall j: nat | j < 64
      ensures Bit(WordOrZero(bits, w), j) <==> StreamBit(bits, 64 * w + j)
    {
      StreamBitSplit(bits, w, j);
    }
  }

  lemma {:induction false} SpanTwoWords(bits: seq<nat>, bitOff: nat)
    requires AreWords(bits) && bitOff % 64 != 0
    ensures
      var lo := ShiftRight(WordOrZero(bits, bitOff / 64), bitOff % 64);
      var hi := ShiftLeft(WordOrZero(bits, bitOff / 64 + 1), 64 - bitOff % 64);
      && Or(lo, hi) < U64
      && forall j: nat :: j < 64 ==> (Bit(Or(lo, hi), j) <==> StreamBit(bits, bitOff + j))
  {
    var word, shift := bitOff / 64, bitOff % 64;
    var w0, w1 := WordOrZero(bits, word), WordOrZero(bits, word + 1);
    var lo, hi := ShiftRight(w0, shift), ShiftLeft(w1, 64 - shift);
    U64IsPow2();
    ShiftRightBelow(w0, shift);
    ShiftLeftBelow(w1, 64 - shift);
    OrBelow(lo, hi, 64);
    forall j: nat | j < 64
      ensures Bit(Or(lo, hi), j) <==> StreamBit(bits, bitOff + j)
    {
      SpannedBit(bits, word, shift, j);
      assert bitOff == 64 * word + shift;
    }
  }

  lemma {:induction false} SpannedBit(bits: seq<nat>, word: nat, shift: nat, j: nat)
    requires AreWords(bits) && 0 < shift < 64 && j < 64
    ensures
      var lo := ShiftRight(WordOrZero(bits, word), shift);
      var hi := ShiftLeft(WordOrZero(bits, word + 1), 64 - shift);
      Bit(Or(lo, hi), j) <==> StreamBit(bits, 64 * word + shift + j)
  {
    var w0, w1 := WordOrZero(bits, word), WordOrZero(bits, word + 1);
    U64IsPow2();
    BitOr(ShiftRight(w0, shift), ShiftLeft(w1, 64 - shift), j);
    BitShiftRight(w0, shift, j);
    BitShiftLeft(w1, 64 - shift, j);
    if shift + j < 64 {
      StreamBitSplit(bits, word, shift + j);
    } else {
      BitBeyond(w0, 64, shift + j);
      StreamBitSplit(bits, word + 1, shift + j - 64);
    }
  }

  // ---------------------------------------------------------------- bitmap

  /** Slot i's leader region is one of the allowed codes. */
  predicate AllowedSlot(codes: seq<byte>, allowed: nat, i: nat) {
    i < |codes| && codes[i] < MAX_REGIONS && Bit(allowed, codes[i])
  }

  ghost predicate MarksPrefix(bits: seq<nat>, codes: seq<byte>, allowed: nat, n: nat) {
    forall k: nat :: StreamBit(bits, k) <==> k < n && AllowedSlot(codes, allowed, k)
  }

  /** The bitmap says exactly which slots are allowed, and nothing past the end. */
  ghost predicate Marks(bits: seq<nat>, codes: seq<byte>, allowed: nat) {
    MarksPrefix(bits, codes, allowed, |codes|)
  }

  lemma {:induction false} OrBitIntoWord(word: nat, i: nat, hit: nat)
    requires word < U64 && i < 64 && hit < 2
    ensures Or(word, ShiftLeft(hit, i)) < U64
    ensures forall k: nat :: k < 64 ==> (Bit(Or(word, ShiftLeft(hit, i)), k) <==> Bit(word, k) || (hit == 1 && k == i))
  {
    U64IsPow2();
    ShiftLeftBelow(hit, i);
    OrBelow(word, ShiftLeft(hit, i), 64);
    forall k: nat | k < 64
      ensures Bit(Or(word, ShiftLeft(hit, i)), k) <==> Bit(word, k) || (hit == 1 && k == i)
    {
      BitOr(word, ShiftLeft(hit, i), k);
      BitShiftLeft(hit, i, k);
      if i < k {
        BitBeyond(hit, 1, k - i);
      }
    }
  }

  lemma {:induction false} MarkOne(bits: seq<nat>, bits': seq<nat>, codes: seq<byte>, allowed: nat, i: nat, hit: nat)
    requires AreWords(bits) && i < |codes| && i / 64 < |bits| && hit < 2
    requires MarksPrefix(bits, codes, allowed, i)
    requires hit == 1 <==> AllowedSlot(codes, allowed, i)
    requires bits' == bits[i / 64 := Or(bits[i / 64], ShiftLeft(hit, i % 64))]
    ensures AreWords(bits') && MarksPrefix(bits', codes, allowed, i + 1)
  {
    OrBitIntoWord(bits[i / 64], i % 64, hit);
    forall k: nat
      ensures StreamBit(bits', k) <==> StreamBit(bits, k) || (hit == 1 && k == i)
    {
      if k / 64 == i / 64 {
        assert k == i <==> k % 64 == i % 64;
      }
    }
  }

  /** `build_presence_bitmap`. */
  method BuildPresenceBitmap(map_: EpochLeaderMap, allowed: nat) returns (presence: seq<nat>)
    ensures |presence| == (|map_.slotCodes| + 63) / 64
    ensures AreWords(presence) && Marks(presence, map_.slotCodes, allowed)
  {
    var codes := map_.slotCodes;
    var bits := new nat[(|codes| + 63) / 64](_ => 0);
    forall k: nat ensures !StreamBit(bits[..], k) { ShiftRightZero(k % 64); }
    for i := 0 to |codes|
      invariant AreWords(bits[..]) && MarksPrefix(bits[..], codes, allowed, i)
    {
      ghost var before := bits[..];
      if codes[i] < MAX_REGIONS {
        var hit := ShiftRight(allowed, codes[i]) % 2;
        bits[i / 64] := Or(bits[i / 64], ShiftLeft(hit, i % 64));
        MarkOne(before, bits[..], codes, allowed, i, hit);
      }
    }
    presence := bits[..];
  }

  // ---------------------------------------------------------------- window value

  datatype Window = Window(base: nat, mask: nat, start: nat, end: nat, presence: seq<nat>)

  predicate WellFormed(w: Window) {
    w.base < U64 && w.mask < U64 && w.start < U64 && w.end < U64 && AreWords(w.presence)
  }

  /** Slot is inside the epoch and its bitmap bit is set. */
  predicate Marked(w: Window, slot: nat) {
    w.start <= slot <= w.end && StreamBit(w.presence, slot - w.start)
  }

  function NewWindow(presence: seq<nat>, start: nat, end: nat): (w: Window)
    requires AreWords(presence)
  {
    Window(start, ReadU64AtBitOffset(presence, 0), start, end, presence)
  }

  /** `contains`: the shift amount is the offset cut to 32 bits, then mod 64. */
  predicate Contains(w: Window, slot: nat) {
    var off := WrappingSub(slot, w.base);
    Bit(w.mask, (off % U32) % 64) && off < 64
  }

  /** The early-return test of `slide_to`, including its wrapped upper edge. */
  predicate Covers(w: Window, highest: nat) {
    w.base <= highest <= WrappingAdd(w.base, 63)
  }

  function Slide(w: Window, highest: nat): (w': Window)
    requires WellFormed(w) && highest < U64
    ensures WellFormed(w')
  {
    if Covers(w, highest) then w
    else if highest < w.start || highest > w.end then
      w.(mask := 0, base := SaturatingSub(highest, HALF_WINDOW))
    else
      var newBase := Max(SaturatingSub(highest, HALF_WINDOW), w.start);
      w.(mask := ReadU64AtBitOffset(w.presence, WrappingSub(newBase, w.start)), base := newBase)
  }

  /** A whole run of `slide_to` calls. */
  function Run(w: Window, highs: seq<nat>): (w': Window)
    requires WellFormed(w) && forall i :: 0 <= i < |highs| ==> highs[i] < U64
    ensures WellFormed(w') && w'.start == w.start && w'.end == w.end && w'.presence == w.presence
  {
    if highs == [] then w
    else Slide(Run(w, highs[..|highs| - 1]), highs[|highs| - 1])
  }

  /** Bits of the bitmap past the epoch end are clear. */
  ghost predicate Bounded(w: Window) {
    w.start <= w.end && forall k: nat :: StreamBit(w.presence, k) ==> k <= w.end - w.start
  }

  /** The mask is the bitmap seen from base. */
  ghost predicate Tracks(w: Window) {
    forall j: nat :: j < 64 ==> (Bit(w.mask, j) <==> Marked(w, w.base + j))
  }

  /** Kept by every slide: the window mirrors the bitmap or is blank. */
  ghost predicate Honest(w: Window) {
    WellFormed(w) && Bounded(w) && (Tracks(w) || w.mask == 0)
  }

  lemma {:induction false} LoadTracks(w: Window)
    requires WellFormed(w) && Bounded(w) && w.start <= w.base
    requires w.mask == ReadU64AtBitOffset(w.presence, w.base - w.start)
    ensures Tracks(w)
  {
  }

  lemma {:induction false} NewWindowHonest(presence: seq<nat>, start: nat, end: nat)
    requires AreWords(presence) && start < U64 && end < U64
    requires Bounded(Window(start, 0, start, end, presence))
    ensures Honest(NewWindow(presence, start, end)) && Tracks(NewWindow(presence, start, end))
  {
    LoadTracks(NewWindow(presence, start, end));
  }

  lemma {:induction false} BoundedCopies(w: Window, v: Window)
    requires Bounded(w) && v.presence == w.presence && v.start == w.start && v.end == w.end
    ensures Bounded(v)
  {
  }

  lemma {:induction false} SlideHonest(w: Window, h: nat)
    requires Honest(w) && h < U64
    ensures Honest(Slide(w, h))
  {
    var v := Slide(w, h);
    BoundedCopies(w, v);
    if !Covers(w, h) && w.start <= h <= w.end {
      assert WrappingSub(v.base, w.start) == v.base - w.start;
      LoadTracks(v);
    }
  }

  lemma {:induction false} RunHonest(w: Window, highs: seq<nat>)
    requires Honest(w) && forall i :: 0 <= i < |highs| ==> highs[i] < U64
    ensures Honest(Run(w, highs))
  {
    if highs != [] {
      RunHonest(w, highs[..|highs| - 1]);
      SlideHonest(Run(w, highs[..|highs| - 1]), highs[|highs| - 1]);
    }
  }

  lemma {:induction false} BlankContainsNothing(w: Window, slot: nat)
    requires w.mask == 0
    ensures !Contains(w, slot)
  {
    ShiftRightZero((WrappingSub(slot, w.base) % U32) % 64);
  }

  lemma {:induction false} ContainsSound(w: Window, slot: nat)
    requires Honest(w) && slot < U64 && Contains(w, slot)
    ensures Marked(w, slot)
  {
    var off := WrappingSub(slot, w.base);
    assert (off % U32) % 64 == off;
    if w.mask == 0 {
      BlankContainsNothing(w, slot);
    } else {
      assert Marked(w, w.base + off);
    }
  }

  /** Soundness over every run: whatever slides were made, a slot the window
      claims is inside the epoch and marked, wrap-around included. */
  lemma {:induction false} RunSound(w: Window, highs: seq<nat>, slot: nat)
    requires Honest(w) && slot < U64
    requires forall i :: 0 <= i < |highs| ==> highs[i] < U64
    requires Contains(Run(w, highs), slot)
    ensures Marked(w, slot)
  {
    RunHonest(w, highs);
    ContainsSound(Run(w, highs), slot);
  }

  lemma {:induction false} TrackingAnswers(w: Window, h: nat)
    requires WellFormed(w) && Tracks(w) && w.base <= h < U64 && h <= w.base + 63
    ensures Contains(w, h) <==> Marked(w, h)
  {
    var off := h - w.base;
    assert WrappingSub(h, w.base) == off && (off % U32) % 64 == off;
    assert Bit(w.mask, off) <==> Marked(w, w.base + off);
  }

  /** Exactly when a slide to h makes the window answer for h: the bitmap marks
      h, unless the early return kept a blank window. */
  lemma {:induction false} SlideAnswers(w: Window, h: nat)
    requires Honest(w) && h < U64
    ensures Contains(Slide(w, h), h) <==> Marked(w, h) && !(Covers(w, h) && w.mask == 0)
  {
    if Covers(w, h) {
      if w.mask == 0 {
        BlankContainsNothing(w, h);
      } else {
        TrackingAnswers(w, h);
      }
    } else if h < w.start || h > w.end {
      BlankContainsNothing(Slide(w, h), h);
    } else {
      InsideReload(w, h);
      TrackingAnswers(Slide(w, h), h);
    }
  }

  lemma {:induction false} InsideReload(w: Window, h: nat)
    requires WellFormed(w) && Bounded(w) && h < U64 && !Covers(w, h) && w.start <= h <= w.end
    ensures Tracks(Slide(w, h)) && Slide(w, h).base <= h <= Slide(w, h).base + 63
    ensures Slide(w, h).base == ReloadFrom(h, w.start)
  {
    LoadTracks(Slide(w, h));
  }

  /** First slot of the 64 a reload around h answers for: 31 slots before h, but not
      before the epoch. */
  function ReloadFrom(h: nat, start: nat): nat {
    if h < start + 31 then start else h - 31
  }

  lemma {:induction false} TrackingAnswersAll(w: Window, s: nat)
    requires WellFormed(w) && Tracks(w) && Bounded(w) && w.start <= w.base && s < U64
    ensures Contains(w, s) <==> w.base <= s <= w.base + 63 && Marked(w, s)
  {
    if w.base <= s <= w.base + 63 {
      TrackingAnswers(w, s);
    }
  }

  /** Every answer after one slide, for any slot s: the answers before it, when h was
      one of the 64 slots from the base on; otherwise the bitmap for the 64 slots
      starting 31 before h, when h is in the epoch; otherwise none. */
  lemma {:induction false} SlideAnswersEach(w: Window, h: nat, s: nat)
    requires Honest(w) && h < U64 && s < U64
    ensures Contains(Slide(w, h), s) <==>
      if w.base <= h <= w.base + 63 < U64 then Contains(w, s)
      else w.start <= h <= w.end && Marked(w, s) && 0 <= s - ReloadFrom(h, w.start) <= 63
  {
    CoversIff(w, h);
    if Covers(w, h) {
    } else if w.start <= h <= w.end {
      ReloadAnswers(w, h, s);
    } else {
      BlankContainsNothing(Slide(w, h), s);
    }
  }

  lemma {:induction false} CoversIff(w: Window, h: nat)
    requires w.base < U64 && h < U64
    ensures Covers(w, h) <==> w.base <= h <= w.base + 63 < U64
  {
  }

  lemma {:induction false} ReloadAnswers(w: Window, h: nat, s: nat)
    requires Honest(w) && !Covers(w, h) && w.start <= h <= w.end && h < U64 && s < U64
    ensures Contains(Slide(w, h), s) <==> 0 <= s - ReloadFrom(h, w.start) <= 63 && Marked(w, s)
  {
    InsideReload(w, h);
    var v := Slide(w, h);
    BoundedCopies(w, v);
    TrackingAnswersAll(v, s);
  }

  /** The same after any run. */
  lemma {:induction false} RunAnswersEach(w: Window, highs: seq<nat>, h: nat, s: nat)
    requires Honest(w) && h < U64 && s < U64 && forall i :: 0 <= i < |highs| ==> highs[i] < U64
    ensures Contains(Slide(Run(w, highs), h), s) <==>
      if Covers(Run(w, highs), h) then Contains(Run(w, highs), s)
      else w.start <= h <= w.end && 0 <= s - ReloadFrom(h, w.start) <= 63 && Marked(w, s)
  {
    RunHonest(w, highs);
    var r := Run(w, highs);
    CoversIff(r, h);
    SlideAnswersEach(r, h, s);
    SameMarks(r, w, s);
  }

  lemma {:induction false} SameMarks(v: Window, w: Window, s: nat)
    requires v.start == w.start && v.end == w.end && v.presence == w.presence
    ensures Marked(v, s) <==> Marked(w, s)
  {
  }

  /** A fresh window answers for the first 64 slots of the epoch. */
  lemma {:induction false} FreshAnswersEach(presence: seq<nat>, start: nat, end: nat, s: nat)
    requires AreWords(presence) && start < U64 && end < U64 && s < U64
    requires Bounded(Window(start, 0, start, end, presence))
    ensures
      var w := NewWindow(presence, start, end);
      Contains(w, s) <==> Marked(w, s) && s <= start + 63
  {
    NewWindowHonest(presence, start, end);
    TrackingAnswersAll(NewWindow(presence, start, end), s);
  }

  /** What a reload answers lasts: over any further slides to slots among its 64, the
      window answers like the bitmap for all 64 and denies everything else. */
  lemma {:induction false} ReloadLasts(w: Window, h: nat, more: seq<nat>, s: nat)
    requires Honest(w) && w.start <= h <= w.end && s < U64
    requires !(w.base <= h <= w.base + 63 < U64) && ReloadFrom(h, w.start) + 63 < U64
    requires forall i :: 0 <= i < |more| ==> 0 <= more[i] - ReloadFrom(h, w.start) <= 63
    ensures Contains(Run(Slide(w, h), more), s) <==> Marked(w, s) && 0 <= s - ReloadFrom(h, w.start) <= 63
  {
    SlideAnswersEach(w, h, s);
    InsideReload(w, h);
    CoveredRun(Slide(w, h), more);
  }

  lemma {:induction false} CoveredRun(w: Window, highs: seq<nat>)
    requires WellFormed(w) && w.base + 63 < U64
    requires forall i :: 0 <= i < |highs| ==> w.base <= highs[i] <= w.base + 63
    ensures Run(w, highs) == w
    decreases |highs|
  {
    if highs != [] {
      CoveredRun(w, highs[..|highs| - 1]);
    }
  }

  lemma {:induction false} RunAnswers(w: Window, highs: seq<nat>, h: nat)
    requires Honest(w) && h < U64 && forall i :: 0 <= i < |highs| ==> highs[i] < U64
    ensures Contains(Slide(Run(w, highs), h), h)
      <==> Marked(w, h) && !(Covers(Run(w, highs), h) && Run(w, highs).mask == 0)
  {
    RunHonest(w, highs);
    SlideAnswers(Run(w, highs), h);
  }

  /** An out-of-epoch slot so close to the epoch that the blank window placed
      around it still covers epoch slots; a window that wraps covers none. */
  predicate NearMiss(w: Window, h: nat) {
    && SaturatingSub(h, HALF_WINDOW) + 63 < U64
    && ((w.end < h <= w.end + HALF_WINDOW) || (h < w.start && w.start <= SaturatingSub(h, HALF_WINDOW) + 63))
  }

  /** Near misses are exactly the slides that can strand an epoch slot. */
  lemma {:induction false} NearMissStrands(w: Window, h: nat)
    requires Honest(w) && h < U64
    requires !Covers(w, h) && (h < w.start || h > w.end)
    ensures NearMiss(w, h) <==> exists s: nat :: w.start <= s <= w.end && Covers(Slide(w, h), s)
  {
    var w' := Slide(w, h);
    if NearMiss(w, h) {
      var s := if h < w.start then w.start else w.end;
      assert Covers(w', s);
    }
  }

  predicate NoNearMiss(w: Window, highs: seq<nat>) {
    forall i :: 0 <= i < |highs| ==> highs[i] < U64 && !NearMiss(w, highs[i])
  }

  /** The window tracks the bitmap, or covers no slot of the epoch. */
  ghost predicate Harmless(w: Window) {
    Tracks(w) || forall s: nat :: w.start <= s <= w.end ==> !Covers(w, s)
  }

  lemma {:induction false} SlideHarmless(w: Window, h: nat)
    requires Honest(w) && Harmless(w) && h < U64 && !NearMiss(w, h)
    ensures Harmless(Slide(w, h))
  {
    if !Covers(w, h) && w.start <= h <= w.end {
      InsideReload(w, h);
    }
  }

  /** In a run without near misses a blank window never covers an epoch slot. */
  lemma {:induction false} RunHarmless(w: Window, highs: seq<nat>)
    requires Honest(w) && Tracks(w) && NoNearMiss(w, highs)
    ensures Harmless(Run(w, highs))
  {
    if highs != [] {
      var prefix := highs[..|highs| - 1];
      RunHarmless(w, prefix);
      RunHonest(w, prefix);
      SlideHarmless(Run(w, prefix), highs[|highs| - 1]);
    }
  }

  /** Completeness over whole runs: without near misses, sliding to a slot makes
      the window agree with the bitmap on it, every time. */
  lemma {:induction false} RunComplete(w: Window, highs: seq<nat>, h: nat)
    requires Honest(w) && Tracks(w) && NoNearMiss(w, highs) && h < U64
    ensures Contains(Slide(Run(w, highs), h), h) <==> Marked(w, h)
  {
    RunHarmless(w, highs);
    RunHonest(w, highs);
    var r := Run(w, highs);
    if Covers(r, h) && Tracks(r) {
      TrackingAnswers(r, h);
    } else {
      SlideAnswers(r, h);
    }
  }

  /** The stranding run: an epoch of 64 slots all in region; one slide just past
      its end blanks the window, and the slide back to a marked slot of the epoch
      is then skipped. */
  lemma {:induction false} StrandedRun()
    ensures
      var w := NewWindow([U64 - 1], 1000, 1063);
      && Honest(w) && NearMiss(w, 1070)
      && Marked(w, 1050) && !Contains(Slide(Run(w, [1070]), 1050), 1050)
  {
    var presence := [U64 - 1];
    forall k: nat
      ensures StreamBit(presence, k) <==> k < 64
    {
      if k < 64 {
        AllOnes(64, k);
        U64IsPow2();
      }
    }
    NewWindowHonest(presence, 1000, 1063);
    var w := NewWindow(presence, 1000, 1063);
    assert Run(w, []) == w && [1070][..0] == [];
    assert Run(w, [1070]) == Slide(w, 1070);
    RunAnswers(w, [1070], 1050);
  }

  lemma {:induction false} AllOnes(k: nat, j: nat)
    requires j < k
    ensures Bit(Pow2(k) - 1, j)
    decreases k
  {
    if j > 0 {
      AllOnes(k - 1, j - 1);
    }
  }

  // ---------------------------------------------------------------- backwards epoch

  /** A fresh window is sound for the epoch bounds exactly when the bounds are
      in order or the only slot is unmarked; the loader accepts both cases. */
  lemma {:induction false} FreshWindowSoundIff(presence: seq<nat>, start: nat, end: nat)
    requires AreWords(presence) && start < U64 && end < U64
    requires forall k: nat :: StreamBit(presence, k) ==> k < Span(start, end)
    ensures (forall s: nat :: s < U64 && Contains(NewWindow(presence, start, end), s) ==> start <= s <= end)
      <==> start <= end || !StreamBit(presence, 0)
  {
    var w := NewWindow(presence, start, end);
    if start <= end {
      NewWindowHonest(presence, start, end);
      forall s: nat | s < U64 && Contains(w, s)
        ensures start <= s <= end
      {
        ContainsSound(w, s);
      }
    } else {
      assert Bit(w.mask, 0) <==> StreamBit(presence, 0 + 0);
      assert WrappingSub(start, start) == 0;
      assert Contains(w, start) <==> StreamBit(presence, 0);
      forall s: nat | s < U64 && Contains(w, s)
        ensures StreamBit(presence, 0)
      {
        var off := WrappingSub(s, start);
        assert Bit(w.mask, off) <==> StreamBit(presence, 0 + off);
      }
    }
  }

  /** The bitmap `from_map` builds for a list of names. */
  ghost predicate BitmapFor(presence: seq<nat>, m: EpochLeaderMap, allowed: seq<Bytes>) {
    && AreWords(presence)
    && forall k: nat :: StreamBit(presence, k) <==>
         k < |m.slotCodes| && m.slotCodes[k] < 64 && exists i :: 0 <= i < |allowed| && Selects(m, allowed[i], m.slotCodes[k])
  }

  // ---------------------------------------------------------------- the object

  class FraWindow {
    var base: nat
    var mask: nat
    const epochStartSlot: nat
    const epochEndSlot: nat
    const presence: seq<nat>

    ghost function Value(): Window
      reads this
    {
      Window(base, mask, epochStartSlot, epochEndSlot, presence)
    }

    ghost predicate Valid()
      reads this
    {
      WellFormed(Value())
    }

    constructor (bits: seq<nat>, start: nat, end: nat)
      requires AreWords(bits) && start < U64 && end < U64
      ensures Valid() && Value() == NewWindow(bits, start, end)
    {
      base := start;
      mask := ReadU64AtBitOffset(bits, 0);
      epochStartSlot := start;
      epochEndSlot := end;
      presence := bits;
    }

    /** `from_map`. */
    static method FromMap(m: EpochLeaderMap, allowed: seq<Bytes>) returns (w: FraWindow)
      requires ValidMap(m) && m.epochStartSlot < U64 && m.epochEndSlot < U64
      ensures fresh(w) && w.Valid() && w.Value() == NewWindow(w.presence, m.epochStartSlot, m.epochEndSlot)
      ensures BitmapFor(w.presence, m, allowed)
    {
      var allowedMask := AllowedMask(m, allowed);
      var bits := BuildPresenceBitmap(m, allowedMask);
      w := new FraWindow(bits, m.epochStartSlot, m.epochEndSlot);
    }

    method ContainsSlot(slot: nat) returns (r: bool)
      requires Valid() && slot < U64
      ensures r == Contains(Value(), slot)
    {
      var off := WrappingSub(slot, base);
      var bit := ShiftRight(mask, (off % U32) % 64) % 2;
      var inRange := if off < 64 then 1 else 0;
      r := bit == 1 && inRange == 1;
    }

    method SlideTo(highest: nat)
      requires Valid() && highest < U64
      modifies this
      ensures Valid() && Value() == Slide(old(Value()), highest)
    {
      var curEdge := WrappingAdd(base, 63);
      if highest <= curEdge && highest >= base {
        return;
      }
      if highest < epochStartSlot || highest > epochEndSlot {
        mask := 0;
        base := SaturatingSub(highest, HALF_WINDOW);
        return;
      }
      var newBase := Max(SaturatingSub(highest, HALF_WINDOW), epochStartSlot);
      var bitOff := WrappingSub(newBase, epochStartSlot);
      mask := ReadU64AtBitOffset(presence, bitOff);
      base := newBase;
    }
  }

  // ---------------------------------------------------------------- against is_focus

  lemma {:induction false} FocusBitmap(m: EpochLeaderMap, country: Bytes, presence: seq<nat>)
    requires ValidMap(m) && m.epochStartSlot <= m.epochEndSlot < U64
    requires BitmapFor(presence, m, [country])
    ensures
      var w := NewWindow(presence, m.epochStartSlot, m.epochEndSlot);
      var c := LeaderCache(m, ResolveRegionIdx(m, country));
      && Honest(w) && Tracks(w)
      && forall s: nat :: Marked(w, s) <==> c.IsFocus(s)
  {
    NewWindowHonest(presence, m.epochStartSlot, m.epochEndSlot);
    var w := NewWindow(presence, m.epochStartSlot, m.epochEndSlot);
    var c := LeaderCache(m, ResolveRegionIdx(m, country));
    forall s: nat
      ensures Marked(w, s) <==> c.IsFocus(s)
    {
      if m.epochStartSlot <= s <= m.epochEndSlot {
        var k := s - m.epochStartSlot;
        assert [country][0] == country;
        assert StreamBit(presence, k) <==> m.slotCodes[k] < 64 && Selects(m, country, m.slotCodes[k]);
      }
    }
  }

  /** The window and `is_focus`, over every run of slides: it never claims a
      slot `is_focus` denies, and after sliding to h it answers like `is_focus`
      unless it kept a blank window over h. */
  lemma {:induction false} WindowMatchesIsFocus(
      m: EpochLeaderMap, country: Bytes, presence: seq<nat>, highs: seq<nat>, h: nat, s: nat)
    requires ValidMap(m) && m.epochStartSlot <= m.epochEndSlot < U64
    requires BitmapFor(presence, m, [country])
    requires h < U64 && s < U64 && forall i :: 0 <= i < |highs| ==> highs[i] < U64
    ensures
      var r := Run(NewWindow(presence, m.epochStartSlot, m.epochEndSlot), highs);
      var c := LeaderCache(m, ResolveRegionIdx(m, country));
      && (Contains(r, s) ==> c.IsFocus(s))
      && (Contains(Slide(r, h), h) <==> c.IsFocus(h) && !(Covers(r, h) && r.mask == 0))
      && (NoNearMiss(NewWindow(presence, m.epochStartSlot, m.epochEndSlot), highs) ==>
            (Contains(Slide(r, h), h) <==> c.IsFocus(h)))
  {
    FocusBitmap(m, country, presence);
    var w := NewWindow(presence, m.epochStartSlot, m.epochEndSlot);
    RunAnswers(w, highs, h);
    if Contains(Run(w, highs), s) {
      RunSound(w, highs, s);
    }
    if NoNearMiss(w, highs) {
      RunComplete(w, highs, h);
    }
  }

  /** After any run, a reload around a slot h of the epoch makes the window answer like
      `is_focus` for each of 64 slots, the 31 before h included, and deny the rest. */
  lemma {:induction false} ReloadMatchesIsFocus(
      m: EpochLeaderMap, country: Bytes, presence: seq<nat>, highs: seq<nat>, h: nat, s: nat)
    requires ValidMap(m) && m.epochStartSlot <= h <= m.epochEndSlot < U64 && s < U64
    requires BitmapFor(presence, m, [country])
    requires forall i :: 0 <= i < |highs| ==> highs[i] < U64
    requires !Covers(Run(NewWindow(presence, m.epochStartSlot, m.epochEndSlot), highs), h)
    ensures Contains(Slide(Run(NewWindow(presence, m.epochStartSlot, m.epochEndSlot), highs), h), s)
      <==> 0 <= s - ReloadFrom(h, m.epochStartSlot) <= 63 && LeaderCache(m, ResolveRegionIdx(m, country)).IsFocus(s)
  {
    FocusBitmap(m, country, presence);
    RunAnswersEach(NewWindow(presence, m.epochStartSlot, m.epochEndSlot), highs, h, s);
  }
}
