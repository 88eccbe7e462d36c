/** The token roster and its key pool (src/pumpfun/tokens.rs, src/main.rs): two
    files, written one after the other, over any number of runs and crashes. */
module Roster {
  import opened Common

  // ---------------------------------------------------------------- lines of text

  /** Unicode white space, as `str::trim` sees it. */
  predicate IsWhite(c: char) {
    || '\U{0009}' <= c <= '\U{000D}' || c == ' ' || c == '\U{0085}' || c == '\U{00A0}' || c == '\U{1680}'
    || '\U{2000}' <= c <= '\U{200A}' || c == '\U{2028}' || c == '\U{2029}' || c == '\U{202F}'
    || c == '\U{205F}' || c == '\U{3000}'
  }

  predicate IsBlank(s: string) {
    forall i :: 0 <= i < |s| ==> IsWhite(s[i])
  }

  predicate EndsWithCr(s: string) {
    s != "" && s[|s| - 1] == '\r'
  }

  function ChopCr(s: string): string {
    if EndsWithCr(s) then s[..|s| - 1] else s
  }

  /** `BufRead::lines`: newline-terminated pieces, less one carriage return each; a
      last piece without a newline is kept as it is. */
  function Lines(s: string): seq<string>
    decreases |s|
  {
    match Position(s, '\n')
    case None => if s == "" then [] else [s]
    case Some(i) => [ChopCr(s[..i])] + Lines(s[i + 1..])
  }

  function DropBlank(ls: seq<string>): seq<string> {
    if ls == [] then []
    else (if IsBlank(ls[0]) then [] else [ls[0]]) + DropBlank(ls[1..])
  }

  /** `read_lines` on the text of the file. */
  function ReadLines(s: string): seq<string> {
    DropBlank(Lines(s))
  }

  /** `join_lines`. */
  function JoinLines(ls: seq<string>): string {
    if ls == [] then "" else ls[0] + "\n" + JoinLines(ls[1..])
  }

  method ReadPool(text: string) returns (out: seq<string>)
    ensures out == ReadLines(text)
  {
    var lines := Lines(text);
    out := [];
    assert lines[0..] == lines;
    for i := 0 to |lines|
      invariant DropBlank(lines) == out + DropBlank(lines[i..])
    {
      assert lines[i..][1..] == lines[i + 1..];
      if !IsBlank(lines[i]) {
        out := out + [lines[i]];
      }
    }
  }

  method JoinPool(lines: seq<string>) returns (s: string)
    ensures s == JoinLines(lines)
  {
    s := "";
    assert lines[0..] == lines;
    for i := 0 to |lines|
      invariant JoinLines(lines) == s + JoinLines(lines[i..])
    {
      assert lines[i..][1..] == lines[i + 1..];
      s := s + lines[i];
      s := s + "\n";
    }
  }

  /** A line that survives being written and read. */
  predicate Stable(l: string) {
    '\n' !in l && !IsBlank(l) && !EndsWithCr(l)
  }

  lemma {:induction false} LinesOfJoin(l: string, rest: string)
    requires '\n' !in l
    ensures Lines(l + "\n" + rest) == [ChopCr(l)] + Lines(rest)
  {
    var s := l + "\n" + rest;
    assert s[|l|] == '\n' && s[..|l|] == l && s[|l| + 1..] == rest;
    PositionUnique(s, '\n', |l|);
  }

  /** Reading back what was joined, when no line holds a newline or is blank: each
      line comes back without its trailing carriage return. */
  lemma {:induction false} ReadJoin(ls: seq<string>)
    requires forall i :: 0 <= i < |ls| ==> '\n' !in ls[i] && !IsBlank(ls[i])
    ensures |ReadLines(JoinLines(ls))| == |ls|
    ensures forall i :: 0 <= i < |ls| ==> ReadLines(JoinLines(ls))[i] == ChopCr(ls[i])
    decreases ls
  {
    if ls != [] {
      ReadJoin(ls[1..]);
      LinesOfJoin(ls[0], JoinLines(ls[1..]));
      var tail := Lines(JoinLines(ls[1..]));
      assert ([ChopCr(ls[0])] + tail)[1..] == tail;
      ChopKeepsInk(ls[0]);
    }
  }

  lemma {:induction false} ChopKeepsInk(l: string)
    requires !IsBlank(l)
    ensures !IsBlank(ChopCr(l))
  {
    var i :| 0 <= i < |l| && !IsWhite(l[i]);
    assert ChopCr(l)[i] == l[i];
  }

  lemma {:induction false} LinesHaveNoNewline(s: string)
    ensures forall i :: 0 <= i < |Lines(s)| ==> '\n' !in Lines(s)[i]
    decreases |s|
  {
    match Position(s, '\n')
    case None =>
    case Some(i) => LinesHaveNoNewline(s[i + 1..]);
  }

  lemma {:induction false} DropBlankMembers(ls: seq<string>)
    ensures forall i :: 0 <= i < |DropBlank(ls)| ==> DropBlank(ls)[i] in ls && !IsBlank(DropBlank(ls)[i])
  {
    if ls != [] {
      DropBlankMembers(ls[1..]);
    }
  }

  lemma {:induction false} ReadLinesShape(s: string)
    ensures forall i :: 0 <= i < |ReadLines(s)| ==> '\n' !in ReadLines(s)[i] && !IsBlank(ReadLines(s)[i])
  {
    DropBlankMembers(Lines(s));
    LinesHaveNoNewline(s);
  }

  /** The pool file round-trips exactly when every line is stable; a line ending in
      a carriage return is the one kind `read_lines` can produce that is not. */
  lemma {:induction false} PoolRoundTripIff(ls: seq<string>)
    ensures ReadLines(JoinLines(ls)) == ls <==> forall i :: 0 <= i < |ls| ==> Stable(ls[i])
  {
    ReadLinesShape(JoinLines(ls));
    if forall i :: 0 <= i < |ls| ==> '\n' !in ls[i] && !IsBlank(ls[i]) {
      ReadJoin(ls);
    }
  }

  /** A text taken apart: up to a newline is one line, less a carriage return before
      it; what follows the last newline is a line as it stands, unless it is empty. */
  lemma {:induction false} LinesTakeApart(l: string, rest: string)
    requires '\n' !in l
    ensures Lines(l + "\n" + rest)
         == [if |l| > 0 && l[|l| - 1] == '\r' then l[..|l| - 1] else l] + Lines(rest)
    ensures Lines(l) == if l == "" then [] else [l]
  {
    LinesOfJoin(l, rest);
  }

  /** Blank lines, and only they, are left out, in order. */
  lemma {:induction false} BlanksDropped(a: seq<string>, l: string)
    ensures DropBlank(a + [l]) == DropBlank(a) + if exists i :: 0 <= i < |l| && !IsWhite(l[i]) then [l] else []
  {
    if a != [] {
      BlanksDropped(a[1..], l);
      assert (a + [l])[1..] == a[1..] + [l];
    }
  }

  // ---------------------------------------------------------------- disk and roster

  datatype TokenSpec = TokenSpec(description: string, isUsed: bool, privatekey: string)

  type Tokens = seq<TokenSpec>

  /** The two files; None: absent. JSON stands for the roster it encodes. */
  datatype Disk = Disk(cache: Option<Tokens>, pool: Option<string>)

  /** Slots without a key, in order. */
  function Needed(tokens: Tokens): (r: seq<nat>)
    ensures forall i :: 0 <= i < |r| ==> r[i] < |tokens|
  {
    if tokens == [] then []
    else
      var n := |tokens| - 1;
      Needed(tokens[..n]) + if tokens[n].privatekey == "" then [n] else []
  }

  /** Each empty slot takes the next line. */
  function Assign(tokens: Tokens, lines: seq<string>): (r: Tokens)
    requires |lines| == |Needed(tokens)|
    ensures |r| == |tokens|
    decreases tokens
  {
    if tokens == [] then []
    else
      var n := |tokens| - 1;
      if tokens[n].privatekey == "" then
        Assign(tokens[..n], lines[..|lines| - 1]) + [tokens[n].(privatekey := lines[|lines| - 1])]
      else
        Assign(tokens[..n], lines) + [tokens[n]]
  }

  datatype LoadError = PoolMissing | NotEnoughKeys

  /** `load_and_hydrate`: its answer, and the disk after each atomic write. */
  function Hydrate(d: Disk): (Result<Option<Tokens>, LoadError>, seq<Disk>) {
    match d.cache
    case None => (Ok(None), [])
    case Some(tokens) =>
      var needed := Needed(tokens);
      if needed == [] then (Ok(Some(tokens)), [])
      else match d.pool
        case None => (Err(PoolMissing), [])
        case Some(text) =>
          var lines := ReadLines(text);
          if |lines| < |needed| then (Err(NotEnoughKeys), [])
          else
            var d1 := d.(pool := Some(JoinLines(lines[|needed|..])));
            var filled := Assign(tokens, lines[..|needed|]);
            (Ok(Some(filled)), [d1, d1.(cache := Some(filled))])
  }

  /** First unused index below `limit`. */
  function FirstUnused(tokens: Tokens, limit: nat): (r: Option<nat>)
    requires limit <= |tokens|
    ensures r.Some? ==> r.value < limit && !tokens[r.value].isUsed
    ensures r.Some? ==> forall j :: 0 <= j < r.value ==> tokens[j].isUsed
    ensures r.None? ==> forall j :: 0 <= j < limit ==> tokens[j].isUsed
  {
    if limit == 0 then None
    else match FirstUnused(tokens, limit - 1)
      case Some(i) => Some(i)
      case None => if tokens[limit - 1].isUsed then None else Some(limit - 1)
  }

  /** `pick`: None stands for either error. */
  function Pick(tokens: Tokens, debug: bool): Option<nat> {
    if tokens == [] then None
    else if debug then Some(|tokens| - 1)
    else FirstUnused(tokens, |tokens| - 1)
  }

  function MarkUsed(tokens: Tokens, idx: nat): Tokens
    requires idx < |tokens|
  {
    tokens[idx := tokens[idx].(isUsed := true)]
  }

  /** One run's circumstances: token debug mode, and whether everything between the
      pick and the claim (wallets, upload) succeeded. */
  datatype RunInput = RunInput(debug: bool, uploadOk: bool)

  /** The index a run picks to launch; None: it ends before, or there is nothing to pick. */
  function Picked(d: Disk, debug: bool): Option<nat> {
    match Hydrate(d).0
    case Ok(Some(tokens)) => Pick(tokens, debug)
    case _ => None
  }

  /** The index a run claims, when it gets that far outside debug mode. */
  function Claimed(d: Disk, inp: RunInput): Option<nat> {
    if inp.debug || !inp.uploadOk then None else Picked(d, false)
  }

  function Last(d: Disk, writes: seq<Disk>): Disk {
    if writes == [] then d else writes[|writes| - 1]
  }

  /** Every disk state a run leaves behind, one for each atomic write. */
  function Writes(d: Disk, inp: RunInput): seq<Disk> {
    var (answer, writes) := Hydrate(d);
    match Claimed(d, inp)
    case None => writes
    case Some(idx) =>
      ClaimInRange(d, inp);
      writes + [Last(d, writes).(cache := Some(MarkUsed(answer.value.value, idx)))]
  }

  lemma {:induction false} ClaimInRange(d: Disk, inp: RunInput)
    requires Claimed(d, inp).Some?
    ensures Hydrate(d).0.Ok? && Hydrate(d).0.value.Some?
    ensures Claimed(d, inp).value < |Hydrate(d).0.value.value| - 1
  {
  }

  /** A run that may crash: it stops with the disk it found or after any of its
      atomic writes. */
  predicate RunsTo(d: Disk, inp: RunInput, d': Disk) {
    d' == d || d' in Writes(d, inp)
  }

  // ---------------------------------------------------------------- the object

  class TokenFiles {
    var disk: Disk
    ghost var writes: seq<Disk>

    constructor (disk: Disk)
      ensures this.disk == disk && writes == []
    {
      this.disk := disk;
      writes := [];
    }

    method WritePool(text: string)
      modifies this
      ensures disk == old(disk).(pool := Some(text)) && writes == old(writes) + [disk]
    {
      disk := disk.(pool := Some(text));
      writes := writes + [disk];
    }

    method WriteCache(tokens: Tokens)
      modifies this
      ensures disk == old(disk).(cache := Some(tokens)) && writes == old(writes) + [disk]
    {
      disk := disk.(cache := Some(tokens));
      writes := writes + [disk];
    }

    /** `load_and_hydrate`: the pool shrinks first, then the roster grows. */
    method LoadAndHydrate() returns (r: Result<Option<Tokens>, LoadError>)
      modifies this
      ensures r == Hydrate(old(disk)).0
      ensures writes == old(writes) + Hydrate(old(disk)).1
      ensures disk == Last(old(disk), Hydrate(old(disk)).1)
    {
      if disk.cache.None? {
        return Ok(None);
      }
      var tokens := disk.cache.value;
      var needed := Needed(tokens);
      if needed == [] {
        return Ok(Some(tokens));
      }
      if disk.pool.None? {
        return Err(PoolMissing);
      }
      var lines := ReadPool(disk.pool.value);
      if |lines| < |needed| {
        return Err(NotEnoughKeys);
      }
      var consumed, remaining := lines[..|needed|], lines[|needed|..];
      tokens := FillSlots(tokens, needed, consumed);
      var joined := JoinPool(remaining);
      WritePool(joined);
      WriteCache(tokens);
      return Ok(Some(tokens));
    }

    /** `mark_used`. */
    method Claim(tokens: Tokens, idx: nat)
      requires idx < |tokens|
      modifies this
      ensures disk == old(disk).(cache := Some(MarkUsed(tokens, idx))) && writes == old(writes) + [disk]
    {
      WriteCache(tokens[idx := tokens[idx].(isUsed := true)]);
    }

    /** The roster's part of `main`: load, pick, and after a successful upload claim,
        except in debug mode. */
    method Run(inp: RunInput) returns (picked: Option<nat>)
      modifies this
      ensures picked == Picked(old(disk), inp.debug)
      ensures writes == old(writes) + Writes(old(disk), inp)
      ensures disk == Last(old(disk), Writes(old(disk), inp))
    {
      var loaded := LoadAndHydrate();
      if loaded.Err? || loaded.value.None? {
        return None;
      }
      var tokens := loaded.value.value;
      picked := Pick(tokens, inp.debug);
      if picked.None? || !inp.uploadOk {
        return;
      }
      if !inp.debug {
        LastCache(old(disk));
        Claim(tokens, picked.value);
      }
    }
  }

  /** The `needed.zip(consumed)` loop. */
  method FillSlots(tokens: Tokens, needed: seq<nat>, consumed: seq<string>) returns (r: Tokens)
    requires needed == Needed(tokens) && |consumed| == |needed|
    ensures r == Assign(tokens, consumed)
  {
    r := tokens;
    NeededAscending(tokens);
    for k := 0 to |needed|
      invariant |r| == |tokens|
      invariant forall i :: 0 <= i < k ==> r[needed[i]] == tokens[needed[i]].(privatekey := consumed[i])
      invariant forall j :: 0 <= j < |tokens| && (forall i :: 0 <= i < k ==> needed[i] != j) ==> r[j] == tokens[j]
    {
      r := r[needed[k] := r[needed[k]].(privatekey := consumed[k])];
    }
    AssignPointwise(tokens, consumed, r);
  }

  lemma {:induction false} NeededAscending(tokens: Tokens)
    ensures forall i, j :: 0 <= i < j < |Needed(tokens)| ==> Needed(tokens)[i] < Needed(tokens)[j]
    ensures forall n :: n in Needed(tokens) <==> 0 <= n < |tokens| && tokens[n].privatekey == ""
  {
    if tokens != [] {
      NeededAscending(tokens[..|tokens| - 1]);
    }
  }

  /** The i-th empty slot gets line i. */
  lemma {:induction false} AssignFills(tokens: Tokens, lines: seq<string>, i: nat)
    requires |lines| == |Needed(tokens)| && i < |lines|
    ensures Assign(tokens, lines)[Needed(tokens)[i]] == tokens[Needed(tokens)[i]].(privatekey := lines[i])
    decreases tokens
  {
    var n := |tokens| - 1;
    if tokens[n].privatekey != "" {
      AssignFills(tokens[..n], lines, i);
    } else if i < |lines| - 1 {
      AssignFills(tokens[..n], lines[..|lines| - 1], i);
    }
  }

  /** A slot that has a key keeps it. */
  lemma {:induction false} AssignKeeps(tokens: Tokens, lines: seq<string>, j: nat)
    requires |lines| == |Needed(tokens)| && j < |tokens| && tokens[j].privatekey != ""
    ensures Assign(tokens, lines)[j] == tokens[j]
    decreases tokens
  {
    var n := |tokens| - 1;
    if j < n {
      AssignKeeps(tokens[..n], if tokens[n].privatekey == "" then lines[..|lines| - 1] else lines, j);
    }
  }

  lemma {:induction false} AssignPointwise(tokens: Tokens, lines: seq<string>, r: Tokens)
    requires |lines| == |Needed(tokens)| && |r| == |tokens|
    requires forall i :: 0 <= i < |lines| ==> r[Needed(tokens)[i]] == tokens[Needed(tokens)[i]].(privatekey := lines[i])
    requires forall j :: 0 <= j < |tokens| && (forall i :: 0 <= i < |lines| ==> Needed(tokens)[i] != j) ==> r[j] == tokens[j]
    ensures r == Assign(tokens, lines)
  {
    NeededAscending(tokens);
    forall j | 0 <= j < |tokens|
      ensures r[j] == Assign(tokens, lines)[j]
    {
      if tokens[j].privatekey == "" {
        assert j in Needed(tokens);
        var i :| 0 <= i < |lines| && Needed(tokens)[i] == j;
        AssignFills(tokens, lines, i);
      } else {
        AssignKeeps(tokens, lines, j);
      }
    }
  }

  // ---------------------------------------------------------------- what a run answers

  /** The roster's empty slots, in order. */
  ghost predicate EmptySlots(tokens: Tokens, slots: seq<nat>) {
    && (forall i, j :: 0 <= i < j < |slots| ==> slots[i] < slots[j])
    && (forall n :: n in slots <==> 0 <= n < |tokens| && tokens[n].privatekey == "")
  }

  /** The k-th empty slot has taken the k-th line; nothing else has changed. */
  ghost predicate Filled(before: Tokens, slots: seq<nat>, lines: seq<string>, after: Tokens) {
    && |after| == |before| && |slots| <= |lines|
    && (forall k :: 0 <= k < |slots| ==>
          slots[k] < |before| && after[slots[k]] == before[slots[k]].(privatekey := lines[k]))
    && (forall n :: 0 <= n < |before| && n !in slots ==> after[n] == before[n])
  }

  /** Every answer of `load_and_hydrate` and what it writes: no roster, no answer; no
      empty slot, the roster as it is; otherwise the pool must exist and have a line for
      each empty slot, and is cut back to the rest before the filled roster is written. */
  lemma {:induction false} HydrateAnswers(d: Disk, slots: seq<nat>)
    requires d.cache.Some? ==> EmptySlots(d.cache.value, slots)
    ensures
      var (answer, writes) := Hydrate(d);
      if d.cache.None? then answer == Ok(None) && writes == []
      else if slots == [] then answer == Ok(d.cache) && writes == []
      else if d.pool.None? then answer == Err(PoolMissing) && writes == []
      else
        var lines := ReadLines(d.pool.value);
        if |lines| < |slots| then answer == Err(NotEnoughKeys) && writes == []
        else
          && answer.Ok? && answer.value.Some? && Filled(d.cache.value, slots, lines, answer.value.value)
          && var left := Some(JoinLines(lines[|slots|..]));
             writes == [Disk(d.cache, left), Disk(answer.value, left)]
  {
    if d.cache.Some? {
      var tokens := d.cache.value;
      NeededAscending(tokens);
      SameAscending(slots, Needed(tokens));
      if slots != [] && d.pool.Some? && |slots| <= |ReadLines(d.pool.value)| {
        AssignedIsFilled(tokens, slots, ReadLines(d.pool.value));
      }
    }
  }

  lemma {:induction false} AssignedIsFilled(tokens: Tokens, slots: seq<nat>, lines: seq<string>)
    requires slots == Needed(tokens) && |slots| <= |lines|
    ensures Filled(tokens, slots, lines, Assign(tokens, lines[..|slots|]))
  {
    NeededAscending(tokens);
    var used := lines[..|slots|];
    forall k | 0 <= k < |slots|
      ensures slots[k] < |tokens| && Assign(tokens, used)[slots[k]] == tokens[slots[k]].(privatekey := lines[k])
    {
      AssignFills(tokens, used, k);
    }
    forall n | 0 <= n < |tokens| && n !in slots
      ensures Assign(tokens, used)[n] == tokens[n]
    {
      AssignKeeps(tokens, used, n);
    }
  }

  /** Ascending lists with the same members are the same. */
  lemma {:induction false} SameAscending(a: seq<nat>, b: seq<nat>)
    requires forall i, j :: 0 <= i < j < |a| ==> a[i] < a[j]
    requires forall i, j :: 0 <= i < j < |b| ==> b[i] < b[j]
    requires forall n :: n in a <==> n in b
    ensures a == b
    decreases |a| + |b|
  {
    assert (a != [] ==> a[0] in a) && (b != [] ==> b[0] in b);
    if a != [] && b != [] {
      var x, y := a[|a| - 1], b[|b| - 1];
      assert x in b && y in a;
      assert x == y;
      var a', b' := a[..|a| - 1], b[..|b| - 1];
      forall n
        ensures n in a' <==> n in b'
      {
        assert n in a <==> n in a' || n == x;
        assert n in b <==> n in b' || n == y;
      }
      SameAscending(a', b');
    }
  }

  /** The disk holds what a run needs to get to its pick. */
  ghost predicate CanHydrate(d: Disk) {
    && d.cache.Some?
    && (d.pool.Some? || forall n :: 0 <= n < |d.cache.value| ==> d.cache.value[n].privatekey != "")
    && (forall slots :: EmptySlots(d.cache.value, slots) && slots != [] ==>
          d.pool.Some? && |slots| <= |ReadLines(d.pool.value)|)
  }

  lemma {:induction false} CanHydrateIff(d: Disk)
    ensures CanHydrate(d) <==> Hydrate(d).0.Ok? && Hydrate(d).0.value.Some?
  {
    if d.cache.Some? {
      var tokens := d.cache.value;
      NeededAscending(tokens);
      assert EmptySlots(tokens, Needed(tokens));
      forall slots | EmptySlots(tokens, slots)
        ensures slots == Needed(tokens)
      {
        SameAscending(slots, Needed(tokens));
      }
      if Needed(tokens) == [] {
        forall n | 0 <= n < |tokens|
          ensures tokens[n].privatekey != ""
        {
          assert n !in Needed(tokens);
        }
      }
    }
  }

  // ---------------------------------------------------------------- who holds which key

  function PoolLines(d: Disk): seq<string> {
    if d.pool.Some? then ReadLines(d.pool.value) else []
  }

  /** Whether a slot carries this key; an empty slot carries none. */
  function SlotCount(t: TokenSpec, key: string): nat {
    if key != "" && t.privatekey == key then 1 else 0
  }

  /** How many roster slots carry this key. */
  function RosterCount(tokens: Tokens, key: string): nat {
    if tokens == [] then 0
    else RosterCount(tokens[..|tokens| - 1], key) + SlotCount(tokens[|tokens| - 1], key)
  }

  /** How many pool lines are this key. */
  function PoolCount(lines: seq<string>, key: string): nat {
    if lines == [] then 0
    else PoolCount(lines[..|lines| - 1], key) + if lines[|lines| - 1] == key then 1 else 0
  }

  /** How many times the disk holds this key, in slots and pool lines together. */
  function Held(d: Disk, key: string): nat {
    (if d.cache.Some? then RosterCount(d.cache.value, key) else 0) + PoolCount(PoolLines(d), key)
  }

  /** No key is held twice, by two slots, two lines, or a slot and a line; and the
      pool's lines survive a rewrite. */
  ghost predicate Sound(d: Disk) {
    && (forall key :: Held(d, key) <= 1)
    && (forall i :: 0 <= i < |PoolLines(d)| ==> !EndsWithCr(PoolLines(d)[i]))
  }

  lemma {:induction false} RosterCountSnoc(tokens: Tokens, t: TokenSpec, key: string)
    ensures RosterCount(tokens + [t], key) == RosterCount(tokens, key) + SlotCount(t, key)
  {
    assert (tokens + [t])[..|tokens|] == tokens;
  }

  lemma {:induction false} PoolCountSplit(lines: seq<string>, n: nat, key: string)
    requires n <= |lines|
    ensures PoolCount(lines, key) == PoolCount(lines[..n], key) + PoolCount(lines[n..], key)
    decreases |lines|
  {
    if n == |lines| {
      assert lines[..n] == lines;
    } else {
      var m := |lines| - 1;
      PoolCountSplit(lines[..m], n, key);
      assert lines[..m][..n] == lines[..n] && lines[n..][..m - n] == lines[..m][n..];
    }
  }

  /** Filling the empty slots adds exactly the lines that were handed out. */
  lemma {:induction false} AssignCount(tokens: Tokens, lines: seq<string>, key: string)
    requires |lines| == |Needed(tokens)| && key != ""
    ensures RosterCount(Assign(tokens, lines), key) == RosterCount(tokens, key) + PoolCount(lines, key)
    decreases tokens
  {
    if tokens == [] {
      assert lines == [];
    } else {
      var n := |tokens| - 1;
      if tokens[n].privatekey == "" {
        var m := |lines| - 1;
        AssignCount(tokens[..n], lines[..m], key);
        RosterCountSnoc(Assign(tokens[..n], lines[..m]), tokens[n].(privatekey := lines[m]), key);
      } else {
        AssignCount(tokens[..n], lines, key);
        RosterCountSnoc(Assign(tokens[..n], lines), tokens[n], key);
      }
    }
  }

  lemma {:induction false} MarkKeepsCount(tokens: Tokens, idx: nat, key: string)
    requires idx < |tokens|
    ensures RosterCount(MarkUsed(tokens, idx), key) == RosterCount(tokens, key)
    decreases tokens
  {
    var n := |tokens| - 1;
    if idx < n {
      assert MarkUsed(tokens, idx)[..n] == MarkUsed(tokens[..n], idx);
      MarkKeepsCount(tokens[..n], idx, key);
    } else {
      assert MarkUsed(tokens, idx)[..n] == tokens[..n];
    }
  }

  lemma {:induction false} NoEmptyLine(text: string)
    ensures PoolCount(ReadLines(text), "") == 0
  {
    ReadLinesShape(text);
    NoCount(ReadLines(text), "");
  }

  lemma {:induction false} NoCount(lines: seq<string>, key: string)
    requires key !in lines
    ensures PoolCount(lines, key) == 0
    decreases |lines|
  {
    if lines != [] {
      NoCount(lines[..|lines| - 1], key);
    }
  }

  function ChopAll(lines: seq<string>): (r: seq<string>)
    ensures |r| == |lines| && forall i :: 0 <= i < |lines| ==> r[i] == ChopCr(lines[i])
  {
    if lines == [] then [] else ChopAll(lines[..|lines| - 1]) + [ChopCr(lines[|lines| - 1])]
  }

  /** What the two writes of a hydration do to the pool and the roster: the lines left
      over are read back without one trailing carriage return each. */
  lemma {:induction false} HydrateShape(d: Disk)
    requires Hydrate(d).1 != []
    ensures d.cache.Some? && d.pool.Some? && PoolLines(d) == ReadLines(d.pool.value)
    ensures |Needed(d.cache.value)| <= |PoolLines(d)|
    ensures
      var n := |Needed(d.cache.value)|;
      var filled := Assign(d.cache.value, PoolLines(d)[..n]);
      && Hydrate(d).0 == Ok(Some(filled))
      && |Hydrate(d).1| == 2
      && Hydrate(d).1[0].cache == d.cache && Hydrate(d).1[1].cache == Some(filled)
      && PoolLines(Hydrate(d).1[0]) == PoolLines(Hydrate(d).1[1]) == ChopAll(PoolLines(d)[n..])
  {
    var rest := PoolLines(d)[|Needed(d.cache.value)|..];
    ReadLinesShape(d.pool.value);
    ReadJoin(rest);
    assert ReadLines(JoinLines(rest)) == ChopAll(rest);
  }

  lemma {:induction false} HydrateWrites(d: Disk)
    requires Sound(d) && Hydrate(d).1 != []
    ensures d.cache.Some? && d.pool.Some? && PoolLines(d) == ReadLines(d.pool.value)
    ensures |Needed(d.cache.value)| <= |PoolLines(d)|
    ensures
      var n := |Needed(d.cache.value)|;
      var filled := Assign(d.cache.value, PoolLines(d)[..n]);
      && Hydrate(d).0 == Ok(Some(filled))
      && |Hydrate(d).1| == 2
      && Hydrate(d).1[0].cache == d.cache && Hydrate(d).1[1].cache == Some(filled)
      && PoolLines(Hydrate(d).1[0]) == PoolLines(Hydrate(d).1[1]) == PoolLines(d)[n..]
  {
    HydrateShape(d);
    var rest := PoolLines(d)[|Needed(d.cache.value)|..];
    assert ChopAll(rest) == rest;
  }

  /** Hydration: after the first write exactly the consumed lines are gone from the
      disk; after the second they are back, in the roster, so no key was lost. */
  lemma {:induction false} HydrateConserves(d: Disk, key: string)
    requires Sound(d) && Hydrate(d).1 != []
    ensures d.cache.Some? && |Needed(d.cache.value)| <= |PoolLines(d)| && |Hydrate(d).1| == 2
    ensures Held(Hydrate(d).1[0], key) + PoolCount(PoolLines(d)[..|Needed(d.cache.value)|], key) == Held(d, key)
    ensures Held(Hydrate(d).1[1], key) == Held(d, key)
  {
    HydrateWrites(d);
    var n := |Needed(d.cache.value)|;
    PoolCountSplit(PoolLines(d), n, key);
    if key == "" {
      NoEmptyLine(d.pool.value);
      NoKeyCount(d.cache.value);
      NoKeyCount(Assign(d.cache.value, PoolLines(d)[..n]));
    } else {
      AssignCount(d.cache.value, PoolLines(d)[..n], key);
    }
  }

  lemma {:induction false} NoKeyCount(tokens: Tokens)
    ensures RosterCount(tokens, "") == 0
    decreases |tokens|
  {
    if tokens != [] {
      NoKeyCount(tokens[..|tokens| - 1]);
    }
  }

  lemma {:induction false} HydrateKeepsSound(d: Disk, i: nat)
    requires Sound(d) && i < |Hydrate(d).1|
    ensures Sound(Hydrate(d).1[i])
  {
    HydrateWrites(d);
    var n, d' := |Needed(d.cache.value)|, Hydrate(d).1[i];
    forall key ensures Held(d', key) <= 1 {
      HydrateConserves(d, key);
      assert Held(d, key) <= 1;
    }
    forall j | 0 <= j < |PoolLines(d')| ensures !EndsWithCr(PoolLines(d')[j]) {
      assert PoolLines(d')[j] == PoolLines(d)[n + j];
    }
  }

  lemma {:induction false} ClaimKeepsSound(d: Disk, tokens: Tokens, idx: nat)
    requires Sound(d) && d.cache == Some(tokens) && idx < |tokens|
    ensures Sound(d.(cache := Some(MarkUsed(tokens, idx))))
  {
    var d' := d.(cache := Some(MarkUsed(tokens, idx)));
    assert PoolLines(d') == PoolLines(d);
    forall key ensures Held(d', key) <= 1 {
      MarkKeepsCount(tokens, idx, key);
      assert Held(d, key) <= 1;
    }
  }

  lemma {:induction false} LastCache(d: Disk)
    requires Hydrate(d).0.Ok? && Hydrate(d).0.value.Some?
    ensures Last(d, Hydrate(d).1).cache == Hydrate(d).0.value
  {
  }

  /** The invariant survives every run, whichever atomic write it crashes after. */
  lemma {:induction false} RunKeepsSound(d: Disk, inp: RunInput, d': Disk)
    requires Sound(d) && RunsTo(d, inp, d')
    ensures Sound(d')
  {
    var writes := Hydrate(d).1;
    if i :| 0 <= i < |writes| && writes[i] == d' {
      HydrateKeepsSound(d, i);
    } else if d' != d {
      var idx := Claimed(d, inp).value;
      ClaimInRange(d, inp);
      LastCache(d);
      if writes != [] {
        HydrateKeepsSound(d, |writes| - 1);
      }
      ClaimKeepsSound(Last(d, writes), Hydrate(d).0.value.value, idx);
    }
  }

  // ---------------------------------------------------------------- when a carriage return duplicates a key

  /** Chopping turns `key` with a carriage return into `key`, and a `key` that itself
      ends in one into something else. */
  lemma {:induction false} ChopCount(lines: seq<string>, key: string)
    ensures PoolCount(ChopAll(lines), key)
         == PoolCount(lines, key + "\r") + if EndsWithCr(key) then 0 else PoolCount(lines, key)
    decreases |lines|
  {
    if lines != [] {
      var init, last := lines[..|lines| - 1], lines[|lines| - 1];
      ChopCount(init, key);
      assert ChopAll(lines)[..|init|] == ChopAll(init);
      if ChopCr(last) == key && EndsWithCr(last) {
        assert last == key + "\r";
      }
    }
  }

  /** The lines a hydration leaves in the pool. */
  function LeftOver(d: Disk): seq<string>
    requires d.cache.Some? && |Needed(d.cache.value)| <= |PoolLines(d)|
  {
    PoolLines(d)[|Needed(d.cache.value)|..]
  }

  /** A hydration's effect on every key, exactly: a line left over as `key` with a
      carriage return becomes one more copy of `key`; a line left over as `key` is one
      copy less if it ends in a carriage return itself; nothing else changes. */
  lemma {:induction false} HydrateAccounts(d: Disk, key: string)
    requires Hydrate(d).1 != []
    ensures d.cache.Some? && |Needed(d.cache.value)| <= |PoolLines(d)| && |Hydrate(d).1| == 2
    ensures Held(Hydrate(d).1[1], key) + (if EndsWithCr(key) then PoolCount(LeftOver(d), key) else 0)
         == Held(d, key) + PoolCount(LeftOver(d), key + "\r")
  {
    HydrateShape(d);
    var n := |Needed(d.cache.value)|;
    PoolCountSplit(PoolLines(d), n, key);
    ChopCount(LeftOver(d), key);
    if key == "" {
      NoEmptyLine(d.pool.value);
      NoKeyCount(d.cache.value);
      NoKeyCount(Assign(d.cache.value, PoolLines(d)[..n]));
    } else {
      AssignCount(d.cache.value, PoolLines(d)[..n], key);
    }
  }

  /** A left-over line that will turn into a second copy: it ends in a carriage return,
      the disk holds it without one, and that copy does not change in turn. */
  predicate Duplicates(d: Disk, l: string)
    requires d.cache.Some? && |Needed(d.cache.value)| <= |PoolLines(d)|
  {
    && l in LeftOver(d) && EndsWithCr(l) && Held(d, ChopCr(l)) >= 1
    && !(EndsWithCr(ChopCr(l)) && ChopCr(l) in LeftOver(d))
  }

  lemma {:induction false} CountIsMembership(lines: seq<string>, key: string)
    ensures key in lines <==> PoolCount(lines, key) >= 1
    decreases |lines|
  {
    if lines != [] {
      CountIsMembership(lines[..|lines| - 1], key);
    }
  }

  lemma {:induction false} ChopUndone(key: string)
    ensures EndsWithCr(key + "\r") && ChopCr(key + "\r") == key
  {
  }

  /** The accounting of one key, when nothing is held twice to begin with. */
  lemma {:induction false} DoubledWhen(after: nat, before: nat, lines: seq<string>, key: string)
    requires before <= 1 && PoolCount(lines, key) <= 1 && PoolCount(lines, key + "\r") <= 1
    requires after + (if EndsWithCr(key) then PoolCount(lines, key) else 0) == before + PoolCount(lines, key + "\r")
    ensures after >= 2 <==> key + "\r" in lines && before >= 1 && !(EndsWithCr(key) && key in lines)
  {
    CountIsMembership(lines, key);
    CountIsMembership(lines, key + "\r");
  }

  /** No key is held twice. */
  ghost predicate NoDoubles(d: Disk) {
    forall key :: Held(d, key) <= 1
  }

  lemma {:induction false} DoubledIff(d: Disk, key: string)
    requires Hydrate(d).1 != [] && Held(d, key) <= 1 && Held(d, key + "\r") <= 1
    ensures d.cache.Some? && |Needed(d.cache.value)| <= |PoolLines(d)| && |Hydrate(d).1| == 2
    ensures Held(Hydrate(d).1[1], key) >= 2 <==> Duplicates(d, key + "\r")
  {
    HydrateAccounts(d, key);
    LeftOverBelowHeld(d, key);
    LeftOverBelowHeld(d, key + "\r");
    ChopUndone(key);
    DoubledWhen(Held(Hydrate(d).1[1], key), Held(d, key), LeftOver(d), key);
  }

  lemma {:induction false} LeftOverBelowHeld(d: Disk, key: string)
    requires d.cache.Some? && |Needed(d.cache.value)| <= |PoolLines(d)|
    ensures PoolCount(LeftOver(d), key) <= Held(d, key)
  {
    PoolCountSplit(PoolLines(d), |Needed(d.cache.value)|, key);
  }

  lemma {:induction false} DoubleGives(d: Disk, d2: Disk, key: string)
    requires Hydrate(d).1 != [] && NoDoubles(d) && |Hydrate(d).1| == 2 && d2 == Hydrate(d).1[1]
    requires Held(d2, key) > 1
    ensures d.cache.Some? && |Needed(d.cache.value)| <= |PoolLines(d)| && Duplicates(d, key + "\r")
  {
    DoubledIff(d, key);
  }

  lemma {:induction false} DuplicateGives(d: Disk, d2: Disk, l: string)
    requires Hydrate(d).1 != [] && NoDoubles(d) && |Hydrate(d).1| == 2 && d2 == Hydrate(d).1[1]
    requires d.cache.Some? && |Needed(d.cache.value)| <= |PoolLines(d)| && Duplicates(d, l)
    ensures !NoDoubles(d2)
  {
    assert l == ChopCr(l) + "\r";
    DoubledIff(d, ChopCr(l));
    assert Held(d2, ChopCr(l)) > 1;
  }

  /** A disk that holds no key twice holds one twice after a hydration exactly when
      some left-over line duplicates. */
  lemma {:induction false} HydrateDuplicatesIff(d: Disk, d2: Disk)
    requires NoDoubles(d) && |Hydrate(d).1| == 2 && d2 == Hydrate(d).1[1]
    ensures d.cache.Some? && |Needed(d.cache.value)| <= |PoolLines(d)|
    ensures !NoDoubles(d2) <==> exists l :: Duplicates(d, l)
  {
    HydrateShape(d);
    if key :| Held(d2, key) > 1 {
      DoubleGives(d, d2, key);
    }
    if l :| Duplicates(d, l) {
      DuplicateGives(d, d2, l);
    }
  }

  lemma {:induction false} TwoLines(a: string, b: string)
    requires '\n' !in a && '\n' !in b && !IsBlank(a) && !IsBlank(b)
    requires !EndsWithCr(a)
    ensures ReadLines(a + "\n" + (b + "\n" + "")) == [a, ChopCr(b)]
  {
    LinesOfJoin(b, "");
    LinesOfJoin(a, b + "\n" + "");
    ChopKeepsInk(b);
    var second := Lines(b + "\n" + "");
    assert Lines("") == [] && second == [ChopCr(b)] && second[1..] == [];
    var both := Lines(a + "\n" + (b + "\n" + ""));
    assert both == [a] + second && both[1..] == second;
    assert DropBlank(second) == second;
  }

  lemma {:induction false} OneLine(a: string)
    requires '\n' !in a && !IsBlank(a)
    ensures ReadLines(JoinLines([a])) == [ChopCr(a)]
  {
    ReadJoin([a]);
  }

  /** A roster with one empty slot. */
  function OneSlot(key: string): Tokens {
    [TokenSpec("", false, key)]
  }

  lemma {:induction false} OneSlotFilled(key: string)
    ensures |Needed(OneSlot(""))| == 1 && Assign(OneSlot(""), [key]) == OneSlot(key)
    ensures forall k :: RosterCount(OneSlot(key), k) == if k != "" && k == key then 1 else 0
  {
  }

  lemma {:induction false} CountOne(a: string, key: string)
    ensures PoolCount([a], key) == if a == key then 1 else 0
  {
    assert PoolCount([a][..0], key) == 0;
  }

  lemma {:induction false} CountTwo(a: string, b: string, key: string)
    ensures PoolCount([a, b], key) == (if a == key then 1 else 0) + (if b == key then 1 else 0)
  {
    assert [a, b][..1] == [a];
    CountOne(a, key);
  }

  /** The carriage-return clause of `Sound` is needed: of the pool lines `k` and `k`
      with a carriage return left on, the second loses it in the rewrite and becomes
      the key just handed out. */
  lemma {:induction false} CarriageReturnDuplicates(k: string, d: Disk)
    requires '\n' !in k && !IsBlank(k) && !EndsWithCr(k)
    requires d == Disk(Some(OneSlot("")), Some(k + "\n" + (k + "\r\r" + "\n" + "")))
    ensures forall key :: Held(d, key) <= 1
    ensures |Hydrate(d).1| == 2 && Held(Hydrate(d).1[1], k) == 2
  {
    var i :| 0 <= i < |k| && !IsWhite(k[i]);
    assert (k + "\r\r")[i] == k[i] && (k + "\r")[i] == k[i];
    TwoLines(k, k + "\r\r");
    assert PoolLines(d) == [k, k + "\r"] by { assert ChopCr(k + "\r\r") == k + "\r"; }
    OneSlotFilled("");
    OneSlotFilled(k);
    forall key ensures Held(d, key) <= 1 {
      CountTwo(k, k + "\r", key);
    }
    assert [k, k + "\r"][..1] == [k] && [k, k + "\r"][1..] == [k + "\r"];
    OneLine(k + "\r");
    assert ChopCr(k + "\r") == k;
    CountOne(k, k);
  }

  /** Any number of runs, each with its own circumstances and crash point. */
  ghost predicate History(ds: seq<Disk>, inputs: seq<RunInput>) {
    |ds| == |inputs| + 1 && forall i :: 0 <= i < |inputs| ==> RunsTo(ds[i], inputs[i], ds[i + 1])
  }

  /** Over any history from a sound start, no key is ever held twice. */
  lemma {:induction false} NoKeyTwice(ds: seq<Disk>, inputs: seq<RunInput>, n: nat)
    requires History(ds, inputs) && Sound(ds[0]) && n < |ds|
    ensures Sound(ds[n])
  {
    if n > 0 {
      NoKeyTwice(ds, inputs, n - 1);
      RunKeepsSound(ds[n - 1], inputs[n - 1], ds[n]);
    }
  }

  /** What the invariant means for slots: two slots never carry the same key, and no
      slot carries a key still in the pool. */
  lemma {:induction false} SoundMeansDistinct(d: Disk, tokens: Tokens, i: nat, j: nat)
    requires Sound(d) && d.cache == Some(tokens) && i < j < |tokens|
    requires tokens[i].privatekey != ""
    ensures tokens[i].privatekey != tokens[j].privatekey
    ensures tokens[i].privatekey !in PoolLines(d)
  {
    CountInRoster(tokens, i, j);
    assert Held(d, tokens[i].privatekey) <= 1;
    SlotNotInPool(d, tokens, i);
  }

  /** And for every slot, the last one included: its key is not in the pool. */
  lemma {:induction false} SlotNotInPool(d: Disk, tokens: Tokens, i: nat)
    requires Sound(d) && d.cache == Some(tokens) && i < |tokens| && tokens[i].privatekey != ""
    ensures tokens[i].privatekey !in PoolLines(d)
  {
    KeyCounted(tokens, i);
    CountIsMembership(PoolLines(d), tokens[i].privatekey);
    assert Held(d, tokens[i].privatekey) <= 1;
  }

  lemma {:induction false} CountInRoster(tokens: Tokens, i: nat, j: nat)
    requires i < j < |tokens| && tokens[i].privatekey != ""
    ensures RosterCount(tokens, tokens[i].privatekey) >= 1
    ensures tokens[i].privatekey == tokens[j].privatekey ==> RosterCount(tokens, tokens[i].privatekey) >= 2
    decreases tokens
  {
    var n := |tokens| - 1;
    KeyCounted(tokens, i);
    if j < n {
      CountInRoster(tokens[..n], i, j);
    } else {
      KeyCounted(tokens[..n], i);
    }
  }

  lemma {:induction false} KeyCounted(tokens: Tokens, i: nat)
    requires i < |tokens| && tokens[i].privatekey != ""
    ensures RosterCount(tokens, tokens[i].privatekey) >= 1
    decreases tokens
  {
    var n := |tokens| - 1;
    if i < n {
      KeyCounted(tokens[..n], i);
    }
  }

  // ---------------------------------------------------------------- picks only go up

  /** Slots up to and including idx are used. */
  predicate UsedThrough(d: Disk, idx: nat) {
    d.cache.Some? && idx < |d.cache.value| && forall j :: 0 <= j <= idx ==> d.cache.value[j].isUsed
  }

  lemma {:induction false} AssignKeepsFlags(tokens: Tokens, lines: seq<string>, j: nat)
    requires |lines| == |Needed(tokens)| && j < |tokens|
    ensures Assign(tokens, lines)[j].isUsed == tokens[j].isUsed
    decreases tokens
  {
    var n := |tokens| - 1;
    if j < n {
      AssignKeepsFlags(tokens[..n], if tokens[n].privatekey == "" then lines[..|lines| - 1] else lines, j);
    }
  }

  lemma {:induction false} HydrateKeepsFlags(d: Disk)
    requires d.cache.Some? && Hydrate(d).0.Ok?
    ensures Hydrate(d).0.value.Some? && |Hydrate(d).0.value.value| == |d.cache.value|
    ensures forall j :: 0 <= j < |d.cache.value| ==> Hydrate(d).0.value.value[j].isUsed == d.cache.value[j].isUsed
    ensures forall w :: w in Hydrate(d).1 ==> w.cache == d.cache || w.cache == Hydrate(d).0.value
  {
    if Hydrate(d).1 != [] {
      var lines := ReadLines(d.pool.value)[..|Needed(d.cache.value)|];
      forall j | 0 <= j < |d.cache.value|
        ensures Assign(d.cache.value, lines)[j].isUsed == d.cache.value[j].isUsed
      {
        AssignKeepsFlags(d.cache.value, lines, j);
      }
    }
  }

  lemma {:induction false} RunKeepsUsed(d: Disk, inp: RunInput, d': Disk, idx: nat)
    requires UsedThrough(d, idx) && RunsTo(d, inp, d')
    ensures UsedThrough(d', idx)
  {
    if Hydrate(d).0.Ok? {
      HydrateKeepsFlags(d);
    }
    if Claimed(d, inp).Some? {
      ClaimInRange(d, inp);
    }
  }

  lemma {:induction false} ClaimUses(d: Disk, inp: RunInput)
    requires Claimed(d, inp).Some?
    ensures UsedThrough(Last(d, Writes(d, inp)), Claimed(d, inp).value)
    ensures Claimed(d, inp).value < |Last(d, Writes(d, inp)).cache.value| - 1
  {
    ClaimInRange(d, inp);
  }

  /** A claim marks one slot used and leaves everything else of the hydrated roster, and
      the pool, as they are. */
  lemma {:induction false} ClaimMarksOne(d: Disk, inp: RunInput, idx: nat)
    requires Claimed(d, inp) == Some(idx)
    ensures CanHydrate(d) && |Writes(d, inp)| == |Hydrate(d).1| + 1
    ensures
      var tokens, before, after := Hydrate(d).0.value.value, Last(d, Hydrate(d).1), Last(d, Writes(d, inp));
      && after.pool == before.pool && after.cache.Some? && |after.cache.value| == |tokens|
      && idx < |tokens| && after.cache.value[idx] == TokenSpec(tokens[idx].description, true, tokens[idx].privatekey)
      && forall j :: 0 <= j < |tokens| && j != idx ==> after.cache.value[j] == tokens[j]
  {
    CanHydrateIff(d);
    ClaimInRange(d, inp);
  }

  lemma {:induction false} ClaimPastUsed(d: Disk, inp: RunInput, idx: nat)
    requires UsedThrough(d, idx) && Claimed(d, inp).Some?
    ensures Claimed(d, inp).value > idx
  {
    ClaimInRange(d, inp);
    HydrateKeepsFlags(d);
  }

  /** Which run claims which slot: a run that is not a debug run, whose upload succeeds
      and whose roster can be hydrated claims the first slot not yet used, short of the
      last; any other claims none. */
  lemma {:induction false} ClaimedIff(d: Disk, inp: RunInput, idx: nat)
    ensures Claimed(d, inp) == Some(idx) <==>
      && !inp.debug && inp.uploadOk && CanHydrate(d)
      && idx + 1 < |d.cache.value| && !d.cache.value[idx].isUsed
      && forall j :: 0 <= j < idx ==> d.cache.value[j].isUsed
  {
    CanHydrateIff(d);
    if CanHydrate(d) {
      HydrateKeepsFlags(d);
      PickIff(Hydrate(d).0.value.value, d.cache.value, idx);
    }
  }

  /** The pick reads the flags only. */
  lemma {:induction false} PickIff(tokens: Tokens, before: Tokens, idx: nat)
    requires |before| == |tokens| && forall j :: 0 <= j < |tokens| ==> tokens[j].isUsed == before[j].isUsed
    ensures Pick(tokens, false) == Some(idx) <==>
      idx + 1 < |before| && !before[idx].isUsed && forall j :: 0 <= j < idx ==> before[j].isUsed
  {
  }

  lemma {:induction false} RunKeepsLength(d: Disk, inp: RunInput, d': Disk)
    requires d.cache.Some? && RunsTo(d, inp, d')
    ensures d'.cache.Some? && |d'.cache.value| == |d.cache.value|
  {
    if Hydrate(d).0.Ok? {
      HydrateKeepsFlags(d);
    }
    if Claimed(d, inp).Some? {
      ClaimInRange(d, inp);
    }
  }

  lemma {:induction false} LengthKept(ds: seq<Disk>, inputs: seq<RunInput>, a: nat, b: nat)
    requires History(ds, inputs) && a <= b < |ds| && ds[a].cache.Some?
    ensures ds[b].cache.Some? && |ds[b].cache.value| == |ds[a].cache.value|
    decreases b
  {
    if a < b {
      LengthKept(ds, inputs, a, b - 1);
      RunKeepsLength(ds[b - 1], inputs[b - 1], ds[b]);
    }
  }

  /** The debug slot is reserved: over any history, what a debug run picks is the last
      slot, and no run before or after it claims that one. */
  lemma {:induction false} DebugSlotReserved(ds: seq<Disk>, inputs: seq<RunInput>, a: nat, b: nat)
    requires History(ds, inputs) && a < |inputs| && b < |inputs| && ds[0].cache.Some?
    requires inputs[b].debug && CanHydrate(ds[b]) && ds[b].cache.value != []
    ensures Picked(ds[b], inputs[b].debug) == Some(|ds[0].cache.value| - 1)
    ensures Claimed(ds[b], inputs[b]).None?
    ensures Claimed(ds[a], inputs[a]) != Picked(ds[b], inputs[b].debug)
  {
    LengthKept(ds, inputs, 0, a);
    LengthKept(ds, inputs, 0, b);
    CanHydrateIff(ds[b]);
    HydrateKeepsFlags(ds[b]);
    if Claimed(ds[a], inputs[a]).Some? {
      ClaimedIff(ds[a], inputs[a], Claimed(ds[a], inputs[a]).value);
    }
  }

  /** A run that finished: its last write reached the disk. */
  predicate Finished(ds: seq<Disk>, inputs: seq<RunInput>, i: nat)
    requires i < |inputs| && |ds| == |inputs| + 1
  {
    Claimed(ds[i], inputs[i]).Some? && ds[i + 1] == Last(ds[i], Writes(ds[i], inputs[i]))
  }

  lemma {:induction false} UsedFrom(ds: seq<Disk>, inputs: seq<RunInput>, a: nat, b: nat)
    requires History(ds, inputs) && a < b <= |inputs| && Finished(ds, inputs, a)
    ensures UsedThrough(ds[b], Claimed(ds[a], inputs[a]).value)
    decreases b
  {
    var idx := Claimed(ds[a], inputs[a]).value;
    if b == a + 1 {
      ClaimUses(ds[a], inputs[a]);
    } else {
      var prev, inp, next := ds[b - 1], inputs[b - 1], ds[b];
      UsedFrom(ds, inputs, a, b - 1);
      assert UsedThrough(prev, idx) && RunsTo(prev, inp, next);
      RunKeepsUsed(prev, inp, next, idx);
    }
  }

  /** Over any history, whatever crashes and debug runs happen in between, finished
      non-debug runs claim strictly increasing slots, and never the last one. */
  lemma {:induction false} ClaimsIncrease(ds: seq<Disk>, inputs: seq<RunInput>, a: nat, b: nat)
    requires History(ds, inputs) && a < b < |inputs|
    requires Finished(ds, inputs, a) && Claimed(ds[b], inputs[b]).Some?
    ensures Claimed(ds[a], inputs[a]).value < Claimed(ds[b], inputs[b]).value
    ensures Claimed(ds[b], inputs[b]).value < |Hydrate(ds[b]).0.value.value| - 1
  {
    UsedFrom(ds, inputs, a, b);
    ClaimPastUsed(ds[b], inputs[b], Claimed(ds[a], inputs[a]).value);
    ClaimInRange(ds[b], inputs[b]);
  }
}
