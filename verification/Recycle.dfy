/** Key files and their rotation (src/keys/wallets.rs, src/keys/batch.rs,
    src/keys/singleton.rs): which keys a run may destroy, and what it must have
    read from the chain first. */
module Recycle {
  import opened Common

  /** Identity of a key pair; its file and its on-chain wallet share it. */
  type Wallet = nat

  /** A directory entry: `i.json`, some other json file, or anything else. */
  datatype FileName = Numbered(i: nat) | OtherJson(name: string) | NotJson(name: string)

  type Dir = map<FileName, Wallet>

  /** The key files: the singletons, the batch directory of the day the run starts on,
      and the one of the day after. `minted` counts key pairs generated so far. */
  datatype Files = Files(eater: Option<Wallet>, funder: Option<Wallet>, dev: Option<Wallet>,
                         batch: Option<Dir>, next: Option<Dir>, minted: nat)

  datatype Origin = Loaded | Created

  /** The n-th generated key pair. */
  type Generator = nat -> Wallet

  // ---------------------------------------------------------------- single-key files

  /** `singleton::ensure`. */
  function Ensure(file: Option<Wallet>, gen: Generator, minted: nat): (Wallet, Origin, nat) {
    match file
    case Some(k) => (k, Loaded, minted)
    case None => (gen(minted), Created, minted + 1)
  }

  // ---------------------------------------------------------------- the batch directory

  predicate IsComplete(batch: Option<Dir>, count: nat) {
    batch.Some? && forall i :: 1 <= i <= count ==> Numbered(i) in batch.value
  }

  function LoadBatch(dir: Dir, count: nat): (ks: seq<Wallet>)
    requires forall i :: 1 <= i <= count ==> Numbered(i) in dir
    ensures |ks| == count && forall i :: 0 <= i < count ==> ks[i] == dir[Numbered(i + 1)]
  {
    if count == 0 then [] else LoadBatch(dir, count - 1) + [dir[Numbered(count)]]
  }

  /** `clear_jsons`: every json file goes, numbered or not. */
  function ClearJsons(dir: Dir): Dir {
    map f | f in dir && f.NotJson? :: dir[f]
  }

  function FreshBatch(count: nat, gen: Generator, minted: nat): (ks: seq<Wallet>)
    ensures |ks| == count && forall i :: 0 <= i < count ==> ks[i] == gen(minted + i)
  {
    if count == 0 then [] else FreshBatch(count - 1, gen, minted) + [gen(minted + (count - 1))]
  }

  function WriteBatch(dir: Dir, ks: seq<Wallet>): Dir {
    if ks == [] then dir
    else WriteBatch(dir, ks[..|ks| - 1])[Numbered(|ks|) := ks[|ks| - 1]]
  }

  lemma {:induction false} WriteBatchSnoc(dir: Dir, ks: seq<Wallet>, k: Wallet)
    ensures WriteBatch(dir, ks + [k]) == WriteBatch(dir, ks)[Numbered(|ks| + 1) := k]
  {
    assert (ks + [k])[..|ks|] == ks;
  }

  predicate Rewritten(f: FileName, count: nat) {
    f.Numbered? && 1 <= f.i <= count
  }

  lemma {:induction false} WriteBatchFiles(dir: Dir, ks: seq<Wallet>, f: FileName)
    ensures f in WriteBatch(dir, ks) <==> f in dir || Rewritten(f, |ks|)
    ensures Rewritten(f, |ks|) ==> WriteBatch(dir, ks)[f] == ks[f.i - 1]
    ensures f in dir && !Rewritten(f, |ks|) ==> WriteBatch(dir, ks)[f] == dir[f]
  {
    if ks != [] {
      WriteBatchFiles(dir, ks[..|ks| - 1], f);
    }
  }

  /** `create_fresh`. */
  function CreateFresh(batch: Option<Dir>, count: nat, gen: Generator, minted: nat): Dir {
    WriteBatch(ClearJsons(if batch.Some? then batch.value else map[]), FreshBatch(count, gen, minted))
  }

  // ---------------------------------------------------------------- the run

  datatype Config = Config(batchSize: nat, debug: bool)

  type Balances = seq<Option<nat>>

  /** Everything the outside world answers in one run. None: the call failed.
      `midnight`: the date changes between opening the batch and rotating it. */
  datatype Replies = Replies(
    assignerOk: bool, initial: Option<Balances>, sweepOk: bool, settleOk: bool,
    gate: Option<Balances>, midnight: bool, refillOk: bool, distributeOk: bool)

  datatype Failure = AssignerFailed | RpcFailed | IndexPanic | Stranded(wallets: seq<(Wallet, nat)>)

  type Outcome = Result<(), Failure>

  function OrZero(b: Option<nat>): nat {
    if b.Some? then b.value else 0
  }

  /** Every position the reply covers reads empty or absent. */
  predicate AllEmpty(queried: seq<Wallet>, reply: Balances) {
    forall i :: 0 <= i < |queried| && i < |reply| ==> OrZero(reply[i]) == 0
  }

  /** Positions that read back a positive balance; `zip` stops at the shorter. */
  function StrandedIn(queried: seq<Wallet>, reply: Balances): (s: seq<(Wallet, nat)>)
  {
    if queried == [] || reply == [] then []
    else
      (if OrZero(reply[0]) > 0 then [(queried[0], reply[0].value)] else [])
      + StrandedIn(queried[1..], reply[1..])
  }

  lemma {:induction false} NoneStranded(queried: seq<Wallet>, reply: Balances)
    ensures StrandedIn(queried, reply) == [] <==> AllEmpty(queried, reply)
  {
    if queried != [] && reply != [] {
      NoneStranded(queried[1..], reply[1..]);
      assert AllEmpty(queried, reply) <==> OrZero(reply[0]) == 0 && AllEmpty(queried[1..], reply[1..]) by {
        if AllEmpty(queried[1..], reply[1..]) {
          assert forall i :: 1 <= i < |queried| && i < |reply| ==> reply[i] == reply[1..][i - 1];
        }
      }
    }
  }

  /** Who is named as stranded: exactly the queried wallets the reply covers with a
      positive balance, each with that balance; in the order they were asked about, as
      the list of a longer query begins with the list of a shorter one. */
  lemma {:induction false} StrandedIff(queried: seq<Wallet>, reply: Balances, w: Wallet, b: nat)
    ensures (w, b) in StrandedIn(queried, reply)
      <==> b > 0 && exists i :: 0 <= i < |queried| && i < |reply| && queried[i] == w && reply[i] == Some(b)
  {
    if queried != [] && reply != [] {
      StrandedIff(queried[1..], reply[1..], w, b);
      if i :| 0 <= i < |queried| && i < |reply| && queried[i] == w && reply[i] == Some(b) {
        if i > 0 {
          assert queried[1..][i - 1] == w && reply[1..][i - 1] == Some(b);
        }
      }
      if i :| 0 <= i < |queried[1..]| && i < |reply[1..]| && queried[1..][i] == w && reply[1..][i] == Some(b) {
        assert queried[i + 1] == w && reply[i + 1] == Some(b);
      }
    }
  }

  lemma {:induction false} StrandedInOrder(queried: seq<Wallet>, reply: Balances, w: Wallet, b: Option<nat>)
    requires |queried| == |reply|
    ensures StrandedIn(queried, reply) <= StrandedIn(queried + [w], reply + [b])
  {
    if queried == [] {
      assert StrandedIn(queried, reply) == [];
    } else {
      StrandedInOrder(queried[1..], reply[1..], w, b);
      assert (queried + [w])[1..] == queried[1..] + [w] && (reply + [b])[1..] == reply[1..] + [b];
    }
  }

  /** `verify_zero_before_recycle`. */
  function Verify(queried: seq<Wallet>, gate: Option<Balances>): Outcome {
    if queried == [] then Ok(())
    else match gate
      case None => Err(RpcFailed)
      case Some(reply) =>
        if StrandedIn(queried, reply) == [] then Ok(()) else Err(Stranded(StrandedIn(queried, reply)))
  }

  /** The keys of the run once every file has been loaded or created. */
  datatype Keys = Keys(eater: Wallet, dev: Wallet, funder: Wallet, funderOrigin: Origin,
                       children: seq<Wallet>, batchOrigin: Origin)

  /** What `prepare` hands to the rest of the program. */
  datatype Prepared = Prepared(eater: Wallet, funder: Wallet, dev: Wallet, children: seq<Wallet>)

  /** Opening moves: eater, funder, dev, then today's batch. */
  function ResolveFiles(f: Files, count: nat, gen: Generator): (Files, Keys) {
    var (eater, _, m0) := Ensure(f.eater, gen, f.minted);
    var (funder, funderOrigin, m1) := Ensure(f.funder, gen, m0);
    var (dev, _, m2) := Ensure(f.dev, gen, m1);
    if IsComplete(f.batch, count) then
      (Files(Some(eater), Some(funder), Some(dev), f.batch, f.next, m2),
       Keys(eater, dev, funder, funderOrigin, LoadBatch(f.batch.value, count), Loaded))
    else
      (Files(Some(eater), Some(funder), Some(dev), Some(CreateFresh(f.batch, count, gen, m2)), f.next, m2 + count),
       Keys(eater, dev, funder, funderOrigin, FreshBatch(count, gen, m2), Created))
  }

  /** The wallets about to be overwritten, in query order. */
  function ToRotate(k: Keys): seq<Wallet> {
    (if k.funderOrigin.Loaded? then [k.funder] else []) + (if k.batchOrigin.Loaded? then k.children else [])
  }

  /** The replacement step after a passed gate, with the keys the run goes on with.
      `regenerate_today` asks for the date again, and clears whichever directory that
      names. */
  function Rotate(f: Files, k: Keys, count: nat, gen: Generator, midnight: bool): (Files, Keys) {
    var f1 := if k.funderOrigin.Loaded? then f.(funder := Some(gen(f.minted)), minted := f.minted + 1) else f;
    var k1 := if k.funderOrigin.Loaded? then k.(funder := gen(f.minted)) else k;
    if k.batchOrigin.Created? then (f1, k1)
    else if midnight then
      (f1.(next := Some(CreateFresh(f1.next, count, gen, f1.minted)), minted := f1.minted + count),
       k1.(children := FreshBatch(count, gen, f1.minted)))
    else
      (f1.(batch := Some(CreateFresh(f1.batch, count, gen, f1.minted)), minted := f1.minted + count),
       k1.(children := FreshBatch(count, gen, f1.minted)))
  }

  predicate AnyPositive(bs: Balances) {
    exists b :: b in bs && OrZero(b) > 0
  }

  predicate AnyFunded(k: Keys, initial: Balances)
    requires |initial| >= 3 && (k.batchOrigin.Loaded? ==> |initial| >= 3 + |k.children|)
  {
    OrZero(initial[0]) > 0 || (k.batchOrigin.Loaded? && AnyPositive(initial[3..3 + |k.children|]))
  }

  /** Everything from the first balance read to the gate: it reads and sends, and
      touches no key file. */
  function BeforeRotation(k: Keys, cfg: Config, r: Replies): Outcome {
    if !r.assignerOk then Err(AssignerFailed)
    else match r.initial
      case None => Err(RpcFailed)
      case Some(initial) =>
        if |initial| < 3 || (k.batchOrigin.Loaded? && |initial| < 3 + |k.children|) then Err(IndexPanic)
        else if cfg.debug then Ok(())
        else if AnyFunded(k, initial) && !(r.sweepOk && r.settleOk) then Err(RpcFailed)
        else Verify(ToRotate(k), r.gate)
  }

  /** `prepare`: what it returns, and what becomes of the key files. */
  function Prepare(f: Files, cfg: Config, gen: Generator, r: Replies): (Result<Prepared, Failure>, Files) {
    var (f1, k) := ResolveFiles(f, cfg.batchSize, gen);
    var before := BeforeRotation(k, cfg, r);
    if before.Err? then (Err(before.error), f1)
    else
      var (f2, k2) := if cfg.debug then (f1, k) else Rotate(f1, k, cfg.batchSize, gen, r.midnight);
      (if cfg.debug || (r.refillOk && r.distributeOk) then Ok(Prepared(k2.eater, k2.funder, k2.dev, k2.children))
       else Err(RpcFailed), f2)
  }

  // ---------------------------------------------------------------- the object

  class KeyStore {
    var files: Files
    const gen: Generator

    constructor (files: Files, gen: Generator)
      ensures this.files == files && this.gen == gen
    {
      this.files := files;
      this.gen := gen;
    }

    method EnsureFunder() returns (k: Wallet, origin: Origin)
      modifies this
      ensures (k, origin, files.minted) == Ensure(old(files.funder), gen, old(files.minted))
      ensures files == old(files).(funder := Some(k), minted := files.minted)
    {
      match files.funder {
        case Some(k0) => return k0, Loaded;
        case None =>
          k, origin := gen(files.minted), Created;
          files := files.(funder := Some(k), minted := files.minted + 1);
      }
    }

    method EnsureEater() returns (k: Wallet)
      modifies this
      ensures (k, if old(files.eater).Some? then Loaded else Created, files.minted)
           == Ensure(old(files.eater), gen, old(files.minted))
      ensures files == old(files).(eater := Some(k), minted := files.minted)
    {
      match files.eater {
        case Some(k0) => return k0;
        case None =>
          k := gen(files.minted);
          files := files.(eater := Some(k), minted := files.minted + 1);
      }
    }

    method EnsureDev() returns (k: Wallet)
      modifies this
      ensures (k, if old(files.dev).Some? then Loaded else Created, files.minted)
           == Ensure(old(files.dev), gen, old(files.minted))
      ensures files == old(files).(dev := Some(k), minted := files.minted)
    {
      match files.dev {
        case Some(k0) => return k0;
        case None =>
          k := gen(files.minted);
          files := files.(dev := Some(k), minted := files.minted + 1);
      }
    }

    /** `create_fresh`: clear, then write one new file after another. */
    method CreateFreshBatch(count: nat) returns (ks: seq<Wallet>)
      modifies this
      ensures ks == FreshBatch(count, gen, old(files.minted))
      ensures files == old(files).(
        batch := Some(CreateFresh(old(files.batch), count, gen, old(files.minted))),
        minted := old(files.minted) + count)
    {
      var minted := files.minted;
      var dir := ClearJsons(if files.batch.Some? then files.batch.value else map[]);
      ks, dir := WriteNew(dir, count, minted);
      files := files.(batch := Some(dir), minted := minted + count);
    }

    method WriteNew(cleared: Dir, count: nat, minted: nat) returns (ks: seq<Wallet>, dir: Dir)
      ensures ks == FreshBatch(count, gen, minted) && dir == WriteBatch(cleared, ks)
    {
      ks, dir := [], cleared;
      for i := 0 to count
        invariant ks == FreshBatch(i, gen, minted) && dir == WriteBatch(cleared, ks)
      {
        var kp := gen(minted + i);
        WriteBatchSnoc(cleared, ks, kp);
        dir := dir[Numbered(i + 1) := kp];
        ks := ks + [kp];
      }
    }

    method ResolveToday(count: nat) returns (ks: seq<Wallet>, origin: Origin)
      modifies this
      ensures IsComplete(old(files.batch), count) ==>
        origin == Loaded && files == old(files) && ks == LoadBatch(old(files.batch).value, count)
      ensures !IsComplete(old(files.batch), count) ==>
        && origin == Created && ks == FreshBatch(count, gen, old(files.minted))
        && files == old(files).(
             batch := Some(CreateFresh(old(files.batch), count, gen, old(files.minted))),
             minted := old(files.minted) + count)
    {
      if IsComplete(files.batch, count) {
        return LoadBatch(files.batch.value, count), Loaded;
      }
      ks := CreateFreshBatch(count);
      origin := Created;
    }

    method RegenerateFunder() returns (k: Wallet)
      modifies this
      ensures k == gen(old(files.minted))
      ensures files == old(files).(funder := Some(k), minted := old(files.minted) + 1)
    {
      k := gen(files.minted);
      files := files.(funder := Some(k), minted := files.minted + 1);
    }

    method OpenAll(count: nat) returns (k: Keys)
      modifies this
      ensures (files, k) == ResolveFiles(old(files), count, gen)
    {
      var eater := EnsureEater();
      var funder, funderOrigin := EnsureFunder();
      var dev := EnsureDev();
      var children, batchOrigin := ResolveToday(count);
      k := Keys(eater, dev, funder, funderOrigin, children, batchOrigin);
    }

    /** `create_fresh` on the directory of the day after. */
    method CreateNextBatch(count: nat) returns (ks: seq<Wallet>)
      modifies this
      ensures ks == FreshBatch(count, gen, old(files.minted))
      ensures files == old(files).(
        next := Some(CreateFresh(old(files.next), count, gen, old(files.minted))),
        minted := old(files.minted) + count)
    {
      var minted := files.minted;
      var dir := ClearJsons(if files.next.Some? then files.next.value else map[]);
      ks, dir := WriteNew(dir, count, minted);
      files := files.(next := Some(dir), minted := minted + count);
    }

    method RotateAll(k: Keys, count: nat, midnight: bool) returns (k': Keys)
      modifies this
      ensures (files, k') == Rotate(old(files), k, count, gen, midnight)
    {
      k' := RotateFunder(k);
      if k.batchOrigin.Loaded? {
        var children := RegenerateToday(count, midnight);
        k' := k'.(children := children);
      }
    }

    method RotateFunder(k: Keys) returns (k': Keys)
      modifies this
      ensures k.funderOrigin.Created? ==> files == old(files) && k' == k
      ensures k.funderOrigin.Loaded? ==>
        && files == old(files).(funder := Some(gen(old(files.minted))), minted := old(files.minted) + 1)
        && k' == k.(funder := gen(old(files.minted)))
    {
      k' := k;
      if k.funderOrigin.Loaded? {
        var funder := RegenerateFunder();
        k' := k.(funder := funder);
      }
    }

    /** `regenerate_today`, in the directory the date names by now. */
    method RegenerateToday(count: nat, midnight: bool) returns (ks: seq<Wallet>)
      modifies this
      ensures ks == FreshBatch(count, gen, old(files.minted))
      ensures !midnight ==> files == old(files).(
        batch := Some(CreateFresh(old(files.batch), count, gen, old(files.minted))),
        minted := old(files.minted) + count)
      ensures midnight ==> files == old(files).(
        next := Some(CreateFresh(old(files.next), count, gen, old(files.minted))),
        minted := old(files.minted) + count)
    {
      if midnight {
        ks := CreateNextBatch(count);
      } else {
        ks := CreateFreshBatch(count);
      }
    }

    /** `prepare`, as its sequence of effects. */
    method PrepareRun(cfg: Config, r: Replies) returns (prepared: Result<Prepared, Failure>)
      modifies this
      ensures (prepared, files) == Prepare(old(files), cfg, gen, r)
    {
      var k := OpenAll(cfg.batchSize);
      var outcome := CheckBeforeRotation(k, cfg, r);
      if outcome.Err? {
        return Err(outcome.error);
      }
      if !cfg.debug {
        k := RotateAll(k, cfg.batchSize, r.midnight);
        if !(r.refillOk && r.distributeOk) {
          return Err(RpcFailed);
        }
      }
      return Ok(Prepared(k.eater, k.funder, k.dev, k.children));
    }
  }

  /** Balance read, sweep, settle, gate. */
  method CheckBeforeRotation(k: Keys, cfg: Config, r: Replies) returns (outcome: Outcome)
    ensures outcome == BeforeRotation(k, cfg, r)
  {
    if !r.assignerOk {
      return Err(AssignerFailed);
    }
    if r.initial.None? {
      return Err(RpcFailed);
    }
    var initial := r.initial.value;
    if |initial| < 3 || (k.batchOrigin.Loaded? && |initial| < 3 + |k.children|) {
      return Err(IndexPanic);
    }
    var anyFunded := OrZero(initial[0]) > 0;
    if k.batchOrigin.Loaded? {
      var childBalances := initial[3..3 + |k.children|];
      for i := 0 to |childBalances|
        invariant anyFunded <==> OrZero(initial[0]) > 0 || AnyPositive(childBalances[..i])
      {
        assert childBalances[..i + 1] == childBalances[..i] + [childBalances[i]];
        assert childBalances[i] in childBalances[..i + 1];
        anyFunded := anyFunded || OrZero(childBalances[i]) > 0;
      }
      assert childBalances[..|childBalances|] == childBalances;
    }
    if cfg.debug {
      return Ok(());
    }
    if anyFunded && !(r.sweepOk && r.settleOk) {
      return Err(RpcFailed);
    }
    outcome := VerifyZeroBeforeRecycle(
      if k.funderOrigin.Loaded? then Some(k.funder) else None,
      if k.batchOrigin.Loaded? then Some(k.children) else None, r.gate);
  }

  /** `verify_zero_before_recycle`: passes exactly when every position the reply
      covers reads empty or absent. */
  method VerifyZeroBeforeRecycle(funder: Option<Wallet>, children: Option<seq<Wallet>>, gate: Option<Balances>)
    returns (r: Outcome)
    ensures
      var queried := (if funder.Some? then [funder.value] else []) + (if children.Some? then children.value else []);
      && r == Verify(queried, gate)
      && (r.Ok? <==> queried == [] || (gate.Some? && AllEmpty(queried, gate.value)))
  {
    var toCheck: seq<Wallet> := [];
    if funder.Some? {
      toCheck := toCheck + [funder.value];
    }
    if children.Some? {
      for i := 0 to |children.value|
        invariant toCheck == (if funder.Some? then [funder.value] else []) + children.value[..i]
      {
        toCheck := toCheck + [children.value[i]];
      }
      assert children.value[..|children.value|] == children.value;
    }
    if toCheck == [] {
      return Ok(());
    }
    if gate.None? {
      return Err(RpcFailed);
    }
    var stranded := CollectStranded(toCheck, gate.value);
    NoneStranded(toCheck, gate.value);
    if stranded != [] {
      return Err(Stranded(stranded));
    }
    return Ok(());
  }

  lemma {:induction false} StrandedFrom(queried: seq<Wallet>, balances: Balances, i: nat)
    requires i < |queried| && i < |balances|
    ensures StrandedIn(queried[i..], balances[i..])
         == (if OrZero(balances[i]) > 0 then [(queried[i], balances[i].value)] else [])
            + StrandedIn(queried[i + 1..], balances[i + 1..])
  {
    assert queried[i..][1..] == queried[i + 1..] && balances[i..][1..] == balances[i + 1..];
  }

  method CollectStranded(queried: seq<Wallet>, balances: Balances) returns (stranded: seq<(Wallet, nat)>)
    ensures stranded == StrandedIn(queried, balances)
  {
    stranded := [];
    var i := 0;
    assert queried[0..] == queried && balances[0..] == balances;
    while i < |queried| && i < |balances|
      invariant 0 <= i <= |queried| && i <= |balances|
      invariant StrandedIn(queried, balances) == stranded + StrandedIn(queried[i..], balances[i..])
    {
      StrandedFrom(queried, balances, i);
      if OrZero(balances[i]) > 0 {
        stranded := stranded + [(queried[i], balances[i].value)];
      }
      i := i + 1;
    }
  }

  // ---------------------------------------------------------------- what a run may destroy

  function One(k: Option<Wallet>): set<Wallet> {
    if k.Some? then {k.value} else {}
  }

  function DirKeys(batch: Option<Dir>): set<Wallet> {
    if batch.Some? then set f | f in batch.value :: batch.value[f] else {}
  }

  /** Where a key can be kept. */
  datatype Place = EaterFile | FunderFile | DevFile | BatchFile(name: FileName) | NextFile(name: FileName)

  function Entry(dir: Option<Dir>, name: FileName): Option<Wallet> {
    if dir.Some? && name in dir.value then Some(dir.value[name]) else None
  }

  function At(f: Files, p: Place): Option<Wallet> {
    match p
    case EaterFile => f.eater
    case FunderFile => f.funder
    case DevFile => f.dev
    case BatchFile(name) => Entry(f.batch, name)
    case NextFile(name) => Entry(f.next, name)
  }

  /** Every wallet some key file still controls. */
  function AllKeys(f: Files): set<Wallet> {
    One(f.eater) + One(f.funder) + One(f.dev) + DirKeys(f.batch) + DirKeys(f.next)
  }

  lemma {:induction false} KeysAreAtPlaces(f: Files, w: Wallet)
    ensures w in AllKeys(f) <==> exists p :: At(f, p) == Some(w)
  {
    if w in AllKeys(f) {
      if w in DirKeys(f.batch) {
        var n :| n in f.batch.value && f.batch.value[n] == w;
        assert At(f, BatchFile(n)) == Some(w);
      } else if w in DirKeys(f.next) {
        var n :| n in f.next.value && f.next.value[n] == w;
        assert At(f, NextFile(n)) == Some(w);
      } else {
        assert At(f, EaterFile) == Some(w) || At(f, FunderFile) == Some(w) || At(f, DevFile) == Some(w);
      }
    }
  }

  /** The gate asked for this wallet and read it empty or absent. */
  predicate ReadEmpty(k: Wallet, queried: seq<Wallet>, gate: Option<Balances>) {
    gate.Some? && exists i :: 0 <= i < |queried| && i < |gate.value| && queried[i] == k && OrZero(gate.value[i]) == 0
  }

  /** No key disappears from the files without having been read empty. */
  ghost predicate SafeRun(f: Files, cfg: Config, gen: Generator, r: Replies) {
    forall k :: k in AllKeys(f) && k !in AllKeys(Prepare(f, cfg, gen, r).1) ==>
      !cfg.debug && ReadEmpty(k, ToRotate(Opened(f, cfg, gen)), r.gate)
  }

  /** The run's keys once its files are open. */
  function Opened(f: Files, cfg: Config, gen: Generator): Keys {
    ResolveFiles(f, cfg.batchSize, gen).1
  }

  predicate IsJson(f: FileName) {
    !f.NotJson?
  }

  /** The run gets past the gate and replaces keys. */
  predicate Rotates(f: Files, cfg: Config, gen: Generator, r: Replies) {
    !cfg.debug && BeforeRotation(Opened(f, cfg, gen), cfg, r).Ok?
  }

  // ---------------------------------------------------------------- which files a run clears

  /** Opening an incomplete batch clears its json files before anything is read. */
  predicate ClearedByOpening(f: Files, count: nat, p: Place) {
    p.BatchFile? && IsJson(p.name) && !IsComplete(f.batch, count)
  }

  predicate ClearedByRotation(k: Keys, midnight: bool, p: Place) {
    match p
    case FunderFile => k.funderOrigin.Loaded?
    case BatchFile(name) => k.batchOrigin.Loaded? && !midnight && IsJson(name)
    case NextFile(name) => k.batchOrigin.Loaded? && midnight && IsJson(name)
    case _ => false
  }

  predicate Cleared(f: Files, cfg: Config, gen: Generator, r: Replies, p: Place) {
    ClearedByOpening(f, cfg.batchSize, p) || (Rotates(f, cfg, gen, r) && ClearedByRotation(Opened(f, cfg, gen), r.midnight, p))
  }

  /** One of the key pairs generated between two counts. */
  ghost predicate MintedIn(o: Option<Wallet>, gen: Generator, from: nat, to: nat) {
    exists n :: from <= n < to && o == Some(gen(n))
  }

  /** A cleared or empty place afterwards: a new key where a file belongs, nothing elsewhere. */
  ghost predicate Refilled(o: Option<Wallet>, belongs: bool, gen: Generator, from: nat, to: nat) {
    if belongs then MintedIn(o, gen, from, to) else o.None?
  }

  /** The places that hold a key once the files are open. */
  predicate OpenedFile(count: nat, p: Place) {
    match p
    case BatchFile(name) => Rewritten(name, count)
    case NextFile(_) => false
    case _ => true
  }

  predicate RotatedFile(k: Keys, count: nat, midnight: bool, p: Place) {
    ClearedByRotation(k, midnight, p)
    && match p
       case BatchFile(name) => Rewritten(name, count)
       case NextFile(name) => Rewritten(name, count)
       case _ => true
  }

  lemma {:induction false} FreshEntry(batch: Option<Dir>, count: nat, gen: Generator, minted: nat, name: FileName)
    ensures
      var after := Entry(Some(CreateFresh(batch, count, gen, minted)), name);
      if IsJson(name) then Refilled(after, Rewritten(name, count), gen, minted, minted + count)
      else after == Entry(batch, name)
  {
    var ks := FreshBatch(count, gen, minted);
    WriteBatchFiles(ClearJsons(if batch.Some? then batch.value else map[]), ks, name);
    if Rewritten(name, count) {
      assert ks[name.i - 1] == gen(minted + (name.i - 1));
    }
  }

  /** Opening the files leaves every place as it was, but for the places it clears and
      the empty ones; of these, the singletons and the numbered files are filled. */
  lemma {:induction false} OpeningAt(f: Files, count: nat, gen: Generator, p: Place)
    ensures
      var f1 := ResolveFiles(f, count, gen).0;
      if At(f, p).Some? && !ClearedByOpening(f, count, p) then At(f1, p) == At(f, p)
      else Refilled(At(f1, p), OpenedFile(count, p), gen, f.minted, f1.minted)
  {
    var (_, _, m0) := Ensure(f.eater, gen, f.minted);
    var (_, _, m1) := Ensure(f.funder, gen, m0);
    var (_, _, m2) := Ensure(f.dev, gen, m1);
    if p.BatchFile? && !IsComplete(f.batch, count) {
      FreshEntry(f.batch, count, gen, m2, p.name);
    }
  }

  lemma {:induction false} RotationAt(f1: Files, k: Keys, count: nat, gen: Generator, midnight: bool, p: Place)
    ensures
      var f2 := Rotate(f1, k, count, gen, midnight).0;
      && f1.minted <= f2.minted
      && if ClearedByRotation(k, midnight, p)
         then Refilled(At(f2, p), RotatedFile(k, count, midnight, p), gen, f1.minted, f2.minted)
         else At(f2, p) == At(f1, p)
  {
    var m := if k.funderOrigin.Loaded? then f1.minted + 1 else f1.minted;
    if p.BatchFile? {
      FreshEntry(f1.batch, count, gen, m, p.name);
    } else if p.NextFile? {
      FreshEntry(f1.next, count, gen, m, p.name);
    }
  }

  /** The places that hold a key after a run, whatever was there before. */
  predicate FileAfter(f: Files, cfg: Config, gen: Generator, r: Replies, p: Place) {
    OpenedFile(cfg.batchSize, p)
    || (Rotates(f, cfg, gen, r) && RotatedFile(Opened(f, cfg, gen), cfg.batchSize, r.midnight, p))
  }

  /** What a whole run leaves in each place: what was there, unless the place was empty
      or is one it clears; then a key pair generated in this run where a file belongs,
      and nothing elsewhere. */
  lemma {:induction false} RunAt(f: Files, cfg: Config, gen: Generator, r: Replies, p: Place)
    ensures
      var after := Prepare(f, cfg, gen, r).1;
      if At(f, p).Some? && !Cleared(f, cfg, gen, r, p) then At(after, p) == At(f, p)
      else Refilled(At(after, p), FileAfter(f, cfg, gen, r, p), gen, f.minted, after.minted)
  {
    OpeningAt(f, cfg.batchSize, gen, p);
    OnlyMore(f, cfg.batchSize, gen);
    if Rotates(f, cfg, gen, r) {
      var f1 := ResolveFiles(f, cfg.batchSize, gen).0;
      var f2 := Rotate(f1, Opened(f, cfg, gen), cfg.batchSize, gen, r.midnight).0;
      RotationAt(f1, Opened(f, cfg, gen), cfg.batchSize, gen, r.midnight, p);
      RefilledLater(At(f1, p), gen, f.minted, f1.minted, f2.minted);
      RefilledSooner(At(f2, p), gen, f.minted, f1.minted, f2.minted);
      assert Prepare(f, cfg, gen, r).1 == f2;
    } else {
      assert Prepare(f, cfg, gen, r).1 == ResolveFiles(f, cfg.batchSize, gen).0;
    }
  }

  lemma {:induction false} OnlyMore(f: Files, count: nat, gen: Generator)
    ensures f.minted <= ResolveFiles(f, count, gen).0.minted
  {
  }

  lemma {:induction false} RefilledLater(o: Option<Wallet>, gen: Generator, from: nat, mid: nat, to: nat)
    requires from <= mid <= to
    ensures MintedIn(o, gen, from, mid) ==> MintedIn(o, gen, from, to)
  {
  }

  lemma {:induction false} RefilledSooner(o: Option<Wallet>, gen: Generator, from: nat, mid: nat, to: nat)
    requires from <= mid <= to
    ensures MintedIn(o, gen, mid, to) ==> MintedIn(o, gen, from, to)
  {
  }

  // ---------------------------------------------------------------- what the files hold afterwards

  /** Files 1 to the number of keys hold exactly these keys, in order. */
  ghost predicate HoldsBatch(dir: Option<Dir>, ks: seq<Wallet>) {
    dir.Some? && forall i: nat :: 1 <= i <= |ks| ==> Numbered(i) in dir.value && dir.value[Numbered(i)] == ks[i - 1]
  }

  /** No other json file is left, and every file that is not json is as it was. */
  ghost predicate Replaced(before: Option<Dir>, after: Option<Dir>, count: nat) {
    && after.Some?
    && (forall n :: n in after.value && !n.NotJson? ==> n.Numbered? && 1 <= n.i <= count)
    && (forall n: FileName :: n.NotJson? ==> Entry(before, n) == Entry(after, n))
  }

  /** These are the generator's next keys, in order. */
  ghost predicate NextKeys(ks: seq<Wallet>, gen: Generator, from: nat, to: nat) {
    to == from + |ks| && forall i :: 0 <= i < |ks| ==> ks[i] == gen(from + i)
  }

  function NewSingle(before: Option<Wallet>, k: Wallet): seq<Wallet> {
    if before.None? then [k] else []
  }

  lemma {:induction false} FreshHolds(batch: Option<Dir>, count: nat, gen: Generator, minted: nat)
    ensures
      var after := Some(CreateFresh(batch, count, gen, minted));
      && HoldsBatch(after, FreshBatch(count, gen, minted)) && Replaced(batch, after, count)
  {
    var ks := FreshBatch(count, gen, minted);
    forall n: FileName
      ensures
        var after := CreateFresh(batch, count, gen, minted);
        && (n in after && !n.NotJson? ==> Rewritten(n, count))
        && (Rewritten(n, count) ==> n in after && after[n] == ks[n.i - 1])
        && (n.NotJson? ==> Entry(batch, n) == Entry(Some(after), n))
    {
      WriteBatchFiles(ClearJsons(if batch.Some? then batch.value else map[]), ks, n);
    }
  }

  /** After opening, whatever was there before: each singleton file and each numbered
      file of the day exists and holds the key the run uses. Singletons and a complete
      batch are the ones that were on file; an incomplete directory keeps none of its
      old json files. */
  lemma {:induction false} OpenedFilesHold(f: Files, count: nat, gen: Generator)
    ensures
      var (f1, k) := ResolveFiles(f, count, gen);
      var complete := f.batch.Some? && forall i: nat :: 1 <= i <= count ==> Numbered(i) in f.batch.value;
      && f1.eater == Some(k.eater) && f1.funder == Some(k.funder) && f1.dev == Some(k.dev)
      && HoldsBatch(f1.batch, k.children) && |k.children| == count && f1.next == f.next
      && (f.eater.Some? ==> f1.eater == f.eater) && (f.dev.Some? ==> f1.dev == f.dev)
      && (f.funder.Some? ==> f1.funder == f.funder) && (k.funderOrigin == if f.funder.Some? then Loaded else Created)
      && (if complete then k.batchOrigin == Loaded && f1.batch == f.batch
          else k.batchOrigin == Created && Replaced(f.batch, f1.batch, count))
  {
    var (_, _, m0) := Ensure(f.eater, gen, f.minted);
    var (_, _, m1) := Ensure(f.funder, gen, m0);
    var (_, _, m2) := Ensure(f.dev, gen, m1);
    FreshHolds(f.batch, count, gen, m2);
    assert IsComplete(f.batch, count)
      <==> f.batch.Some? && forall i: nat :: 1 <= i <= count ==> Numbered(i) in f.batch.value;
  }

  /** Every key that was not on file is the generator's next, one key for each: eater,
      funder, dev, then the batch. */
  lemma {:induction false} OpenedKeysAreNext(f: Files, count: nat, gen: Generator)
    ensures
      var (f1, k) := ResolveFiles(f, count, gen);
      NextKeys(NewSingle(f.eater, k.eater) + NewSingle(f.funder, k.funder) + NewSingle(f.dev, k.dev)
               + (if IsComplete(f.batch, count) then [] else k.children), gen, f.minted, f1.minted)
  {
    var (eater, _, m0) := Ensure(f.eater, gen, f.minted);
    var (funder, _, m1) := Ensure(f.funder, gen, m0);
    var (dev, _, m2) := Ensure(f.dev, gen, m1);
    NextKeysJoin(NewSingle(f.eater, eater), NewSingle(f.funder, funder), gen, f.minted, m0, m1);
    var two := NewSingle(f.eater, eater) + NewSingle(f.funder, funder);
    NextKeysJoin(two, NewSingle(f.dev, dev), gen, f.minted, m1, m2);
    if !IsComplete(f.batch, count) {
      NextKeysJoin(two + NewSingle(f.dev, dev), FreshBatch(count, gen, m2), gen, f.minted, m2, m2 + count);
    }
  }

  lemma {:induction false} NextKeysJoin(a: seq<Wallet>, b: seq<Wallet>, gen: Generator, from: nat, mid: nat, to: nat)
    requires NextKeys(a, gen, from, mid) && NextKeys(b, gen, mid, to)
    ensures NextKeys(a + b, gen, from, to)
  {
  }

  /** After a rotation the files hold what the run goes on with; what was not loaded, and
      every other file, is as it was. */
  lemma {:induction false} RotatedFilesHold(f1: Files, k: Keys, count: nat, gen: Generator, midnight: bool)
    requires f1.funder == Some(k.funder) && HoldsBatch(f1.batch, k.children) && |k.children| == count
    ensures
      var (f2, k2) := Rotate(f1, k, count, gen, midnight);
      var moved := k.batchOrigin.Loaded? && midnight;
      && f2.eater == f1.eater && f2.dev == f1.dev && k2.eater == k.eater && k2.dev == k.dev
      && f2.funder == Some(k2.funder) && (k.funderOrigin.Created? ==> k2.funder == k.funder)
      && |k2.children| == count && HoldsBatch(if moved then f2.next else f2.batch, k2.children)
      && (k.batchOrigin.Created? ==> k2.children == k.children && f2.batch == f1.batch && f2.next == f1.next)
      && (k.batchOrigin.Loaded? && midnight ==> f2.batch == f1.batch && Replaced(f1.next, f2.next, count))
      && (k.batchOrigin.Loaded? && !midnight ==> f2.next == f1.next && Replaced(f1.batch, f2.batch, count))
  {
    var m := if k.funderOrigin.Loaded? then f1.minted + 1 else f1.minted;
    if k.batchOrigin.Loaded? {
      FreshHolds(if midnight then f1.next else f1.batch, count, gen, m);
    }
  }

  /** A loaded funder and a loaded batch are replaced by the generator's next keys. */
  lemma {:induction false} RotatedKeysAreNext(f1: Files, k: Keys, count: nat, gen: Generator, midnight: bool)
    ensures
      var (f2, k2) := Rotate(f1, k, count, gen, midnight);
      NextKeys((if k.funderOrigin.Loaded? then [k2.funder] else [])
               + (if k.batchOrigin.Loaded? then k2.children else []), gen, f1.minted, f2.minted)
  {
    var (f2, k2) := Rotate(f1, k, count, gen, midnight);
    RotatedCounts(f1, k, count, gen, midnight);
    FunderThenBatch(k.funderOrigin.Loaded?, k.batchOrigin.Loaded?, k2.funder, k2.children, count, gen, f1.minted, f2.minted);
  }

  lemma {:induction false} FunderThenBatch(
      one: bool, batch: bool, funder: Wallet, children: seq<Wallet>, count: nat, gen: Generator, from: nat, to: nat)
    requires
      var mid := if one then from + 1 else from;
      && to == (if batch then mid + count else mid)
      && (one ==> funder == gen(from)) && (batch ==> children == FreshBatch(count, gen, mid))
    ensures NextKeys((if one then [funder] else []) + (if batch then children else []), gen, from, to)
  {
    NextKeysJoin(if one then [funder] else [], if batch then children else [], gen, from, if one then from + 1 else from, to);
  }

  lemma {:induction false} RotatedCounts(f1: Files, k: Keys, count: nat, gen: Generator, midnight: bool)
    ensures
      var (f2, k2) := Rotate(f1, k, count, gen, midnight);
      var mid := if k.funderOrigin.Loaded? then f1.minted + 1 else f1.minted;
      && f2.minted == (if k.batchOrigin.Loaded? then mid + count else mid)
      && (k.funderOrigin.Loaded? ==> k2.funder == gen(f1.minted))
      && (k.batchOrigin.Loaded? ==> k2.children == FreshBatch(count, gen, mid))
  {
  }

  /** The key files as the next run finds them: on the same day, or on the next day if
      the batch was rotated past midnight. */
  function NextRun(after: Files, moved: bool): Files {
    if moved then after.(batch := after.next, next := None) else after
  }

  lemma {:induction false} HeldIsLoaded(f: Files, count: nat, gen: Generator, k: Keys)
    requires f.eater == Some(k.eater) && f.funder == Some(k.funder) && f.dev == Some(k.dev)
    requires HoldsBatch(f.batch, k.children) && |k.children| == count
    ensures ResolveFiles(f, count, gen) == (f, k.(funderOrigin := Loaded, batchOrigin := Loaded))
  {
    assert forall i :: 1 <= i <= count ==> Numbered(i) in f.batch.value;
    assert LoadBatch(f.batch.value, count) == k.children;
  }

  /** No key in use is only in memory: whatever the files were, and wherever the run
      ended, opening the files it left finds every key it last went on with, creates
      nothing, and changes nothing; what a finished run hands on are these keys. */
  lemma {:induction false} KeysAreOnFile(f: Files, cfg: Config, gen: Generator, r: Replies)
    ensures
      var (prepared, after) := Prepare(f, cfg, gen, r);
      var found := NextRun(after, Rotates(f, cfg, gen, r) && Opened(f, cfg, gen).batchOrigin.Loaded? && r.midnight);
      var (f', k) := ResolveFiles(found, cfg.batchSize, gen);
      && f' == found && k.funderOrigin.Loaded? && k.batchOrigin.Loaded? && |k.children| == cfg.batchSize
      && (prepared.Ok? ==> prepared.value == Prepared(k.eater, k.funder, k.dev, k.children))
  {
    OpenedFilesHold(f, cfg.batchSize, gen);
    var (f1, k1) := ResolveFiles(f, cfg.batchSize, gen);
    if Rotates(f, cfg, gen, r) {
      RotatedFilesHold(f1, k1, cfg.batchSize, gen, r.midnight);
      var (f2, k2) := Rotate(f1, k1, cfg.batchSize, gen, r.midnight);
      HeldIsLoaded(NextRun(f2, k1.batchOrigin.Loaded? && r.midnight), cfg.batchSize, gen, k2);
    } else {
      HeldIsLoaded(f1, cfg.batchSize, gen, k1);
    }
  }

  /** The wallets a run would replace: the funder's file and a complete batch. */
  ghost predicate Queries(f: Files, count: nat, queried: seq<Wallet>) {
    var first := if f.funder.Some? then 1 else 0;
    var complete := f.batch.Some? && forall i: nat :: 1 <= i <= count ==> Numbered(i) in f.batch.value;
    && |queried| == first + (if complete then count else 0)
    && (f.funder.Some? ==> queried[0] == f.funder.value)
    && (complete ==> forall i: nat :: 1 <= i <= count ==> queried[first + i - 1] == f.batch.value[Numbered(i)])
  }

  /** Some wallet that is swept shows a balance: the funder, whose balance comes first,
      or a key of a complete batch, from the fourth on. */
  ghost predicate SweepNeeded(f: Files, count: nat, initial: Balances) {
    exists j :: 0 <= j < |initial| && initial[j].Some? && initial[j].value > 0
                && (j == 0 || (IsComplete(f.batch, count) && 3 <= j < 3 + count))
  }

  /** Exactly when a run replaces keys: it is not a debug run, no call before the gate
      failed or came up short, and every queried wallet the gate's reply covers is
      absent or empty. */
  lemma {:induction false} RotatesIff(f: Files, cfg: Config, gen: Generator, r: Replies, queried: seq<Wallet>)
    requires Queries(f, cfg.batchSize, queried)
    ensures Rotates(f, cfg, gen, r) <==>
      && !cfg.debug && r.assignerOk && r.initial.Some?
      && |r.initial.value| >= 3 + (if IsComplete(f.batch, cfg.batchSize) then cfg.batchSize else 0)
      && (SweepNeeded(f, cfg.batchSize, r.initial.value) ==> r.sweepOk && r.settleOk)
      && (queried != [] ==>
            && r.gate.Some?
            && forall i :: 0 <= i < |queried| && i < |r.gate.value| ==> r.gate.value[i] in {None, Some(0)})
  {
    QueriesAre(f, cfg, gen, queried);
    VerifyIff(queried, r.gate);
    if r.initial.Some? && |r.initial.value| >= 3 + (if IsComplete(f.batch, cfg.batchSize) then cfg.batchSize else 0) {
      FundedIff(f, cfg.batchSize, gen, r.initial.value);
    }
  }

  /** Exactly when a run hands its keys on: a debug run whose first balance read came
      back long enough, or a run that rotated and then refilled and distributed. A run
      that the gate stopped names the stranded wallets. */
  lemma {:induction false} PreparedIff(f: Files, cfg: Config, gen: Generator, r: Replies)
    ensures
      var prepared := Prepare(f, cfg, gen, r).0;
      && (prepared.Ok? <==>
            if cfg.debug then
              && r.assignerOk && r.initial.Some?
              && |r.initial.value| >= 3 + (if IsComplete(f.batch, cfg.batchSize) then cfg.batchSize else 0)
            else Rotates(f, cfg, gen, r) && r.refillOk && r.distributeOk)
      && (prepared.Err? && prepared.error.Stranded? ==>
            && r.gate.Some?
            && prepared.error.wallets == StrandedIn(ToRotate(Opened(f, cfg, gen)), r.gate.value)
            && prepared.error.wallets != [])
  {
  }

  lemma {:induction false} QueriesAre(f: Files, cfg: Config, gen: Generator, queried: seq<Wallet>)
    requires Queries(f, cfg.batchSize, queried)
    ensures ToRotate(Opened(f, cfg, gen)) == queried
  {
    assert IsComplete(f.batch, cfg.batchSize)
      <==> f.batch.Some? && forall i: nat :: 1 <= i <= cfg.batchSize ==> Numbered(i) in f.batch.value;
    if IsComplete(f.batch, cfg.batchSize) {
      var ks := LoadBatch(f.batch.value, cfg.batchSize);
      forall i | 0 <= i < |ks|
        ensures queried[(if f.funder.Some? then 1 else 0) + i] == ks[i]
      {
        assert queried[(if f.funder.Some? then 1 else 0) + (i + 1) - 1] == f.batch.value[Numbered(i + 1)];
      }
    }
  }

  lemma {:induction false} VerifyIff(queried: seq<Wallet>, gate: Option<Balances>)
    ensures Verify(queried, gate).Ok? <==>
      || queried == []
      || (gate.Some? && forall i :: 0 <= i < |queried| && i < |gate.value| ==> gate.value[i] in {None, Some(0)})
  {
    if gate.Some? {
      NoneStranded(queried, gate.value);
    }
  }

  lemma {:induction false} FundedIff(f: Files, count: nat, gen: Generator, initial: Balances)
    requires |initial| >= 3 + (if IsComplete(f.batch, count) then count else 0)
    ensures AnyFunded(ResolveFiles(f, count, gen).1, initial) <==> SweepNeeded(f, count, initial)
  {
    var k := ResolveFiles(f, count, gen).1;
    if k.batchOrigin.Loaded? {
      var part := initial[3..3 + count];
      if SweepNeeded(f, count, initial) {
        var j :| 0 <= j < |initial| && initial[j].Some? && initial[j].value > 0
                 && (j == 0 || (IsComplete(f.batch, count) && 3 <= j < 3 + count));
        if j > 0 {
          assert part[j - 3] in part;
        }
      }
      if AnyPositive(part) {
        var b :| b in part && OrZero(b) > 0;
        var i :| 0 <= i < |part| && part[i] == b;
        assert initial[i + 3] == b;
      }
    }
  }

  /** A wallet kept in this one place and never generated again. */
  ghost predicate OnlyAt(f: Files, w: Wallet, p: Place, gen: Generator) {
    && At(f, p) == Some(w) && (forall q :: At(f, q) == Some(w) ==> q == p)
    && forall n :: gen(n) != w
  }

  /** A key with no second copy is destroyed exactly when the run clears its file. */
  lemma {:induction false} DestroyedIff(f: Files, cfg: Config, gen: Generator, r: Replies, p: Place, w: Wallet)
    requires OnlyAt(f, w, p, gen)
    ensures w in AllKeys(f)
    ensures w !in AllKeys(Prepare(f, cfg, gen, r).1) <==> Cleared(f, cfg, gen, r, p)
  {
    var after := Prepare(f, cfg, gen, r).1;
    KeysAreAtPlaces(f, w);
    KeysAreAtPlaces(after, w);
    RunAt(f, cfg, gen, r, p);
    if w in AllKeys(after) {
      var q :| At(after, q) == Some(w);
      RunAt(f, cfg, gen, r, q);
    }
  }

  // ---------------------------------------------------------------- when a run is safe

  /** What the gate has to have read: the funder, and the batch if its directory is
      the one that will be cleared. */
  function MustRead(k: Keys, midnight: bool): nat {
    (if k.funderOrigin.Loaded? then 1 else 0) + (if k.batchOrigin.Loaded? && !midnight then |k.children| else 0)
  }

  /** Everything a run clears is something its gate asked about and got an answer for:
      an incomplete batch holds no json file, the directory rotation clears holds none
      but the numbered ones it was loaded from, and the reply reaches far enough. */
  predicate Accounted(f: Files, cfg: Config, gen: Generator, r: Replies) {
    var k := Opened(f, cfg, gen);
    && (f.batch.Some? && !IsComplete(f.batch, cfg.batchSize) ==> NoJson(f.batch.value))
    && (Rotates(f, cfg, gen, r) ==>
          && (k.batchOrigin.Loaded? && !r.midnight ==> OnlyNumbered(f.batch.value, cfg.batchSize))
          && (k.batchOrigin.Loaded? && r.midnight && f.next.Some? ==> NoJson(f.next.value))
          && (ToRotate(k) != [] ==> |r.gate.value| >= MustRead(k, r.midnight)))
  }

  predicate NoJson(dir: Dir) {
    forall n :: n in dir ==> !IsJson(n)
  }

  predicate OnlyNumbered(dir: Dir, count: nat) {
    forall n :: n in dir && IsJson(n) ==> Rewritten(n, count)
  }

  /** Where a rotated wallet stands in the gate's query. */
  function QueryIndex(k: Keys, p: Place): nat {
    match p
    case BatchFile(name) =>
      (if k.funderOrigin.Loaded? then 1 else 0) + (if name.Numbered? && name.i >= 1 then name.i - 1 else 0)
    case _ => 0
  }

  /** A place that is cleared, accounted for, was read empty. */
  lemma {:induction false} AccountedIsRead(f: Files, cfg: Config, gen: Generator, r: Replies, p: Place)
    requires Accounted(f, cfg, gen, r) && At(f, p).Some? && Cleared(f, cfg, gen, r, p)
    ensures !cfg.debug && ReadEmpty(At(f, p).value, ToRotate(Opened(f, cfg, gen)), r.gate)
  {
    var k := Opened(f, cfg, gen);
    var queried, i := ToRotate(k), QueryIndex(k, p);
    assert Rotates(f, cfg, gen, r) && ClearedByRotation(k, r.midnight, p);
    assert i < |queried| && queried[i] == At(f, p).value && i < MustRead(k, r.midnight);
    NoneStranded(queried, r.gate.value);
    assert OrZero(r.gate.value[i]) == 0;
  }

  /** Recycle safety: in an accounted run, whatever was swept, skipped, failed or
      unsettled before, no key is destroyed whose wallet was not read back as empty or
      absent. */
  lemma {:induction false} RecycleSafe(f: Files, cfg: Config, gen: Generator, r: Replies)
    requires Accounted(f, cfg, gen, r)
    ensures SafeRun(f, cfg, gen, r)
  {
    var after := Prepare(f, cfg, gen, r).1;
    forall w | w in AllKeys(f) && w !in AllKeys(after)
      ensures !cfg.debug && ReadEmpty(w, ToRotate(Opened(f, cfg, gen)), r.gate)
    {
      KeysAreAtPlaces(f, w);
      var p :| At(f, p) == Some(w);
      RunAt(f, cfg, gen, r, p);
      KeysAreAtPlaces(after, w);
      assert Cleared(f, cfg, gen, r, p);
      AccountedIsRead(f, cfg, gen, r, p);
    }
  }

  /** No key is kept twice, and none is ever generated again. */
  ghost predicate NoCopies(f: Files, gen: Generator) {
    && (forall p, q :: At(f, p).Some? && At(f, p) == At(f, q) ==> p == q)
    && (forall p, n :: At(f, p) != Some(gen(n)))
  }

  /** A cleared place whose wallet the gate did not read makes the run unsafe. */
  lemma {:induction false} LostUnread(f: Files, cfg: Config, gen: Generator, r: Replies, p: Place, w: Wallet)
    requires OnlyAt(f, w, p, gen) && Cleared(f, cfg, gen, r, p)
    requires !ReadEmpty(w, ToRotate(Opened(f, cfg, gen)), r.gate)
    ensures w in AllKeys(f) && w !in AllKeys(Prepare(f, cfg, gen, r).1)
    ensures !SafeRun(f, cfg, gen, r)
  {
    DestroyedIff(f, cfg, gen, r, p, w);
  }

  /** The place of the m-th wallet the gate asks about. */
  function QueryPlace(k: Keys, m: nat): Place {
    var first := if k.funderOrigin.Loaded? then 1 else 0;
    if m < first then FunderFile else BatchFile(Numbered(m - first + 1))
  }

  lemma {:induction false} QueriedAt(f: Files, cfg: Config, gen: Generator, m: nat)
    requires m < |ToRotate(Opened(f, cfg, gen))|
    ensures At(f, QueryPlace(Opened(f, cfg, gen), m)) == Some(ToRotate(Opened(f, cfg, gen))[m])
  {
  }

  /** A wallet kept in one place is queried once, at that place's position. */
  lemma {:induction false} ReadAtItsPlace(f: Files, cfg: Config, gen: Generator, r: Replies, p: Place, w: Wallet)
    requires OnlyAt(f, w, p, gen) && ReadEmpty(w, ToRotate(Opened(f, cfg, gen)), r.gate)
    ensures exists m ::
      0 <= m < |ToRotate(Opened(f, cfg, gen))| && m < |r.gate.value| && QueryPlace(Opened(f, cfg, gen), m) == p
  {
    var queried := ToRotate(Opened(f, cfg, gen));
    var m :| 0 <= m < |queried| && m < |r.gate.value| && queried[m] == w;
    QueriedAt(f, cfg, gen, m);
  }

  /** A gate reply that falls short lets `zip` skip wallets: in any run that rotates on
      a reply of at most m entries, the m-th wallet asked about is destroyed unread,
      if its file is cleared and is its only copy. */
  lemma {:induction false} ShortReplyLosesUnread(f: Files, cfg: Config, gen: Generator, r: Replies, m: nat)
    requires Rotates(f, cfg, gen, r) && m < |ToRotate(Opened(f, cfg, gen))|
    requires |r.gate.value| <= m < MustRead(Opened(f, cfg, gen), r.midnight)
    requires OnlyAt(f, ToRotate(Opened(f, cfg, gen))[m], QueryPlace(Opened(f, cfg, gen), m), gen)
    ensures
      var w := ToRotate(Opened(f, cfg, gen))[m];
      && w in AllKeys(f) && w !in AllKeys(Prepare(f, cfg, gen, r).1)
      && !ReadEmpty(w, ToRotate(Opened(f, cfg, gen)), r.gate) && !SafeRun(f, cfg, gen, r)
  {
    var k := Opened(f, cfg, gen);
    var w := ToRotate(k)[m];
    if ReadEmpty(w, ToRotate(k), r.gate) {
      ReadAtItsPlace(f, cfg, gen, r, QueryPlace(k, m), w);
    }
    LostUnread(f, cfg, gen, r, QueryPlace(k, m), w);
  }

  /** The smallest such run: an empty reply rotates a loaded funder nobody read. */
  lemma {:induction false} ShortReplyUnsafe(funder: Wallet, gen: Generator)
    requires forall n :: gen(n) != funder
    ensures
      var f := Files(None, Some(funder), None, None, None, 0);
      var r := Replies(true, Some([Some(7), None, None]), true, true, Some([]), false, true, true);
      !SafeRun(f, Config(0, false), gen, r)
  {
    var f := Files(None, Some(funder), None, None, None, 0);
    var r := Replies(true, Some([Some(7), None, None]), true, true, Some([]), false, true, true);
    ShortReplyLosesUnread(f, Config(0, false), gen, r, 0);
  }

  /** A json file that should not be there is destroyed unread by any run that clears
      its directory: the batch of the day, or the next day's when the run crosses
      midnight. */
  lemma {:induction false} StrayFileLosesUnread(f: Files, cfg: Config, gen: Generator, r: Replies, p: Place, w: Wallet)
    requires OnlyAt(f, w, p, gen) && Cleared(f, cfg, gen, r, p)
    requires p.NextFile? || (p.BatchFile? && (IsComplete(f.batch, cfg.batchSize) ==> !Rewritten(p.name, cfg.batchSize)))
    ensures w in AllKeys(f) && w !in AllKeys(Prepare(f, cfg, gen, r).1)
    ensures !ReadEmpty(w, ToRotate(Opened(f, cfg, gen)), r.gate) && !SafeRun(f, cfg, gen, r)
  {
    if ReadEmpty(w, ToRotate(Opened(f, cfg, gen)), r.gate) {
      ReadAtItsPlace(f, cfg, gen, r, p, w);
    }
    LostUnread(f, cfg, gen, r, p, w);
  }

  /** Exactly when a run is safe: given that no key has a second copy, it destroys only
      keys it read empty if and only if it is accounted for. */
  lemma {:induction false} RecycleSafeIff(f: Files, cfg: Config, gen: Generator, r: Replies)
    requires NoCopies(f, gen)
    ensures SafeRun(f, cfg, gen, r) <==> Accounted(f, cfg, gen, r)
  {
    if Accounted(f, cfg, gen, r) {
      RecycleSafe(f, cfg, gen, r);
    } else {
      UnaccountedIsUnsafe(f, cfg, gen, r);
    }
  }

  lemma {:induction false} UnaccountedIsUnsafe(f: Files, cfg: Config, gen: Generator, r: Replies)
    requires NoCopies(f, gen) && !Accounted(f, cfg, gen, r)
    ensures !SafeRun(f, cfg, gen, r)
  {
    var k := Opened(f, cfg, gen);
    if f.batch.Some? && !IsComplete(f.batch, cfg.batchSize) && !NoJson(f.batch.value) {
      var n :| n in f.batch.value && IsJson(n);
      StrayFileLosesUnread(f, cfg, gen, r, BatchFile(n), f.batch.value[n]);
    } else if k.batchOrigin.Loaded? && !r.midnight && !OnlyNumbered(f.batch.value, cfg.batchSize) {
      var n :| n in f.batch.value && IsJson(n) && !Rewritten(n, cfg.batchSize);
      StrayFileLosesUnread(f, cfg, gen, r, BatchFile(n), f.batch.value[n]);
    } else if k.batchOrigin.Loaded? && r.midnight && f.next.Some? && !NoJson(f.next.value) {
      var n :| n in f.next.value && IsJson(n);
      StrayFileLosesUnread(f, cfg, gen, r, NextFile(n), f.next.value[n]);
    } else {
      var m := |r.gate.value|;
      QueriedAt(f, cfg, gen, m);
      ShortReplyLosesUnread(f, cfg, gen, r, m);
    }
  }

  /** All accounts absent, nothing fails, no midnight. */
  function QuietReplies(n: nat): Replies {
    Replies(true, Some(seq(n + 3, _ => None)), true, true, Some(seq(n + 1, _ => None)), false, true, true)
  }

  lemma {:induction false} QuietPasses(k: Keys, cfg: Config)
    requires |k.children| == cfg.batchSize
    ensures BeforeRotation(k, cfg, QuietReplies(cfg.batchSize)).Ok?
  {
    NoneStranded(ToRotate(k), QuietReplies(cfg.batchSize).gate.value);
  }

  /** Nothing else needs to go wrong: in a run in which every call succeeds and every
      account is absent, a stray json file's key is lost without the gate ever asking
      about it. */
  lemma {:induction false} UncleanLosesUnread(f: Files, cfg: Config, gen: Generator, name: FileName, w: Wallet)
    requires OnlyAt(f, w, BatchFile(name), gen) && IsJson(name)
    requires IsComplete(f.batch, cfg.batchSize) ==> !cfg.debug && !Rewritten(name, cfg.batchSize)
    ensures
      var r := QuietReplies(cfg.batchSize);
      && w in AllKeys(f) && w !in AllKeys(Prepare(f, cfg, gen, r).1)
      && !ReadEmpty(w, ToRotate(Opened(f, cfg, gen)), r.gate) && !SafeRun(f, cfg, gen, r)
  {
    QuietPasses(Opened(f, cfg, gen), cfg);
    StrayFileLosesUnread(f, cfg, gen, QuietReplies(cfg.batchSize), BatchFile(name), w);
  }
}
