/** Sweeping many wallets into the eater (src/keys/sweep.rs): the chunk loop, its
    outcomes, and what the accepted transactions do to the ledger. */
module Sweep {
  import opened Common
  import opened WireFormat
  import opened TransferTx

  datatype Sender = Sender(name: string, key: SigningKey, balance: nat)

  datatype SkipReason = DestinationIsSource | DebugMode | BelowRentExempt

  datatype Outcome =
    | Sent(lamports: nat, signature: string)
    | Skipped(reason: SkipReason)
    | Failed(error: string)

  datatype SweepResult = SweepResult(name: string, outcome: Outcome)

  /** One transaction handed to the RPC and whether it was accepted. */
  datatype Attempt = Attempt(tx: Bytes, accepted: bool)

  /** What the loop needs besides the senders; `reply` answers the k-th send. */
  datatype Env = Env(eater: SigningKey, blockhash: Key, sign: Signer, reply: nat -> Result<string, string>)

  /** The RPC endpoint: remembers what was sent, answers from a fixed script. */
  class Rpc {
    const reply: nat -> Result<string, string>
    const latestBlockhash: Result<Key, string>
    var log: seq<Attempt>

    constructor (reply: nat -> Result<string, string>, latestBlockhash: Result<Key, string>)
      ensures log == [] && this.reply == reply && this.latestBlockhash == latestBlockhash
    {
      this.reply := reply;
      this.latestBlockhash := latestBlockhash;
      log := [];
    }

    method SendTransaction(tx: Bytes) returns (r: Result<string, string>)
      modifies this
      ensures r == reply(|old(log)|)
      ensures log == old(log) + [Attempt(tx, r.Ok?)]
    {
      r := reply(|log|);
      log := log + [Attempt(tx, r.Ok?)];
    }
  }

  // ---------------------------------------------------------------- sorting the senders

  /** Wallets with a balance, except the eater itself. */
  function Work(senders: seq<Sender>, eater: Key): seq<Sender> {
    if senders == [] then []
    else
      var s := senders[|senders| - 1];
      Work(senders[..|senders| - 1], eater) + if s.balance != 0 && s.key.pubkey != eater then [s] else []
  }

  /** Funded wallets that are the eater itself. */
  function Selves(senders: seq<Sender>, eater: Key): seq<Sender> {
    if senders == [] then []
    else
      var s := senders[|senders| - 1];
      Selves(senders[..|senders| - 1], eater) + if s.balance != 0 && s.key.pubkey == eater then [s] else []
  }

  function Funded(senders: seq<Sender>): seq<Sender> {
    if senders == [] then []
    else
      var s := senders[|senders| - 1];
      Funded(senders[..|senders| - 1]) + if s.balance != 0 then [s] else []
  }

  /** The order in which outcomes are reported. */
  function Reported(senders: seq<Sender>, eater: Key): seq<Sender> {
    Selves(senders, eater) + Work(senders, eater)
  }

  /** The two groups together are the funded wallets, each once. */
  lemma {:induction false} ReportedIsFunded(senders: seq<Sender>, eater: Key)
    ensures multiset(Reported(senders, eater)) == multiset(Funded(senders))
  {
    if senders != [] {
      ReportedIsFunded(senders[..|senders| - 1], eater);
    }
  }

  lemma {:induction false} WorkMembers(senders: seq<Sender>, eater: Key)
    ensures forall s :: s in Work(senders, eater) ==> s in senders && s.balance != 0 && s.key.pubkey != eater
  {
    if senders != [] {
      WorkMembers(senders[..|senders| - 1], eater);
    }
  }

  // ---------------------------------------------------------------- the chunk loop

  /** What happens to every wallet of a chunk. */
  datatype Fate = AllSent(signature: string) | AllSkipped(reason: SkipReason) | AllFailed(error: string)

  function OutcomeFor(fate: Fate, s: Sender): Outcome {
    match fate
    case AllSent(sig) => Sent(s.balance, sig)
    case AllSkipped(reason) => Skipped(reason)
    case AllFailed(e) => Failed(e)
  }

  function Results(chunk: seq<Sender>, fate: Fate): (r: seq<SweepResult>)
    ensures |r| == |chunk|
    ensures forall i :: 0 <= i < |chunk| ==> r[i] == SweepResult(chunk[i].name, OutcomeFor(fate, chunk[i]))
  {
    if chunk == [] then []
    else Results(chunk[..|chunk| - 1], fate)
         + [SweepResult(chunk[|chunk| - 1].name, OutcomeFor(fate, chunk[|chunk| - 1]))]
  }

  method PushResults(results: seq<SweepResult>, chunk: seq<Sender>, fate: Fate) returns (r: seq<SweepResult>)
    ensures r == results + Results(chunk, fate)
  {
    r := results;
    for i := 0 to |chunk|
      invariant r == results + Results(chunk[..i], fate)
    {
      assert chunk[..i + 1][..i] == chunk[..i];
      r := r + [SweepResult(chunk[i].name, OutcomeFor(fate, chunk[i]))];
    }
    assert chunk[..|chunk|] == chunk;
  }

  function TotalOf(chunk: seq<Sender>): nat {
    if chunk == [] then 0 else TotalOf(chunk[..|chunk| - 1]) + chunk[|chunk| - 1].balance
  }

  function FeeOf(chunk: seq<Sender>): nat {
    (|chunk| + 1) * LAMPORTS_PER_SIGNATURE
  }

  function Keys(chunk: seq<Sender>): (r: seq<SigningKey>)
    ensures |r| == |chunk| && forall i :: 0 <= i < |chunk| ==> r[i] == chunk[i].key
  {
    if chunk == [] then [] else [chunk[0].key] + Keys(chunk[1..])
  }

  function Balances(chunk: seq<Sender>): (r: seq<nat>)
    ensures |r| == |chunk| && forall i :: 0 <= i < |chunk| ==> r[i] == chunk[i].balance
  {
    if chunk == [] then [] else [chunk[0].balance] + Balances(chunk[1..])
  }

  function SweepTx(env: Env, chunk: seq<Sender>): Bytes {
    EncTransaction(SweepTransaction(env.eater, Keys(chunk), Balances(chunk), env.blockhash, env.sign))
  }

  /** `saturating_add` then `saturating_sub`. */
  function Projected(running: nat, chunk: seq<Sender>): nat {
    SaturatingSub(Min(running + TotalOf(chunk), U64 - 1), FeeOf(chunk))
  }

  datatype Done = Done(running: nat, results: seq<SweepResult>, attempts: seq<Attempt>)

  function ChunkSize(work: seq<Sender>): nat {
    Min(MAX_CHILDREN_PER_SWEEP_TX, |work|)
  }

  /** What one chunk does: the next running balance and send counter, the fate of
      its wallets, and the transaction sent, if any. */
  datatype Step = Step(running: nat, k: nat, fate: Fate, attempts: seq<Attempt>)

  function ChunkStep(env: Env, running: nat, k: nat, chunk: seq<Sender>): Step {
    var projected := Projected(running, chunk);
    if projected < RENT_EXEMPT_MIN_LAMPORTS then Step(running, k, AllSkipped(BelowRentExempt), [])
    else match env.reply(k)
      case Ok(sig) => Step(projected, k + 1, AllSent(sig), [Attempt(SweepTx(env, chunk), true)])
      case Err(e) => Step(running, k + 1, AllFailed(e), [Attempt(SweepTx(env, chunk), false)])
  }

  /** The rest of the loop: `running` is the eater's projected balance, k the
      number of transactions sent so far. */
  function Loop(env: Env, running: nat, k: nat, work: seq<Sender>): Done
    decreases |work|
  {
    if work == [] then Done(running, [], [])
    else
      var chunk := work[..ChunkSize(work)];
      var st := ChunkStep(env, running, k, chunk);
      var d := Loop(env, st.running, st.k, work[ChunkSize(work)..]);
      Done(d.running, Results(chunk, st.fate) + d.results, st.attempts + d.attempts)
  }

  /** What `to_eater` returns. */
  function Outcomes(senders: seq<Sender>, eater: SigningKey, eaterBalance: nat, debug: bool, sign: Signer,
                    latestBlockhash: Result<Key, string>, reply: nat -> Result<string, string>)
    : Result<seq<SweepResult>, string>
  {
    var selves := Results(Selves(senders, eater.pubkey), AllSkipped(DestinationIsSource));
    var work := Work(senders, eater.pubkey);
    if work == [] then Ok(selves)
    else if debug then Ok(selves + Results(work, AllSkipped(DebugMode)))
    else match latestBlockhash
      case Err(e) => Err(e)
      case Ok(blockhash) => Ok(selves + Loop(Env(eater, blockhash, sign, reply), eaterBalance, 0, work).results)
  }

  method Classify(senders: seq<Sender>, eater: Key) returns (results: seq<SweepResult>, work: seq<Sender>)
    ensures results == Results(Selves(senders, eater), AllSkipped(DestinationIsSource))
    ensures work == Work(senders, eater)
  {
    results, work := [], [];
    for i := 0 to |senders|
      invariant results == Results(Selves(senders[..i], eater), AllSkipped(DestinationIsSource))
      invariant work == Work(senders[..i], eater)
    {
      assert senders[..i + 1][..i] == senders[..i];
      var s := senders[i];
      if s.balance == 0 {
        continue;
      }
      if s.key.pubkey == eater {
        var before := Selves(senders[..i], eater);
        assert (before + [s])[..|before|] == before;
        results := results + [SweepResult(s.name, Skipped(DestinationIsSource))];
        continue;
      }
      work := work + [s];
    }
    assert senders[..|senders|] == senders;
  }

  /** One pass of the loop body over a chunk: the new running balance and the
      results pushed. */
  method SweepChunk(rpc: Rpc, env: Env, running: nat, chunk: seq<Sender>, results0: seq<SweepResult>)
    returns (running': nat, results: seq<SweepResult>)
    requires env.reply == rpc.reply && |chunk| <= MAX_CHILDREN_PER_SWEEP_TX
    modifies rpc
    ensures
      var st := ChunkStep(env, running, |old(rpc.log)|, chunk);
      && running' == st.running && results == results0 + Results(chunk, st.fate)
      && rpc.log == old(rpc.log) + st.attempts && |rpc.log| == st.k
  {
    running' := running;
    var chunkTotal := TotalOf(chunk);
    var chunkFee := (|chunk| + 1) * LAMPORTS_PER_SIGNATURE;
    var projected := SaturatingSub(Min(running + chunkTotal, U64 - 1), chunkFee);
    if projected < RENT_EXEMPT_MIN_LAMPORTS {
      results := PushResults(results0, chunk, AllSkipped(BelowRentExempt));
      return;
    }
    var tx := BuildConsolidatedSweep(env.eater, Keys(chunk), Balances(chunk), env.blockhash, env.sign);
    var reply := rpc.SendTransaction(tx);
    match reply {
      case Ok(sig) =>
        running' := projected;
        results := PushResults(results0, chunk, AllSent(sig));
      case Err(e) =>
        results := PushResults(results0, chunk, AllFailed(e));
    }
  }

  method SweepAll(rpc: Rpc, env: Env, eaterBalance: nat, work: seq<Sender>, results0: seq<SweepResult>)
    returns (results: seq<SweepResult>)
    requires rpc.log == [] && env.reply == rpc.reply
    modifies rpc
    ensures
      var d := Loop(env, eaterBalance, 0, work);
      results == results0 + d.results && rpc.log == d.attempts
  {
    ghost var whole := Loop(env, eaterBalance, 0, work);
    results := results0;
    var runningEater := eaterBalance;
    var i := 0;
    assert work[0..] == work;
    while i < |work|
      invariant 0 <= i <= |work|
      invariant results0 + whole.results == results + Loop(env, runningEater, |rpc.log|, work[i..]).results
      invariant whole.attempts == rpc.log + Loop(env, runningEater, |rpc.log|, work[i..]).attempts
    {
      var size := Min(MAX_CHILDREN_PER_SWEEP_TX, |work| - i);
      var chunk := work[i..i + size];
      ghost var before, log := results, rpc.log;
      LoopUnfolds(env, runningEater, |rpc.log|, work, i, size);
      ghost var st := ChunkStep(env, runningEater, |rpc.log|, chunk);
      runningEater, results := SweepChunk(rpc, env, runningEater, chunk, results);
      i := i + size;
      ghost var d := Loop(env, runningEater, |rpc.log|, work[i..]);
      ResultsAssoc(before, Results(chunk, st.fate), d.results);
      AttemptsAssoc(log, st.attempts, d.attempts);
    }
    assert work[i..] == [];
  }

  lemma {:induction false} LoopUnfolds(env: Env, running: nat, k: nat, work: seq<Sender>, i: nat, size: nat)
    requires i < |work| && size == Min(MAX_CHILDREN_PER_SWEEP_TX, |work| - i)
    ensures
      var chunk := work[i..i + size];
      var st := ChunkStep(env, running, k, chunk);
      var d := Loop(env, st.running, st.k, work[i + size..]);
      Loop(env, running, k, work[i..]) == Done(d.running, Results(chunk, st.fate) + d.results, st.attempts + d.attempts)
  {
    var todo := work[i..];
    assert work[i..i + size] == todo[..ChunkSize(todo)] && work[i + size..] == todo[ChunkSize(todo)..];
  }

  lemma {:induction false} ResultsAssoc(a: seq<SweepResult>, b: seq<SweepResult>, c: seq<SweepResult>)
    ensures a + b + c == a + (b + c)
  {
  }

  lemma {:induction false} AttemptsAssoc(a: seq<Attempt>, b: seq<Attempt>, c: seq<Attempt>)
    ensures a + b + c == a + (b + c)
  {
  }

  /** `to_eater`. The totals must fit u64, as the source's plain sum assumes. */
  method ToEater(rpc: Rpc, senders: seq<Sender>, eater: SigningKey, eaterBalance: nat, debug: bool, sign: Signer)
    returns (r: Result<seq<SweepResult>, string>)
    requires rpc.log == []
    requires eaterBalance + TotalOf(Work(senders, eater.pubkey)) < U64
    modifies rpc
    ensures r == Outcomes(senders, eater, eaterBalance, debug, sign, rpc.latestBlockhash, rpc.reply)
    ensures rpc.log == if debug || Work(senders, eater.pubkey) == [] || rpc.latestBlockhash.Err? then []
      else Loop(Env(eater, rpc.latestBlockhash.value, sign, rpc.reply), eaterBalance, 0, Work(senders, eater.pubkey)).attempts
  {
    var results, work := Classify(senders, eater.pubkey);
    if work == [] {
      return Ok(results);
    }
    if debug {
      results := PushResults(results, work, AllSkipped(DebugMode));
      return Ok(results);
    }
    var latest := rpc.latestBlockhash;
    if latest.Err? {
      return Err(latest.error);
    }
    results := SweepAll(rpc, Env(eater, latest.value, sign, rpc.reply), eaterBalance, work, results);
    return Ok(results);
  }

  // ---------------------------------------------------------------- one outcome for each funded wallet

  /** An outcome that reports on this wallet and no other amount. */
  predicate Reports(r: SweepResult, s: Sender) {
    r.name == s.name && (r.outcome.Sent? ==> r.outcome.lamports == s.balance)
  }

  predicate ReportsAll(rs: seq<SweepResult>, ss: seq<Sender>) {
    |rs| == |ss| && forall i :: 0 <= i < |ss| ==> Reports(rs[i], ss[i])
  }

  lemma {:induction false} ReportsConcat(rs: seq<SweepResult>, ss: seq<Sender>, rs': seq<SweepResult>, ss': seq<Sender>)
    requires ReportsAll(rs, ss) && ReportsAll(rs', ss')
    ensures ReportsAll(rs + rs', ss + ss')
  {
  }

  lemma {:induction false} ChunkReports(chunk: seq<Sender>, fate: Fate)
    ensures ReportsAll(Results(chunk, fate), chunk)
  {
  }

  lemma {:induction false} LoopReports(env: Env, running: nat, k: nat, work: seq<Sender>)
    ensures ReportsAll(Loop(env, running, k, work).results, work)
    decreases |work|
  {
    if work != [] {
      var n := ChunkSize(work);
      var st := ChunkStep(env, running, k, work[..n]);
      LoopReports(env, st.running, st.k, work[n..]);
      ChunkReports(work[..n], st.fate);
      ReportsConcat(Results(work[..n], st.fate), work[..n], Loop(env, st.running, st.k, work[n..]).results, work[n..]);
      assert work[..n] + work[n..] == work;
    }
  }

  /** Every funded wallet gets exactly one outcome, with its own balance if sent:
      the results report, in order, on a list that is a rearrangement of the funded
      senders. Unfunded wallets get none. */
  lemma {:induction false} OneOutcomeEach(
      senders: seq<Sender>, eater: SigningKey, eaterBalance: nat, debug: bool, sign: Signer,
      latestBlockhash: Result<Key, string>, reply: nat -> Result<string, string>)
    ensures
      var r := Outcomes(senders, eater, eaterBalance, debug, sign, latestBlockhash, reply);
      r.Ok? ==>
        && ReportsAll(r.value, Reported(senders, eater.pubkey))
        && multiset(Reported(senders, eater.pubkey)) == multiset(Funded(senders))
  {
    ReportedIsFunded(senders, eater.pubkey);
    var selves, work := Selves(senders, eater.pubkey), Work(senders, eater.pubkey);
    var first := Results(selves, AllSkipped(DestinationIsSource));
    ChunkReports(selves, AllSkipped(DestinationIsSource));
    if work == [] {
      assert selves + work == selves;
    } else if debug {
      ChunkReports(work, AllSkipped(DebugMode));
      ReportsConcat(first, selves, Results(work, AllSkipped(DebugMode)), work);
    } else if latestBlockhash.Ok? {
      var env := Env(eater, latestBlockhash.value, sign, reply);
      LoopReports(env, eaterBalance, 0, work);
      ReportsConcat(first, selves, Loop(env, eaterBalance, 0, work).results, work);
    }
  }

  // ---------------------------------------------------------------- the ledger

  type Ledger = map<Key, nat>

  function Balance(l: Ledger, k: Key): nat {
    if k in l then l[k] else 0
  }

  function ApplyTransfer(l: Ledger, t: Transfer): Option<Ledger> {
    if Balance(l, t.source) < t.amount then None
    else
      var debited := l[t.source := Balance(l, t.source) - t.amount];
      Some(debited[t.destination := Balance(debited, t.destination) + t.amount])
  }

  function ApplyTransfers(l: Ledger, ts: seq<Transfer>): Option<Ledger> {
    if ts == [] then Some(l)
    else match ApplyTransfers(l, ts[..|ts| - 1])
      case None => None
      case Some(l') => ApplyTransfer(l', ts[|ts| - 1])
  }

  /** The payer is charged 5000 lamports a signature, then the transfers run. */
  function ChargeAndApply(l: Ledger, payer: Key, signatures: nat, transfers: seq<Transfer>): Option<Ledger> {
    var fee := signatures * LAMPORTS_PER_SIGNATURE;
    if Balance(l, payer) < fee then None
    else ApplyTransfers(l[payer := Balance(l, payer) - fee], transfers)
  }

  /** Executing raw transaction bytes: the first key pays for the signatures
      actually present, and the decoded transfers run in order. */
  function Execute(l: Ledger, tx: Bytes): Option<Ledger> {
    match (ParseTransaction(tx), ReadTransfers(tx))
    case (Some(t), Some(transfers)) =>
      if t.message.keys == [] then None
      else ChargeAndApply(l, t.message.keys[0], |t.signatures|, transfers)
    case _ => None
  }

  /** Accepted transactions execute in the order they were sent; the others do
      nothing. None: some accepted transaction could not execute. */
  function LedgerAfter(l: Ledger, attempts: seq<Attempt>): Option<Ledger>
    decreases |attempts|
  {
    if attempts == [] then Some(l)
    else if !attempts[0].accepted then LedgerAfter(l, attempts[1..])
    else match Execute(l, attempts[0].tx)
      case None => None
      case Some(l') => LedgerAfter(l', attempts[1..])
  }

  /** Distinct wallets, none of them the eater, holding the balances listed. */
  ghost predicate Holds(l: Ledger, work: seq<Sender>, eater: Key) {
    && (forall i, j :: 0 <= i < j < |work| ==> work[i].key.pubkey != work[j].key.pubkey)
    && (forall i :: 0 <= i < |work| ==>
          && work[i].key.pubkey != eater && work[i].key.pubkey != SYSTEM_PROGRAM
          && work[i].balance < U64 && Balance(l, work[i].key.pubkey) == work[i].balance)
  }

  predicate InChunk(k: Key, chunk: seq<Sender>) {
    exists i :: 0 <= i < |chunk| && chunk[i].key.pubkey == k
  }

  /** l' is l with every wallet of the chunk emptied and the eater at `balance`. */
  ghost predicate Swept(l: Ledger, l': Ledger, chunk: seq<Sender>, eater: Key, balance: int) {
    && Balance(l', eater) == balance
    && (forall i :: 0 <= i < |chunk| ==> Balance(l', chunk[i].key.pubkey) == 0)
    && (forall k: Key :: k != eater && !InChunk(k, chunk) ==> Balance(l', k) == Balance(l, k))
  }

  function ChunkTransfers(chunk: seq<Sender>, eater: Key): (r: seq<Transfer>)
    ensures |r| == |chunk|
    ensures forall i :: 0 <= i < |chunk| ==> r[i] == Transfer(chunk[i].key.pubkey, eater, chunk[i].balance)
  {
    if chunk == [] then []
    else
      var n := |chunk| - 1;
      ChunkTransfers(chunk[..n], eater) + [Transfer(chunk[n].key.pubkey, eater, chunk[n].balance)]
  }

  lemma {:induction false} SweptSnoc(l: Ledger, l1: Ledger, prefix: seq<Sender>, s: Sender, eater: Key, balance: int)
    requires Swept(l, l1, prefix, eater, balance)
    requires s.key.pubkey != eater && !InChunk(s.key.pubkey, prefix) && Balance(l, s.key.pubkey) == s.balance
    requires forall i :: 0 <= i < |prefix| ==> prefix[i].key.pubkey != eater
    ensures ApplyTransfer(l1, Transfer(s.key.pubkey, eater, s.balance)).Some?
    ensures Swept(l, ApplyTransfer(l1, Transfer(s.key.pubkey, eater, s.balance)).value, prefix + [s], eater, balance + s.balance)
  {
    var l' := ApplyTransfer(l1, Transfer(s.key.pubkey, eater, s.balance)).value;
    var all := prefix + [s];
    forall i | 0 <= i < |all|
      ensures Balance(l', all[i].key.pubkey) == 0
    {
      if i < |prefix| {
        assert prefix[i].key.pubkey != s.key.pubkey;
        assert Balance(l1, prefix[i].key.pubkey) == 0;
      }
    }
    forall k: Key | k != eater && !InChunk(k, all)
      ensures Balance(l', k) == Balance(l, k)
    {
      assert all[|prefix|] == s;
      assert forall i :: 0 <= i < |prefix| ==> all[i] == prefix[i];
      assert !InChunk(k, prefix);
    }
  }

  lemma {:induction false} HoldsSplit(l: Ledger, work: seq<Sender>, eater: Key, n: nat)
    requires Holds(l, work, eater) && n <= |work|
    ensures Holds(l, work[..n], eater) && Holds(l, work[n..], eater)
    ensures forall i :: n <= i < |work| ==> !InChunk(work[i].key.pubkey, work[..n])
  {
  }

  /** Running a chunk's transfers empties its wallets into the eater. */
  ghost predicate TransfersEmpty(l: Ledger, chunk: seq<Sender>, eater: Key) {
    var r := ApplyTransfers(l, ChunkTransfers(chunk, eater));
    r.Some? && Swept(l, r.value, chunk, eater, Balance(l, eater) + TotalOf(chunk))
  }

  lemma {:induction false} TransfersSweep(l: Ledger, chunk: seq<Sender>, eater: Key)
    requires Holds(l, chunk, eater)
    ensures TransfersEmpty(l, chunk, eater)
  {
    if chunk == [] {
      NothingSwept(l, eater);
    } else {
      HoldsSplit(l, chunk, eater, |chunk| - 1);
      TransfersSweep(l, chunk[..|chunk| - 1], eater);
      SweepOneMore(l, chunk, eater);
    }
  }

  lemma {:induction false} NothingSwept(l: Ledger, eater: Key)
    ensures TransfersEmpty(l, [], eater)
  {
  }

  lemma {:induction false} SweepOneMore(l: Ledger, chunk: seq<Sender>, eater: Key)
    requires Holds(l, chunk, eater) && chunk != [] && TransfersEmpty(l, chunk[..|chunk| - 1], eater)
    ensures TransfersEmpty(l, chunk, eater)
  {
    var prefix, s := chunk[..|chunk| - 1], chunk[|chunk| - 1];
    var ts, t := ChunkTransfers(prefix, eater), Transfer(s.key.pubkey, eater, s.balance);
    HoldsSplit(l, chunk, eater, |chunk| - 1);
    assert ChunkTransfers(chunk, eater) == ts + [t];
    TransfersSnoc(l, ts, t);
    SweptSnoc(l, ApplyTransfers(l, ts).value, prefix, s, eater, Balance(l, eater) + TotalOf(prefix));
    assert prefix + [s] == chunk;
  }

  lemma {:induction false} TransfersSnoc(l: Ledger, ts: seq<Transfer>, t: Transfer)
    requires ApplyTransfers(l, ts).Some?
    ensures ApplyTransfers(l, ts + [t]) == ApplyTransfer(ApplyTransfers(l, ts).value, t)
  {
    assert (ts + [t])[..|ts|] == ts;
  }

  /** The bytes are a transaction the eater pays for, signed by it and by every
      wallet of the chunk, moving each wallet's balance to the eater. */
  ghost predicate ReadsAsSweep(tx: Bytes, chunk: seq<Sender>, eater: Key) {
    && ParseTransaction(tx).Some?
    && |ParseTransaction(tx).value.signatures| == |chunk| + 1
    && ParseTransaction(tx).value.message.keys != [] && ParseTransaction(tx).value.message.keys[0] == eater
    && ReadTransfers(tx) == Some(ChunkTransfers(chunk, eater))
  }

  lemma {:induction false} SweepTxReads(env: Env, chunk: seq<Sender>)
    requires 1 <= |chunk| <= MAX_CHILDREN_PER_SWEEP_TX
    requires env.eater.pubkey != SYSTEM_PROGRAM
    requires forall i :: 0 <= i < |chunk| ==> chunk[i].balance < U64 && chunk[i].key.pubkey != SYSTEM_PROGRAM
    ensures ReadsAsSweep(SweepTx(env, chunk), chunk, env.eater.pubkey)
  {
    SweepParses(env.eater, Keys(chunk), Balances(chunk), env.blockhash, env.sign);
    SweepReadsBack(env.eater, Keys(chunk), Balances(chunk), env.blockhash, env.sign);
    SameTransfers(chunk, env.eater.pubkey);
  }

  lemma {:induction false} SameTransfers(chunk: seq<Sender>, eater: Key)
    ensures ExpectedTransfers(IntoPayer, eater, Pubkeys(Keys(chunk)), Balances(chunk)) == ChunkTransfers(chunk, eater)
  {
  }

  lemma {:induction false} ChargedSweep(l: Ledger, chunk: seq<Sender>, eater: Key)
    requires Holds(l, chunk, eater)
    ensures
      var r := ChargeAndApply(l, eater, |chunk| + 1, ChunkTransfers(chunk, eater));
      && (r.Some? <==> Balance(l, eater) >= FeeOf(chunk))
      && (r.Some? ==> Swept(l, r.value, chunk, eater, Balance(l, eater) - FeeOf(chunk) + TotalOf(chunk)))
  {
    if Balance(l, eater) >= FeeOf(chunk) {
      var paid := l[eater := Balance(l, eater) - FeeOf(chunk)];
      HoldsAfterFee(l, chunk, eater, Balance(l, eater) - FeeOf(chunk));
      TransfersSweep(paid, chunk, eater);
      SweptAfterFee(l, paid, ApplyTransfers(paid, ChunkTransfers(chunk, eater)).value, chunk, eater,
                    Balance(l, eater) - FeeOf(chunk) + TotalOf(chunk));
    }
  }

  lemma {:induction false} HoldsAfterFee(l: Ledger, chunk: seq<Sender>, eater: Key, v: nat)
    requires Holds(l, chunk, eater)
    ensures Holds(l[eater := v], chunk, eater) && Balance(l[eater := v], eater) == v
    ensures forall k: Key :: k != eater ==> Balance(l[eater := v], k) == Balance(l, k)
  {
  }

  lemma {:induction false} ExecuteAsRead(l: Ledger, chunk: seq<Sender>, eater: Key, tx: Bytes)
    requires ReadsAsSweep(tx, chunk, eater)
    ensures Execute(l, tx) == ChargeAndApply(l, eater, |chunk| + 1, ChunkTransfers(chunk, eater))
  {
  }

  /** A chunk's bytes, executed: they run exactly when the eater can pay the fee
      beforehand, and then leave the wallets empty and the eater at the projected
      balance. */
  lemma {:induction false} ChunkExecutes(env: Env, l: Ledger, chunk: seq<Sender>)
    requires 1 <= |chunk| <= MAX_CHILDREN_PER_SWEEP_TX
    requires env.eater.pubkey != SYSTEM_PROGRAM && Holds(l, chunk, env.eater.pubkey)
    ensures
      var r := Execute(l, SweepTx(env, chunk));
      && (r.Some? <==> Balance(l, env.eater.pubkey) >= FeeOf(chunk))
      && (r.Some? ==> Swept(l, r.value, chunk, env.eater.pubkey,
                            Balance(l, env.eater.pubkey) - FeeOf(chunk) + TotalOf(chunk)))
  {
    SweepTxReads(env, chunk);
    ExecuteAsRead(l, chunk, env.eater.pubkey, SweepTx(env, chunk));
    ChargedSweep(l, chunk, env.eater.pubkey);
  }

  lemma {:induction false} SweptAfterFee(l: Ledger, paid: Ledger, l': Ledger, chunk: seq<Sender>, eater: Key, balance: int)
    requires Swept(paid, l', chunk, eater, balance)
    requires forall k: Key :: k != eater ==> Balance(paid, k) == Balance(l, k)
    ensures Swept(l, l', chunk, eater, balance)
  {
  }

  lemma {:induction false} TotalSplit(work: seq<Sender>, n: nat)
    requires n <= |work|
    ensures TotalOf(work) == TotalOf(work[..n]) + TotalOf(work[n..])
    decreases |work|
  {
    if n < |work| {
      var m := |work| - 1;
      TotalSplit(work[..m], n);
      assert work[..m][..n] == work[..n];
      assert work[n..][..m - n] == work[..m][n..];
    } else {
      assert work[..n] == work && work[n..] == [];
    }
  }

  lemma {:induction false} HoldsAfterChunk(l: Ledger, l': Ledger, work: seq<Sender>, eater: Key, n: nat, balance: int)
    requires Holds(l, work, eater) && n <= |work| && Swept(l, l', work[..n], eater, balance)
    ensures Holds(l', work[n..], eater)
  {
    HoldsSplit(l, work, eater, n);
  }

  /** The ledger after the loop: the wallets reported Sent are empty, every other
      wallet is as it was, and the eater holds the running balance. */
  ghost predicate LedgerMatches(l: Ledger, l': Ledger, work: seq<Sender>, eater: Key, d: Done) {
    && |d.results| == |work|
    && Balance(l', eater) == d.running
    && (forall i :: 0 <= i < |work| ==>
          Balance(l', work[i].key.pubkey) == if d.results[i].outcome.Sent? then 0 else work[i].balance)
    && (forall k: Key :: k != eater && !InChunk(k, work) ==> Balance(l', k) == Balance(l, k))
  }

  lemma {:induction false} MatchesExtend(l: Ledger, l1: Ledger, l': Ledger, work: seq<Sender>, n: nat, eater: Key,
                                         rs: seq<SweepResult>, d: Done, sent: bool)
    requires Holds(l, work, eater) && n <= |work| && |rs| == n
    requires forall i :: 0 <= i < n ==> (rs[i].outcome.Sent? <==> sent)
    requires if sent then Swept(l, l1, work[..n], eater, Balance(l1, eater)) else l1 == l
    requires LedgerMatches(l1, l', work[n..], eater, d)
    ensures LedgerMatches(l, l', work, eater, Done(d.running, rs + d.results, d.attempts))
  {
    HoldsSplit(l, work, eater, n);
    forall i | 0 <= i < |work|
      ensures Balance(l', work[i].key.pubkey) == if (rs + d.results)[i].outcome.Sent? then 0 else work[i].balance
    {
      if i < n {
        assert !InChunk(work[i].key.pubkey, work[n..]);
        assert Balance(l', work[i].key.pubkey) == Balance(l1, work[i].key.pubkey);
        assert work[..n][i] == work[i];
      } else {
        assert work[n..][i - n] == work[i];
      }
    }
    forall k: Key | k != eater && !InChunk(k, work)
      ensures Balance(l', k) == Balance(l, k)
    {
      assert !InChunk(k, work[..n]) && !InChunk(k, work[n..]);
    }
  }

  lemma {:induction false} LedgerAfterConcat(l: Ledger, a: seq<Attempt>, b: seq<Attempt>)
    ensures LedgerAfter(l, a + b)
         == if LedgerAfter(l, a).None? then None else LedgerAfter(LedgerAfter(l, a).value, b)
    decreases |a|
  {
    if a == [] {
      assert a + b == b;
    } else {
      assert (a + b)[1..] == a[1..] + b;
      if !a[0].accepted {
        LedgerAfterConcat(l, a[1..], b);
      } else if Execute(l, a[0].tx).Some? {
        LedgerAfterConcat(Execute(l, a[0].tx).value, a[1..], b);
      }
    }
  }

  /** What one chunk does to the ledger agrees with what it reports; its transaction
      executes unless it was accepted and the eater cannot pay its fee first. */
  lemma {:induction false} StepOnLedger(env: Env, running: nat, k: nat, chunk: seq<Sender>, l: Ledger)
    requires 1 <= |chunk| <= MAX_CHILDREN_PER_SWEEP_TX
    requires env.eater.pubkey != SYSTEM_PROGRAM && Holds(l, chunk, env.eater.pubkey)
    requires Balance(l, env.eater.pubkey) == running && running + TotalOf(chunk) < U64
    ensures
      var st := ChunkStep(env, running, k, chunk);
      && (LedgerAfter(l, st.attempts).Some? <==> (st.fate.AllSent? ==> running >= FeeOf(chunk)))
      && (LedgerAfter(l, st.attempts).Some? ==> StepMatches(l, LedgerAfter(l, st.attempts).value, chunk, env.eater.pubkey, st))
  {
    var st := ChunkStep(env, running, k, chunk);
    if st.fate.AllSent? {
      SentOnLedger(env, running, k, chunk, l);
    } else if st.attempts != [] {
      SingleLedger(l, st.attempts[0]);
      assert st.attempts == [st.attempts[0]];
    }
  }

  /** The ledger after one chunk is what the step says. */
  ghost predicate StepMatches(l: Ledger, l1: Ledger, chunk: seq<Sender>, eater: Key, st: Step) {
    && Balance(l1, eater) == st.running
    && (if st.fate.AllSent? then Swept(l, l1, chunk, eater, st.running) else l1 == l)
    && (st.fate.AllSent? ==> st.running >= RENT_EXEMPT_MIN_LAMPORTS)
  }

  lemma {:induction false} SentOnLedger(env: Env, running: nat, k: nat, chunk: seq<Sender>, l: Ledger)
    requires 1 <= |chunk| <= MAX_CHILDREN_PER_SWEEP_TX && ChunkStep(env, running, k, chunk).fate.AllSent?
    requires env.eater.pubkey != SYSTEM_PROGRAM && Holds(l, chunk, env.eater.pubkey)
    requires Balance(l, env.eater.pubkey) == running && running + TotalOf(chunk) < U64
    ensures
      var st := ChunkStep(env, running, k, chunk);
      && (LedgerAfter(l, st.attempts).Some? <==> running >= FeeOf(chunk))
      && (LedgerAfter(l, st.attempts).Some? ==> StepMatches(l, LedgerAfter(l, st.attempts).value, chunk, env.eater.pubkey, st))
  {
    SentStep(env, running, k, chunk);
    StepOfAccepted(env, chunk, l, ChunkStep(env, running, k, chunk));
  }

  lemma {:induction false} SentStep(env: Env, running: nat, k: nat, chunk: seq<Sender>)
    requires ChunkStep(env, running, k, chunk).fate.AllSent? && running + TotalOf(chunk) < U64
    ensures
      var st := ChunkStep(env, running, k, chunk);
      && st.attempts == [Attempt(SweepTx(env, chunk), true)]
      && st.running == running - FeeOf(chunk) + TotalOf(chunk) && st.running >= RENT_EXEMPT_MIN_LAMPORTS
  {
  }

  lemma {:induction false} StepOfAccepted(env: Env, chunk: seq<Sender>, l: Ledger, st: Step)
    requires 1 <= |chunk| <= MAX_CHILDREN_PER_SWEEP_TX
    requires env.eater.pubkey != SYSTEM_PROGRAM && Holds(l, chunk, env.eater.pubkey)
    requires st.fate.AllSent? && st.attempts == [Attempt(SweepTx(env, chunk), true)]
    requires st.running == Balance(l, env.eater.pubkey) - FeeOf(chunk) + TotalOf(chunk)
    requires st.running >= RENT_EXEMPT_MIN_LAMPORTS
    ensures LedgerAfter(l, st.attempts).Some? <==> Balance(l, env.eater.pubkey) >= FeeOf(chunk)
    ensures LedgerAfter(l, st.attempts).Some? ==> StepMatches(l, LedgerAfter(l, st.attempts).value, chunk, env.eater.pubkey, st)
  {
    AcceptedChunk(env, l, chunk);
  }

  lemma {:induction false} AcceptedChunk(env: Env, l: Ledger, chunk: seq<Sender>)
    requires 1 <= |chunk| <= MAX_CHILDREN_PER_SWEEP_TX
    requires env.eater.pubkey != SYSTEM_PROGRAM && Holds(l, chunk, env.eater.pubkey)
    ensures
      var r := LedgerAfter(l, [Attempt(SweepTx(env, chunk), true)]);
      && (r.Some? <==> Balance(l, env.eater.pubkey) >= FeeOf(chunk))
      && (r.Some? ==> Swept(l, r.value, chunk, env.eater.pubkey,
                            Balance(l, env.eater.pubkey) - FeeOf(chunk) + TotalOf(chunk)))
  {
    SingleLedger(l, Attempt(SweepTx(env, chunk), true));
    ChunkExecutes(env, l, chunk);
  }

  lemma {:induction false} SingleLedger(l: Ledger, a: Attempt)
    ensures LedgerAfter(l, [a]) == if a.accepted then Execute(l, a.tx) else Some(l)
  {
    assert [a][1..] == [];
  }

  // ---------------------------------------------------------------- when the accepted bytes execute

  /** Fee of the first chunk of the run that is accepted; None: none is. */
  function FirstFee(env: Env, running: nat, k: nat, work: seq<Sender>): (fee: Option<nat>)
    ensures fee.Some? ==> fee.value <= 50_000
    decreases |work|
  {
    if work == [] then None
    else
      var chunk := work[..ChunkSize(work)];
      var st := ChunkStep(env, running, k, chunk);
      if st.fate.AllSent? then Some(FeeOf(chunk))
      else FirstFee(env, st.running, st.k, work[ChunkSize(work)..])
  }

  /** The eater can pay the first accepted chunk's fee out of what it holds already.
      The source asks only what it will hold afterwards. */
  predicate Payable(env: Env, running: nat, k: nat, work: seq<Sender>) {
    match FirstFee(env, running, k, work)
    case None => true
    case Some(fee) => fee <= running
  }

  /** Ten signatures' worth is always enough, and so is the rent minimum. */
  lemma {:induction false} FundedIsPayable(env: Env, running: nat, k: nat, work: seq<Sender>)
    requires running >= 50_000
    ensures Payable(env, running, k, work)
  {
  }

  /** What the loop does to the ledger: an accepted chunk leaves the eater above the
      rent minimum, so after the first one every fee can be paid. */
  lemma {:induction false} StepPayable(env: Env, running: nat, k: nat, work: seq<Sender>)
    requires work != []
    ensures
      var chunk := work[..ChunkSize(work)];
      var st := ChunkStep(env, running, k, chunk);
      if st.fate.AllSent? then
        (Payable(env, running, k, work) <==> running >= FeeOf(chunk)) && Payable(env, st.running, st.k, work[ChunkSize(work)..])
      else
        st.running == running && (Payable(env, running, k, work) <==> Payable(env, st.running, st.k, work[ChunkSize(work)..]))
  {
    var st := ChunkStep(env, running, k, work[..ChunkSize(work)]);
    if st.fate.AllSent? {
      FundedIsPayable(env, st.running, st.k, work[ChunkSize(work)..]);
    }
  }

  /** The case the source's test lets through: a chunk that would leave the eater above
      the rent minimum, but whose fee the eater cannot pay first, does not execute. */
  lemma {:induction false} UnpayableChunk(env: Env, running: nat, chunk: seq<Sender>, l: Ledger)
    requires 1 <= |chunk| <= MAX_CHILDREN_PER_SWEEP_TX
    requires env.eater.pubkey != SYSTEM_PROGRAM && Holds(l, chunk, env.eater.pubkey)
    requires Balance(l, env.eater.pubkey) == running < FeeOf(chunk) && running + TotalOf(chunk) < U64
    requires running + TotalOf(chunk) >= RENT_EXEMPT_MIN_LAMPORTS + FeeOf(chunk)
    ensures Projected(running, chunk) >= RENT_EXEMPT_MIN_LAMPORTS
    ensures Execute(l, SweepTx(env, chunk)).None?
  {
    ChunkExecutes(env, l, chunk);
  }

  /** The ledger part of the loop, for one chunk: where it leads and what is left. */
  ghost predicate Continues(env: Env, running: nat, k: nat, work: seq<Sender>, l: Ledger) {
    && env.eater.pubkey != SYSTEM_PROGRAM && Holds(l, work, env.eater.pubkey)
    && Balance(l, env.eater.pubkey) == running && running + TotalOf(work) < U64
  }

  lemma {:induction false} StepContinues(env: Env, running: nat, k: nat, work: seq<Sender>, l: Ledger)
    requires Continues(env, running, k, work, l) && work != []
    ensures
      var n := ChunkSize(work);
      var st := ChunkStep(env, running, k, work[..n]);
      var r := LedgerAfter(l, st.attempts);
      && (r.Some? <==> (st.fate.AllSent? ==> running >= FeeOf(work[..n])))
      && (r.Some? ==>
            && StepMatches(l, r.value, work[..n], env.eater.pubkey, st)
            && Continues(env, st.running, st.k, work[n..], r.value))
  {
    var n := ChunkSize(work);
    HoldsSplit(l, work, env.eater.pubkey, n);
    TotalSplit(work, n);
    StepOnLedger(env, running, k, work[..n], l);
    StepKeepsBounds(env, running, k, work[..n]);
    var st := ChunkStep(env, running, k, work[..n]);
    if st.fate.AllSent? && LedgerAfter(l, st.attempts).Some? {
      HoldsAfterChunk(l, LedgerAfter(l, st.attempts).value, work, env.eater.pubkey, n, st.running);
    }
  }

  /** The accepted transactions of a run execute, one after another, exactly when the
      first of them can be paid for. */
  lemma {:induction false} LoopExecutesIff(env: Env, running: nat, k: nat, work: seq<Sender>, l: Ledger)
    requires Continues(env, running, k, work, l)
    ensures LedgerAfter(l, Loop(env, running, k, work).attempts).Some? <==> Payable(env, running, k, work)
    decreases |work|
  {
    if work != [] {
      var n := ChunkSize(work);
      var st := ChunkStep(env, running, k, work[..n]);
      StepContinues(env, running, k, work, l);
      StepPayable(env, running, k, work);
      LedgerAfterConcat(l, st.attempts, Loop(env, st.running, st.k, work[n..]).attempts);
      if LedgerAfter(l, st.attempts).Some? {
        LoopExecutesIff(env, st.running, st.k, work[n..], LedgerAfter(l, st.attempts).value);
      }
    }
  }

  /** Executing the accepted transactions of a whole run on any ledger that holds the
      listed balances and can pay the first fee: the bytes do what the outcomes say. */
  lemma {:induction false} LoopOnLedger(env: Env, running: nat, k: nat, work: seq<Sender>, l: Ledger)
    requires Continues(env, running, k, work, l) && Payable(env, running, k, work)
    ensures
      var d := Loop(env, running, k, work);
      var r := LedgerAfter(l, d.attempts);
      r.Some? && LedgerMatches(l, r.value, work, env.eater.pubkey, d)
    decreases |work|
  {
    if work != [] {
      var n := ChunkSize(work);
      var chunk, rest := work[..n], work[n..];
      var st := ChunkStep(env, running, k, chunk);
      StepContinues(env, running, k, work, l);
      StepPayable(env, running, k, work);
      var d := Loop(env, st.running, st.k, rest);
      LedgerAfterConcat(l, st.attempts, d.attempts);
      var l1 := LedgerAfter(l, st.attempts).value;
      LoopOnLedger(env, st.running, st.k, rest, l1);
      MatchesExtend(l, l1, LedgerAfter(l1, d.attempts).value, work, n, env.eater.pubkey,
                    Results(chunk, st.fate), d, st.fate.AllSent?);
    }
  }

  lemma {:induction false} StepKeepsBounds(env: Env, running: nat, k: nat, chunk: seq<Sender>)
    ensures ChunkStep(env, running, k, chunk).running <= running + TotalOf(chunk)
  {
  }

  // ---------------------------------------------------------------- conservation and the rent floor

  function SentTotal(rs: seq<SweepResult>): nat {
    if rs == [] then 0
    else SentTotal(rs[..|rs| - 1]) + if rs[|rs| - 1].outcome.Sent? then rs[|rs| - 1].outcome.lamports else 0
  }

  /** Signatures really present in the accepted transactions. */
  function SignaturesPaid(attempts: seq<Attempt>): nat {
    if attempts == [] then 0
    else (match ParseTransaction(attempts[0].tx)
      case Some(t) => if attempts[0].accepted then |t.signatures| else 0
      case None => 0) + SignaturesPaid(attempts[1..])
  }

  lemma {:induction false} SentTotalConcat(a: seq<SweepResult>, b: seq<SweepResult>)
    ensures SentTotal(a + b) == SentTotal(a) + SentTotal(b)
    decreases |b|
  {
    if b == [] {
      assert a + b == a;
    } else {
      assert (a + b)[..|a + b| - 1] == a + b[..|b| - 1];
      SentTotalConcat(a, b[..|b| - 1]);
    }
  }

  lemma {:induction false} SentTotalOfChunk(chunk: seq<Sender>, fate: Fate)
    ensures SentTotal(Results(chunk, fate)) == if fate.AllSent? then TotalOf(chunk) else 0
  {
    if chunk != [] {
      var n := |chunk| - 1;
      SentTotalOfChunk(chunk[..n], fate);
      assert Results(chunk, fate)[..n] == Results(chunk[..n], fate);
    }
  }

  lemma {:induction false} PaidConcat(a: seq<Attempt>, b: seq<Attempt>)
    ensures SignaturesPaid(a + b) == SignaturesPaid(a) + SignaturesPaid(b)
    decreases |a|
  {
    if a == [] {
      assert a + b == b;
    } else {
      assert (a + b)[1..] == a[1..] + b;
      PaidConcat(a[1..], b);
    }
  }

  lemma {:induction false} StepConserves(env: Env, running: nat, k: nat, chunk: seq<Sender>)
    requires 1 <= |chunk| <= MAX_CHILDREN_PER_SWEEP_TX
    requires env.eater.pubkey != SYSTEM_PROGRAM && running + TotalOf(chunk) < U64
    requires forall i :: 0 <= i < |chunk| ==> chunk[i].balance < U64 && chunk[i].key.pubkey != SYSTEM_PROGRAM
    ensures
      var st := ChunkStep(env, running, k, chunk);
      st.running + LAMPORTS_PER_SIGNATURE * SignaturesPaid(st.attempts)
        == running + SentTotal(Results(chunk, st.fate))
  {
    SentTotalOfChunk(chunk, ChunkStep(env, running, k, chunk).fate);
    StepRunning(env, running, k, chunk);
    StepPaid(env, running, k, chunk);
  }

  lemma {:induction false} StepRunning(env: Env, running: nat, k: nat, chunk: seq<Sender>)
    requires running + TotalOf(chunk) < U64
    ensures
      var st := ChunkStep(env, running, k, chunk);
      if st.fate.AllSent? then st.running + FeeOf(chunk) == running + TotalOf(chunk) else st.running == running
  {
  }

  lemma {:induction false} StepPaid(env: Env, running: nat, k: nat, chunk: seq<Sender>)
    requires 1 <= |chunk| <= MAX_CHILDREN_PER_SWEEP_TX && env.eater.pubkey != SYSTEM_PROGRAM
    requires forall i :: 0 <= i < |chunk| ==> chunk[i].balance < U64 && chunk[i].key.pubkey != SYSTEM_PROGRAM
    ensures
      var st := ChunkStep(env, running, k, chunk);
      SignaturesPaid(st.attempts) == if st.fate.AllSent? then |chunk| + 1 else 0
  {
    var st, tx := ChunkStep(env, running, k, chunk), SweepTx(env, chunk);
    if st.attempts != [] {
      SweepTxReads(env, chunk);
      PaidOne(Attempt(tx, st.fate.AllSent?), chunk, env.eater.pubkey);
      assert st.attempts == [Attempt(tx, st.fate.AllSent?)];
    }
  }

  lemma {:induction false} PaidOne(a: Attempt, chunk: seq<Sender>, eater: Key)
    requires ReadsAsSweep(a.tx, chunk, eater)
    ensures SignaturesPaid([a]) == if a.accepted then |chunk| + 1 else 0
  {
    assert [a][1..] == [];
  }

  /** Conservation: the running balance is the initial one plus everything reported
      Sent, minus 5000 for each signature found in the accepted bytes. */
  lemma {:induction false} LoopConserves(env: Env, running: nat, k: nat, work: seq<Sender>)
    requires env.eater.pubkey != SYSTEM_PROGRAM && running + TotalOf(work) < U64
    requires forall i :: 0 <= i < |work| ==> work[i].balance < U64 && work[i].key.pubkey != SYSTEM_PROGRAM
    ensures
      var d := Loop(env, running, k, work);
      d.running + LAMPORTS_PER_SIGNATURE * SignaturesPaid(d.attempts) == running + SentTotal(d.results)
    decreases |work|
  {
    if work != [] {
      var n := ChunkSize(work);
      var chunk, rest := work[..n], work[n..];
      TotalSplit(work, n);
      StepConserves(env, running, k, chunk);
      StepKeepsBounds(env, running, k, chunk);
      var st := ChunkStep(env, running, k, chunk);
      var d := Loop(env, st.running, st.k, rest);
      LoopConserves(env, st.running, st.k, rest);
      SentTotalConcat(Results(chunk, st.fate), d.results);
      PaidConcat(st.attempts, d.attempts);
    }
  }

  /** Every accepted transaction executes and leaves the eater at or above the
      rent-exempt minimum. */
  ghost predicate FloorAlong(l: Ledger, attempts: seq<Attempt>, eater: Key) {
    forall n :: 1 <= n <= |attempts| && attempts[n - 1].accepted ==> AtFloor(LedgerAfter(l, attempts[..n]), eater)
  }

  predicate AtFloor(r: Option<Ledger>, eater: Key) {
    r.Some? && Balance(r.value, eater) >= RENT_EXEMPT_MIN_LAMPORTS
  }

  lemma {:induction false} FloorConcat(l: Ledger, a: seq<Attempt>, b: seq<Attempt>, eater: Key)
    requires FloorAlong(l, a, eater)
    requires LedgerAfter(l, a).Some? && FloorAlong(LedgerAfter(l, a).value, b, eater)
    ensures FloorAlong(l, a + b, eater)
  {
    var c := a + b;
    forall n | 1 <= n <= |c| && c[n - 1].accepted
      ensures AtFloor(LedgerAfter(l, c[..n]), eater)
    {
      if n <= |a| {
        assert c[..n] == a[..n] && c[n - 1] == a[n - 1];
      } else {
        assert c[..n] == a + b[..n - |a|] && c[n - 1] == b[n - |a| - 1];
        LedgerAfterConcat(l, a, b[..n - |a|]);
      }
    }
  }

  lemma {:induction false} StepShape(env: Env, running: nat, k: nat, chunk: seq<Sender>)
    ensures
      var st := ChunkStep(env, running, k, chunk);
      |st.attempts| <= 1 && (|st.attempts| == 1 ==> (st.attempts[0].accepted <==> st.fate.AllSent?))
  {
  }

  lemma {:induction false} SingleFloor(l: Ledger, attempts: seq<Attempt>, eater: Key, sent: bool)
    requires |attempts| <= 1 && (|attempts| == 1 ==> (attempts[0].accepted <==> sent))
    requires sent ==> AtFloor(LedgerAfter(l, attempts), eater)
    ensures FloorAlong(l, attempts, eater)
  {
    assert attempts[..|attempts|] == attempts;
  }

  /** The rent floor along a whole run whose first fee can be paid, not only at its
      end: each accepted transaction executes and keeps it. */
  lemma {:induction false} RentFloorHolds(env: Env, running: nat, k: nat, work: seq<Sender>, l: Ledger)
    requires Continues(env, running, k, work, l) && Payable(env, running, k, work)
    ensures FloorAlong(l, Loop(env, running, k, work).attempts, env.eater.pubkey)
    decreases |work|
  {
    if work != [] {
      var eater := env.eater.pubkey;
      var n := ChunkSize(work);
      var st := ChunkStep(env, running, k, work[..n]);
      StepContinues(env, running, k, work, l);
      StepPayable(env, running, k, work);
      StepShape(env, running, k, work[..n]);
      SingleFloor(l, st.attempts, eater, st.fate.AllSent?);
      RentFloorHolds(env, st.running, st.k, work[n..], LedgerAfter(l, st.attempts).value);
      FloorConcat(l, st.attempts, Loop(env, st.running, st.k, work[n..]).attempts, eater);
    }
  }

  // ---------------------------------------------------------------- the whole operation

  /** The ledger holds what the sender list says: distinct wallets, none of them the
      system program, each with its listed balance. The eater may be among them. */
  ghost predicate Listed(l: Ledger, senders: seq<Sender>) {
    && (forall i, j :: 0 <= i < j < |senders| ==> senders[i].key.pubkey != senders[j].key.pubkey)
    && (forall i :: 0 <= i < |senders| ==>
          && senders[i].key.pubkey != SYSTEM_PROGRAM && senders[i].balance < U64
          && Balance(l, senders[i].key.pubkey) == senders[i].balance)
  }

  /** Filtering leaves the chunk loop distinct wallets other than the eater. */
  lemma {:induction false} WorkHolds(l: Ledger, senders: seq<Sender>, eater: Key)
    requires Listed(l, senders)
    ensures Holds(l, Work(senders, eater), eater)
  {
    if senders != [] {
      var init, s := senders[..|senders| - 1], senders[|senders| - 1];
      WorkHolds(l, init, eater);
      WorkMembers(init, eater);
      if s.balance != 0 && s.key.pubkey != eater {
        forall w | w in Work(init, eater)
          ensures w.key.pubkey != s.key.pubkey
        {
          var i :| 0 <= i < |init| && init[i] == w;
          assert senders[i] == w;
        }
        HoldsSnoc(l, Work(init, eater), s, eater);
      }
    }
  }

  lemma {:induction false} HoldsSnoc(l: Ledger, work: seq<Sender>, s: Sender, eater: Key)
    requires Holds(l, work, eater) && forall w :: w in work ==> w.key.pubkey != s.key.pubkey
    requires s.key.pubkey != eater && s.key.pubkey != SYSTEM_PROGRAM
    requires s.balance < U64 && Balance(l, s.key.pubkey) == s.balance
    ensures Holds(l, work + [s], eater)
  {
    var all := work + [s];
    assert forall i :: 0 <= i < |work| ==> all[i] == work[i] && work[i] in work;
  }

  /** `to_eater` on the ledger, for any sender list, replies and signing: its accepted
      bytes all execute exactly when the eater can pay the first accepted chunk's fee
      beforehand; then every wallet reported Sent is emptied, every other keeps its
      balance, and the eater never ends a transaction below the rent minimum. */
  lemma {:induction false} SweepSettles(
      senders: seq<Sender>, eater: SigningKey, eaterBalance: nat, sign: Signer, blockhash: Key,
      reply: nat -> Result<string, string>, l: Ledger)
    requires eater.pubkey != SYSTEM_PROGRAM && Listed(l, senders) && Balance(l, eater.pubkey) == eaterBalance
    requires eaterBalance + TotalOf(Work(senders, eater.pubkey)) < U64
    ensures
      var env, work := Env(eater, blockhash, sign, reply), Work(senders, eater.pubkey);
      var d := Loop(env, eaterBalance, 0, work);
      var r := LedgerAfter(l, d.attempts);
      && (r.Some? <==> Payable(env, eaterBalance, 0, work))
      && (r.Some? ==> LedgerMatches(l, r.value, work, eater.pubkey, d) && FloorAlong(l, d.attempts, eater.pubkey))
  {
    var env, work := Env(eater, blockhash, sign, reply), Work(senders, eater.pubkey);
    WorkHolds(l, senders, eater.pubkey);
    LoopExecutesIff(env, eaterBalance, 0, work, l);
    if Payable(env, eaterBalance, 0, work) {
      LoopOnLedger(env, eaterBalance, 0, work, l);
      RentFloorHolds(env, eaterBalance, 0, work, l);
    }
  }
}
