/** What a sweep decides, chunk by chunk, in terms of balances, fees and replies alone
    (src/keys/sweep.rs). */
module SweepLaws {
  import opened Common
  import opened WireFormat
  import opened TransferTx
  import opened Sweep

  // ---------------------------------------------------------------- who is swept, in which order

  /** Both filters keep the list's order: they take lists apart and singletons as they
      should, which leaves no other choice. */
  lemma {:induction false} WorkSplits(a: seq<Sender>, b: seq<Sender>, eater: Key)
    ensures Work(a + b, eater) == Work(a, eater) + Work(b, eater)
    decreases |b|
  {
    if b == [] {
      assert a + b == a;
    } else {
      WorkSplits(a, b[..|b| - 1], eater);
      assert (a + b)[..|a + b| - 1] == a + b[..|b| - 1];
    }
  }

  lemma {:induction false} SelvesSplit(a: seq<Sender>, b: seq<Sender>, eater: Key)
    ensures Selves(a + b, eater) == Selves(a, eater) + Selves(b, eater)
    decreases |b|
  {
    if b == [] {
      assert a + b == a;
    } else {
      SelvesSplit(a, b[..|b| - 1], eater);
      assert (a + b)[..|a + b| - 1] == a + b[..|b| - 1];
    }
  }

  lemma {:induction false} FiltersOfOne(s: Sender, eater: Key)
    ensures Work([s], eater) == if s.balance > 0 && s.key.pubkey != eater then [s] else []
    ensures Selves([s], eater) == if s.balance > 0 && s.key.pubkey == eater then [s] else []
  {
    assert [s][..0] == [];
  }

  // ---------------------------------------------------------------- one chunk

  /** All wallets of a list skipped for one reason. */
  ghost predicate SkippedFor(results: seq<SweepResult>, ss: seq<Sender>, reason: SkipReason) {
    |results| == |ss| && forall i :: 0 <= i < |ss| ==> results[i] == SweepResult(ss[i].name, Skipped(reason))
  }

  /** What becomes of a chunk when the eater's running balance is `running` and k
      transactions have been sent: nothing is sent if the rent minimum would not be
      left once the fee of one signature per wallet and the eater's is paid; otherwise
      the k-th reply decides between sent and failed, and only an acceptance moves the
      running balance. */
  ghost predicate Decided(env: Env, chunk: seq<Sender>, running: nat, k: nat,
                          results: seq<SweepResult>, attempts: seq<Attempt>, running': nat, k': nat) {
    var fee := 5_000 * (|chunk| + 1);
    if running + TotalOf(chunk) < 890_880 + fee then
      SkippedFor(results, chunk, BelowRentExempt) && attempts == [] && running' == running && k' == k
    else
      && |results| == |chunk| && k' == k + 1
      && match env.reply(k)
         case Ok(sig) =>
           && running' == running + TotalOf(chunk) - fee && attempts == [Attempt(SweepTx(env, chunk), true)]
           && forall i :: 0 <= i < |chunk| ==> results[i] == SweepResult(chunk[i].name, Sent(chunk[i].balance, sig))
         case Err(e) =>
           && running' == running && attempts == [Attempt(SweepTx(env, chunk), false)]
           && forall i :: 0 <= i < |chunk| ==> results[i] == SweepResult(chunk[i].name, Failed(e))
  }

  lemma {:induction false} StepDecided(env: Env, running: nat, k: nat, chunk: seq<Sender>)
    requires running + TotalOf(chunk) < U64
    ensures
      var st := ChunkStep(env, running, k, chunk);
      Decided(env, chunk, running, k, Results(chunk, st.fate), st.attempts, st.running, st.k)
  {
  }

  lemma {:induction false} StepSends(env: Env, running: nat, k: nat, chunk: seq<Sender>)
    ensures ChunkStep(env, running, k, chunk).k == k + |ChunkStep(env, running, k, chunk).attempts|
  {
  }

  // ---------------------------------------------------------------- the whole loop

  /** A run over the work list, nine wallets at a time: each chunk is decided on the
      running balance and the number of transactions that the ones before it left, and
      results and transactions follow one another in that order. */
  ghost predicate SweepRun(env: Env, running: nat, k: nat, work: seq<Sender>,
                           results: seq<SweepResult>, attempts: seq<Attempt>)
    decreases |work|
  {
    && |results| == |work|
    && if work == [] then attempts == []
       else
         var n := FirstNine(work);
         exists running': nat, k': nat ::
           && HeadDecided(env, running, k, work, results, attempts, running', k')
           && SweepRun(env, running', k', work[n..], results[n..], attempts[k' - k..])
  }

  function FirstNine(work: seq<Sender>): (n: nat)
    ensures n <= |work| && (work != [] ==> n > 0)
  {
    if |work| < 9 then |work| else 9
  }

  ghost predicate HeadDecided(env: Env, running: nat, k: nat, work: seq<Sender>, results: seq<SweepResult>,
                              attempts: seq<Attempt>, running': nat, k': nat) {
    && k <= k' <= k + |attempts| && |results| == |work|
    && Decided(env, work[..FirstNine(work)], running, k, results[..FirstNine(work)], attempts[..k' - k], running', k')
  }

  lemma {:induction false} RunExtends(
      env: Env, running: nat, k: nat, work: seq<Sender>, rs: seq<SweepResult>, sent: seq<Attempt>,
      running': nat, k': nat, results: seq<SweepResult>, attempts: seq<Attempt>)
    requires work != [] && |rs| == FirstNine(work) && k' == k + |sent|
    requires Decided(env, work[..FirstNine(work)], running, k, rs, sent, running', k')
    requires SweepRun(env, running', k', work[FirstNine(work)..], results, attempts)
    ensures SweepRun(env, running, k, work, rs + results, sent + attempts)
  {
    assert (rs + results)[..|rs|] == rs && (rs + results)[|rs|..] == results;
    assert (sent + attempts)[..|sent|] == sent && (sent + attempts)[|sent|..] == attempts;
    assert HeadDecided(env, running, k, work, rs + results, sent + attempts, running', k');
  }

  /** The chunk loop, for any balances and replies. */
  lemma {:induction false} LoopIsSweepRun(env: Env, running: nat, k: nat, work: seq<Sender>)
    requires running + TotalOf(work) < U64
    ensures
      var d := Loop(env, running, k, work);
      SweepRun(env, running, k, work, d.results, d.attempts)
    decreases |work|
  {
    if work != [] {
      var n := ChunkSize(work);
      var st := ChunkStep(env, running, k, work[..n]);
      TotalSplit(work, n);
      StepKeepsBounds(env, running, k, work[..n]);
      LoopIsSweepRun(env, st.running, st.k, work[n..]);
      LoopExtends(env, running, k, work);
    }
  }

  lemma {:induction false} LoopExtends(env: Env, running: nat, k: nat, work: seq<Sender>)
    requires work != [] && running + TotalOf(work[..ChunkSize(work)]) < U64
    requires
      var st := ChunkStep(env, running, k, work[..ChunkSize(work)]);
      var d := Loop(env, st.running, st.k, work[ChunkSize(work)..]);
      SweepRun(env, st.running, st.k, work[ChunkSize(work)..], d.results, d.attempts)
    ensures
      var d := Loop(env, running, k, work);
      SweepRun(env, running, k, work, d.results, d.attempts)
  {
    var n := FirstNine(work);
    assert n == ChunkSize(work);
    var st := ChunkStep(env, running, k, work[..n]);
    StepDecided(env, running, k, work[..n]);
    StepSends(env, running, k, work[..n]);
    var d := Loop(env, st.running, st.k, work[n..]);
    RunExtends(env, running, k, work, Results(work[..n], st.fate), st.attempts, st.running, st.k, d.results, d.attempts);
  }

  /** What `to_eater` reports, in every case: the eater's own entries first; nothing
      more without work; every wallet skipped in debug mode; the blockhash error when
      there is no blockhash; otherwise the results of the chunks. */
  ghost predicate SweepReported(
      senders: seq<Sender>, eater: SigningKey, eaterBalance: nat, debug: bool, sign: Signer,
      latestBlockhash: Result<Key, string>, reply: nat -> Result<string, string>,
      r: Result<seq<SweepResult>, string>) {
    var selves, work := Selves(senders, eater.pubkey), Work(senders, eater.pubkey);
    if work != [] && !debug && latestBlockhash.Err? then r == Err(latestBlockhash.error)
    else
      && r.Ok? && |selves| <= |r.value| && SkippedFor(r.value[..|selves|], selves, DestinationIsSource)
      && var rest := r.value[|selves|..];
         if work == [] then rest == []
         else if debug then SkippedFor(rest, work, DebugMode)
         else exists attempts ::
                SweepRun(Env(eater, latestBlockhash.value, sign, reply), eaterBalance, 0, work, rest, attempts)
  }

  lemma {:induction false} SweepReports(
      senders: seq<Sender>, eater: SigningKey, eaterBalance: nat, debug: bool, sign: Signer,
      latestBlockhash: Result<Key, string>, reply: nat -> Result<string, string>)
    requires eaterBalance + TotalOf(Work(senders, eater.pubkey)) < U64
    ensures SweepReported(senders, eater, eaterBalance, debug, sign, latestBlockhash, reply,
                          Outcomes(senders, eater, eaterBalance, debug, sign, latestBlockhash, reply))
  {
    var r := Outcomes(senders, eater, eaterBalance, debug, sign, latestBlockhash, reply);
    var selves, work := Selves(senders, eater.pubkey), Work(senders, eater.pubkey);
    if r.Ok? {
      assert r.value[..|selves|] == Results(selves, AllSkipped(DestinationIsSource));
      if work != [] && !debug {
        var env := Env(eater, latestBlockhash.value, sign, reply);
        LoopIsSweepRun(env, eaterBalance, 0, work);
        assert r.value[|selves|..] == Loop(env, eaterBalance, 0, work).results;
      } else if debug {
        assert r.value[|selves|..] == if work == [] then [] else Results(work, AllSkipped(DebugMode));
      }
    }
  }
}
