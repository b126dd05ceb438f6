/** The Tx module wrapper (src/cosmos/tx.rs): delegation to the client, the
    transaction look-up by hash, and the bounded confirmation poller. */
module CosmosTx {
  import opened Prelude
  import opened Errors
  import opened Proto
  import opened Rpc
  import opened Client

  const GetTxPath := "/cosmos.tx.v1beta1.Service/GetTx"

  /** At most this many look-ups, each failed one followed by a sleep. */
  const MaxAttempts: nat := 60
  const SleepSeconds: nat := 3

  /** The answer `get_tx(hash)` receives when it is the transport's `k`-th call. */
  function LookupAnswer(o: Oracle, k: nat, hash: string): Result<Response>
  {
    Expect(o.query(k, GetTxPath, GetTxRequest(hash)), GetTxKind)
  }

  /** The answer to the poller's attempt `j` (counting from 0) when its first
      look-up was the transport's `n`-th call. */
  function Attempt(o: Oracle, n: nat, hash: string, j: nat): Result<Response>
  {
    LookupAnswer(o, n + j, hash)
  }

  // ---------------------------------------------------------------------------
  // The poller as a function of the chain's answers
  // ---------------------------------------------------------------------------

  /** What the poller returns, how many look-ups it made and how many times it slept. */
  datatype PollTrace = PollTrace(result: Result<Response>, lookups: nat, sleeps: nat)

  /** The poller from attempt `attempt` (counting from 0) on, when its first
      look-up was the transport's `n`-th call. A failed look-up is followed by
      a sleep, a successful one ends the poll, and the only error it returns
      is the timeout. */
  function PollFrom(o: Oracle, n: nat, hash: string, attempt: nat): (t: PollTrace)
    ensures t.result.Err? ==> t.result.error == TXPollingTimeout && t.sleeps == t.lookups
    ensures t.result.Ok? ==> t.sleeps + 1 == t.lookups
    decreases MaxAttempts - attempt
  {
    if attempt >= MaxAttempts then PollTrace(Err(TXPollingTimeout), 0, 0)
    else
      var answer := Attempt(o, n, hash, attempt);
      if answer.Ok? then PollTrace(answer, 1, 0)
      else
        var rest := PollFrom(o, n, hash, attempt + 1);
        PollTrace(rest.result, rest.lookups + 1, rest.sleeps + 1)
  }

  /** `poll_for_tx` as a function: it times out exactly when none of the 60
      look-ups succeeds, and makes at most 60 of them. */
  function Poll(o: Oracle, n: nat, hash: string): (t: PollTrace)
    ensures t.result.Err? <==> forall j :: 0 <= j < MaxAttempts ==> Attempt(o, n, hash, j).Err?
    ensures t.lookups <= MaxAttempts
  {
    PollTimesOutIffNoneFound(o, n, hash, 0);
    PollBounded(o, n, hash, 0);
    PollFrom(o, n, hash, 0)
  }

  /** From attempt `attempt` on, the poller times out if and only if every
      remaining look-up fails. */
  lemma {:induction false} PollTimesOutIffNoneFound(o: Oracle, n: nat, hash: string, attempt: nat)
    ensures PollFrom(o, n, hash, attempt).result.Err?
            <==> forall j :: attempt <= j < MaxAttempts ==> Attempt(o, n, hash, j).Err?
    decreases MaxAttempts - attempt
  {
    if attempt < MaxAttempts && Attempt(o, n, hash, attempt).Err? {
      PollTimesOutIffNoneFound(o, n, hash, attempt + 1);
    }
  }

  /** The poller never makes more than 60 look-ups, and sleeps at most once per look-up. */
  lemma {:induction false} PollBounded(o: Oracle, n: nat, hash: string, attempt: nat)
    requires attempt <= MaxAttempts
    ensures PollFrom(o, n, hash, attempt).lookups <= MaxAttempts - attempt
    ensures PollFrom(o, n, hash, attempt).sleeps <= PollFrom(o, n, hash, attempt).lookups
    decreases MaxAttempts - attempt
  {
    if attempt < MaxAttempts && Attempt(o, n, hash, attempt).Err? {
      PollBounded(o, n, hash, attempt + 1);
    }
  }

  /** If attempt `k` (1 <= k <= 60) is the first that finds the transaction, the
      poller returns that answer after exactly `k` look-ups and `k - 1` sleeps. */
  lemma {:induction false} PollFirstFound(o: Oracle, n: nat, hash: string, attempt: nat, k: nat)
    requires attempt < k <= MaxAttempts
    requires forall j :: attempt <= j < k - 1 ==> Attempt(o, n, hash, j).Err?
    requires Attempt(o, n, hash, k - 1).Ok?
    ensures PollFrom(o, n, hash, attempt) == PollTrace(Attempt(o, n, hash, k - 1), k - attempt, k - 1 - attempt)
    decreases k - attempt
  {
    if attempt < k - 1 {
      PollFirstFound(o, n, hash, attempt + 1, k);
    }
  }

  /** If no attempt finds the transaction, the poller makes exactly 60 look-ups
      and 60 sleeps (one after the last look-up too) and times out. */
  lemma {:induction false} PollTimesOut(o: Oracle, n: nat, hash: string, attempt: nat)
    requires attempt <= MaxAttempts
    requires forall j :: attempt <= j < MaxAttempts ==> Attempt(o, n, hash, j).Err?
    ensures PollFrom(o, n, hash, attempt)
            == PollTrace(Err(TXPollingTimeout), MaxAttempts - attempt, MaxAttempts - attempt)
    decreases MaxAttempts - attempt
  {
    if attempt < MaxAttempts {
      PollTimesOut(o, n, hash, attempt + 1);
    }
  }

  /** Conversely, the poller's result is either the timeout or the answer of its
      last look-up, which is the first successful one: a failed look-up is
      treated as "not found yet", whatever its error, and never returned. */
  lemma {:induction false} PollResultIsFirstFound(o: Oracle, n: nat, hash: string, attempt: nat)
    requires attempt <= MaxAttempts
    ensures var t := PollFrom(o, n, hash, attempt);
      t.result.Err? ==> t.result.error == TXPollingTimeout && t.lookups == t.sleeps == MaxAttempts - attempt
    ensures var t := PollFrom(o, n, hash, attempt);
      t.result.Ok? ==>
        && 1 <= t.lookups && t.sleeps == t.lookups - 1
        && t.result == Attempt(o, n, hash, attempt + t.lookups - 1)
        && forall j :: attempt <= j < attempt + t.lookups - 1 ==> Attempt(o, n, hash, j).Err?
    decreases MaxAttempts - attempt
  {
    if attempt < MaxAttempts && Attempt(o, n, hash, attempt).Err? {
      PollResultIsFirstFound(o, n, hash, attempt + 1);
    }
  }

  // ---------------------------------------------------------------------------
  // The objects
  // ---------------------------------------------------------------------------

  /** The sleeps of the calling thread, in seconds, oldest first. */
  class Clock {
    var sleeps: seq<nat>

    constructor ()
      ensures sleeps == []
    {
      sleeps := [];
    }

    method Sleep(seconds: nat)
      modifies this
      ensures sleeps == old(sleeps) + [seconds]
    {
      sleeps := sleeps + [seconds];
    }
  }

  class Tx {
    const client: CosmosClient

    constructor (client: CosmosClient)
      ensures this.client == client
    {
      this.client := client;
    }

    /** `simulate`: exactly the client's `simulate_tx`. */
    method Simulate(body: Body) returns (r: Result<SimulateResponse>)
      modifies client.rpc
      ensures var out := SimulateOutcome(client.State(), client.rpc.oracle, |old(client.rpc.log)|, body);
        r == out.result && client.rpc.log == old(client.rpc.log) + out.calls
    {
      r := client.SimulateTx(body);
    }

    /** `broadcast_tx_sync`: exactly the client's. */
    method BroadcastTxSync(body: Body) returns (r: Result<TxResponse>)
      modifies client.rpc
      ensures var out := BroadcastOutcome(Sync, client.State(), client.rpc.oracle, |old(client.rpc.log)|, body);
        r == out.result && client.rpc.log == old(client.rpc.log) + out.calls
    {
      r := client.BroadcastTxSync(body);
    }

    /** `broadcast_tx_async`: exactly the client's. */
    method BroadcastTxAsync(body: Body) returns (r: Result<TxResponse>)
      modifies client.rpc
      ensures var out := BroadcastOutcome(Async, client.State(), client.rpc.oracle, |old(client.rpc.log)|, body);
        r == out.result && client.rpc.log == old(client.rpc.log) + out.calls
    {
      r := client.BroadcastTxAsync(body);
    }

    /** `get_tx`: one query on the GetTx path with the hash unchanged. */
    method GetTx(hash: string) returns (r: Result<Response>)
      modifies client.rpc
      ensures client.rpc.log == old(client.rpc.log) + [QueryCall(GetTxPath, GetTxRequest(hash))]
      ensures r == LookupAnswer(client.rpc.oracle, |old(client.rpc.log)|, hash)
    {
      var answer := client.Query(GetTxPath, GetTxRequest(hash));
      r := Expect(answer, GetTxKind);
    }

    /** `poll_for_tx`: up to 60 look-ups, a 3-second sleep after each failed one. */
    method PollForTx(hash: string, clock: Clock) returns (r: Result<Response>)
      modifies client.rpc, clock
      ensures var t := Poll(client.rpc.oracle, |old(client.rpc.log)|, hash);
        && r == t.result
        && client.rpc.log == old(client.rpc.log) + Repeat(QueryCall(GetTxPath, GetTxRequest(hash)), t.lookups)
        && clock.sleeps == old(clock.sleeps) + Repeat(SleepSeconds, t.sleeps)
    {
      ghost var o, n := client.rpc.oracle, |client.rpc.log|;
      ghost var log0, sleeps0 := client.rpc.log, clock.sleeps;
      ghost var call := QueryCall(GetTxPath, GetTxRequest(hash));
      for i := 0 to MaxAttempts
        invariant client.rpc.log == log0 + Repeat(call, i)
        invariant clock.sleeps == sleeps0 + Repeat(SleepSeconds, i)
        invariant forall j :: 0 <= j < i ==> Attempt(o, n, hash, j).Err?
      {
        var tx := GetTx(hash);
        assert tx == Attempt(o, n, hash, i);
        RepeatSnoc(call, i);
        if tx.Ok? {
          FoundAt(o, n, hash, i);
          return tx;
        }
        clock.Sleep(SleepSeconds);
        RepeatSnoc(SleepSeconds, i);
      }
      NeverFound(o, n, hash);
      r := Err(TXPollingTimeout);
    }
  }

  /** The poller's exit after the look-up of attempt `i` succeeds. */
  lemma FoundAt(o: Oracle, n: nat, hash: string, i: nat)
    requires i < MaxAttempts
    requires forall j :: 0 <= j < i ==> Attempt(o, n, hash, j).Err?
    requires Attempt(o, n, hash, i).Ok?
    ensures Poll(o, n, hash) == PollTrace(Attempt(o, n, hash, i), i + 1, i)
  {
    PollFirstFound(o, n, hash, 0, i + 1);
  }

  /** The poller's exit after 60 failed look-ups. */
  lemma NeverFound(o: Oracle, n: nat, hash: string)
    requires forall j :: 0 <= j < MaxAttempts ==> Attempt(o, n, hash, j).Err?
    ensures Poll(o, n, hash) == PollTrace(Err(TXPollingTimeout), MaxAttempts, MaxAttempts)
  {
    PollTimesOut(o, n, hash, 0);
  }

  lemma RepeatSnoc<T>(x: T, k: nat)
    ensures Repeat(x, k) + [x] == Repeat(x, k + 1)
  {
  }
}
