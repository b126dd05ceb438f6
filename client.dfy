/** `CosmosClient` (src/client.rs): the account resolver, the gas adjustment and
    the simulate / sign / broadcast pipeline over an abstract transport.

    The client caches the signer's account number and sequence: they are
    resolved once, when the signer is attached, and every later simulation and
    signature reads the stored pair. Nothing increments the stored sequence.

    Each operation is specified by a function of the client's state, the
    transport's oracle and the number of calls the transport had received
    before the operation; it gives the operation's result and the calls it
    sends (an `Outcome`). The class's methods are proved against these
    functions, and the lemmas below state what the source promises about them. */
module Client {
  import opened Prelude
  import opened Errors
  import opened Proto
  import opened Signing
  import opened Rpc

  const AccountQueryPath := "/cosmos.auth.v1beta1.Query/Account"
  const BaseAccountTypeUrl := "/cosmos.auth.v1beta1.BaseAccount"
  const ContinuousVestingAccountTypeUrl := "/cosmos.vesting.v1beta1.ContinuousVestingAccount"

  /** The placeholder gas limit of the dry-run signature. */
  const SimulationGas: u64 := 100

  /** The four optional fields of a client. */
  datatype ClientState = ClientState(
    chainId: Option<string>,
    signer: Option<Signer>,
    accountId: Option<u64>,
    sequenceId: Option<u64>)

  const Detached := ClientState(None, None, None, None)

  /** Everything a signature needs is present. */
  predicate Attached(st: ClientState)
  {
    st.chainId.Some? && st.signer.Some? && st.accountId.Some? && st.sequenceId.Some?
  }

  /** The result of an operation and the transport calls it made, in order. */
  datatype Outcome<+T> = Outcome(result: Result<T>, calls: seq<Call>)

  // ---------------------------------------------------------------------------
  // Account resolution (`update_sequence_id`)
  // ---------------------------------------------------------------------------

  datatype AccountNumbers = AccountNumbers(accountNumber: u64, sequence: u64)

  /** An account after dispatch on its type URL. */
  datatype AccountPayload =
    | Base(account: BaseAccount)
    | ContinuousVesting(vesting: ContinuousVestingAccount)
    | Other(typeUrl: string)

  /** Dispatch on the type URL; only the two known types are decoded. */
  function DecodeAccount(codec: Codec, any: Any): Result<AccountPayload>
  {
    if any.typeUrl == BaseAccountTypeUrl then
      match codec.decodeBaseAccount(any.value)
      case None => Err(DecodeError)
      case Some(b) => Ok(Base(b))
    else if any.typeUrl == ContinuousVestingAccountTypeUrl then
      match codec.decodeContinuousVestingAccount(any.value)
      case None => Err(DecodeError)
      case Some(v) => Ok(ContinuousVesting(v))
    else
      Ok(Other(any.typeUrl))
  }

  /** The account number and sequence an account carries, unwrapping a vesting
      account two levels down to its base account. */
  function NumbersOf(address: string, p: AccountPayload): Result<AccountNumbers>
  {
    match p
    case Base(b) => Ok(AccountNumbers(b.accountNumber, b.sequence))
    case ContinuousVesting(v) =>
      if v.baseVestingAccount.None? || v.baseVestingAccount.value.baseAccount.None? then
        Err(NoVestingBaseAccount)
      else
        var b := v.baseVestingAccount.value.baseAccount.value;
        Ok(AccountNumbers(b.accountNumber, b.sequence))
    case Other(_) => Err(AccountDoesNotExist(address))
  }

  /** What `update_sequence_id` makes of the transport's answer to the account
      query for `address`. */
  function ResolveAccount(codec: Codec, address: string, answer: Result<Response>): (r: Result<AccountNumbers>)
    ensures answer.Err? ==> r == Err(answer.error)
    ensures answer.Ok? && r.Err? ==> r.error in {AccountDoesNotExist(address), NoVestingBaseAccount, DecodeError}
    ensures r.Ok? ==>
      && answer.Ok? && answer.value.QueryAccountResponse? && answer.value.account.Some?
      && answer.value.account.value.typeUrl in {BaseAccountTypeUrl, ContinuousVestingAccountTypeUrl}
  {
    match answer
    case Err(e) => Err(e)
    case Ok(resp) =>
      if !resp.QueryAccountResponse? then Err(DecodeError)
      else if resp.account.None? then Err(AccountDoesNotExist(address))
      else
        match DecodeAccount(codec, resp.account.value)
        case Err(e) => Err(e)
        case Ok(p) => NumbersOf(address, p)
  }

  /** The client state once a resolution has finished: the pair is stored on
      success, and nothing changes on failure. */
  function AfterResolution(st: ClientState, res: Result<AccountNumbers>): ClientState
  {
    match res
    case Ok(n) => st.(accountId := Some(n.accountNumber), sequenceId := Some(n.sequence))
    case Err(_) => st
  }

  function Completed(res: Result<AccountNumbers>): Result<()>
  {
    match res
    case Ok(_) => Ok(())
    case Err(e) => Err(e)
  }

  lemma ResolveBaseAccount(codec: Codec, address: string, v: Bytes, b: BaseAccount)
    requires codec.decodeBaseAccount(v) == Some(b)
    ensures ResolveAccount(codec, address, Ok(QueryAccountResponse(Some(Any(BaseAccountTypeUrl, v)))))
            == Ok(AccountNumbers(b.accountNumber, b.sequence))
  {
  }

  /** A continuous vesting account that wraps base account `b` resolves to
      `b`'s own pair, the same pair as a base account that decodes to `b`. */
  lemma ResolveVestingAsBase(codec: Codec, address: string, w: Bytes, v: Bytes, b: BaseAccount)
    requires codec.decodeContinuousVestingAccount(w).Some?
    requires codec.decodeContinuousVestingAccount(w).value.baseVestingAccount.Some?
    requires codec.decodeContinuousVestingAccount(w).value.baseVestingAccount.value.baseAccount == Some(b)
    ensures ResolveAccount(codec, address, Ok(QueryAccountResponse(Some(Any(ContinuousVestingAccountTypeUrl, w)))))
            == Ok(AccountNumbers(b.accountNumber, b.sequence))
    ensures codec.decodeBaseAccount(v) == Some(b) ==>
            ResolveAccount(codec, address, Ok(QueryAccountResponse(Some(Any(ContinuousVestingAccountTypeUrl, w)))))
            == ResolveAccount(codec, address, Ok(QueryAccountResponse(Some(Any(BaseAccountTypeUrl, v)))))
  {
  }

  lemma ResolveVestingWithoutBase(codec: Codec, address: string, w: Bytes)
    requires codec.decodeContinuousVestingAccount(w).Some?
    requires var cva := codec.decodeContinuousVestingAccount(w).value;
      cva.baseVestingAccount.None? || cva.baseVestingAccount.value.baseAccount.None?
    ensures ResolveAccount(codec, address, Ok(QueryAccountResponse(Some(Any(ContinuousVestingAccountTypeUrl, w)))))
            == Err(NoVestingBaseAccount)
  {
  }

  /** An absent account and an account of any other type both fail with the
      signer's address, and the payload of an unknown type is never decoded. */
  lemma ResolveMissingOrUnknown(codec: Codec, address: string, any: Any)
    requires any.typeUrl != BaseAccountTypeUrl && any.typeUrl != ContinuousVestingAccountTypeUrl
    ensures ResolveAccount(codec, address, Ok(QueryAccountResponse(None))) == Err(AccountDoesNotExist(address))
    ensures ResolveAccount(codec, address, Ok(QueryAccountResponse(Some(any)))) == Err(AccountDoesNotExist(address))
  {
  }

  lemma ResolveUndecodable(codec: Codec, address: string, any: Any)
    requires any.typeUrl == BaseAccountTypeUrl ==> codec.decodeBaseAccount(any.value).None?
    requires any.typeUrl == ContinuousVestingAccountTypeUrl ==> codec.decodeContinuousVestingAccount(any.value).None?
    requires any.typeUrl in {BaseAccountTypeUrl, ContinuousVestingAccountTypeUrl}
    ensures ResolveAccount(codec, address, Ok(QueryAccountResponse(Some(any)))) == Err(DecodeError)
  {
  }

  // ---------------------------------------------------------------------------
  // Gas adjustment (`sign_tx`)
  // ---------------------------------------------------------------------------

  /** `gas_used` multiplied in place by `100 + pct` and then divided in place by
      100, on `u64`: the multiplication wraps modulo 2^64 as in a release build,
      the division truncates. Without overflow the result is the floor of
      `gasUsed * (100 + pct) / 100`, and never below `gasUsed`. */
  function ScaleGas(gasUsed: u64, percent: u8): (r: u64)
    ensures gasUsed * (100 + percent) < U64_LIMIT ==>
      100 * r <= gasUsed * (100 + percent) < 100 * r + 100
    ensures gasUsed * (100 + percent) < U64_LIMIT ==> gasUsed <= r
  {
    var product := (gasUsed * (100 + percent)) % U64_LIMIT;
    assert gasUsed * (100 + percent) < U64_LIMIT ==> product == gasUsed * 100 + gasUsed * percent;
    product / 100
  }

  lemma ScaleGasExamples()
    ensures ScaleGas(100000, 20) == 120000
    ensures ScaleGas(1, 50) == 1
    ensures ScaleGas(1, 255) == 3
    ensures ScaleGas(7, 0) == 7
  {
  }

  /** Without overflow, more gas used or a larger percentage never gives a
      smaller gas limit. */
  lemma ScaleGasMonotonic(a: u64, b: u64, p: u8, q: u8)
    requires a <= b && p <= q
    requires b * (100 + q) < U64_LIMIT
    ensures ScaleGas(a, p) <= ScaleGas(b, q)
  {
    assert a * (100 + p) <= b * (100 + p) <= b * (100 + q);
  }

  // ---------------------------------------------------------------------------
  // Simulation, real signature and broadcast
  // ---------------------------------------------------------------------------

  /** A signature with the stored chain id, account number and sequence. */
  function SignWith(st: ClientState, gas: u64, body: Body): Result<Bytes>
  {
    if !Attached(st) then Err(NoSignerAttached)
    else Sign(st.signer.value, st.chainId.value, st.accountId.value, st.sequenceId.value, gas, body)
  }

  /** `simulate_tx` against the transport whose `n` earlier calls are done. */
  function SimulateOutcome(st: ClientState, o: Oracle, n: nat, body: Body): (out: Outcome<SimulateResponse>)
    ensures out.result.Ok? ==> Attached(st)
    ensures |out.calls| <= 1 && forall c :: c in out.calls ==> c.SimulateCall?
  {
    match SignWith(st, SimulationGas, body)
    case Err(e) => Outcome(Err(e), [])
    case Ok(tx) => Outcome(o.simulate(n, tx), [SimulateCall(tx)])
  }

  /** `sign_tx`: simulate, reject a reply without gas information, scale the
      gas used by the signer's percentage and sign again. */
  function SignOutcome(st: ClientState, o: Oracle, n: nat, body: Body): (out: Outcome<Bytes>)
    ensures out.result.Ok? ==> Attached(st)
    ensures |out.calls| <= 1 && forall c :: c in out.calls ==> c.SimulateCall?
  {
    var sim := SimulateOutcome(st, o, n, body);
    match sim.result
    case Err(e) => Outcome(Err(e), sim.calls)
    case Ok(resp) =>
      match resp.gasInfo
      case None => Outcome(Err(CannotSimulateTxGasFee), sim.calls)
      case Some(g) =>
        Outcome(SignWith(st, ScaleGas(g.gasUsed, st.signer.value.gasAdjustmentPercent), body), sim.calls)
  }

  datatype BroadcastMode = Sync | Async

  function BroadcastCall(mode: BroadcastMode, payload: Bytes): Call
  {
    match mode
    case Sync => BroadcastSyncCall(payload)
    case Async => BroadcastAsyncCall(payload)
  }

  function BroadcastAnswer(o: Oracle, mode: BroadcastMode, n: nat, payload: Bytes): Result<TxResponse>
  {
    match mode
    case Sync => o.broadcastSync(n, payload)
    case Async => o.broadcastAsync(n, payload)
  }

  /** `broadcast_tx_sync` / `broadcast_tx_async`: sign for real, then broadcast. */
  function BroadcastOutcome(mode: BroadcastMode, st: ClientState, o: Oracle, n: nat, body: Body): (out: Outcome<TxResponse>)
    ensures |out.calls| <= 2
  {
    var signed := SignOutcome(st, o, n, body);
    match signed.result
    case Err(e) => Outcome(Err(e), signed.calls)
    case Ok(tx) =>
      Outcome(BroadcastAnswer(o, mode, n + |signed.calls|, tx), signed.calls + [BroadcastCall(mode, tx)])
  }

  /** Without all four fields every operation fails with `NoSignerAttached`
      before any transport call. */
  lemma NoSignerNoTransportCall(mode: BroadcastMode, st: ClientState, o: Oracle, n: nat, body: Body)
    requires !Attached(st)
    ensures SimulateOutcome(st, o, n, body) == Outcome(Err(NoSignerAttached), [])
    ensures SignOutcome(st, o, n, body) == Outcome(Err(NoSignerAttached), [])
    ensures BroadcastOutcome(mode, st, o, n, body) == Outcome(Err(NoSignerAttached), [])
  {
  }

  /** With all four fields set the dry run signs with gas 100 and the stored
      account number and sequence; a signing failure is returned without any
      transport call, otherwise the transport's simulation reply is returned. */
  lemma SimulateSignsWithPlaceholderGas(st: ClientState, o: Oracle, n: nat, body: Body)
    requires Attached(st)
    ensures var tx := Sign(st.signer.value, st.chainId.value, st.accountId.value, st.sequenceId.value, 100, body);
      SimulateOutcome(st, o, n, body)
      == if tx.Ok? then Outcome(o.simulate(n, tx.value), [SimulateCall(tx.value)]) else Outcome(Err(tx.error), [])
  {
  }

  /** A simulation reply without gas information stops the signature. */
  lemma SignWithoutGasInfo(st: ClientState, o: Oracle, n: nat, body: Body)
    requires SimulateOutcome(st, o, n, body).result.Ok?
    requires SimulateOutcome(st, o, n, body).result.value.gasInfo.None?
    ensures SignOutcome(st, o, n, body) == Outcome(Err(CannotSimulateTxGasFee), SimulateOutcome(st, o, n, body).calls)
  {
  }

  /** A successful real signature comes after exactly one dry run; both
      signatures use the stored chain id, account number and sequence, and only
      the gas differs: 100 for the dry run, the scaled gas used for the real one. */
  lemma SignReusesStoredAccount(st: ClientState, o: Oracle, n: nat, body: Body)
    requires Attached(st)
    ensures var s, c, a, q := st.signer.value, st.chainId.value, st.accountId.value, st.sequenceId.value;
      SignOutcome(st, o, n, body).result.Ok? ==>
      && Sign(s, c, a, q, SimulationGas, body).Ok?
      && var sim := o.simulate(n, Sign(s, c, a, q, SimulationGas, body).value);
      && SignOutcome(st, o, n, body).calls == [SimulateCall(Sign(s, c, a, q, SimulationGas, body).value)]
      && sim.Ok? && sim.value.gasInfo.Some?
      && SignOutcome(st, o, n, body).result == Sign(s, c, a, q, ScaleGas(sim.value.gasInfo.value.gasUsed, s.gasAdjustmentPercent), body)
  {
  }

  /** The transport's broadcast is reached only when the real signature
      succeeded, with exactly those bytes, as the last call; otherwise the
      signing error is returned unchanged. */
  lemma BroadcastOnlyAfterSign(mode: BroadcastMode, st: ClientState, o: Oracle, n: nat, body: Body)
    ensures var signed, out := SignOutcome(st, o, n, body), BroadcastOutcome(mode, st, o, n, body);
      && (signed.result.Err? ==> out == Outcome(Err(signed.result.error), signed.calls))
      && (signed.result.Ok? ==>
            && out.calls == signed.calls + [BroadcastCall(mode, signed.result.value)]
            && out.result == BroadcastAnswer(o, mode, n + |signed.calls|, signed.result.value))
      && (forall c :: c in out.calls && !c.SimulateCall? ==> signed.result.Ok?)
  {
  }

  // ---------------------------------------------------------------------------
  // The client object
  // ---------------------------------------------------------------------------

  class CosmosClient {
    var chainId: Option<string>
    var signer: Option<Signer>
    var accountId: Option<u64>
    var sequenceId: Option<u64>
    /** The transport; its log records every call the client makes. */
    const rpc: Transport
    /** The protobuf decoders. */
    const codec: Codec

    function State(): ClientState
      reads this
    {
      ClientState(chainId, signer, accountId, sequenceId)
    }

    /** `with_json_rpc`: a client over the JSON-RPC transport, with nothing attached. */
    constructor WithJsonRpc(oracle: Oracle, codec: Codec)
      ensures State() == Detached
      ensures fresh(rpc) && rpc.kind == JsonRpc && rpc.oracle == oracle && rpc.log == [] && this.codec == codec
    {
      rpc := new Transport(JsonRpc, oracle);
      this.codec := codec;
      chainId, signer, accountId, sequenceId := None, None, None, None;
    }

    /** `with_grpc`: a client over the gRPC transport, with nothing attached. */
    constructor WithGrpc(oracle: Oracle, codec: Codec)
      ensures State() == Detached
      ensures fresh(rpc) && rpc.kind == Grpc && rpc.oracle == oracle && rpc.log == [] && this.codec == codec
    {
      rpc := new Transport(Grpc, oracle);
      this.codec := codec;
      chainId, signer, accountId, sequenceId := None, None, None, None;
    }

    /** `signer()`: the attached signer, if any. */
    function CurrentSigner(): (r: Option<Signer>)
      reads this
      ensures r == State().signer
    {
      signer
    }

    /** `attach_signer`: store the chain id and the signer, then resolve the
      account; on failure the two stored fields stay and the pair is unchanged. */
    method AttachSigner(chainId: string, signer: Signer) returns (r: Result<()>)
      modifies this, rpc
      ensures this.chainId == Some(chainId) && this.signer == Some(signer)
      ensures var request := QueryAccountRequest(signer.publicAddress);
        var res := ResolveAccount(codec, signer.publicAddress, rpc.oracle.query(|old(rpc.log)|, AccountQueryPath, request));
        && rpc.log == old(rpc.log) + [QueryCall(AccountQueryPath, request)]
        && r == Completed(res)
        && State() == AfterResolution(ClientState(Some(chainId), Some(signer), old(accountId), old(sequenceId)), res)
    {
      this.chainId := Some(chainId);
      this.signer := Some(signer);
      r := UpdateSequenceId();
    }

    /** `update_sequence_id`: query the signer's account and store its account
      number and sequence. */
    method UpdateSequenceId() returns (r: Result<()>)
      modifies this`accountId, this`sequenceId, rpc
      ensures old(signer).None? ==> r == Err(NoSignerAttached) && rpc.log == old(rpc.log) && State() == old(State())
      ensures old(signer).Some? ==>
        var address := old(signer).value.publicAddress;
        var request := QueryAccountRequest(address);
        var res := ResolveAccount(codec, address, rpc.oracle.query(|old(rpc.log)|, AccountQueryPath, request));
        && rpc.log == old(rpc.log) + [QueryCall(AccountQueryPath, request)]
        && r == Completed(res)
        && State() == AfterResolution(old(State()), res)
    {
      if signer.None? {
        return Err(NoSignerAttached);
      }
      var address := signer.value.publicAddress;
      var answer := rpc.Query(AccountQueryPath, QueryAccountRequest(address));
      if answer.Err? {
        return Err(answer.error);
      }
      if !answer.value.QueryAccountResponse? {
        return Err(DecodeError);
      }
      if answer.value.account.None? {
        return Err(AccountDoesNotExist(address));
      }
      var account := answer.value.account.value;
      if account.typeUrl == BaseAccountTypeUrl {
        var decoded := codec.decodeBaseAccount(account.value);
        if decoded.None? {
          return Err(DecodeError);
        }
        sequenceId := Some(decoded.value.sequence);
        accountId := Some(decoded.value.accountNumber);
        return Ok(());
      } else if account.typeUrl == ContinuousVestingAccountTypeUrl {
        var decoded := codec.decodeContinuousVestingAccount(account.value);
        if decoded.None? {
          return Err(DecodeError);
        }
        if decoded.value.baseVestingAccount.None? {
          return Err(NoVestingBaseAccount);
        }
        var base := decoded.value.baseVestingAccount.value.baseAccount;
        if base.None? {
          return Err(NoVestingBaseAccount);
        }
        sequenceId := Some(base.value.sequence);
        accountId := Some(base.value.accountNumber);
        return Ok(());
      }
      r := Err(AccountDoesNotExist(address));
    }

    /** `query`: the transport's generic query. */
    method Query(path: string, request: Request) returns (r: Result<Response>)
      modifies rpc
      ensures rpc.log == old(rpc.log) + [QueryCall(path, request)]
      ensures r == rpc.oracle.query(|old(rpc.log)|, path, request)
    {
      r := rpc.Query(path, request);
    }

    /** `simulate_tx`. It changes no field of the client. */
    method SimulateTx(body: Body) returns (r: Result<SimulateResponse>)
      modifies rpc
      ensures var out := SimulateOutcome(State(), rpc.oracle, |old(rpc.log)|, body);
        r == out.result && rpc.log == old(rpc.log) + out.calls
    {
      if signer.None? || chainId.None? || accountId.None? || sequenceId.None? {
        return Err(NoSignerAttached);
      }
      var tx := Sign(signer.value, chainId.value, accountId.value, sequenceId.value, SimulationGas, body);
      if tx.Err? {
        return Err(tx.error);
      }
      r := rpc.SimulateTx(tx.value);
    }

    /** `sign_tx`. The second look-up of the signer and of the stored fields
      cannot fail once the dry run has succeeded, and is not repeated here. */
    method SignTx(body: Body) returns (r: Result<Bytes>)
      modifies rpc
      ensures var out := SignOutcome(State(), rpc.oracle, |old(rpc.log)|, body);
        r == out.result && rpc.log == old(rpc.log) + out.calls
    {
      var simulation := SimulateTx(body);
      if simulation.Err? {
        return Err(simulation.error);
      }
      if simulation.value.gasInfo.None? {
        return Err(CannotSimulateTxGasFee);
      }
      var gas: u64 := simulation.value.gasInfo.value.gasUsed;
      gas := (gas * (100 + signer.value.gasAdjustmentPercent)) % U64_LIMIT;
      gas := gas / 100;
      r := Sign(signer.value, chainId.value, accountId.value, sequenceId.value, gas, body);
    }

    /** `broadcast_tx_async`. It changes no field of the client. */
    method BroadcastTxAsync(body: Body) returns (r: Result<TxResponse>)
      modifies rpc
      ensures var out := BroadcastOutcome(Async, State(), rpc.oracle, |old(rpc.log)|, body);
        r == out.result && rpc.log == old(rpc.log) + out.calls
    {
      var payload := SignTx(body);
      if payload.Err? {
        return Err(payload.error);
      }
      r := rpc.BroadcastTxAsync(payload.value);
    }

    /** `broadcast_tx_sync`. It changes no field of the client. */
    method BroadcastTxSync(body: Body) returns (r: Result<TxResponse>)
      modifies rpc
      ensures var out := BroadcastOutcome(Sync, State(), rpc.oracle, |old(rpc.log)|, body);
        r == out.result && rpc.log == old(rpc.log) + out.calls
    {
      var payload := SignTx(body);
      if payload.Err? {
        return Err(payload.error);
      }
      r := rpc.BroadcastTxSync(payload.value);
    }
  }
}
