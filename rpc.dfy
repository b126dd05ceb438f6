/** The transport contract (the `Rpc` trait of src/rpc/types.rs). Both
    transports are modelled by one class whose answers come from an oracle: the
    answer to the transport's k-th call (counting from 0) is the oracle's answer
    for k and that request, so a chain whose state changes between calls is
    covered. The class records every call it receives. */
module Rpc {
  import opened Prelude
  import opened Errors
  import opened Proto

  /** The request messages the core sends through `query`. */
  datatype Request =
    | QueryAccountRequest(address: string)
    | GetTxRequest(hash: string)
    | PoolRequest(poolId: u64)
    | SpotPriceRequest(poolId: u64, baseAssetDenom: string, quoteAssetDenom: string)
    | QueryDenomMetadataRequest(denom: string)

  /** The decoded response messages. A response of another kind than the caller
      expects stands for bytes that do not decode as the expected message. */
  datatype Response =
    | QueryAccountResponse(account: Option<Any>)
    | GetTxResponse(tx: Bytes, txResponse: Bytes)
    | PoolResponse(pool: Option<Any>)
    | SpotPriceResponse(spotPrice: string)
    | QueryDenomMetadataResponse(metadata: Bytes)

  datatype ResponseKind = AccountKind | GetTxKind | PoolKind | SpotPriceKind | DenomMetadataKind

  predicate IsKind(resp: Response, kind: ResponseKind)
  {
    match kind
    case AccountKind => resp.QueryAccountResponse?
    case GetTxKind => resp.GetTxResponse?
    case PoolKind => resp.PoolResponse?
    case SpotPriceKind => resp.SpotPriceResponse?
    case DenomMetadataKind => resp.QueryDenomMetadataResponse?
  }

  /** A query answer read as the response message the caller expects: a
      transport error is kept, a message of another kind fails to decode. */
  function Expect(answer: Result<Response>, kind: ResponseKind): (r: Result<Response>)
    ensures r.Ok? <==> answer.Ok? && IsKind(answer.value, kind)
    ensures r.Ok? ==> r == answer
    ensures r.Err? && answer.Ok? ==> r.error == DecodeError
    ensures answer.Err? ==> r == answer
  {
    match answer
    case Err(e) => Err(e)
    case Ok(resp) => if IsKind(resp, kind) then Ok(resp) else Err(DecodeError)
  }

  datatype GasInfo = GasInfo(gasWanted: u64, gasUsed: u64)

  /** `SimulateResponse`; `gasInfo` is optional on the wire. */
  datatype SimulateResponse = SimulateResponse(gasInfo: Option<GasInfo>, result: Bytes)

  /** `tx_sync::Response` / `tx_async::Response`: same fields for both modes. */
  datatype TxResponse = TxResponse(code: u64, data: Bytes, log: string, hash: string)

  /** One call received by the transport. */
  datatype Call =
    | QueryCall(path: string, request: Request)
    | SimulateCall(payload: Bytes)
    | BroadcastSyncCall(payload: Bytes)
    | BroadcastAsyncCall(payload: Bytes)

  /** What the chain answers to the k-th call of the transport. */
  datatype Oracle = Oracle(
    query: (nat, string, Request) -> Result<Response>,
    simulate: (nat, Bytes) -> Result<SimulateResponse>,
    broadcastSync: (nat, Bytes) -> Result<TxResponse>,
    broadcastAsync: (nat, Bytes) -> Result<TxResponse>)

  datatype TransportKind = JsonRpc | Grpc

  class Transport {
    const kind: TransportKind
    const oracle: Oracle
    /** Every call received so far, oldest first. */
    var log: seq<Call>

    constructor (kind: TransportKind, oracle: Oracle)
      ensures this.kind == kind && this.oracle == oracle && log == []
    {
      this.kind := kind;
      this.oracle := oracle;
      log := [];
    }

    method Query(path: string, request: Request) returns (r: Result<Response>)
      modifies this
      ensures log == old(log) + [QueryCall(path, request)]
      ensures r == oracle.query(|old(log)|, path, request)
    {
      r := oracle.query(|log|, path, request);
      log := log + [QueryCall(path, request)];
    }

    method SimulateTx(payload: Bytes) returns (r: Result<SimulateResponse>)
      modifies this
      ensures log == old(log) + [SimulateCall(payload)]
      ensures r == oracle.simulate(|old(log)|, payload)
    {
      r := oracle.simulate(|log|, payload);
      log := log + [SimulateCall(payload)];
    }

    method BroadcastTxSync(payload: Bytes) returns (r: Result<TxResponse>)
      modifies this
      ensures log == old(log) + [BroadcastSyncCall(payload)]
      ensures r == oracle.broadcastSync(|old(log)|, payload)
    {
      r := oracle.broadcastSync(|log|, payload);
      log := log + [BroadcastSyncCall(payload)];
    }

    method BroadcastTxAsync(payload: Bytes) returns (r: Result<TxResponse>)
      modifies this
      ensures log == old(log) + [BroadcastAsyncCall(payload)]
      ensures r == oracle.broadcastAsync(|old(log)|, payload)
    {
      r := oracle.broadcastAsync(|log|, payload);
      log := log + [BroadcastAsyncCall(payload)];
    }
  }
}
