/** The Osmosis pool manager queries (src/osmosis/poolmanager.rs): the spot
    price request and the dispatch of a pool on its type URL. */
module OsmosisPoolManager {
  import opened Prelude
  import opened Errors
  import opened Proto
  import opened Rpc
  import opened Client

  const SpotPricePath := "/osmosis.poolmanager.v1beta1.Query/SpotPrice"
  const PoolPath := "/osmosis.poolmanager.v1beta1.Query/Pool"

  const ConcentratedPoolTypeUrl := "/osmosis.concentratedliquidity.v1beta1.Pool"
  const GammPoolTypeUrl := "/osmosis.gamm.v1beta1.Pool"
  const CosmWasmPoolTypeUrl := "/osmosis.cosmwasmpool.v1beta1.CosmWasmPool"

  /** The three kinds of liquidity pool. */
  datatype Pool =
    | Amm(amm: PoolFields)
    | ConcentratedAmm(concentrated: PoolFields)
    | CosmWasmPool(cosmWasm: PoolFields)

  /** The type URL a pool of each kind is packed under. */
  function TypeUrlOf(p: Pool): string
  {
    match p
    case Amm(_) => GammPoolTypeUrl
    case ConcentratedAmm(_) => ConcentratedPoolTypeUrl
    case CosmWasmPool(_) => CosmWasmPoolTypeUrl
  }

  function FieldsOf(p: Pool): PoolFields
  {
    match p
    case Amm(f) => f
    case ConcentratedAmm(f) => f
    case CosmWasmPool(f) => f
  }

  /** The decoder for the payload of a pool packed under `typeUrl`. */
  function DecoderFor(codec: Codec, typeUrl: string): Bytes -> Option<PoolFields>
  {
    if typeUrl == ConcentratedPoolTypeUrl then codec.decodeConcentratedPool
    else if typeUrl == GammPoolTypeUrl then codec.decodeGammPool
    else codec.decodeCosmWasmPool
  }

  predicate KnownPoolType(typeUrl: string)
  {
    typeUrl == ConcentratedPoolTypeUrl || typeUrl == GammPoolTypeUrl || typeUrl == CosmWasmPoolTypeUrl
  }

  /** The answer does not reach the `unimplemented!()` arm, which aborts the
      program: a present pool has one of the three known type URLs. */
  predicate Dispatchable(answer: Result<Response>)
  {
    answer.Ok? && answer.value.PoolResponse? && answer.value.pool.Some? ==> KnownPoolType(answer.value.pool.value.typeUrl)
  }

  /** What `pool` makes of the transport's answer to the pool query. */
  function PoolFromResponse(codec: Codec, answer: Result<Response>): (r: Result<Pool>)
    requires Dispatchable(answer)
    ensures answer.Err? ==> r == Err(answer.error)
    ensures answer == Ok(PoolResponse(None)) ==> r == Err(NotFoundPool)
    ensures r.Ok? ==>
      && answer.Ok? && answer.value.PoolResponse? && answer.value.pool.Some?
      && var any := answer.value.pool.value;
      && TypeUrlOf(r.value) == any.typeUrl
      && DecoderFor(codec, any.typeUrl)(any.value) == Some(FieldsOf(r.value))
  {
    match Expect(answer, PoolKind)
    case Err(e) => Err(e)
    case Ok(resp) =>
      match resp.pool
      case None => Err(NotFoundPool)
      case Some(any) =>
        if any.typeUrl == ConcentratedPoolTypeUrl then
          match codec.decodeConcentratedPool(any.value)
          case None => Err(DecodeError)
          case Some(f) => Ok(ConcentratedAmm(f))
        else if any.typeUrl == GammPoolTypeUrl then
          match codec.decodeGammPool(any.value)
          case None => Err(DecodeError)
          case Some(f) => Ok(Amm(f))
        else
          match codec.decodeCosmWasmPool(any.value)
          case None => Err(DecodeError)
          case Some(f) => Ok(CosmWasmPool(f))
  }

  /** Each known type URL yields its own kind of pool, holding the decoded
      payload; a payload that does not decode is a decode error. */
  lemma PoolDispatchByTypeUrl(codec: Codec, pool: Pool, v: Bytes)
    ensures var answer := Ok(PoolResponse(Some(Any(TypeUrlOf(pool), v))));
      && Dispatchable(answer)
      && (DecoderFor(codec, TypeUrlOf(pool))(v) == Some(FieldsOf(pool)) ==> PoolFromResponse(codec, answer) == Ok(pool))
      && (DecoderFor(codec, TypeUrlOf(pool))(v).None? ==> PoolFromResponse(codec, answer) == Err(DecodeError))
  {
  }

  lemma ConcentratedPoolDispatch(codec: Codec, v: Bytes, f: PoolFields)
    requires codec.decodeConcentratedPool(v) == Some(f)
    ensures PoolFromResponse(codec, Ok(PoolResponse(Some(Any(ConcentratedPoolTypeUrl, v))))) == Ok(ConcentratedAmm(f))
  {
  }

  lemma GammPoolDispatch(codec: Codec, v: Bytes, f: PoolFields)
    requires codec.decodeGammPool(v) == Some(f)
    ensures PoolFromResponse(codec, Ok(PoolResponse(Some(Any(GammPoolTypeUrl, v))))) == Ok(Amm(f))
  {
  }

  lemma CosmWasmPoolDispatch(codec: Codec, v: Bytes, f: PoolFields)
    requires codec.decodeCosmWasmPool(v) == Some(f)
    ensures PoolFromResponse(codec, Ok(PoolResponse(Some(Any(CosmWasmPoolTypeUrl, v))))) == Ok(CosmWasmPool(f))
  {
  }

  class PoolManager {
    const client: CosmosClient

    constructor (client: CosmosClient)
      ensures this.client == client
    {
      this.client := client;
    }

    /** `spot_price`: one query on the SpotPrice path carrying the pool id and
      both denominations unchanged. */
    method SpotPrice(poolId: u64, baseAssetDenom: string, quoteAssetDenom: string) returns (r: Result<Response>)
      modifies client.rpc
      ensures var request := SpotPriceRequest(poolId, baseAssetDenom, quoteAssetDenom);
        && client.rpc.log == old(client.rpc.log) + [QueryCall(SpotPricePath, request)]
        && r == Expect(client.rpc.oracle.query(|old(client.rpc.log)|, SpotPricePath, request), SpotPriceKind)
    {
      var answer := client.Query(SpotPricePath, SpotPriceRequest(poolId, baseAssetDenom, quoteAssetDenom));
      r := Expect(answer, SpotPriceKind);
    }

    /** `pool`: one query on the Pool path, then dispatch on the type URL. */
    method FetchPool(poolId: u64) returns (r: Result<Pool>)
      requires Dispatchable(client.rpc.oracle.query(|client.rpc.log|, PoolPath, PoolRequest(poolId)))
      modifies client.rpc
      ensures var answer := client.rpc.oracle.query(|old(client.rpc.log)|, PoolPath, PoolRequest(poolId));
        && client.rpc.log == old(client.rpc.log) + [QueryCall(PoolPath, PoolRequest(poolId))]
        && r == PoolFromResponse(client.codec, answer)
    {
      var answer := client.Query(PoolPath, PoolRequest(poolId));
      r := PoolFromResponse(client.codec, answer);
    }
  }
}
