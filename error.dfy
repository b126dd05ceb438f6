/** The crate's error enum and the result type every fallible operation returns
    (src/error.rs). Errors raised by foreign crates keep their variant but not
    their payload. */
module Errors {

  datatype Error =
    | TendermintRpcError          // transport failure of the JSON-RPC client
    | Bip32Error
    | ErrorReport                 // signing / sign-document failures from cosmrs
    | FromHexError
    | DecodeError                 // a protobuf payload that does not decode
    | EncodeError
    | TonicError                  // transport failure of the gRPC channel
    | TonicStatus                 // non-OK gRPC status
    | TendermintError             // e.g. a chain id that does not parse
    | UnknownCosmosMsg
    | NoSignerAttached
    | NoSubscription
    | CannotSimulateTxGasFee
    | OutOfGas
    | AccountDoesNotExist(address: string)
    | RpcError(log: string)       // JSON-RPC: the node answered with a non-OK ABCI code
    | QueryPath(path: string)
    | NoneTxResponse              // gRPC: a broadcast reply without `tx_response`
    | TXPollingTimeout
    | NoVestingBaseAccount
    | Custom(message: string)
    | NotFoundPool

  /** `CosmosResult<T>`. */
  datatype Result<+T> = Ok(value: T) | Err(error: Error)
}
