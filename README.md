# Cosmos client transaction orchestrator, modelled in Dafny

This project models the client side of a Rust library for Cosmos-SDK chains.
`CosmosClient` holds an optional chain id, signer, account number and
sequence. Attaching a signer resolves the signer's on-chain account, which is
either a base account or a continuous vesting account wrapping one. A
transaction is signed twice. The dry-run signature uses a placeholder gas of
100. The real signature uses the simulated gas used, scaled by the signer's
adjustment percentage with truncating `u64` arithmetic. The signed bytes are
then broadcast in sync or async mode. Around the client the model covers the
Tx module's bounded confirmation poller, the Osmosis pool manager's dispatch
on a pool's type URL, and the bank module's send-body construction.

Structure: one module per core source file, plus the shared `Prelude` and `Proto`:

- `prelude.dfy` (`Prelude`): `u8`/`u64`/`u128`, bytes, `Option`, `Repeat`.
- `error.dfy` (`Errors`): the crate's `Error` enum and `Result`.
- `proto.dfy` (`Proto`): the protobuf messages the core reads or builds, the
  transaction `Body` and its builder, and `Codec`, the protobuf decoders.
- `signer.dfy` (`Signing`): the signer identity and `Sign`.
- `rpc.dfy` (`Rpc`): the transport contract, as class `Transport`.
- `client.dfy` (`Client`): the resolver, the gas scaling, the specification
  functions of the pipeline, and class `CosmosClient`.
- `tx.dfy` (`CosmosTx`), `poolmanager.dfy` (`OsmosisPoolManager`),
  `bank.dfy` (`CosmosBank`): the three module wrappers as classes over a client.

How the environment is modelled:

- The transport is an oracle. The chain's answer to the transport's k-th call
  (counting from 0) is `oracle.query(k, path, request)`, and likewise for
  simulate and the two broadcasts. The chain may change between calls. The
  transport records each call in `log`. This is how the contracts state which
  calls an operation makes, and that some paths make none.
- `query` is generic in the source. Here it returns one `Response` union. A
  response of another kind than the caller expects stands for bytes that do
  not decode as the expected message, and gives `DecodeError` (`Rpc.Expect`).
  That rule is the JSON-RPC transport's, which decodes the reply itself
  (src/rpc/json_rpc.rs:45). Over gRPC, a reply that does not decode fails inside
  tonic's codec and reaches the caller as a `TonicStatus` error
  (src/rpc/grpc.rs:61). A gRPC oracle therefore answers such a call with
  `Err(TonicStatus(...))` rather than with a reply of the wrong kind.
- The protobuf decoding of `Any` payloads is supplied by the `Codec` functions;
  `None` means the bytes do not decode.
- Signing is foreign cryptography. The signer's `privateKey` is a function from
  the sign document to the signed bytes or an error. The model fixes only which
  document is signed: body, chain id, account number, sequence, fee and gas.
- Each operation is specified by a function of the client state, the oracle
  and the number of earlier transport calls (`SimulateOutcome`, `SignOutcome`,
  `BroadcastOutcome`, `PollFrom`). The function gives the result and the calls
  made. The class methods are proved against these functions, and the
  lemmas prove the source's promises about them.
- `std::thread::sleep` is the `Clock` object. It records each sleep's duration.

The client caches the account pair. It resolves the pair only in
`attach_signer` (src/client.rs:82), and both signatures read the stored fields
(src/client.rs:112-113, 155-156). Nothing increments the stored sequence.
`SimulateTx`, `SignTx` and both broadcasts have `modifies rpc` only, so they
leave every client field as it was. Two broadcasts from one client therefore
sign with the same sequence.

## Model

| member | source | states |
|---|---|---|
| `Client.CosmosClient.WithJsonRpc` | src/client.rs:42-51 | the new client has chain id, signer, account id and sequence id all `None`, over a fresh JSON-RPC transport with an empty call log |
| `Client.CosmosClient.WithGrpc` | src/client.rs:64-73 | the same for the gRPC transport |
| `Client.CosmosClient.AttachSigner` | src/client.rs:79-84 | chain id and signer are stored before the account query; exactly one account query for the signer's address is sent; on success the resolved pair is stored, on failure the two numeric fields keep their old values while chain id and signer stay set |
| `Client.CosmosClient.UpdateSequenceId` | src/client.rs:172-211 | without a signer: `NoSignerAttached`, no call, nothing changes; otherwise one query on the auth Account path for the signer's address, and the new state is the old one with the resolved pair stored, or unchanged on error |
| `Client.ResolveAccount` | src/client.rs:179-210 | a transport error is returned unchanged; the resolver's own errors are only `AccountDoesNotExist(address)`, `NoVestingBaseAccount` or `DecodeError`; success requires a present account whose type URL is BaseAccount or ContinuousVestingAccount |
| `Client.ResolveBaseAccount` | src/client.rs:187-192 | a BaseAccount payload resolves to its own account number and sequence |
| `Client.ResolveVestingAsBase` | src/client.rs:194-203 | a continuous vesting account wrapping base account B resolves to B's account number and sequence, for every codec; hence to the same pair as any BaseAccount payload that decodes to B |
| `Client.ResolveVestingWithoutBase` | src/client.rs:194-200 | a vesting account missing either the base vesting account or its base account gives `NoVestingBaseAccount` |
| `Client.ResolveMissingOrUnknown` | src/client.rs:183-210 | an absent account, and an account of any other type URL whatever the decoders do, give `AccountDoesNotExist` with the signer's address |
| `Client.ResolveUndecodable` | src/client.rs:187-195 | a known type URL whose payload does not decode gives `DecodeError` |
| `Client.ScaleGas` | src/client.rs:144-147 | without `u64` overflow the result r is the floor of `gasUsed * (100 + pct) / 100`: `100 * r <= gasUsed * (100 + pct) < 100 * r + 100`, and `gasUsed <= r` |
| `Client.ScaleGasExamples` | src/client.rs:146-147 | 100000 at 20 gives 120000; 1 at 50 gives 1 (truncation); 1 at 255 gives 3; 7 at 0 gives 7 |
| `Client.ScaleGasMonotonic` | src/client.rs:146-147 | without overflow, more gas used or a larger percentage never gives a smaller gas limit |
| `Client.SimulateOutcome` | src/client.rs:104-120 | a successful simulation implies all four fields are set; at most one transport call, and it is a simulate call |
| `Client.SignOutcome` | src/client.rs:137-161 | a successful real signature implies all four fields are set; signing makes at most one transport call, a simulate call, and never broadcasts |
| `Client.BroadcastOutcome` | src/client.rs:124-134 | a broadcast makes at most two transport calls |
| `Client.NoSignerNoTransportCall` | src/client.rs:105-113 | if any of the four fields is `None`, simulate, sign and both broadcasts return `NoSignerAttached` with no transport call |
| `Client.SimulateSignsWithPlaceholderGas` | src/client.rs:105-119 | with all fields set the dry run signs with gas exactly 100 and the stored chain id, account and sequence; a signing error is returned with no call, otherwise the simulate reply for those bytes |
| `Client.SignWithoutGasInfo` | src/client.rs:138-141 | a simulation reply without `gas_info` gives `CannotSimulateTxGasFee` after the one simulate call |
| `Client.SignReusesStoredAccount` | src/client.rs:104-161 | for a client with all four fields set, a successful real signature follows exactly one dry run; both signatures use the same stored chain id, account number and sequence; the real gas is `ScaleGas(gas_used, gas_adjustment_percent)` |
| `Client.BroadcastOnlyAfterSign` | src/client.rs:124-137 | a signing error is returned unchanged with only the signing calls; otherwise the broadcast of exactly the signed bytes is the last call and its reply is the result; no non-simulate call happens unless signing succeeded |
| `Client.CosmosClient.CurrentSigner` | src/client.rs:87-89 | the signer reported is the one in the client's state, `None` until a signer is attached |
| `Signing.SignDocDeterminesInputs` | src/signer.rs:122-148 | about `SignDocFor`, the document `Sign` (`Signer::sign`) hands to the key: for one signer, two such documents are equal iff chain id, account number, sequence, gas and body all agree, so every signature commits to each of them, and the dry run (gas 100) and the real signature sign different documents unless the scaled gas is 100 |
| `Signing.FeeAmountIgnoresGas` | src/signer.rs:122-148 | in the document `SignDocFor` builds for `Sign`, the fee amount is the signer's `gas_price` in its denomination as it is, independent of the gas limit |
| `Client.CosmosClient.Query` | src/client.rs:93-100 | one query call with path and request unchanged; the transport's answer is returned |
| `Client.CosmosClient.SimulateTx` | src/client.rs:104-120 | result and calls are those of `SimulateOutcome` on the client's unchanged state |
| `Client.CosmosClient.SignTx` | src/client.rs:137-161 | result and calls are those of `SignOutcome`; gas is multiplied and divided in place as in the source |
| `Client.CosmosClient.BroadcastTxAsync` | src/client.rs:124-127 | result and calls are those of `BroadcastOutcome(Async, …)`; no client field changes |
| `Client.CosmosClient.BroadcastTxSync` | src/client.rs:131-134 | result and calls are those of `BroadcastOutcome(Sync, …)`; no client field changes |
| `Rpc.Transport.Query` | src/rpc/types.rs:20-24 | the call is appended to the log and the oracle's answer for this call number is returned |
| `Rpc.Transport.SimulateTx` | src/rpc/types.rs:28 | the same for a simulation |
| `Rpc.Transport.BroadcastTxSync` | src/rpc/types.rs:32 | the same for a sync broadcast |
| `Rpc.Transport.BroadcastTxAsync` | src/rpc/types.rs:36 | the same for an async broadcast |
| `Rpc.Expect` | src/rpc/json_rpc.rs:45 | an answer is accepted iff it is the expected message kind; a transport error is kept; a wrong kind is `DecodeError` |
| `CosmosTx.Tx.Simulate` | src/cosmos/tx.rs:33-35 | exactly the client's simulation result and calls for the same body |
| `CosmosTx.Tx.BroadcastTxSync` | src/cosmos/tx.rs:38-40 | exactly the client's sync broadcast result and calls |
| `CosmosTx.Tx.BroadcastTxAsync` | src/cosmos/tx.rs:43-45 | exactly the client's async broadcast result and calls |
| `CosmosTx.Tx.GetTx` | src/cosmos/tx.rs:48-56 | one query on `/cosmos.tx.v1beta1.Service/GetTx` carrying the hash unchanged |
| `CosmosTx.Tx.constructor` | src/cosmos/tx.rs:28-30 | the wrapper holds the given client |
| `CosmosTx.Clock.Sleep` | src/cosmos/tx.rs:70 | a sleep of the given number of seconds is appended to the clock's record |
| `CosmosTx.PollFrom` | src/cosmos/tx.rs:62-74 | the poller from a given attempt on: the only error it returns is `TXPollingTimeout`, with one sleep per look-up; a success comes with one sleep fewer than look-ups |
| `CosmosTx.Poll` | src/cosmos/tx.rs:62-74 | `poll_for_tx` times out if and only if none of the 60 look-ups succeeds, and makes at most 60 look-ups |
| `CosmosTx.PollTimesOutIffNoneFound` | src/cosmos/tx.rs:63-73 | from any attempt on, the poller times out iff every remaining look-up fails |
| `CosmosTx.Tx.PollForTx` | src/cosmos/tx.rs:62-74 | the result, the look-ups sent (all GetTx queries for the hash) and the 3-second sleeps are exactly those of `Poll` over the chain's successive answers |
| `CosmosTx.PollBounded` | src/cosmos/tx.rs:63 | at most 60 look-ups, and no more sleeps than look-ups |
| `CosmosTx.PollFirstFound` | src/cosmos/tx.rs:63-70 | if attempt k (1 ≤ k ≤ 60) is the first success, its answer is returned after exactly k look-ups and k − 1 sleeps |
| `CosmosTx.PollTimesOut` | src/cosmos/tx.rs:63-73 | if no attempt succeeds: exactly 60 look-ups, 60 sleeps (one after the last) and `TXPollingTimeout` |
| `CosmosTx.PollResultIsFirstFound` | src/cosmos/tx.rs:64-73 | the only error ever returned is `TXPollingTimeout`, after 60 look-ups and 60 sleeps; a success is the answer of the last look-up, every earlier one failed, and sleeps are one fewer than look-ups; errors of any kind are never propagated |
| `OsmosisPoolManager.PoolFromResponse` | src/osmosis/poolmanager.rs:69-92 | a transport error is kept; an absent pool is `NotFoundPool`; a success has exactly the variant of the answer's type URL and holds that type's decoding of the payload; unknown type URLs are excluded by the precondition |
| `OsmosisPoolManager.PoolDispatchByTypeUrl` | src/osmosis/poolmanager.rs:77-89 | for each variant, its type URL gives back that variant with the decoded payload, or `DecodeError` if the payload does not decode |
| `OsmosisPoolManager.ConcentratedPoolDispatch` | src/osmosis/poolmanager.rs:78-81 | the concentrated-liquidity URL yields `ConcentratedAmm` |
| `OsmosisPoolManager.GammPoolDispatch` | src/osmosis/poolmanager.rs:82-85 | the gamm URL yields `Amm` |
| `OsmosisPoolManager.CosmWasmPoolDispatch` | src/osmosis/poolmanager.rs:86-89 | the CosmWasm URL yields `CosmWasmPool` |
| `OsmosisPoolManager.PoolManager.constructor` | src/osmosis/poolmanager.rs:29-31 | the wrapper holds the given client |
| `OsmosisPoolManager.PoolManager.SpotPrice` | src/osmosis/poolmanager.rs:44-58 | one query on `/osmosis.poolmanager.v1beta1.Query/SpotPrice` with pool id and both denominations unchanged |
| `OsmosisPoolManager.PoolManager.FetchPool` | src/osmosis/poolmanager.rs:69-92 | one query on the Pool path with the pool id; the result is `PoolFromResponse` of the answer; the `unimplemented!()` arm is a precondition |
| `CosmosBank.Bank.constructor` | src/cosmos/bank.rs:25-27 | the wrapper holds the given client |
| `CosmosBank.Bank.Send` | src/cosmos/bank.rs:46-66 | no signer: `NoSignerAttached`; otherwise a body with exactly one `MsgSend` from the signer's address with `to_address` and `amount` unchanged, the memo iff one is given (else the builder's empty default) and timeout height 0; it has no `modifies` clause, so no transport call |
| `CosmosBank.Bank.DenomMetadata` | src/cosmos/bank.rs:84-91 | one query on `/cosmos.bank.v1beta1.Query/DenomMetadata` with the denomination unchanged |

## Left out

- `Signing.Sign`: its own failures (a denomination or chain id that does not parse, src/signer.rs:134 and 143; the encoding of the sign document) are folded into the key's answer, which may be any error.
- Transports: the HTTP JSON-RPC client and the gRPC channel (src/rpc/json_rpc.rs, src/rpc/grpc.rs) are foreign network code. Their behaviour is the oracle's. Two rules are possible oracle answers and are not enforced: a non-OK ABCI code gives `RpcError(log)`, and a gRPC broadcast reply without `tx_response` gives `NoneTxResponse`.
- Client construction failure: `JsonRpc::new` / `Grpc::new` can fail on a bad endpoint. The endpoint and that failure are not modelled; the constructors take the oracle directly.
- Signer construction (src/signer.rs): mnemonic generation, BIP-39/BIP-32 derivation, hex key parsing and secp256k1 signing are foreign cryptography. So determinism of key derivation and signature verification are not modelled. The `Debug` impl is irrelevant.
- `Client.ScaleGas`: the `u64` multiplication wraps modulo 2^64, as in a release build. A debug build panics on overflow instead. The floor property is stated only when `gas_used * (100 + pct)` fits in `u64`.
- `Client.CosmosClient.SignTx`: the second look-ups of the signer, chain id, account id and sequence id (src/client.rs:143, 153-156) cannot fail after a successful dry run, so they are not repeated.
- `Any::from_msg` in `send` (src/cosmos/bank.rs:53) cannot fail when encoding into a vector, so its error path is not modelled.
- Message contents the core never reads are opaque bytes: transaction records, pool bodies, metadata, vesting schedules. The tx.rs `Response` enum is declared but never used by the core, so it is not modelled.
- Ownership and `Clone`: `Tx`, `Bank` and `PoolManager` take the client by value. The model holds a reference to it and states every result in terms of the client's state at the call.
- src/cosmos/auth.rs, src/cosmos/params.rs and src/osmosis/concentratedliquidity.rs are fixed-path query pass-throughs, not part of this model.
- Async/await, threads, and the real duration of a sleep are not modelled. A sleep is one event in `Clock.sleeps`.
