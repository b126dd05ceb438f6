/** The protobuf messages the core reads or builds, and the decoders it relies
    on. Message contents the core never inspects are kept as opaque bytes. */
module Proto {
  import opened Prelude

  /** `google.protobuf.Any`: a type URL and the encoded message. */
  datatype Any = Any(typeUrl: string, value: Bytes)

  /** `cosmos.base.v1beta1.Coin`. */
  datatype Coin = Coin(denom: string, amount: string)

  /** `cosmos.auth.v1beta1.BaseAccount` (the public key is not modelled). */
  datatype BaseAccount = BaseAccount(address: string, accountNumber: u64, sequence: u64)

  /** `cosmos.vesting.v1beta1.BaseVestingAccount`; vesting amounts are opaque. */
  datatype BaseVestingAccount = BaseVestingAccount(baseAccount: Option<BaseAccount>, vestingData: Bytes)

  /** `cosmos.vesting.v1beta1.ContinuousVestingAccount`. */
  datatype ContinuousVestingAccount = ContinuousVestingAccount(baseVestingAccount: Option<BaseVestingAccount>, startTime: int)

  /** A decoded pool message of one of the three Osmosis pool types; only its id is visible. */
  datatype PoolFields = PoolFields(poolId: u64, fields: Bytes)

  /** A message inside a transaction body: a bank send, or any other packed message. */
  datatype Message =
    | MsgSend(fromAddress: string, toAddress: string, amount: seq<Coin>)
    | Packed(any: Any)

  /** `cosmrs::tx::Body`. */
  datatype Body = Body(messages: seq<Message>, memo: string, timeoutHeight: u64)

  /** `cosmrs::tx::BodyBuilder`: what `new`, `msg`, `memo` and `finish` do to a body under construction. */
  datatype BodyBuilder = BodyBuilder(messages: seq<Message>, memo: string, timeoutHeight: u64)
  {
    static function New(): BodyBuilder
    {
      BodyBuilder([], "", 0)
    }

    function Msg(m: Message): BodyBuilder
    {
      this.(messages := messages + [m])
    }

    function Memo(s: string): BodyBuilder
    {
      this.(memo := s)
    }

    function Finish(): Body
    {
      Body(messages, memo, timeoutHeight)
    }
  }

  /** The protobuf decoders (prost `Message::decode`) for the `Any` payloads the
      core unpacks; `None` is a decode failure. */
  datatype Codec = Codec(
    decodeBaseAccount: Bytes -> Option<BaseAccount>,
    decodeContinuousVestingAccount: Bytes -> Option<ContinuousVestingAccount>,
    decodeConcentratedPool: Bytes -> Option<PoolFields>,
    decodeGammPool: Bytes -> Option<PoolFields>,
    decodeCosmWasmPool: Bytes -> Option<PoolFields>)
}
