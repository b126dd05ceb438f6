/** The bank module wrapper (src/cosmos/bank.rs): building a send transaction
    body and the denomination metadata query. */
module CosmosBank {
  import opened Prelude
  import opened Errors
  import opened Proto
  import opened Rpc
  import opened Client

  const DenomMetadataPath := "/cosmos.bank.v1beta1.Query/DenomMetadata"

  class Bank {
    const client: CosmosClient

    constructor (client: CosmosClient)
      ensures this.client == client
    {
      this.client := client;
    }

    /** `send`: a body holding exactly one `MsgSend` from the attached signer's
      address, with the memo when one is given and the builder's empty memo
      otherwise. It calls no transport: nothing is modified. */
    method Send(toAddress: string, amount: seq<Coin>, memo: Option<string>) returns (r: Result<Body>)
      ensures client.signer.None? ==> r == Err(NoSignerAttached)
      ensures client.signer.Some? ==>
        && r.Ok?
        && r.value.messages == [MsgSend(client.signer.value.publicAddress, toAddress, amount)]
        && r.value.memo == (if memo.Some? then memo.value else "")
        && r.value.timeoutHeight == 0
    {
      var signer := client.CurrentSigner();
      if signer.None? {
        return Err(NoSignerAttached);
      }
      var msg := MsgSend(signer.value.publicAddress, toAddress, amount);
      var builder := BodyBuilder.New().Msg(msg);
      if memo.Some? {
        builder := builder.Memo(memo.value);
      }
      r := Ok(builder.Finish());
    }

    /** `denom_metadata`: one query on the DenomMetadata path with the
      denomination unchanged. */
    method DenomMetadata(denom: string) returns (r: Result<Response>)
      modifies client.rpc
      ensures client.rpc.log == old(client.rpc.log) + [QueryCall(DenomMetadataPath, QueryDenomMetadataRequest(denom))]
      ensures r == Expect(client.rpc.oracle.query(|old(client.rpc.log)|, DenomMetadataPath, QueryDenomMetadataRequest(denom)), DenomMetadataKind)
    {
      var answer := client.Query(DenomMetadataPath, QueryDenomMetadataRequest(denom));
      r := Expect(answer, DenomMetadataKind);
    }
  }
}
