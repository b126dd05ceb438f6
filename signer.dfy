/** The signer identity (src/signer.rs). Key derivation, secp256k1 and the
    sign-document encoding are foreign: the private key is modelled as the
    capability `signDoc`, a function from a sign document to the signed
    transaction bytes or an error. */
module Signing {
  import opened Prelude
  import opened Errors
  import opened Proto

  /** `cosmrs::Coin` used for the fee: an integer amount and a denomination. */
  datatype FeeCoin = FeeCoin(amount: u128, denom: string)

  datatype Fee = Fee(amount: FeeCoin, gasLimit: u64)

  /** `AuthInfo` built by `SignerInfo::single_direct(...).auth_info(fee)`. */
  datatype AuthInfo = AuthInfo(publicKey: Bytes, sequence: u64, fee: Fee)

  datatype SignDoc = SignDoc(body: Body, authInfo: AuthInfo, chainId: string, accountNumber: u64)

  /** The secret key, usable only to sign. */
  datatype SigningKey = SigningKey(signDoc: SignDoc -> Result<Bytes>)

  datatype Signer = Signer(
    mnemonic: Option<string>,
    denom: string,
    publicAddress: string,
    privateKey: SigningKey,
    publicKey: Bytes,
    gasAdjustmentPercent: u8,
    gasPrice: u128)

  /** The sign document `Signer::sign` hands to the key: the body, a single
      direct signer at `sequence` paying `gasPrice` of `denom` for `gas`, the
      chain id and the account number. */
  function SignDocFor(s: Signer, chainId: string, accountNumber: u64, sequence: u64, gas: u64, body: Body): SignDoc
  {
    SignDoc(body, AuthInfo(s.publicKey, sequence, Fee(FeeCoin(s.gasPrice, s.denom), gas)), chainId, accountNumber)
  }

  /** `Signer::sign`: the signer's key applied to that document. */
  function Sign(s: Signer, chainId: string, accountNumber: u64, sequence: u64, gas: u64, body: Body): Result<Bytes>
  {
    s.privateKey.signDoc(SignDocFor(s, chainId, accountNumber, sequence, gas, body))
  }

  /** The document determines everything a caller chooses: two signatures with
      the same signer sign the same document if and only if they agree on chain
      id, account number, sequence, gas and body. */
  lemma SignDocDeterminesInputs(s: Signer, c1: string, a1: u64, q1: u64, g1: u64, b1: Body,
                                c2: string, a2: u64, q2: u64, g2: u64, b2: Body)
    ensures SignDocFor(s, c1, a1, q1, g1, b1) == SignDocFor(s, c2, a2, q2, g2, b2)
            <==> c1 == c2 && a1 == a2 && q1 == q2 && g1 == g2 && b1 == b2
  {
  }

  /** The fee's amount is the signer's gas price as it is, whatever the gas
      limit: only the limit changes between the dry run and the real signature. */
  lemma FeeAmountIgnoresGas(s: Signer, c: string, a: u64, q: u64, g1: u64, g2: u64, b: Body)
    ensures SignDocFor(s, c, a, q, g1, b).authInfo.fee.amount == SignDocFor(s, c, a, q, g2, b).authInfo.fee.amount
            == FeeCoin(s.gasPrice, s.denom)
  {
  }
}
