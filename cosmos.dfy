/**
 * The Cosmos SDK and Tendermint values the deploy pipeline builds and inspects.
 *
 * Keys, public keys, account ids and signatures are symbolic terms that record
 * what they were derived from: two equal terms stand for equal values
 * (derivation is deterministic), while nothing is claimed about distinct terms.
 * The checks that the cryptography and parsing libraries perform are supplied
 * as the predicates of an `Oracles` value.
 */
module Cosmos {
  import opened Options

  newtype byte = x: int | 0 <= x < 0x100
  newtype u32 = x: int | 0 <= x < 0x1_0000_0000
  newtype u64 = x: int | 0 <= x < 0x1_0000_0000_0000_0000

  /** One level of a BIP-32 derivation path. */
  datatype ChildNumber = ChildNumber(index: u32, hardened: bool)
  type DerivationPath = seq<ChildNumber>

  /** A BIP-39 seed: the mnemonic phrase and the passphrase it was stretched with. */
  datatype Seed = MnemonicSeed(phrase: string, passphrase: string)

  /** A secp256k1 signing key, by origin. */
  datatype SigningKey =
    | DerivedKey(seed: Seed, path: DerivationPath)
    | KeyFromBytes(bytes: seq<byte>)

  datatype PublicKey = PublicKeyOf(key: SigningKey)

  /** A bech32 account address: the network prefix and the public key it encodes. */
  datatype AccountId = AccountId(prefix: string, publicKey: PublicKey)

  /** What the foreign libraries accept; each is a check the source calls and cannot see into. */
  datatype Oracles = Oracles(
    isEnglishMnemonic: string -> bool,                 // bip32::Mnemonic::new(_, English)
    parsePath: string -> Option<DerivationPath>,       // str::parse::<DerivationPath>
    canDerive: (Seed, DerivationPath) -> bool,         // XPrv::derive_from_path succeeds
    isSecretKey: seq<byte> -> bool,                    // secp256k1::SigningKey::from_bytes succeeds
    isAccountPrefix: string -> bool,                   // PublicKey::account_id succeeds
    isDenom: string -> bool,                           // str::parse::<Denom>
    isChainId: string -> bool)                         // str::parse::<chain::Id>

  /** On-chain state of an account. */
  datatype BaseAccount = BaseAccount(accountNumber: u64, sequence: u64)

  datatype Coin = Coin(amount: nat, denom: string)

  datatype Fee = Fee(amount: seq<Coin>, gasLimit: u64, payer: Option<AccountId>, granter: Option<AccountId>)

  /** cosmrs `Fee::from_amount_and_gas`: a single coin, no payer and no granter. */
  function FeeFromAmountAndGas(amount: Coin, gasLimit: u64): (fee: Fee) {
    Fee([amount], gasLimit, None, None)
  }

  /** Who may instantiate stored code (CosmWasm `AccessConfig`). */
  datatype AccessConfig = AccessConfig(permission: nat, address: string)

  datatype MsgStoreCode = MsgStoreCode(sender: AccountId, wasmByteCode: seq<byte>,
                                       instantiatePermission: Option<AccessConfig>)

  const MsgStoreCodeTypeUrl: string := "/cosmwasm.wasm.v1.MsgStoreCode"

  /** A message packed as a protobuf `Any`. */
  datatype Any = Any(typeUrl: string, storeCode: MsgStoreCode)

  function StoreCodeToAny(m: MsgStoreCode): (any: Any) {
    Any(MsgStoreCodeTypeUrl, m)
  }

  datatype Body = Body(messages: seq<Any>, memo: string, timeoutHeight: u32)

  datatype SignMode = Direct

  datatype SignerInfo = SignerInfo(publicKey: Option<PublicKey>, mode: SignMode, sequence: u64)

  datatype AuthInfo = AuthInfo(signerInfos: seq<SignerInfo>, fee: Fee)

  /** cosmrs `SignerInfo::single_direct(pk, sequence).auth_info(fee)`. */
  function SingleDirectAuthInfo(pk: Option<PublicKey>, sequence: u64, fee: Fee): (info: AuthInfo) {
    AuthInfo([SignerInfo(pk, Direct, sequence)], fee)
  }

  /** The document that is signed: body and auth info bound to a chain and an account number. */
  datatype SignDoc = SignDoc(body: Body, authInfo: AuthInfo, chainId: string, accountNumber: u64)

  datatype Signature = Signature(key: SigningKey, doc: SignDoc)

  /** A signed transaction as broadcast (`TxRaw`). */
  datatype Raw = Raw(body: Body, authInfo: AuthInfo, signatures: seq<Signature>)

  /** cosmrs `SignDoc::sign`: one signature over the whole sign doc. */
  function Sign(doc: SignDoc, key: SigningKey): (tx: Raw) {
    Raw(doc.body, doc.authInfo, [Signature(key, doc)])
  }

  /** An ABCI result: code 0 is success, any other code a failure. */
  datatype TxResult = TxResult(code: u32, log: string)

  predicate IsErr(r: TxResult) {
    r.code != 0
  }

  datatype CommitResponse = CommitResponse(checkTx: TxResult, deliverTx: TxResult, hash: string, height: nat)

  /** Why an account query gave no account. */
  datatype QueryError = RpcUnavailable | AccountNotFound

  datatype AccountQuery = Found(account: BaseAccount) | QueryFailed(cause: QueryError)

  /**
   * The node the transaction is sent to: the accounts it knows, whether it answers,
   * and what `broadcast_commit` returns for a transaction (`None` for an RPC error).
   */
  datatype Node = Node(reachable: bool, accounts: map<AccountId, BaseAccount>,
                       broadcastCommit: Raw -> Option<CommitResponse>)

  function QueryAccount(node: Node, id: AccountId): (r: AccountQuery)
    ensures r.Found? <==> node.reachable && id in node.accounts
    ensures r.Found? ==> r.account == node.accounts[id]
    ensures !node.reachable ==> r == QueryFailed(RpcUnavailable)
    ensures node.reachable && id !in node.accounts ==> r == QueryFailed(AccountNotFound)
  {
    if !node.reachable then QueryFailed(RpcUnavailable)
    else if id !in node.accounts then QueryFailed(AccountNotFound)
    else Found(node.accounts[id])
  }
}
