/**
 * The deploy commands of the command-line tool: `new` (scaffold from the
 * template) and `store_code` (upload a compiled contract to a chain).
 *
 * `store_code` is a sequential pipeline: resolve the signer's key, read the
 * wasm artifact, build the fee and the store-code message, query the signer's
 * account, build and sign the transaction, wait for the first block,
 * broadcast and commit, classify the two-phase result, and wait for the
 * transaction to be indexed. Every step can end the pipeline early.
 */
module CwOps {
  import opened Options
  import opened Paths
  import opened Cosmos
  import CwModule

  // ---------------------------------------------------------------------------
  // Inputs

  /** How an account of the global configuration gives its key. */
  datatype Account = FromMnemonic(mnemonic: string) | FromPrivateKey(privateKey: seq<byte>)

  datatype GlobalConfig = GlobalConfig(accountPrefix: string, denom: string, derivationPath: string,
                                       accounts: map<string, Account>)

  /** One call of `read` on an open file: some bytes (none means end of file), an interruption, or an error. */
  datatype ReadEvent = Data(bytes: seq<byte>) | Interrupted | Failed(error: IoError)

  datatype IoError = IoError(kind: nat)

  /**
   * What the framework context offers a command: the module configuration, the
   * global configuration and the project root (each `None` when it cannot be
   * obtained), and the file system, mapping each openable path to what reading
   * it yields.
   */
  datatype Context = Context(config: Option<CwModule.CWConfig>, globalConfig: Option<GlobalConfig>,
                             root: Option<Path>, files: map<Path, seq<ReadEvent>>)

  /** The arguments of the `store-code` command. */
  datatype StoreCodeArgs = StoreCodeArgs(contractName: string, chainId: string, gasAmount: u64,
                                         gasLimit: u64, timeoutHeight: u32, signerAccount: string)

  // ---------------------------------------------------------------------------
  // Outcomes

  datatype ContextItem = ModuleConfig | GlobalConfigItem | ProjectRoot

  datatype Error =
    | ContextUnavailable(item: ContextItem)
    | SignerNotDefined(alias: string)
    | InvalidMnemonic
    | InvalidDerivationPath(path: string)
    | ArtifactNotFound(path: Path)
    | ReadFailed(ioError: IoError)
    | AccountNotInitialized(cause: QueryError)
    | CheckTxFailed(checkTx: TxResult)
    | DeliverTxFailed(deliverTx: TxResult)

  /** The `unwrap` calls that abort the process instead of returning an error. */
  datatype PanicSite =
    | InvalidSecretKey | DerivationFailed | InvalidAccountPrefix | InvalidDenom | InvalidChainId | BroadcastFailed

  /** A step's result: a value, an error returned to the caller, or a panic. */
  datatype Outcome<+T> = Ok(value: T) | Err(error: Error) | Panic(site: PanicSite) {

    predicate IsFailure() {
      !Ok?
    }

    function PropagateFailure<U>(): Outcome<U>
      requires !Ok?
    {
      if Err? then Err(error) else Panic(site)
    }

    function Extract(): T
      requires Ok?
    {
      value
    }
  }

  /** `h[i..]` starts with `n`. */
  predicate OccursAt(h: string, n: string, i: nat) {
    i + |n| <= |h| && h[i..i + |n|] == n
  }

  ghost predicate Mentions(h: string, n: string) {
    exists i: nat :: OccursAt(h, n, i)
  }

  /** The messages the source attaches to its errors; the others render a library value. */
  function Display(e: Error): (msg: string)
    ensures e.SignerNotDefined? ==> Mentions(msg, e.alias)
    ensures e.ArtifactNotFound? ==> Mentions(msg, e.path)
  {
    match e
    case SignerNotDefined(alias) =>
      var msg := "signer account: `" + alias + "` is not defined";
      assert OccursAt(msg, alias, 17);
      msg
    case ArtifactNotFound(path) =>
      var msg := "`" + path + "` not found, please build and optimize the contract before store code`";
      assert OccursAt(msg, path, 1);
      msg
    case AccountNotInitialized(_) => "Account can't be initialized"
    case CheckTxFailed(r) => "check_tx failed: " + r.log
    case DeliverTxFailed(r) => "deliver_tx failed: " + r.log
    case ContextUnavailable(_) => "context unavailable"
    case InvalidMnemonic => "invalid mnemonic"
    case InvalidDerivationPath(_) => "invalid derivation path"
    case ReadFailed(_) => "read failed"
  }

  // ---------------------------------------------------------------------------
  // Signer resolution

  /** `from_mnemonic`: check the phrase, stretch it with the empty passphrase, derive along the path. */
  function FromMnemonicKey(o: Oracles, phrase: string, derivationPath: string): (r: Outcome<SigningKey>)
    ensures !o.isEnglishMnemonic(phrase) ==> r == Err(InvalidMnemonic)
    ensures o.isEnglishMnemonic(phrase) && o.parsePath(derivationPath) == None ==>
              r == Err(InvalidDerivationPath(derivationPath))
    ensures r.Ok? <==> o.isEnglishMnemonic(phrase) && o.parsePath(derivationPath).Some?
                       && o.canDerive(MnemonicSeed(phrase, ""), o.parsePath(derivationPath).value)
    ensures r.Ok? ==> r.value == DerivedKey(MnemonicSeed(phrase, ""), o.parsePath(derivationPath).value)
    ensures o.isEnglishMnemonic(phrase) && o.parsePath(derivationPath).Some?
            && !o.canDerive(MnemonicSeed(phrase, ""), o.parsePath(derivationPath).value) ==>
              r == Panic(DerivationFailed)
  {
    if !o.isEnglishMnemonic(phrase) then Err(InvalidMnemonic)
    else
      var seed := MnemonicSeed(phrase, "");
      match o.parsePath(derivationPath)
      case None => Err(InvalidDerivationPath(derivationPath))
      case Some(path) => if o.canDerive(seed, path) then Ok(DerivedKey(seed, path)) else Panic(DerivationFailed)
  }

  /** The key depends on the phrase and on the parsed path only: equal inputs, equal keys. */
  lemma FromMnemonicDeterministic(o: Oracles, phrase: string, p1: string, p2: string)
    requires o.parsePath(p1).Some? && o.parsePath(p1) == o.parsePath(p2)
    ensures FromMnemonicKey(o, phrase, p1) == FromMnemonicKey(o, phrase, p2)
  {
  }

  /** Look the signer up in the accounts and turn its credential into a key. */
  function ResolveSigner(o: Oracles, gc: GlobalConfig, alias: string): (r: Outcome<SigningKey>)
    ensures alias !in gc.accounts ==> r == Err(SignerNotDefined(alias))
    ensures alias in gc.accounts && gc.accounts[alias].FromMnemonic? ==>
              r == FromMnemonicKey(o, gc.accounts[alias].mnemonic, gc.derivationPath)
    ensures alias in gc.accounts && gc.accounts[alias].FromPrivateKey? ==>
              var bytes := gc.accounts[alias].privateKey;
              (o.isSecretKey(bytes) ==> r == Ok(KeyFromBytes(bytes))) &&
              (!o.isSecretKey(bytes) ==> r == Panic(InvalidSecretKey))
    ensures r.Err? ==> r.error.SignerNotDefined? || r.error.InvalidMnemonic? || r.error.InvalidDerivationPath?
  {
    if alias !in gc.accounts then Err(SignerNotDefined(alias))
    else
      match gc.accounts[alias]
      case FromMnemonic(mnemonic) => FromMnemonicKey(o, mnemonic, gc.derivationPath)
      case FromPrivateKey(bytes) => if o.isSecretKey(bytes) then Ok(KeyFromBytes(bytes)) else Panic(InvalidSecretKey)
  }

  datatype Signer = Signer(key: SigningKey, id: AccountId)

  /** The signer's key and its account id under the configured prefix. */
  function ResolveSignerAccount(o: Oracles, gc: GlobalConfig, alias: string): (r: Outcome<Signer>)
    ensures r.Ok? <==> ResolveSigner(o, gc, alias).Ok? && o.isAccountPrefix(gc.accountPrefix)
    ensures r.Ok? ==> r.value.key == ResolveSigner(o, gc, alias).value
                      && r.value.id == AccountId(gc.accountPrefix, PublicKeyOf(r.value.key))
    ensures !ResolveSigner(o, gc, alias).Ok? ==> r == ResolveSigner(o, gc, alias).PropagateFailure()
    ensures ResolveSigner(o, gc, alias).Ok? && !o.isAccountPrefix(gc.accountPrefix) ==> r == Panic(InvalidAccountPrefix)
  {
    var key :- ResolveSigner(o, gc, alias);
    if o.isAccountPrefix(gc.accountPrefix) then Ok(Signer(key, AccountId(gc.accountPrefix, PublicKeyOf(key))))
    else Panic(InvalidAccountPrefix)
  }

  // ---------------------------------------------------------------------------
  // Reading the artifact

  /** Where the compiled contract is expected. */
  function ArtifactPath(root: Path, contractName: string): (p: Path)
    ensures !IsAbsolute(contractName) && root != "" && !EndsWithSeparator(root) ==>
              p == root + "/artifacts/" + contractName + ".wasm"
    ensures IsAbsolute(contractName) ==> p == contractName + ".wasm"
  {
    Join(Join(root, "artifacts"), contractName + ".wasm")
  }

  /** `buf` in front of the bytes of a successful read; a failure unchanged. */
  function Prepend(buf: seq<byte>, r: Outcome<seq<byte>>): (r': Outcome<seq<byte>>) {
    if r.Ok? then Ok(buf + r.value) else r
  }

  lemma PrependTwice(a: seq<byte>, b: seq<byte>, r: Outcome<seq<byte>>)
    ensures Prepend(a, Prepend(b, r)) == Prepend(a + b, r)
  {
    if r.Ok? {
      assert a + (b + r.value) == (a + b) + r.value;
    }
  }

  /**
   * What `read_to_end` yields for a stream of reads: the bytes up to the first
   * empty read or the end, retrying on interruptions, or the first error.
   */
  function Drain(s: seq<ReadEvent>): (r: Outcome<seq<byte>>)
    ensures !r.Panic?
    ensures r.Err? ==> r.error.ReadFailed?
    decreases |s|
  {
    if s == [] then Ok([])
    else
      match s[0]
      case Data(b) => if b == [] then Ok([]) else Prepend(b, Drain(s[1..]))
      case Interrupted => Drain(s[1..])
      case Failed(e) => Err(ReadFailed(e))
  }

  /** A stream that reads to its end: no error and no early end of file. */
  predicate Clean(s: seq<ReadEvent>) {
    forall k :: 0 <= k < |s| ==> !s[k].Failed? && s[k] != Data([])
  }

  /** The bytes a stream carries, in order. */
  function Payload(s: seq<ReadEvent>): (bytes: seq<byte>) {
    if s == [] then []
    else (if s[0].Data? then s[0].bytes else []) + Payload(s[1..])
  }

  /** The position of the first read that ends reading: an error or an empty read; `|s|` if there is none. */
  function FirstStop(s: seq<ReadEvent>): (k: nat)
    ensures k <= |s|
    ensures forall j :: 0 <= j < k ==> !s[j].Failed? && s[j] != Data([])
    ensures k < |s| ==> s[k].Failed? || s[k] == Data([])
  {
    if s == [] || s[0].Failed? || s[0] == Data([]) then 0 else 1 + FirstStop(s[1..])
  }

  /**
   * What reading a stream to its end yields, stated without the loop: the error of
   * the first stopping read if it is an error, and otherwise the bytes before it.
   */
  function ReadResult(s: seq<ReadEvent>): (r: Outcome<seq<byte>>) {
    var k := FirstStop(s);
    if k < |s| && s[k].Failed? then Err(ReadFailed(s[k].error)) else Ok(Payload(s[..k]))
  }

  /** `read_to_end` agrees with the reference reading on every stream. */
  lemma {:induction false} DrainIsReadResult(s: seq<ReadEvent>)
    ensures Drain(s) == ReadResult(s)
  {
    if s != [] && !s[0].Failed? && s[0] != Data([]) {
      var rest := s[1..];
      DrainIsReadResult(rest);
      var k := FirstStop(rest);
      assert FirstStop(s) == 1 + k;
      assert 1 + k < |s| ==> s[1 + k] == rest[k];
      assert s[..1 + k][1..] == rest[..k];
      var head := if s[0].Data? then s[0].bytes else [];
      assert Payload(s[..1 + k]) == head + Payload(rest[..k]);
      if !(k < |rest| && rest[k].Failed?) {
        match s[0] {
          case Data(b) =>
            assert Drain(s) == Prepend(b, Drain(rest));
          case Interrupted =>
            assert head + Payload(rest[..k]) == Payload(rest[..k]);
        }
      }
    } else if s != [] && s[0] == Data([]) {
      assert s[..0] == [];
    }
  }

  /** Reading a clean stream yields exactly its bytes, however they are split into reads. */
  lemma {:induction false} DrainClean(s: seq<ReadEvent>)
    ensures Clean(s) ==> Drain(s) == Ok(Payload(s))
  {
    if s != [] && Clean(s) {
      assert !s[0].Failed? && s[0] != Data([]);
      assert Clean(s[1..]) by {
        forall k | 0 <= k < |s[1..]| ensures !s[1..][k].Failed? && s[1..][k] != Data([]) {
          assert s[1..][k] == s[k + 1];
        }
      }
      DrainClean(s[1..]);
      match s[0] {
        case Data(b) =>
          assert Drain(s) == Prepend(b, Drain(s[1..]));
        case Interrupted =>
          assert Payload(s) == [] + Payload(s[1..]) == Payload(s[1..]);
      }
    }
  }

  /** `read_to_end` into an empty buffer. */
  method ReadToEnd(s: seq<ReadEvent>) returns (r: Outcome<seq<byte>>)
    ensures r == Drain(s)
  {
    var buf: seq<byte> := [];
    var i := 0;
    assert s[0..] == s;
    assert Prepend([], Drain(s)) == Drain(s) by {
      if Drain(s).Ok? { assert [] + Drain(s).value == Drain(s).value; }
    }
    while i < |s|
      invariant 0 <= i <= |s|
      invariant Drain(s) == Prepend(buf, Drain(s[i..]))
    {
      assert s[i..][0] == s[i] && s[i..][1..] == s[i + 1..];
      match s[i] {
        case Data(b) =>
          if b == [] {
            assert buf + [] == buf;
            return Ok(buf);
          }
          PrependTwice(buf, b, Drain(s[i + 1..]));
          buf := buf + b;
        case Interrupted =>
        case Failed(e) =>
          return Err(ReadFailed(e));
      }
      i := i + 1;
    }
    assert buf + [] == buf;
    return Ok(buf);
  }

  /** What `read_wasm` returns. */
  function Artifact(ctx: Context, contractName: string): (r: Outcome<seq<byte>>)
    ensures ctx.root == None ==> r == Err(ContextUnavailable(ProjectRoot))
    ensures ctx.root.Some? && ArtifactPath(ctx.root.value, contractName) !in ctx.files ==>
              r == Err(ArtifactNotFound(ArtifactPath(ctx.root.value, contractName)))
    ensures r.Ok? ==> ctx.root.Some? && ArtifactPath(ctx.root.value, contractName) in ctx.files
    // an open file reads as the reference reading says: its first error, or its bytes up to end of file
    ensures ctx.root.Some? && ArtifactPath(ctx.root.value, contractName) in ctx.files ==>
              r == ReadResult(ctx.files[ArtifactPath(ctx.root.value, contractName)])
    ensures ctx.root.Some? && ArtifactPath(ctx.root.value, contractName) in ctx.files
            && Clean(ctx.files[ArtifactPath(ctx.root.value, contractName)]) ==>
              r == Ok(Payload(ctx.files[ArtifactPath(ctx.root.value, contractName)]))
    ensures !r.Panic?
  {
    match ctx.root
    case None => Err(ContextUnavailable(ProjectRoot))
    case Some(root) =>
      var path := ArtifactPath(root, contractName);
      if path !in ctx.files then Err(ArtifactNotFound(path))
      else
        var s := ctx.files[path];
        DrainClean(s);
        DrainIsReadResult(s);
        Drain(s)
  }

  /** Something the pipeline does to the file system or the network, in the order it does it. */
  datatype Effect =
    | OpenArtifact(path: Path)
    | QueryAccountOf(id: AccountId)
    | AwaitFirstBlock
    | BroadcastCommit(tx: Raw)
    | AwaitTx(hash: string)
  {
    predicate IsNetwork() {
      !OpenArtifact?
    }
  }

  /** `read_wasm`: open the artifact and read all of it. */
  method ReadWasm(ctx: Context, contractName: string) returns (r: Outcome<seq<byte>>, effects: seq<Effect>)
    ensures r == Artifact(ctx, contractName)
    ensures ctx.root == None ==> effects == []
    ensures ctx.root.Some? ==> effects == [OpenArtifact(ArtifactPath(ctx.root.value, contractName))]
  {
    if ctx.root == None {
      return Err(ContextUnavailable(ProjectRoot)), [];
    }
    var path := ArtifactPath(ctx.root.value, contractName);
    effects := [OpenArtifact(path)];
    if path !in ctx.files {
      return Err(ArtifactNotFound(path)), effects;
    }
    r := ReadToEnd(ctx.files[path]);
  }

  // ---------------------------------------------------------------------------
  // The transaction

  /** The fee: `gas_amount` of the configured denom, with the given gas limit. */
  function StoreCodeFee(o: Oracles, denom: string, gasAmount: u64, gasLimit: u64): (r: Outcome<Fee>)
    ensures r.Ok? <==> o.isDenom(denom)
    ensures !r.Ok? ==> r == Panic(InvalidDenom)
    ensures r.Ok? ==> r.value.amount == [Coin(gasAmount as nat, denom)] && r.value.gasLimit == gasLimit
                      && r.value.payer == None && r.value.granter == None
  {
    if o.isDenom(denom) then Ok(FeeFromAmountAndGas(Coin(gasAmount as nat, denom), gasLimit))
    else Panic(InvalidDenom)
  }

  /** The signed store-code transaction, once the account's number and sequence are known. */
  function StoreCodeTx(signer: Signer, wasm: seq<byte>, fee: Fee, account: BaseAccount, chainId: string,
                       timeoutHeight: u32): (tx: Raw)
    // exactly one message, a MsgStoreCode from the signer carrying the artifact, no instantiate permission
    ensures |tx.body.messages| == 1 && tx.body.messages[0].typeUrl == MsgStoreCodeTypeUrl
    ensures tx.body.messages[0].storeCode.sender == signer.id
    ensures tx.body.messages[0].storeCode.wasmByteCode == wasm
    ensures tx.body.messages[0].storeCode.instantiatePermission == None
    ensures tx.body.memo == "" && tx.body.timeoutHeight == timeoutHeight
    // one direct-mode signer at the queried sequence, paying the fee given
    ensures tx.authInfo.signerInfos == [SignerInfo(Some(PublicKeyOf(signer.key)), Direct, account.sequence)]
    ensures tx.authInfo.fee == fee
    // one signature, by the signer's key, over this body and auth info bound to the chain and account number
    ensures tx.signatures == [Signature(signer.key, SignDoc(tx.body, tx.authInfo, chainId, account.accountNumber))]
  {
    var msg := StoreCodeToAny(MsgStoreCode(signer.id, wasm, None));
    var body := Body([msg], "", timeoutHeight);
    var authInfo := SingleDirectAuthInfo(Some(PublicKeyOf(signer.key)), account.sequence, fee);
    Sign(SignDoc(body, authInfo, chainId, account.accountNumber), signer.key)
  }

  /**
   * Equal signed transactions come from equal inputs. This rests on the symbolic
   * model: it takes encoding and signing to be injective, as constructors of
   * datatypes are, which for the real protobuf encoding and signature scheme is
   * an assumption.
   */
  lemma StoreCodeTxBindsInputs(s1: Signer, w1: seq<byte>, f1: Fee, a1: BaseAccount, c1: string, t1: u32,
                               s2: Signer, w2: seq<byte>, f2: Fee, a2: BaseAccount, c2: string, t2: u32)
    requires StoreCodeTx(s1, w1, f1, a1, c1, t1) == StoreCodeTx(s2, w2, f2, a2, c2, t2)
    ensures s1 == s2 && w1 == w2 && f1 == f2 && a1 == a2 && c1 == c2 && t1 == t2
  {
  }

  /** The two-phase reading of a commit: admission first, then execution. */
  function Classify(resp: CommitResponse): (r: Outcome<CommitResponse>)
    ensures IsErr(resp.checkTx) ==> r == Err(CheckTxFailed(resp.checkTx))
    ensures !IsErr(resp.checkTx) && IsErr(resp.deliverTx) ==> r == Err(DeliverTxFailed(resp.deliverTx))
    ensures r.Ok? <==> !IsErr(resp.checkTx) && !IsErr(resp.deliverTx)
    ensures r.Ok? ==> r.value == resp
    ensures !r.Panic?
  {
    if IsErr(resp.checkTx) then Err(CheckTxFailed(resp.checkTx))
    else if IsErr(resp.deliverTx) then Err(DeliverTxFailed(resp.deliverTx))
    else Ok(resp)
  }

  /** A failed admission is reported whatever the execution result says. */
  lemma CheckTxDominates(resp: CommitResponse, deliverTx: TxResult)
    requires IsErr(resp.checkTx)
    ensures Classify(resp.(deliverTx := deliverTx)) == Classify(resp)
  {
  }

  // ---------------------------------------------------------------------------
  // The commands

  /**
   * The network half of `store_code`, run on the async runtime: query the
   * signer's account, build and sign the transaction, wait for the first block,
   * broadcast and commit, classify the result and wait for the transaction.
   * Returns the outcome and the network steps taken, in order.
   */
  function SubmitStoreCode(o: Oracles, node: Node, signer: Signer, wasm: seq<byte>, fee: Fee,
                           chainId: string, timeoutHeight: u32): (r: (Outcome<()>, seq<Effect>))
    // the account query comes first, and every step is a network step
    ensures |r.1| >= 1 && r.1[0] == QueryAccountOf(signer.id)
    ensures forall k :: 0 <= k < |r.1| ==> r.1[k].IsNetwork()
    // a failed account query ends it before a transaction is built
    ensures QueryAccount(node, signer.id).QueryFailed? ==>
              r == (Err(AccountNotInitialized(QueryAccount(node, signer.id).cause)), [QueryAccountOf(signer.id)])
    // a chain id that does not parse aborts after the query, before anything is sent
    ensures QueryAccount(node, signer.id).Found? && !o.isChainId(chainId) ==>
              r == (Panic(InvalidChainId), [QueryAccountOf(signer.id)])
    // with the account found and the chain id parsed, the transaction is sent
    ensures QueryAccount(node, signer.id).Found? && o.isChainId(chainId) ==> |r.1| >= 3
    // what is broadcast is the store-code transaction bound to the queried account and the chain id
    ensures |r.1| > 1 ==>
              QueryAccount(node, signer.id).Found? && o.isChainId(chainId) && |r.1| >= 3
              && r.1[1] == AwaitFirstBlock
              && r.1[2] == BroadcastCommit(StoreCodeTx(signer, wasm, fee, QueryAccount(node, signer.id).account,
                                                       chainId, timeoutHeight))
    // the commit result decides the outcome; only a fully successful commit is awaited by hash
    ensures |r.1| > 2 ==>
              match node.broadcastCommit(r.1[2].tx)
              case None => r.0 == Panic(BroadcastFailed) && |r.1| == 3
              case Some(resp) =>
                (IsErr(resp.checkTx) ==> r.0 == Err(CheckTxFailed(resp.checkTx)) && |r.1| == 3)
                && (!IsErr(resp.checkTx) && IsErr(resp.deliverTx) ==>
                      r.0 == Err(DeliverTxFailed(resp.deliverTx)) && |r.1| == 3)
                && (!IsErr(resp.checkTx) && !IsErr(resp.deliverTx) ==>
                      r.0 == Ok(()) && r.1 == r.1[..3] + [AwaitTx(resp.hash)])
    ensures r.0.Ok? ==> |r.1| == 4
    // success exactly when the account is found, the chain id parses, the broadcast answers and both phases pass
    ensures r.0.Ok? <==>
              var account := QueryAccount(node, signer.id);
              account.Found? && o.isChainId(chainId)
              && var resp := node.broadcastCommit(StoreCodeTx(signer, wasm, fee, account.account, chainId, timeoutHeight));
                 resp.Some? && !IsErr(resp.value.checkTx) && !IsErr(resp.value.deliverTx)
  {
    var query := [QueryAccountOf(signer.id)];
    match QueryAccount(node, signer.id)
    case QueryFailed(cause) => (Err(AccountNotInitialized(cause)), query)
    case Found(account) =>
      if !o.isChainId(chainId) then (Panic(InvalidChainId), query)
      else
        var tx := StoreCodeTx(signer, wasm, fee, account, chainId, timeoutHeight);
        var sent := query + [AwaitFirstBlock, BroadcastCommit(tx)];
        match node.broadcastCommit(tx)
        case None => (Panic(BroadcastFailed), sent)
        case Some(resp) =>
          match Classify(resp)
          case Ok(committed) => (Ok(()), sent + [AwaitTx(committed.hash)])
          case Err(e) => (Err(e), sent)
          case Panic(p) => (Panic(p), sent)
  }

  /** `store_code`: the outcome and every file-system and network step taken, in order. */
  method StoreCode(o: Oracles, ctx: Context, node: Node, args: StoreCodeArgs)
    returns (out: Outcome<()>, trace: seq<Effect>)
    ensures ctx.globalConfig == None ==> out == Err(ContextUnavailable(GlobalConfigItem)) && trace == []
    // an undefined signer is reported before anything is read or sent
    ensures ctx.globalConfig.Some? && args.signerAccount !in ctx.globalConfig.value.accounts ==>
              out == Err(SignerNotDefined(args.signerAccount)) && trace == []
    // key errors end the pipeline with nothing read or sent
    ensures ctx.globalConfig.Some? && !ResolveSignerAccount(o, ctx.globalConfig.value, args.signerAccount).Ok? ==>
              out == ResolveSignerAccount(o, ctx.globalConfig.value, args.signerAccount).PropagateFailure()
              && trace == []
    // the first step taken is opening the artifact, and only once the signer is resolved
    ensures trace != [] ==>
              ctx.globalConfig.Some? && ResolveSignerAccount(o, ctx.globalConfig.value, args.signerAccount).Ok?
              && ctx.root.Some? && trace[0] == OpenArtifact(ArtifactPath(ctx.root.value, args.contractName))
    // once the signer is resolved, the artifact is opened exactly when the project root is known
    ensures ctx.globalConfig.Some? && ResolveSignerAccount(o, ctx.globalConfig.value, args.signerAccount).Ok? ==>
              (trace != [] <==> ctx.root.Some?)
    ensures ctx.globalConfig.Some? && ResolveSignerAccount(o, ctx.globalConfig.value, args.signerAccount).Ok?
            && ctx.root == None ==>
              out == Err(ContextUnavailable(ProjectRoot)) && trace == []
    // a missing or unreadable artifact ends the pipeline before any network step
    ensures trace != [] && !Artifact(ctx, args.contractName).Ok? ==>
              out == Artifact(ctx, args.contractName).PropagateFailure() && |trace| == 1
    // an unparsable fee denom aborts after the read and before any network step
    ensures trace != [] && Artifact(ctx, args.contractName).Ok? && !o.isDenom(ctx.globalConfig.value.denom) ==>
              out == Panic(InvalidDenom) && |trace| == 1
    // network steps come only after the artifact is read and the fee is built, and are those of the
    // network half run with this signer, artifact, fee, chain id and timeout height
    ensures |trace| > 1 ==>
              var gc := ctx.globalConfig.value;
              var fee := StoreCodeFee(o, gc.denom, args.gasAmount, args.gasLimit);
              Artifact(ctx, args.contractName).Ok? && fee.Ok?
              && (out, trace[1..]) == SubmitStoreCode(o, node, ResolveSignerAccount(o, gc, args.signerAccount).value,
                                                      Artifact(ctx, args.contractName).value, fee.value,
                                                      args.chainId, args.timeoutHeight)
    // with the signer resolved, the artifact read and the fee built, the network half runs
    ensures ctx.globalConfig.Some? && ResolveSignerAccount(o, ctx.globalConfig.value, args.signerAccount).Ok?
            && Artifact(ctx, args.contractName).Ok?
            && StoreCodeFee(o, ctx.globalConfig.value.denom, args.gasAmount, args.gasLimit).Ok? ==>
              var gc := ctx.globalConfig.value;
              |trace| >= 1
              && (out, trace[1..]) == SubmitStoreCode(o, node, ResolveSignerAccount(o, gc, args.signerAccount).value,
                                                      Artifact(ctx, args.contractName).value,
                                                      StoreCodeFee(o, gc.denom, args.gasAmount, args.gasLimit).value,
                                                      args.chainId, args.timeoutHeight)
    // the command succeeds exactly when every local step succeeds and the network half does
    ensures out.Ok? <==>
              ctx.globalConfig.Some? && ResolveSignerAccount(o, ctx.globalConfig.value, args.signerAccount).Ok?
              && Artifact(ctx, args.contractName).Ok?
              && StoreCodeFee(o, ctx.globalConfig.value.denom, args.gasAmount, args.gasLimit).Ok?
              && SubmitStoreCode(o, node, ResolveSignerAccount(o, ctx.globalConfig.value, args.signerAccount).value,
                                 Artifact(ctx, args.contractName).value,
                                 StoreCodeFee(o, ctx.globalConfig.value.denom, args.gasAmount, args.gasLimit).value,
                                 args.chainId, args.timeoutHeight).0.Ok?
    ensures out.Ok? ==> |trace| == 5
  {
    if ctx.globalConfig == None {
      return Err(ContextUnavailable(GlobalConfigItem)), [];
    }
    var gc := ctx.globalConfig.value;

    var signer := ResolveSignerAccount(o, gc, args.signerAccount);
    if !signer.Ok? {
      return signer.PropagateFailure(), [];
    }

    var wasm, readEffects := ReadWasm(ctx, args.contractName);
    if !wasm.Ok? {
      return wasm.PropagateFailure(), readEffects;
    }

    var fee := StoreCodeFee(o, gc.denom, args.gasAmount, args.gasLimit);
    if !fee.Ok? {
      return fee.PropagateFailure(), readEffects;
    }

    var submitted := SubmitStoreCode(o, node, signer.value, wasm.value, fee.value, args.chainId, args.timeoutHeight);
    out := submitted.0;
    trace := readEffects + submitted.1;
    assert trace[1..] == submitted.1;
  }

  /** The CLI's `new`: like the module's, but the default directory is under the project root. */
  function New(ctx: Context, name: string, version: Option<string>, targetDir: Option<Path>)
    : (r: Outcome<CwModule.Template>)
    ensures ctx.config == None ==> r == Err(ContextUnavailable(ModuleConfig))
    // the root is looked up even when a target directory is given
    ensures ctx.config.Some? && ctx.root == None ==> r == Err(ContextUnavailable(ProjectRoot))
    ensures r.Ok? <==> ctx.config.Some? && ctx.root.Some?
    ensures r.Ok? ==> r.value.name == name && r.value.repo == ctx.config.value.templateRepo && r.value.extra == None
    ensures r.Ok? && version == None ==> r.value.version == "main"
    ensures r.Ok? && version.Some? ==> r.value.version == version.value
    ensures r.Ok? && targetDir == None ==> r.value.targetDir == Join(ctx.root.value, ctx.config.value.contractDir)
    ensures r.Ok? && targetDir.Some? ==> r.value.targetDir == targetDir.value
    ensures !r.Panic?
  {
    match ctx.config
    case None => Err(ContextUnavailable(ModuleConfig))
    case Some(cfg) =>
      match ctx.root
      case None => Err(ContextUnavailable(ProjectRoot))
      case Some(root) =>
        Ok(CwModule.Template(name, cfg.templateRepo, version.UnwrapOr("main"),
                             targetDir.UnwrapOr(Join(root, cfg.contractDir)), None))
  }

  /** With a target directory given, the CLI's `new` and the module's `new_` ask for the same template. */
  lemma NewAgreesWithModule(ctx: Context, name: string, version: Option<string>, dir: Path)
    requires ctx.config.Some? && ctx.root.Some?
    ensures New(ctx, name, version, Some(dir)) == Ok(CwModule.NewTemplate(ctx.config.value, name, version, Some(dir)))
  {
  }
}
