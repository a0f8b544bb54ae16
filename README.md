# CosmWasm deploy commands: a Dafny model

This project models the contract-deployment commands of a CosmWasm development tool. Two parts are modelled.

- The `store-code` pipeline of the command-line tool. It resolves the signer's key from the account configuration, reads the compiled artifact `<root>/artifacts/<contract>.wasm` and builds the fee and a single `MsgStoreCode` message. It then queries the signer's account, builds and signs the transaction bound to the chain id and the account number, waits for the first block, and broadcasts and commits. Finally it classifies the two-phase result (`check_tx`, then `deliver_tx`) and waits for the transaction by hash.
- The `new` command, which scaffolds a contract from a template. It appears in both the CLI and the CosmWasm module (`CWConfig` defaults, `new_`'s option defaulting, and `execute` / `execute_` dispatch).

Layout:

- `options.dfy`: module `Options`, Rust's `Option` and `unwrap_or`.
- `paths.dfy`: module `Paths`, paths as `/`-separated strings. `Join` follows Rust's `Path::join`: an absolute component replaces the base, and a separator is added unless the base is empty or already ends in one.
- `cosmos.dfy`: module `Cosmos`, the cosmrs/Tendermint values as symbolic terms.
  - A signing key records where it came from: the seed (phrase and passphrase) plus the path, or the raw bytes. Public keys, account ids and signatures record their inputs in the same way. Equal terms therefore stand for equal values (derivation is deterministic). The one claim about distinct terms is `StoreCodeTxBindsInputs`. It rests on an assumption of the symbolic model: that protobuf encoding and signing are injective, as datatype constructors are.
  - The library checks that the code calls without seeing inside them are fields of an `Oracles` value. These are the BIP-39 wordlist, path parsing, BIP-32 derivation, secret-key bytes, the bech32 prefix, denom parsing and chain-id parsing.
  - The node is a `Node` value: whether it answers, the accounts it knows, and what `broadcast_commit` returns for each transaction.
- `cw_module.dfy`: module `CwModule`, from `modules/cw/src/lib.rs`.
- `ops.dfy`: module `CwOps`, from `cli/src/modules/cw/ops.rs`.

How the model is built:

- **Panics.** Every panicking `unwrap` of the source becomes an `Outcome.Panic(site)`, kept apart from returned errors `Outcome.Err(error)`.
- **Effects.** `StoreCode` returns its outcome together with the ordered trace of effects it causes. These are opening the artifact, the account query, the first-block wait, the broadcast of one exact transaction, and the wait for the transaction hash.
- **Reading the file.** `read_to_end` is modelled as the loop the standard library runs. `ReadToEnd` fills a buffer from a stream of reads: data, an empty read (end of file), an interruption (retried), or an error.
- **`store_code` is split in two.** The network half (the async block) is the function `SubmitStoreCode`. The method `StoreCode` is tied to it as the last step.

Points of the code's behaviour that the model states:

- The code resolves the signer (cli/src/modules/cw/ops.rs:95-102) before it reads the wasm file (line 107). `StoreCode` states this: an undefined signer or a key error ends the pipeline with an empty trace, so the artifact is never opened. A missing artifact is seen only once the signer has been resolved.
- A bad private key and a failed derivation are `unwrap` panics, not returned errors. A failed account query of either kind becomes the single error "Account can't be initialized", carrying the cause. A failed broadcast is a panic.
- A private-key account's key is built from `private_key.as_bytes()` (cli/src/modules/cw/ops.rs:99). That is the raw bytes of the configured value, not a decoded key. `Account.FromPrivateKey` holds those bytes.
- The CLI's `new` evaluates `ctx.root()?` inside `unwrap_or` eagerly (cli/src/modules/cw/ops.rs:30-31). So it fails when the project root cannot be found, even when a target directory is given. `CwOps.New` states this.
- The artifact path is built with `Path::join`. A contract name that starts with `/` therefore replaces the root and the `artifacts` directory: the path is then just `<name>.wasm`. `ArtifactPath` states both cases.
- The configuration types of the CLI (`cli/src/modules/cw/config.rs`) and its template helper are not part of this model. `CwOps` reuses `CwModule.CWConfig` and `CwModule.Template`, which have the same fields and arguments as the code uses.

## Model

| member | source | states |
|---|---|---|
| `Paths.Join` | cli/src/modules/cw/ops.rs:188-192 | The joined path ends with the component. An absolute component discards the base. A relative component gives `base + "/" + component` when the base is non-empty and does not end in `/`, and `base + component` otherwise. |
| `CwOps.Display` | cli/src/modules/cw/ops.rs:96 | The undefined-signer message names the alias. The artifact-not-found message (line 196) names the expected path. |
| `CwOps.FromMnemonicKey` | cli/src/modules/cw/ops.rs:172-182 | A phrase that is not English wordlist text is `InvalidMnemonic`. Otherwise, a path that does not parse is `InvalidDerivationPath(path)`. Otherwise, a derivation that fails is `Panic(DerivationFailed)`. Success happens exactly when all three checks pass. The key is the one derived along the parsed path from the phrase's seed with the empty passphrase. |
| `CwOps.FromMnemonicDeterministic` | cli/src/modules/cw/ops.rs:176-178 | The key depends only on the phrase and the parsed path: path strings that parse alike give the same key. |
| `CwOps.ResolveSigner` | cli/src/modules/cw/ops.rs:95-102 | An alias missing from the accounts is `SignerNotDefined(alias)`. A mnemonic account gives `from_mnemonic(phrase, global derivation path)`. A private-key account gives the key built from its bytes, or a panic when the bytes are not a secret key. No other error is returned. |
| `CwOps.ResolveSignerAccount` | cli/src/modules/cw/ops.rs:95-105 | Success holds exactly when the key resolves and the prefix is accepted. The account id is the configured prefix over the key's public key. Key failures pass through unchanged. A rejected prefix is `Panic(InvalidAccountPrefix)`. |
| `CwOps.ArtifactPath` | cli/src/modules/cw/ops.rs:188-192 | For a root that is non-empty and has no trailing `/`, and a relative name, the path is exactly `root/artifacts/<name>.wasm`. For an absolute name it is `<name>.wasm`. |
| `CwOps.Drain` | cli/src/modules/cw/ops.rs:201 | Reading never panics, and its only error is a read failure. The proof of this needs the contracts of the recursive calls. |
| `CwOps.DrainIsReadResult` | cli/src/modules/cw/ops.rs:199-202 | On every stream, `read_to_end` agrees with the reference reading `ReadResult`. If the first read that stops reading is an error, that error is returned. Otherwise the result is the bytes of the reads before the first empty read (end of file), with interruptions retried. |
| `CwOps.DrainClean` | cli/src/modules/cw/ops.rs:199-202 | A stream with no error and no early end of file reads as exactly its bytes, in order, however the reads split them. |
| `CwOps.ReadToEnd` | cli/src/modules/cw/ops.rs:199-201 | The buffer-filling loop returns what `Drain` specifies for the stream. |
| `CwOps.Artifact` | cli/src/modules/cw/ops.rs:184-203 | With no project root, the error is `ContextUnavailable(ProjectRoot)`. A path that cannot be opened is `ArtifactNotFound(root/artifacts/<name>.wasm)`. An open file reads as `ReadResult`: the first error before end of file comes back as `ReadFailed`, and otherwise the bytes up to end of file. A cleanly read file yields exactly its contents. There is no panic. |
| `CwOps.ReadWasm` | cli/src/modules/cw/ops.rs:184-203 | It returns `Artifact(ctx, name)`. It opens the artifact path as its only effect, and does not even open it when the root is unknown. |
| `CwOps.StoreCodeFee` | cli/src/modules/cw/ops.rs:111-115 | When the denom parses, the fee is one coin of `gas_amount` in the global denom, with `gas_limit`, no payer and no granter. When it does not parse, the result is a panic. |
| `CwOps.StoreCodeTx` | cli/src/modules/cw/ops.rs:117-141 | The body holds exactly one `MsgStoreCode`: its sender is the signer's account id, its bytes are the artifact, and it has no instantiate permission. The memo is empty and the timeout height is the argument. There is one direct-mode signer info at the queried sequence, and the fee is the given one. The one signature is by the signer's key over the sign doc that binds this body and auth info to the chain id and the queried account number. |
| `CwOps.StoreCodeTxBindsInputs` | cli/src/modules/cw/ops.rs:132-141 | Equal signed transactions come from equal signers, artifacts, fees, accounts, chain ids and timeout heights. |
| `CwOps.Classify` | cli/src/modules/cw/ops.rs:148-166 | A failed `check_tx` is reported as `CheckTxFailed`. Otherwise a failed `deliver_tx` is reported as `DeliverTxFailed`. Success happens exactly when both codes are 0, and then the response passes on unchanged. |
| `CwOps.CheckTxDominates` | cli/src/modules/cw/ops.rs:148-153 | When `check_tx` failed, the outcome is the same whatever `deliver_tx` says. |
| `CwOps.SubmitStoreCode` | cli/src/modules/cw/ops.rs:125-167 | The account query comes first and every step is a network step. A failed query gives "Account can't be initialized" with that single step. A chain id that does not parse is `Panic(InvalidChainId)` after the query. With the account found and the chain id parsed, the first-block wait follows, then the broadcast of exactly `StoreCodeTx` over the queried account and this chain id. A broadcast error panics. `check_tx`, then `deliver_tx`, decide the failures. Success, which then waits for the hash, happens exactly when the account is found, the chain id parses, the broadcast answers and both codes are 0. |
| `CwOps.StoreCode` | cli/src/modules/cw/ops.rs:81-170 | A missing global config, an undefined signer and key errors end the pipeline with no effect. Once the signer resolves, a missing root is `ContextUnavailable(ProjectRoot)` with no effect, and otherwise the first effect is opening `ArtifactPath`. A missing or unreadable artifact, or a bad denom, ends it with that one effect. With the artifact read and the fee built, the outcome and the remaining steps are those of `SubmitStoreCode`, run with this signer, artifact, fee, chain id and timeout height. Success holds exactly when every local step and the network half succeed, and it takes five steps. |
| `CwOps.New` | cli/src/modules/cw/ops.rs:21-35 | A missing config or root is an error, the root even when a target directory is given. The template gets the name and the configured repo unchanged, and no fifth argument. The version defaults to `main` and the directory to `root/contract_dir`. Explicit values pass through unchanged. |
| `CwOps.NewAgreesWithModule` | cli/src/modules/cw/ops.rs:29-33 | With an explicit target directory, the CLI's `new` asks for the same template as the module's `new_`. |
| `Cosmos.QueryAccount` | cli/src/modules/cw/ops.rs:126-130 | The query finds an account exactly when the node answers and knows the id, and then returns the node's record. An unreachable node is `RpcUnavailable`, and an unknown id on a reachable node is `AccountNotFound`. |
| `CwModule.DefaultConfig` | modules/cw/src/lib.rs:18-25 | The default configuration puts contracts in `contracts` and uses the `InterWasm/cw-template` repository. |
| `CwModule.NewTemplate` | modules/cw/src/lib.rs:46-59 | The template gets the contract name and `cfg.template_repo` unchanged and no fifth argument. The version is `main` when none is given, and a given version passes unchanged. The target directory is `cfg.contract_dir` when none is given, and a given directory is used and the config ignored. |
| `CwModule.ExecuteForwardsNew` | modules/cw/src/lib.rs:63-71 | `execute` maps `New{name, target_dir, version}` to `new_(cfg, name, version, target_dir)`. |
| `CwModule.ExecuteInContextAgrees` | modules/cw/src/lib.rs:73-82 | `execute_` fails exactly when the context's configuration does not load. Otherwise it equals `execute` with that configuration. |
| `CwModule.DefaultVersionAndPath` | modules/cw/src/lib.rs:106-113 | With the default config and no options, the template is `(name, InterWasm/cw-template, main, contracts, None)`. |
| `CwModule.CustomVersion` | modules/cw/src/lib.rs:130-140 | With a given version and no directory, the version passes through and the directory stays `contracts`. |
| `CwModule.CustomPath` | modules/cw/src/lib.rs:168-177 | With a given directory and no version, the directory is the given one and the version is `main`. |

## Left out

- The `build` command (cli/src/modules/cw/ops.rs:37-80): it spawns `cargo` and `docker` and changes the process's working directory. That is external tooling and global process state.
- Cryptography and wire encoding: BIP-39 validation, BIP-32 derivation, secp256k1, bech32 account ids, protobuf encoding of `Any` and `SignDoc`, and signing. These are symbolic terms and oracle predicates. `to_any`, `SignDoc::new` and `sign` (cli/src/modules/cw/ops.rs:122-141) are taken to succeed, because they fail only on internal encoding faults.
- The async runtime and its construction (cli/src/modules/cw/ops.rs:205-210), `Client::local` and `HttpClient::new`: no step or failure of theirs is modelled apart from the account query.
- `poll_for_first_block` and `poll_for_tx`: each is one abstract effect that is taken to return. Their unbounded loops are liveness concerns and are not modelled.
- The contents of the framework's errors behind `ctx.config()?`, `ctx.global_config()?` and `ctx.root()?`: the model records only which item was unavailable.
- The Debug rendering of `check_tx` / `deliver_tx` in their error messages: `Display` shows the log text instead. The `Display` texts for context, mnemonic, derivation-path and read errors stand in for messages that the libraries produce.
- `File::open` failures other than a missing file: every path that cannot be opened is reported as `ArtifactNotFound`, as the source's single context message does.
- `Template::generate` (cloning and copying the remote template), clap parsing and serde: the model stops at the arguments handed to the template generator. The tests' checks on directories and `Cargo.toml` depend on the remote template.
- The `dbg!` output (cli/src/modules/cw/ops.rs:162).
