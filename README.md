# Blind-backrun arbitrage bot: decision and bundle-construction model

This project models the deterministic core of a bot that backruns pending
transactions on a block-builder relay. It has three parts.

- **Pool qualification** (`execute/poolManager.js`, module `PoolManager`). A pool
  qualifies when one of its two tokens is WETH. For a qualifying pool the other
  known factory (Uniswap or Sushi) is probed for a pool of the same pair. The zero
  address returned by `getPair` means "no such pool".
- **Bundle construction and relay submission** (`execute/bundleExecutor.js`,
  module `BundleExecutor`). The bot adds 10% headroom to the gas limit and 20% to
  the gas price. It builds two bundles, one per trade direction. Each bundle has
  the target's hash first and the bot's own signed transaction second, and the
  inclusion window `[block+1, block+11]` is written as `0x` quantities. Each bundle
  is wrapped in a JSON-RPC 2.0 request whose id comes from a per-executor counter
  that starts at 1. The request is signed and posted to the relay.
- **The notification handler's log loop** (`execute/index.js`, module
  `MatchMaker`). The loop walks the logs of a notification and skips non-sync
  logs. It calls `execute` for each qualifying pool that has a mirror. It returns
  from the whole handler at the first sync log whose pool does not qualify or has
  no mirror.

The shared modules are:

- `Hex`: `ethers.utils.hexValue` and a decoder for its output.
- `Json`: JSON values, kept in member order.
- `Wrappers`: the option type.

Every chain query, signature, hash, `JSON.stringify` and HTTP exchange is an
oracle. It is a function-typed field of `PoolManager.Chain`,
`BundleExecutor.Wallet` or `BundleExecutor.Provider`, a constant of the executor,
or a parameter. Everything the code decides from those answers is modelled.

`BundleExecutor.BundleExecutor` is a class because the source changes state in
place:

- `nextID` is incremented after each request.
- `connectionInfo.headers` is overwritten by every request.
- The POSTs that were sent are recorded in `posted`.
- A ghost sequence `issued` records every prepared request. The invariant
  `Valid()` says that the k-th request has id k.

`buildBundles` fills in the shared options object step by step, and the model
keeps that order. Bundle one's transaction is populated while the options hold
only the nonce. The inflated gas price and gas limit are added after that and
before bundle two's transaction is populated. So only bundle two's transaction
carries them (`BuiltBundlesMirrorEachOther`). The pool manager and the pure parts
of the executor are datatypes and functions, because the source never updates
them after construction.

In these places the code does something a reader might not expect; the model
follows the code:

- The code always marks the bot's own entry `canRevert: false`.
- The code reads the nonce once and shares it between both directions.
- The code has a single gas policy: the inflated estimates.
- The code probes Uniswap for every pool whose factory is not Uniswap, not only
  for Sushi pools.
- The code sends the two bundles concurrently, but `prepareRelayRequest` runs in
  the synchronous part of each `sendBundle` call. So bundle one always gets the
  smaller id, and the model sends the two in that order.

## Model

| member | source | states |
|---|---|---|
| `Hex.HexValue` | execute/bundleExecutor.js:168-169 | the quantity string starts with `0x`, is followed only by lower-case hex digits, and has no leading zero except `0x0` for zero |
| `Hex.HexValueRoundTrip` | execute/bundleExecutor.js:168-169 | decoding the quantity string gives back the block number |
| `Hex.HexValueInjective` | execute/bundleExecutor.js:168-169 | different block numbers get different quantity strings |
| `PoolManager.NewPoolManager` | execute/poolManager.js:10-18 | `mainnet` selects the mainnet addresses, `goerli` the goerli ones, and any other network leaves the addresses unset |
| `PoolManager.UnknownNetworkQualifiesNothing` | execute/poolManager.js:10-48 | with the addresses unset, no pool is a WETH pair |
| `PoolManager.CheckPool` | execute/poolManager.js:23-49 | the result is "not a WETH pair" exactly when neither token is WETH; otherwise the tokens come back in the pool's order, a Uniswap pool gets the Sushi factory, and any other pool gets the Uniswap factory |
| `PoolManager.CheckPoolProbesOtherFactory` | execute/poolManager.js:36-44 | when the two factories differ and the pool belongs to one of them, the factory to probe is the other one, never the pool's own |
| `PoolManager.CheckFactory` | execute/poolManager.js:51-65 | "no pair" exactly when `getPair` returns the zero address; otherwise the pair address unchanged, which is never the zero address |
| `BundleExecutor.EstimateGasCost` | execute/bundleExecutor.js:9-12 | the gas limit is the floor of 1.1 times the estimate and the gas price is the floor of 1.2 times the estimate; neither is below its estimate |
| `BundleExecutor.BundleWithParams` | execute/bundleExecutor.js:160-173 | version `beta-1`; the body is unchanged; `block` is `hexValue` of the start block and `maxBlock` of start plus blocks-to-try, both in canonical form, decoding to those numbers |
| `BundleExecutor.WindowSpan` | execute/bundleExecutor.js:165-172 | the decoded ends of the window differ by exactly blocks-to-try |
| `BundleExecutor.BuiltBundlesShareWindow` | execute/bundleExecutor.js:111-148 | both bundles have the same version and window; the window starts one block after the observed block and ends 10 blocks later |
| `BundleExecutor.BuiltBundlesBackrunTarget` | execute/bundleExecutor.js:130-145 | each body has exactly two entries: the target's `{hash}` first, then the bot's own signed transaction with `canRevert` false; both bundles reference the same target |
| `BundleExecutor.BuiltBundlesMirrorEachOther` | execute/bundleExecutor.js:115-140 | the second transaction is the first with the pair arguments swapped and the inflated gas price and gas limit added; both use the one nonce read, and the first has no gas fields |
| `BundleExecutor.EnvelopeIsJsonRpcRequest` | execute/bundleExecutor.js:79-86 | both `mev_sendBundle` and `mev_simBundle` envelopes are Request objects as section 4 of the JSON-RPC 2.0 Specification defines them, with the counter value as the id and the bundle as the only parameter |
| `BundleExecutor.BundleRoundTrip` | execute/bundleExecutor.js:165-172 | a bundle's JSON object decodes back to the same bundle |
| `BundleExecutor.RequestRoundTrip` | execute/bundleExecutor.js:79-86 | a request's JSON object decodes back to the same request |
| `BundleExecutor.RequestToJsonInjective` | execute/bundleExecutor.js:79-86 | different requests serialize to different JSON objects |
| `BundleExecutor.AuthHeaderSplits` | execute/bundleExecutor.js:94-96 | the `address:signature` header splits back into the signer's address and the signature |
| `BundleExecutor.BundleExecutor.constructor` | execute/bundleExecutor.js:18-29 | the counter starts at 1, nothing has been issued or posted, and the configuration is stored |
| `BundleExecutor.BundleExecutor.IdsNeverRepeat` | execute/bundleExecutor.js:79-86 | ids of prepared requests strictly increase and stay below the counter, so none repeats |
| `BundleExecutor.BundleExecutor.PrepareRelayRequest` | execute/bundleExecutor.js:79-86 | the request has `jsonrpc` `2.0` and the counter's old value as its id; the counter ends exactly one higher; the k-th request keeps id k |
| `BundleExecutor.BundleExecutor.SignedBodiesDiffer` | execute/bundleExecutor.js:68-95 | if `JSON.stringify` is injective, different requests are posted with different bodies, so each signature covers every field of its request |
| `BundleExecutor.BundleExecutor.Request` | execute/bundleExecutor.js:93-100 | the headers are replaced by the signature over the hash of the exact text that is then posted to the relay URL; the relay's answer is returned |
| `BundleExecutor.BundleExecutor.SendBundle` | execute/bundleExecutor.js:67-71 | issues `mev_sendBundle` with the bundle as the only parameter and the next id, and posts it signed |
| `BundleExecutor.BundleExecutor.SimBundle` | execute/bundleExecutor.js:56-60 | the same envelope and signing as `SendBundle`, except that the method is `mev_simBundle`; returns the relay's answer |
| `BundleExecutor.BundleExecutor.BuildBundles` | execute/bundleExecutor.js:110-150 | returns the two bundles that `BuildSpec` describes |
| `BundleExecutor.BundleExecutor.SendBundleToMatchMaker` | execute/bundleExecutor.js:48-53 | sends both bundles, bundle one with the smaller id; the counter goes up by two |
| `BundleExecutor.BundleExecutor.Execute` | execute/bundleExecutor.js:37-41 | builds both bundles and sends them, so exactly the two envelopes of `BuildSpec` are issued and posted, in order |
| `MatchMaker.StepOf` | execute/index.js:54-65 | a log is skipped exactly when it is not a sync log; it stops the handler as "not a WETH pair" exactly when it is a sync log without WETH, and as "no mirror" exactly when it is a WETH sync log for which `checkFactory` finds nothing; otherwise it calls `execute(log.address, mirror, hash)` with the non-zero pair `checkFactory` returned |
| `MatchMaker.ScanLogs` | execute/index.js:52-66 | a scan ends by running through or by stopping at a sync log; every call carries the notification's hash and a non-zero mirror |
| `MatchMaker.ScanCharacterization` | execute/index.js:52-66 | every log before the stop is skipped or makes its call; the calls are exactly those logs' calls in log order; the stop is at a sync log that fails `checkPool` or `checkFactory` |
| `MatchMaker.LaterLogsNotExamined` | execute/index.js:59-63 | after a stop at log j, any log sequence that agrees up to j scans identically |
| `MatchMaker.StopIgnoresSuffix` | execute/index.js:59-63 | replacing every log after the stopping one changes neither the calls nor the exit |
| `MatchMaker.OnMessage` | execute/index.js:43-68 | with no logs, the handler returns with no `execute` call; otherwise its calls and its exit are those of `ScanLogs` |

## Left out

- `execute/test-arb-calculations.js` (the optimal trade size) is not part of this model. It is floating-point work, and the bot never imports it.
- The chain queries are oracle answers that never fail: `getBlockNumber`, `getTransactionCount`, `estimateGas`, `getGasPrice`, `token0`, `token1`, `factory` and `getPair`. A rejected query, which aborts the handler in the code, is not modelled.
- `populateTransaction` and the ABI encoding are not modelled. A populated transaction is a record of its target, its three arguments and the overrides at the time of the call.
- `signTransaction`, `signMessage` and `ethers.utils.id` (Keccak-256) are uninterpreted functions.
- `JSON.stringify` is an uninterpreted function over the modelled JSON value, so the exact text and its escaping are not modelled.
- `fetchJson` is not modelled: the relay's answer is an oracle, and there are no retries or timeouts.
- The `Promise.all` race of the two sends is modelled as two sends in sequence. Overlapping handler invocations are not modelled.
- `estimateGasCost` is called as a plain function (bundleExecutor.js line 126), so `this.signer` is undefined there and `this.signer.provider` (line 5) throws a TypeError. As written, `buildBundles` therefore always rejects, no bundle is ever sent, and the handler's promise rejects at the first qualifying log. The model does not capture this failure: it models only the arithmetic, with the two estimates as inputs, as if the executor's provider had answered.
- BundleExecutor.EstimateGasCost: takes non-negative estimates only. BigNumber `div` truncates toward zero, so it agrees with Dafny's division only on non-negative values.
- `BundleExecutor.BundleWithParams`: block numbers are unbounded. The error `hexValue` raises for numbers from 2^53 - 1 on is not modelled.
- JavaScript's loose equality against `false` (index.js lines 60 and 63) is not modelled. The "not a WETH pair" and "no mirror" results are explicit variants, so a token or pair whose address string coerces to zero is not treated as `false`.
- `MatchMaker.OnMessage` records the `execute` calls it makes but does not run them against an executor.
- Logging, `EventSource`, yargs, dotenv, network selection in `main`, and the unused `FlashbotsBundleProvider` are not modelled.
