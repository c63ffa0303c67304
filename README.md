# Native USDC cross-chain swap: relayer and front-end core in Dafny

This project models the core of the native-USDC cross-chain swap example. A user swaps a
native token on one EVM chain (ETH on Goerli, AVAX on Fuji) for the native token of the
other. USDC is the bridge between the two legs. It crosses by Circle's burn-and-mint bridge,
and a Wormhole message carries the swap instructions.

The model has five parts:

- **The off-chain relayer** (`relayer.dfy`, module `Relayer`, with the generic bounded poll
  in `polling.dfy`).
  - It keeps a list of pending source-chain transaction hashes.
  - The provider's "pending" callback appends a hash only if the list does not already
    hold it.
  - A loop takes the hash at the head. It waits for the transaction receipt, parses the
    Wormhole sequence and fetches the signed VAA. It then finds the Circle message in the
    receipt's logs and polls Circle for its attestation. Finally it submits one redeem
    call to the target chain's swap contract.
  - The loop is the class `RelayLoop`. One turn of the loop is the method `Step`; it is
    proved against the function `Iteration`.
  - Every answer from outside is an input (`World`), and every request is recorded as a
    `Call`.
- **The gas profiles and the redeem call** (`helpers.dfy`, module `Helpers`).
- **The quoter** (`cross_quote.dfy`, module `CrossQuote`).
  - It maps a token address to its chain.
  - It caches the source and target routers, rebuilding one only when its address changes.
  - It quotes the exact-in and exact-out legs around the relayer fee.
  - The routers are records of functions.
- **The swap assembly and the executor** (`swapper.dfy`, module `Swapper`).
  - It builds the null swap path, the per-chain execution parameters, the exact-in swap
    struct and the path array.
  - `UniswapToUniswapExecutor` is the class `Executor`. Its guards and its field updates are
    its methods' contracts.
- **The static tables** (`consts.dfy`, module `Consts`): chain ids, token infos, supported
  swaps. `wrappers.dfy` holds `Option` and `Result`.

External calls are parameters of the model:

- RPC queries, the guardians' VAA service, Circle's attestation endpoint, contract calls
  and their confirmations;
- `parseSequencesFromLogEth`, `parseLog`, `keccak256`, `getEmitterAddressEth` and
  `addressToBytes32`;
- the router factory and the router quotes.

Sleeps are recorded as `Sleep(ms)` calls and have no timing meaning.

Behaviour of the code that the model reproduces, and that a reader might not expect:

- The receipt loop runs `while (numAttempts <= receiptMaxAttempts)`. It can therefore make
  `receiptMaxAttempts + 1` receipt queries, one more than the attestation loop's
  `maxAttempts`.
- The VAA request reuses `ATTESTATION_TIMEOUT` and `ATTESTATION_MAX_ATTEMPTS`.
- A hash that has been shifted off the list can be appended again, because the
  de-duplication looks only at the current list.
- The redeem's `.catch` comes before `.then((tx) => tx.wait())`. So only a rejected
  submission is caught: the entry is dropped and not retried. A rejected confirmation
  escapes the loop and ends it, and the entry is not shifted off.
- The early `continue` paths skip the `sleep(relayerTimeout)` at the bottom of the loop.
  Only an empty list and a completed redeem attempt pause there.
- `UniswapToUniswapQuoter.initialize` stores the new token address before awaiting the
  router build. After a failed build the cached address and the router disagree. Retrying
  with the same tokens then rebuilds nothing and reports no error
  (`CrossQuote.RetryAfterFailedBuildIsSilent`).

## Model

| member | source | states |
|---|---|---|
| Consts.GetSupportedSwaps | ui/src/utils/consts.ts:45-47 | the result holds exactly the listed tokens other than the argument |
| Consts.WithoutDistributes | ui/src/utils/consts.ts:46 | filtering works element by element over a concatenation, so the kept tokens stay in order |
| Consts.SupportedSwapsOfListedTokens | ui/src/utils/consts.ts:43-47 | ETH can be swapped only for AVAX and AVAX only for ETH |
| Consts.SupportedSwapsOfUnlistedToken | ui/src/utils/consts.ts:43-47 | a token that is not listed filters nothing out |
| Consts.GetEvmChainId | ui/src/utils/consts.ts:49-62 | defined exactly for ETH, POLYGON, AVAX and BSC |
| Consts.EvmChainIdInjective | ui/src/utils/consts.ts:49-62 | no two Wormhole chains share an EVM network id |
| Consts.TokenInfosAgreeWithEvmChainId | ui/src/utils/consts.ts:23-43 | every listed token's `evmChainId` is `getEvmChainId` of its chain |
| Consts.GetChainName | ui/src/utils/consts.ts:64-73 | the name is non-empty exactly for Ethereum and Avalanche |
| Consts.ChainNamesOfListedTokens | ui/src/utils/consts.ts:64-73 | both listed tokens' chains have names, and the names differ |
| Helpers.IndexOf | ui/src/swapper/helpers.ts:36 | `indexOf` gives the first position of the value, or -1 exactly when the value is absent |
| Helpers.GasParametersForChain | ui/src/swapper/helpers.ts:31-41 | the EIP-1559 profile exactly for networks on `EVM_EIP1559_CHAIN_IDS`, the legacy profile otherwise |
| Helpers.Eip1559Networks | ui/src/swapper/helpers.ts:25-29 | the EIP-1559 list is exactly 5, 80001 and 43113; BSC testnet 97 is not on it |
| Helpers.GasFieldsByNetwork | ui/src/swapper/helpers.ts:12-23 | gas limit 694200 on every network; gas price exactly off the list; the two EIP-1559 caps exactly on it |
| Helpers.BscTestnetIsLegacy | ui/src/swapper/helpers.ts:25-41 | BSC testnet gets the legacy profile |
| Helpers.EvmSwapExactInFromVaaNative | ui/src/swapper/helpers.ts:58-73 | the three byte arguments become the redeem struct unchanged; the overrides are exactly the gas profile `GasParametersForChain` chooses for the contract's network: gas limit 694200, and a legacy gas price exactly when that network is off the EIP-1559 list |
| Polling.PollFromIsFirstReady | offchain-relayer/src/main.ts:98-106 | a bounded poll stops at the first ready answer, none before it was ready, and it uses the whole budget only when none was ready |
| Polling.FirstReadyFacts | offchain-relayer/src/main.ts:235-268 | the same from attempt 0: at most `budget` queries, a result exactly when some attempt in the budget was ready |
| Polling.PollCallsCount | offchain-relayer/src/main.ts:98-106 | the requests of a poll hold exactly as many queries as the poll made |
| Relayer.PollReceipt | offchain-relayer/src/main.ts:96-106 | the loop returns the first non-null receipt within `receiptMaxAttempts + 1` queries, with a pause after each one that found nothing |
| Relayer.BudgetsDifferByOne | offchain-relayer/src/main.ts:98 | for a non-negative maximum the receipt loop's `<=` allows one more query than the attestation loop's `<` |
| Relayer.CircleMessage | offchain-relayer/src/main.ts:215-229 | no message exactly when no log comes from the Circle emitter; a message found is that of a log from the emitter |
| Relayer.CircleMessageIsFirstMatch | offchain-relayer/src/main.ts:215-229 | a message exactly when some log comes from the emitter, and then it is that of the first such log |
| Relayer.FindCircleMessageInLogs | offchain-relayer/src/main.ts:215-229 | the `for-of` scan computes the first-match message and returns null exactly when no log matches |
| Relayer.GetCircleAttestation | offchain-relayer/src/main.ts:235-268 | at most `maxAttempts` requests; the attestation of the first status-200, "complete" answer; failed requests count as not ready; a pause after each miss |
| Relayer.CircleMessageAndAttestation | offchain-relayer/src/main.ts:188-213 | message and attestation are both present or both null; a message returned is the first Circle message; without one no request is made |
| Relayer.CirclePairAllOrNothing | offchain-relayer/src/main.ts:188-213 | message and signature are both present or both null; present exactly when a Circle log exists and an attestation came within the budget; no request without a message |
| Relayer.HandleCircleMessageInLogs | offchain-relayer/src/main.ts:188-213 | the method returns the all-or-nothing pair with the requests it made |
| Relayer.Iteration | offchain-relayer/src/main.ts:90-185 | one pass of the loop body on the head hash: its requests start with the receipt loop's, and it ends in `NoReceipt` exactly when no receipt came within the budget |
| Relayer.IterationRequestBounds | offchain-relayer/src/main.ts:90-185 | one iteration makes as many receipt queries as the poll made, at most one VAA request, at most `attestationMaxAttempts` attestation requests, at most one redeem |
| Relayer.IterationQueriesOnlyHead | offchain-relayer/src/main.ts:93-106 | every receipt query is for the head hash, and the receipt loop's requests come first |
| Relayer.IterationRedeemsExactlyWithArtifacts | offchain-relayer/src/main.ts:138-176 | redeem is called with `p` iff `p` is the triple of VAA, first Circle message and its attestation, all non-null; it is called once iff such a triple exists |
| Relayer.IterationDropsEarly | offchain-relayer/src/main.ts:109-122 | a null receipt, a receipt not sent to the source contract, or no parsed sequence drops the entry after the receipt loop with no VAA, attestation or redeem request |
| Relayer.IterationUsesFirstSequence | offchain-relayer/src/main.ts:117-136 | every VAA request is for the first parsed sequence, with the relayer's guardian host list, the source chain id, the Circle integration emitter and the attestation timeout and attempt count |
| Relayer.IterationRedeemOutcome | offchain-relayer/src/main.ts:160-181 | a redeem call decides the outcome: a rejected submission is dropped without a retry, a rejected confirmation ends the loop, and otherwise it is relayed |
| Relayer.Observed | offchain-relayer/src/main.ts:81-86 | the callback keeps the list as a prefix, adds at most one entry, and afterwards the list holds exactly the old entries and the observed hash |
| Relayer.ObservedKeepsDistinct | offchain-relayer/src/main.ts:81-86 | the callback never puts a duplicate in the list |
| Relayer.ObserveAllAppends | offchain-relayer/src/main.ts:81-86 | a series of callbacks keeps the existing list as a prefix and adds only observed hashes |
| Relayer.ObserveAllFresh | offchain-relayer/src/main.ts:81-86 | new, pairwise different hashes are appended in the order observed (FIFO) |
| Relayer.ObserveTwiceIsOnce | offchain-relayer/src/main.ts:82-84 | observing a hash twice gives the same list as observing it once |
| Relayer.ReobservedAfterShift | offchain-relayer/src/main.ts:82-85 | the head is ignored while queued, and appended again after it has been shifted off |
| Relayer.RelayLoop.constructor | offchain-relayer/src/main.ts:80 | the list starts empty and the loop running |
| Relayer.RelayLoop.Observe | offchain-relayer/src/main.ts:81-86 | an already-listed hash leaves everything unchanged; otherwise it is appended at the tail; FIFO history kept |
| Relayer.RelayLoop.ObserveEach | offchain-relayer/src/main.ts:81-86 | callbacks in sequence, each by the same rule; the old list stays a prefix, and the history grows by exactly the hashes appended |
| Relayer.RelayLoop.Shift | offchain-relayer/src/main.ts:110 | removes exactly the head and logs it as removed |
| Relayer.RelayLoop.Step | offchain-relayer/src/main.ts:90-185 | an empty list only pauses; otherwise the turn makes exactly the iteration's requests for the head and removes exactly that head, except that a rejected confirmation stops the loop with the list kept; no duplicates and FIFO order hold throughout |
| CrossQuote.GetChainIdFromAddress | ui/src/route/cross-quote.ts:46-58 | a chain exactly for the ETH and AVAX token addresses, otherwise "unrecognized evm token address" |
| CrossQuote.ChainIdFromAddressAgreesWithTokenInfos | ui/src/route/cross-quote.ts:46-58 | the lookup gives each listed token its recorded chain, and resolves only listed tokens |
| CrossQuote.MakeRouter | ui/src/route/cross-quote.ts:60-78 | a router built is for the token and USDC side asked for |
| CrossQuote.MakeRouterOnlyForKnownChains | ui/src/route/cross-quote.ts:60-78 | a router is built only for a token whose chain the lookup knows; others get "unrecognized chain id" |
| CrossQuote.Initialized | ui/src/route/cross-quote.ts:120-130 | `tokenInAddress` is always the new source token; `tokenOutAddress` is the new target token when no build failed; at most two builds, and none only when nothing changes |
| CrossQuote.InitializedDst | ui/src/route/cross-quote.ts:126-129 | the target address is always stored; the source fields are untouched; a build is made exactly when the address changed, and it is the `UsdcLocation.In` router for the new token |
| CrossQuote.InitializeRebuildsOnlyOnChange | ui/src/route/cross-quote.ts:120-130 | each side is rebuilt exactly when its address changed (the target only if the source did not fail); a rebuilt side gets the new router; unchanged sides keep theirs |
| CrossQuote.InitializeSameTokensIsNoop | ui/src/route/cross-quote.ts:120-130 | initializing with the cached addresses builds nothing and changes nothing |
| CrossQuote.InitializeSuccessSynchronizes | ui/src/route/cross-quote.ts:120-130 | from synchronized fields, a successful initialize leaves both routers built for the requested tokens, with both chain ids known |
| CrossQuote.FirstInitializeSynchronizes | ui/src/route/cross-quote.ts:120-130 | a fresh quoter that initializes without error builds source then target, once each |
| CrossQuote.RetryAfterFailedBuildIsSilent | ui/src/route/cross-quote.ts:121-124 | a failed build leaves the address cached but the router stale; a retry with the same tokens builds nothing and reports no error |
| CrossQuote.Quoter.constructor | ui/src/route/cross-quote.ts:111-118 | every field starts undefined |
| CrossQuote.Quoter.Initialize | ui/src/route/cross-quote.ts:120-130 | the in-place updates and `makeRouter` calls are those of the caching rule |
| CrossQuote.GetSrcChainId | ui/src/route/cross-quote.ts:296-298 | the lookup applied to `tokenInAddress`: a chain exactly when that address is a listed token |
| CrossQuote.GetDstChainId | ui/src/route/cross-quote.ts:300-302 | the lookup applied to `tokenOutAddress` |
| CrossQuote.SplitSlippageInHalf | ui/src/route/cross-quote.ts:80-86 | the two legs' slippages add up to the total |
| CrossQuote.GetRelayerFee | ui/src/route/cross-quote.ts:144-150 | the fee is priced by the source router: its unit conversion of the amount, in its output token |
| CrossQuote.ComputeExactInParameters | ui/src/route/cross-quote.ts:168-212 | a quote needs both routers and makes two quote calls, both exact-in; it keeps `amountIn` and a non-negative USDC amount; without a source router nothing is asked |
| CrossQuote.ExactInSucceedsIff | ui/src/route/cross-quote.ts:168-200 | succeeds iff both routers exist, both quotes answer and the source min-out covers the fee; the source leg is quoted first, and the target leg only when the fee is covered, on `srcMinOut - fee`; both legs use the halved slippage |
| CrossQuote.ExactInFeeAccounting | ui/src/route/cross-quote.ts:168-212 | `usdcAmountIn + fee` is the source min-out; `minAmountOut` is the target quote on `usdcAmountIn`; the legs carry the amounts they were quoted on; the fee is priced by the source router |
| CrossQuote.ComputeExactOutParameters | ui/src/route/cross-quote.ts:230-277 | a quote needs both routers and makes two quote calls, both exact-out; it keeps `amountOut`, and its USDC amount covers the fee; without a target router nothing is asked |
| CrossQuote.ExactOutSucceedsIff | ui/src/route/cross-quote.ts:230-262 | succeeds iff both routers exist, both quotes answer and the target max-in covers the fee; the target leg is quoted first and the source leg for `dstMaxIn + fee` |
| CrossQuote.ExactOutFeeAccounting | ui/src/route/cross-quote.ts:230-277 | `usdcAmountIn` is the target max-in; `maxAmountIn` is the source quote for `usdcAmountIn + fee`; the legs carry those amounts |
| Swapper.HexEncode | ui/src/swapper/swapper.ts:49 | two hex digits per byte, in byte order |
| Swapper.HexOfZeros | ui/src/swapper/swapper.ts:48-49 | zero bytes encode to zero digits only |
| Swapper.NullAddressDigits | ui/src/swapper/swapper.ts:47-51 | the null address is "0x" followed by exactly forty zeros |
| Swapper.MakeNullSwapPath | ui/src/swapper/swapper.ts:47-51 | two identical entries, both the null address |
| Swapper.MakeExecutionParameters | ui/src/swapper/swapper.ts:92-104 | Ethereum's contracts for `CHAIN_ID_ETH`, Avalanche's for `CHAIN_ID_AVAX`, "unrecognized chain id" otherwise |
| Swapper.ExecutionParametersForEveryKnownToken | ui/src/swapper/swapper.ts:311-317 | every token the quoter resolves to a chain has execution parameters for that chain |
| Swapper.PoolFee | ui/src/swapper/swapper.ts:152 | the target's fee if truthy, else the source's if truthy, else 0 |
| Swapper.PoolFeeIsZeroOnlyWithoutFees | ui/src/swapper/swapper.ts:152 | the fee is zero exactly when neither leg names one, and otherwise it is one of the two |
| Swapper.EvmMakeExactInSwapParameters | ui/src/swapper/swapper.ts:134-154 | defined iff both legs are; copies `amountIn`, the two min-outs and the source deadline, and encodes the recipient for the target chain |
| Swapper.MakePathArray | ui/src/swapper/swapper.ts:156-166 | the null path then the target path, the source path then the null path, or the two paths, by which legs are present |
| Swapper.PathArrayShape | ui/src/swapper/swapper.ts:156-166 | an undefined entry appears only when both legs are missing; the array starts with the source (or null) path and ends with the target path |
| Swapper.SwapTransactionParamsAsWritten | ui/src/swapper/swapper.ts:205-208 | the swap overrides as written: only `value` |
| Swapper.SwapGasOverridesDropped | ui/src/swapper/swapper.ts:205-208 | as written, no gas field reaches the swap on any network, unlike the awaited profile (on Goerli, for one) |
| Swapper.SwapTransactionParams | ui/src/swapper/swapper.ts:205-208 | the overrides with the profile awaited: `value` plus the network's gas profile |
| Swapper.SwapGasMatchesRedeemGas | ui/src/swapper/swapper.ts:205-208 | with the profile awaited, the swap carries the same gas fields as the redeem call on the same network |
| Swapper.SwapExactInCall | ui/src/swapper/swapper.ts:168-220 | the swap call exists iff both legs do; it goes to the source swap contract with the source leg's amount, the path array, the relayer fee, and the target chain and its contract; its overrides are the corrected, awaited gas profile of the source network, not the `{ value }`-only overrides the code sends |
| Swapper.SwapExactInCallGasDiffersFromAsWritten | ui/src/swapper/swapper.ts:205-208 | the call the model makes differs from the call as written only in the four gas fields, and it carries gas limit 694200 where the code sends none |
| Swapper.VaaSearchParamsFor | ui/src/swapper/swapper.ts:463-469 | the sequence is parsed from the receipt at the source core bridge, and the emitter is derived from the source Circle emitter |
| Swapper.VaaSearchUsesSourceChainContracts | ui/src/swapper/swapper.ts:70-90 | for a swap from Ethereum the search uses Ethereum's core bridge and Circle emitter; for one from Avalanche it uses Avalanche's |
| Swapper.Executor.constructor | ui/src/swapper/swapper.ts:298-300 | a fresh quoter; every other field undefined |
| Swapper.Executor.Initialize | ui/src/swapper/swapper.ts:302-318 | sets `isNative` and initializes the quoter; then sets the source and target execution parameters in turn, each only if nothing before it threw |
| Swapper.Executor.SetSlippage | ui/src/swapper/swapper.ts:320-322 | sets `slippage` and nothing else |
| Swapper.Executor.SetRelayerFee | ui/src/swapper/swapper.ts:324-326 | sets `relayerFeeAmount` and nothing else |
| Swapper.Executor.SwapParametersUndefined | ui/src/swapper/swapper.ts:328-330 | the parameters are defined exactly when both the slippage and the relayer fee are set |
| Swapper.Executor.ComputeQuoteExactIn | ui/src/swapper/swapper.ts:370-382 | throws "undefined swap parameters" without quoting when `areSwapParametersUndefined`; otherwise returns the quoter's answer and caches it with `quoteType = ExactIn` only on success |
| Swapper.Executor.ComputeQuoteExactOut | ui/src/swapper/swapper.ts:384-398 | the same guard; caches the exact-out quote with `quoteType = ExactOut` only on success |
| Swapper.Executor.FetchAndSetEvmEmitterAndSequence | ui/src/swapper/swapper.ts:455-470 | throws "no swap receipt found" without a receipt; otherwise derives the VAA search parameters from the receipt and the source core bridge and Circle emitter |
| Swapper.Executor.EvmApproveAndSwap | ui/src/swapper/swapper.ts:432-443 | makes the exact-in swap call; on a receipt it stores the receipt first and then the search parameters derived from the stored receipt; on a failure it changes nothing; the call carries the corrected gas profile of `Swapper.SwapExactInCall` |
| Swapper.Executor.FetchSignedVaaFromSwap | ui/src/swapper/swapper.ts:472-494 | throws "no vaa search params found" without search parameters; otherwise requests the VAA from the front end's guardian host list for the source chain, emitter and sequence, and stores its bytes when it arrives |

## Left out

- Network, chain and HTTP I/O are oracle inputs: `World` for the relayer, `Network` for the executor, `RouterFactory` and `RouterOps` for the quoter. This covers receipts, the guardians' VAA retry, Circle's endpoint, contract calls, `tx.wait()` and `provider.getNetwork()`.
- Foreign parsing and cryptography are uninterpreted function inputs: `parseSequencesFromLogEth`, `parseSequenceFromLogEth`, `Interface.parseLog`, `keccak256`, `getEmitterAddressEth`, `nativeToHexString`/`addressToBytes32`.
- Sleeps and timeouts are recorded calls with no clock. Attempts are counted, not timed.
- The "pending" callback is not concurrent. Its pushes happen between turns (`Observe`) or, for those arriving while a turn awaits, just before the head is shifted (`Step`'s `arrivals`). Where inside the turn they land does not change the head or the result.
- Relayer.RelayLoop.Step: rejections other than the redeem's are not modelled. These include a rejected `getTransactionReceipt`, a throwing `parseLog` or `parseSequencesFromLogEth`, and `ethers.utils.keccak256(circleMessage)` throwing inside `handleCircleMessageInLogs` (offchain-relayer/src/main.ts:202). In the code they would also escape the loop. `Relayer.Iteration` has no outcome for them.
- Relayer.GetCircleAttestation: a "complete" response is assumed to carry an attestation. In the code a missing `attestation` field would come back as `undefined` and pass the null checks.
- Relayer.Settings: the environment values are integers. `Number()` of a missing or non-numeric variable (NaN) and fractional values are not modelled. A negative maximum gives no attempts, as the code's comparisons do.
- Relayer.RelayLoop.Step: after a rejected confirmation the loop is stopped (`running := false`). The process-level unhandled rejection is not modelled, and neither is startup: provider and wallet construction, `WORMHOLE()`, `CIRCLE_INTEGRATION()` and `chainId()` become fields of `Config`.
- CrossQuote.SplitSlippageInHalf: exact real halving. The ethers `FixedNumber` rounding to four decimals is not modelled.
- CrossQuote.ComputeExactInParameters: the `Number(...)` comparison against the fee is exact on integer base units, not a float comparison. `subtractFixedAmounts` is exact subtraction, and token decimals are ignored.
- CrossQuote.ComputeExactOutParameters: the same, with `addFixedAmounts` as exact addition.
- Error messages are fixed strings. The code's messages interpolate amounts.
- Some quoter operations delegate to router code that is not part of this model: `computeAndVerifySrcPoolAddress`, `computeAndVerifyDstPoolAddress`, `setDeadlines`, `getSrcEvmProvider` and `getDstEvmProvider`. The same holds for `makeEvmProviderFromAddress` and `makeEvmProvider`, which read environment variables.
- Some executor operations only wire together calls modelled elsewhere: `fetchVaaAndSwap`, `evmSwapExactInFromVaa` and `swapExactInFromVaa`. Their redeem call is `Helpers.EvmSwapExactInFromVaaNative`. Nothing in the executor ever sets `circleBridgeMessage` or `circleAttestation`.
- `setTransport`, `getTokenInAddress`/`getTokenOutAddress` and `setDeadlines` are trivial, and the TODO stubs are empty.
- `makeCrossChainSwapEvmContract` and the relayer's V2/V3 `connect` choice are bindings to contract factories. The swap call records only the protocol.
- The Uniswap and Hurricaneswap routers (`ui/src/route/hurricaneswap.ts` and the unseen router files) are abstracted as `RouterOps`, and `makeExactInParameters`/`makeExactOutParameters` as router functions.
- Some addresses are the `Deployment` parameter. The deployed swap-contract addresses come from `ui/src/addresses/goerli` and `ui/src/addresses/fuji`, which are not part of this model. `CIRCLE_EMITTER_ADDRESS_ETHEREUM` and `CIRCLE_EMITTER_ADDRESS_AVALANCHE` are imported from `ui/src/utils/consts.ts` (`ui/src/swapper/swapper.ts:23-24`), but the version of that file modelled here does not define them.
- The deployment scripts under `contracts/migrations/` only deploy contracts and write files.
- Consts.GetSupportedSwaps: `!==` is object identity in the code and structural equality here. The two listed token objects differ structurally, so they are filtered the same way.
- Consts: the constants the core does not use are not modelled: `RELAYER_FEE_USDC`, the token bridge addresses and `APPROVAL_GAS_LIMIT`.
- Swapper.PoolFee: JavaScript truthiness is modelled for a number only (`Some(x)` with `x != 0`). A `poolFee` that arrived as the string "0" would be truthy in the code. The field's type is set by the router code, which is not part of this model.
- Swapper.SwapExactInCall: models the swap with the awaited gas profile (`Swapper.SwapTransactionParams`), the corrected half of the finding below. The code sends only `{ value: amountIn }` (`Swapper.SwapTransactionParamsAsWritten`). `Swapper.SwapExactInCallGasDiffersFromAsWritten` states that the two differ exactly in the four gas fields.
- Swapper.Executor.EvmApproveAndSwap: the swap it records inherits the corrected gas profile of `Swapper.SwapExactInCall`.
- Swapper.Executor.FetchAndSetEvmEmitterAndSequence: the code reads `this.srcExecutionParams.wormhole` without a guard, so an undefined value throws a `TypeError`. The model returns an error and changes nothing.

## Findings

| source | as written | input that shows it | evidently intended | confidence | as-written member | corrected member |
|---|---|---|---|---|---|---|
| ui/src/swapper/swapper.ts:205-208 | `getEvmGasParametersForContract` is async but not awaited. `{ value: amountIn, ...gasParams }` spreads a Promise, which contributes no fields, so the swap transaction carries only `value`. | Any swap, e.g. on Goerli (EVM network 5): as written there is no `gasLimit`, `maxFeePerGas` or `maxPriorityFeePerGas` (`Swapper.SwapGasOverridesDropped`). | Await the profile, as `evmSwapExactInFromVaaNative` does for the redeem. The swap then carries gas limit 694200 and the network's fee fields (`Swapper.SwapGasMatchesRedeemGas`). | high; not executed | Swapper.SwapTransactionParamsAsWritten | Swapper.SwapTransactionParams |
