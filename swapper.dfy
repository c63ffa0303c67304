/** Assembling and guarding a cross-chain swap in the front end (ui/src/swapper/swapper.ts):
    the null swap path, the per-chain execution parameters, the exact-in swap struct and
    path array, and the state kept by `UniswapToUniswapExecutor` between its steps. */
module Swapper {
  import opened Wrappers
  import Consts
  import Helpers
  import CrossQuote

  type Address = string
  type Bytes = seq<bv8>

  // ---------------------------------------------------------------- null swap path

  const HEX_DIGITS: string := "0123456789abcdef"

  /** The two hex digits of one byte, high nibble first. */
  function HexPair(b: bv8): (r: string)
    ensures |r| == 2
    ensures b == 0 ==> r == "00"
  {
    var n := b as int;
    [HEX_DIGITS[n / 16], HEX_DIGITS[n % 16]]
  }

  /** `Buffer.toString("hex")`: two lower-case hex digits per byte, in byte order. */
  function HexEncode(bytes: Bytes): (r: string)
    ensures |r| == 2 * |bytes|
    ensures forall i :: 0 <= i < |bytes| ==> r[2 * i..2 * i + 2] == HexPair(bytes[i])
  {
    if bytes == [] then ""
    else
      var rest := HexEncode(bytes[1..]);
      var r := HexPair(bytes[0]) + rest;
      assert forall i :: 1 <= i < |bytes| ==> r[2 * i..2 * i + 2] == rest[2 * (i - 1)..2 * (i - 1) + 2];
      r
  }

  /** `Buffer.alloc(n)`: `n` zero bytes. */
  function Zeros(n: nat): (r: Bytes)
    ensures |r| == n && forall i :: 0 <= i < n ==> r[i] == 0
  {
    if n == 0 then [] else Zeros(n - 1) + [0]
  }

  /** `"0x" + Buffer.alloc(20).toString("hex")`. */
  const NULL_ADDRESS: Address := "0x" + HexEncode(Zeros(20))

  /** Zero bytes encode to zero digits. */
  lemma HexOfZeros(n: nat)
    ensures forall k :: 0 <= k < 2 * n ==> HexEncode(Zeros(n))[k] == '0'
  {
    var hex := HexEncode(Zeros(n));
    forall k | 0 <= k < 2 * n ensures hex[k] == '0' {
      var j := k / 2;
      assert Zeros(n)[j] == 0;
      assert hex[2 * j..2 * j + 2] == "00";
      assert k == 2 * j || k == 2 * j + 1;
    }
  }

  /** The null address is "0x" followed by forty zero digits. */
  lemma NullAddressDigits()
    ensures |NULL_ADDRESS| == 42
    ensures NULL_ADDRESS[..2] == "0x"
    ensures forall k :: 2 <= k < 42 ==> NULL_ADDRESS[k] == '0'
  {
    var n := 20;
    var hex := HexEncode(Zeros(n));
    HexOfZeros(n);
    PrefixedDigits(hex);
  }

  /** The digits after a "0x" prefix are those of the string prefixed. */
  lemma PrefixedDigits(hex: string)
    ensures |"0x" + hex| == |hex| + 2 && ("0x" + hex)[..2] == "0x"
    ensures forall k :: 2 <= k < |hex| + 2 ==> ("0x" + hex)[k] == hex[k - 2]
  {
  }

  /** `makeNullSwapPath`: the null address twice. */
  function MakeNullSwapPath(): (p: seq<Address>)
    ensures |p| == 2 && p[0] == p[1] == NULL_ADDRESS
  {
    [NULL_ADDRESS, NULL_ADDRESS]
  }

  // ---------------------------------------------------------------- execution parameters

  datatype SwapContractParameters = SwapContractParameters(address: Address)

  datatype WormholeParameters = WormholeParameters(
    chainId: Consts.ChainId,
    coreBridgeAddress: Address,
    circleEmitterAddress: Address)

  datatype ExecutionParameters = ExecutionParameters(
    crossChainSwap: SwapContractParameters,
    wormhole: WormholeParameters)

  /** Addresses the model takes as given: the deployed swap contracts, read from the
      Goerli and Fuji address files, and the Circle emitters of the two chains, which are
      imported from `ui/src/utils/consts.ts` but not defined in the version modelled. */
  datatype Deployment = Deployment(
    swapContractEthereum: Address,
    swapContractAvalanche: Address,
    circleEmitterEthereum: Address,
    circleEmitterAvalanche: Address)

  function ExecutionParametersEthereum(d: Deployment): ExecutionParameters
  {
    ExecutionParameters(
      SwapContractParameters(d.swapContractEthereum),
      WormholeParameters(Consts.CHAIN_ID_ETH, Consts.CORE_BRIDGE_ADDRESS_ETHEREUM, d.circleEmitterEthereum))
  }

  function ExecutionParametersAvalanche(d: Deployment): ExecutionParameters
  {
    ExecutionParameters(
      SwapContractParameters(d.swapContractAvalanche),
      WormholeParameters(Consts.CHAIN_ID_AVAX, Consts.CORE_BRIDGE_ADDRESS_AVALANCHE, d.circleEmitterAvalanche))
  }

  /** `makeExecutionParameters`: the contracts of Ethereum or Avalanche; any other chain
      is refused. The parameters returned are those of the chain asked for. */
  function MakeExecutionParameters(d: Deployment, chainId: Consts.ChainId): (r: Result<ExecutionParameters>)
    ensures r.Ok? <==> chainId == Consts.CHAIN_ID_ETH || chainId == Consts.CHAIN_ID_AVAX
    ensures r.Ok? ==> r.value.wormhole.chainId == chainId
    ensures r.Ok? && chainId == Consts.CHAIN_ID_ETH ==>
      r.value.wormhole.coreBridgeAddress == Consts.CORE_BRIDGE_ADDRESS_ETHEREUM &&
      r.value.crossChainSwap.address == d.swapContractEthereum
    ensures r.Ok? && chainId == Consts.CHAIN_ID_AVAX ==>
      r.value.wormhole.coreBridgeAddress == Consts.CORE_BRIDGE_ADDRESS_AVALANCHE &&
      r.value.crossChainSwap.address == d.swapContractAvalanche
    ensures r.Err? ==> r.message == "unrecognized chain id"
  {
    if chainId == Consts.CHAIN_ID_ETH then Ok(ExecutionParametersEthereum(d))
    else if chainId == Consts.CHAIN_ID_AVAX then Ok(ExecutionParametersAvalanche(d))
    else Err("unrecognized chain id")
  }

  /** Every token the quoter can resolve to a chain has execution parameters, and they
      belong to that chain. */
  lemma ExecutionParametersForEveryKnownToken(d: Deployment, tokenAddress: Address)
    ensures var c := CrossQuote.GetChainIdFromAddress(tokenAddress);
      c.Ok? ==> MakeExecutionParameters(d, c.value).Ok? && MakeExecutionParameters(d, c.value).value.wormhole.chainId == c.value
  {
  }

  // ---------------------------------------------------------------- swap struct and path

  /** `ExactInParametersStruct`. */
  datatype ExactInParametersStruct = ExactInParametersStruct(
    amountIn: int,
    amountOutMinimum: int,
    targetAmountOutMinimum: int,
    targetChainRecipient: Bytes,
    deadline: int,
    poolFee: int)

  /** JavaScript truthiness of an optional fee. */
  predicate Truthy(fee: Option<int>) { fee.Some? && fee.value != 0 }

  /** `dst.poolFee || src.poolFee || 0`. */
  function PoolFee(dstFee: Option<int>, srcFee: Option<int>): (r: int)
    ensures Truthy(dstFee) ==> r == dstFee.value
    ensures !Truthy(dstFee) && Truthy(srcFee) ==> r == srcFee.value
    ensures !Truthy(dstFee) && !Truthy(srcFee) ==> r == 0
  {
    if Truthy(dstFee) then dstFee.value else if Truthy(srcFee) then srcFee.value else 0
  }

  /** The pool fee is the target's when it has one, else the source's, else zero; so it
      is zero only when neither leg names a fee. */
  lemma PoolFeeIsZeroOnlyWithoutFees(dstFee: Option<int>, srcFee: Option<int>)
    ensures PoolFee(dstFee, srcFee) == 0 <==> !Truthy(dstFee) && !Truthy(srcFee)
    ensures PoolFee(dstFee, srcFee) != 0 ==> Some(PoolFee(dstFee, srcFee)) in {dstFee, srcFee}
  {
  }

  /** `evmMakeExactInSwapParameters`; both legs must be present (reading a field of an
      undefined leg throws). `toBytes32` is `addressToBytes32`. */
  function EvmMakeExactInSwapParameters(
    amountIn: int, recipientAddress: Address, dstWormholeChainId: Consts.ChainId,
    quoteParams: CrossQuote.ExactInCrossParameters, toBytes32: (Address, Consts.ChainId) -> Bytes)
    : (r: Result<ExactInParametersStruct>)
    ensures r.Ok? <==> quoteParams.src.Some? && quoteParams.dst.Some?
    ensures r.Ok? ==>
      && r.value.amountIn == amountIn
      && r.value.amountOutMinimum == quoteParams.src.value.minAmountOut
      && r.value.targetAmountOutMinimum == quoteParams.dst.value.minAmountOut
      && r.value.targetChainRecipient == toBytes32(recipientAddress, dstWormholeChainId)
      && r.value.deadline == quoteParams.src.value.deadline
      && r.value.poolFee == PoolFee(quoteParams.dst.value.poolFee, quoteParams.src.value.poolFee)
  {
    if quoteParams.src.None? || quoteParams.dst.None? then Err("swap leg undefined")
    else
      var src := quoteParams.src.value;
      var dst := quoteParams.dst.value;
      Ok(ExactInParametersStruct(
        amountIn,
        src.minAmountOut,
        dst.minAmountOut,
        toBytes32(recipientAddress, dstWormholeChainId),
        src.deadline,
        PoolFee(dst.poolFee, src.poolFee)))
  }

  function Defined(path: seq<Address>): (r: seq<Option<Address>>)
    ensures |r| == |path| && forall i :: 0 <= i < |path| ==> r[i] == Some(path[i])
  {
    seq(|path|, i requires 0 <= i < |path| => Some(path[i]))
  }

  /** `makePathArray`: the source path then the target path, with the null path standing
      in for a missing leg. `Array.concat(undefined)` appends `undefined` itself, so with
      both legs missing the array ends in one `None`. */
  function MakePathArray(src: Option<CrossQuote.ExactInParameters>, dst: Option<CrossQuote.ExactInParameters>)
    : (r: seq<Option<Address>>)
    ensures src.None? && dst.Some? ==> r == Defined(MakeNullSwapPath()) + Defined(dst.value.path)
    ensures src.None? && dst.None? ==> r == Defined(MakeNullSwapPath()) + [None]
    ensures src.Some? && dst.None? ==> r == Defined(src.value.path) + Defined(MakeNullSwapPath())
    ensures src.Some? && dst.Some? ==> r == Defined(src.value.path) + Defined(dst.value.path)
  {
    var nullPath := Defined(MakeNullSwapPath());
    if src.None? then nullPath + (if dst.Some? then Defined(dst.value.path) else [None])
    else if dst.None? then Defined(src.value.path) + nullPath
    else Defined(src.value.path) + Defined(dst.value.path)
  }

  /** A path array holds an undefined entry only when both legs are missing; otherwise it
      starts with the source path (or the null path) and ends with the target path (or the
      null path). */
  lemma PathArrayShape(src: Option<CrossQuote.ExactInParameters>, dst: Option<CrossQuote.ExactInParameters>)
    ensures None in MakePathArray(src, dst) <==> src.None? && dst.None?
    ensures var r := MakePathArray(src, dst);
      var head := if src.Some? then src.value.path else MakeNullSwapPath();
      && |r| >= |head|
      && r[..|head|] == Defined(head)
      && (dst.Some? ==> r[|head|..] == Defined(dst.value.path))
      && (src.Some? && dst.None? ==> r[|head|..] == Defined(MakeNullSwapPath()))
  {
    var r := MakePathArray(src, dst);
    if src.Some? || dst.Some? {
      var head := if src.Some? then src.value.path else MakeNullSwapPath();
      var tail := if dst.Some? then dst.value.path else MakeNullSwapPath();
      assert r == Defined(head) + Defined(tail);
      forall i | 0 <= i < |r| ensures r[i] != None {
        if i < |head| {
          assert r[i] == Defined(head)[i];
        } else {
          assert r[i] == Defined(tail)[i - |head|];
        }
      }
    } else {
      assert r[|r| - 1] == None;
    }
  }

  // ---------------------------------------------------------------- the swap transaction

  /** The overrides object passed to `swapExactNativeInAndTransfer`: a `value` and
      whatever gas fields were spread into it. */
  datatype TransactionParams = TransactionParams(
    value: int,
    gasLimit: Option<string>,
    gasPrice: Option<string>,
    maxFeePerGas: Option<string>,
    maxPriorityFeePerGas: Option<string>)

  /** `{ value: amountIn, ...gasParams }` as written: `getEvmGasParametersForContract` is
      not awaited, so `gasParams` is a Promise, which has no own fields to spread. */
  function SwapTransactionParamsAsWritten(amountIn: int, contractChainId: int): (t: TransactionParams)
    ensures t.value == amountIn
  {
    TransactionParams(amountIn, None, None, None, None)
  }

  /** Whatever the network, the swap transaction as written carries no gas override at
      all; on Goerli (5) the awaited profile would have set the gas limit and the two
      EIP-1559 fee caps. */
  lemma SwapGasOverridesDropped(amountIn: int, contractChainId: int)
    ensures var t := SwapTransactionParamsAsWritten(amountIn, contractChainId);
      t.gasLimit.None? && t.gasPrice.None? && t.maxFeePerGas.None? && t.maxPriorityFeePerGas.None?
    ensures SwapTransactionParamsAsWritten(amountIn, Consts.EVM_ETH_NETWORK_CHAIN_ID) !=
      SwapTransactionParams(amountIn, Consts.EVM_ETH_NETWORK_CHAIN_ID)
  {
    Helpers.Eip1559Networks(Consts.EVM_ETH_NETWORK_CHAIN_ID);
  }

  /** The overrides with the gas profile awaited, as the redeem side does it. */
  function SwapTransactionParams(amountIn: int, contractChainId: int): (t: TransactionParams)
    ensures t.value == amountIn
  {
    var g := Helpers.GasParametersForChain(contractChainId);
    TransactionParams(amountIn, Some(g.gasLimit), g.gasPrice, g.maxFeePerGas, g.maxPriorityFeePerGas)
  }

  /** With the profile awaited, the swap carries the same gas fields as the redeem call
      on the same network: gas limit 694200, and a gas price exactly off the EIP-1559 list. */
  lemma SwapGasMatchesRedeemGas(amountIn: int, contractChainId: int, vaa: Bytes, message: Bytes, attestation: Bytes)
    ensures var t := SwapTransactionParams(amountIn, contractChainId);
      var o := Helpers.EvmSwapExactInFromVaaNative(contractChainId, vaa, message, attestation).overrides;
      && t.gasLimit == Some(o.gasLimit) == Some("694200")
      && t.gasPrice == o.gasPrice
      && t.maxFeePerGas == o.maxFeePerGas
      && t.maxPriorityFeePerGas == o.maxPriorityFeePerGas
      && (t.gasPrice.Some? <==> contractChainId !in Helpers.EVM_EIP1559_CHAIN_IDS)
  {
    Helpers.GasFieldsByNetwork(contractChainId);
  }

  /** A `swapExactNativeInAndTransfer` call on the source swap contract. */
  datatype SwapCall = SwapCall(
    contractAddress: Address,
    protocol: Option<string>,
    swapParams: ExactInParametersStruct,
    pathArray: seq<Option<Address>>,
    relayerFee: int,
    targetChainId: Consts.ChainId,
    targetContractAddress: Bytes,
    transactionParams: TransactionParams)

  /** What the executor cannot compute itself: the network the source contract reports,
      `addressToBytes32`, the swap transaction's receipt (`None` when it fails), the
      sequence parsed from a receipt, `getEmitterAddressEth`, and the guardians' signed
      VAA for a request (`None` when the retries give up). */
  datatype Network = Network(
    contractChainId: int,
    toBytes32: (Address, Consts.ChainId) -> Bytes,
    swapReceipt: SwapCall -> Option<TransactionReceipt>,
    parseSequence: (TransactionReceipt, Address) -> string,
    emitterAddress: Address -> string,
    signedVaa: VaaRequest -> Option<Bytes>)

  datatype TransactionReceipt = TransactionReceipt(transactionHash: string, logs: seq<Bytes>)

  /** `VaaSearchParams`. */
  datatype VaaSearchParams = VaaSearchParams(sequence: string, emitterAddress: string)

  /** A `getSignedVAAWithRetry` request. */
  datatype VaaRequest = VaaRequest(hosts: seq<string>, chainId: Consts.ChainId, emitterAddress: string, sequence: string)

  /** `evmApproveAndSwapExactIn` up to the transaction: the call it makes on the source
      swap contract with the cached quote and the execution parameters of both chains. */
  function SwapExactInCall(
    quoteParams: CrossQuote.ExactInCrossParameters, srcExec: ExecutionParameters, dstExec: ExecutionParameters,
    recipientAddress: Address, net: Network): (r: Result<SwapCall>)
    ensures r.Ok? <==> quoteParams.src.Some? && quoteParams.dst.Some?
    ensures r.Ok? ==>
      && r.value.contractAddress == srcExec.crossChainSwap.address
      && r.value.protocol == Some(quoteParams.src.value.protocol)
      && r.value.swapParams.amountIn == quoteParams.src.value.amountIn
      && r.value.swapParams.targetChainRecipient == net.toBytes32(recipientAddress, dstExec.wormhole.chainId)
      && r.value.pathArray == Defined(quoteParams.src.value.path) + Defined(quoteParams.dst.value.path)
      && r.value.relayerFee == quoteParams.relayerFee.amount
      && r.value.targetChainId == dstExec.wormhole.chainId
      && r.value.targetContractAddress == net.toBytes32(dstExec.crossChainSwap.address, dstExec.wormhole.chainId)
      && r.value.transactionParams == SwapTransactionParams(quoteParams.src.value.amountIn, net.contractChainId)
  {
    var protocol := if quoteParams.src.Some? then Some(quoteParams.src.value.protocol) else None;
    var amountIn := if quoteParams.src.Some? then quoteParams.src.value.amountIn else 0;
    var dstWormholeChainId := dstExec.wormhole.chainId;
    match EvmMakeExactInSwapParameters(amountIn, recipientAddress, dstWormholeChainId, quoteParams, net.toBytes32)
    case Err(e) => Err(e)
    case Ok(swapParams) =>
      Ok(SwapCall(
        srcExec.crossChainSwap.address,
        protocol,
        swapParams,
        MakePathArray(quoteParams.src, quoteParams.dst),
        quoteParams.relayerFee.amount,
        dstWormholeChainId,
        net.toBytes32(dstExec.crossChainSwap.address, dstWormholeChainId),
        SwapTransactionParams(amountIn, net.contractChainId)))
  }

  /** The swap call the model makes carries the awaited gas profile (see
      `SwapTransactionParams`); the call as written in the source would carry the
      overrides of `SwapTransactionParamsAsWritten`, which differ on every network: they
      have no gas limit. */
  lemma SwapExactInCallGasDiffersFromAsWritten(
    quoteParams: CrossQuote.ExactInCrossParameters, srcExec: ExecutionParameters, dstExec: ExecutionParameters,
    recipientAddress: Address, net: Network)
    requires quoteParams.src.Some? && quoteParams.dst.Some?
    ensures var t := SwapExactInCall(quoteParams, srcExec, dstExec, recipientAddress, net).value.transactionParams;
      && t.gasLimit == Some("694200")
      && t != SwapTransactionParamsAsWritten(quoteParams.src.value.amountIn, net.contractChainId)
      && t.(gasLimit := None, gasPrice := None, maxFeePerGas := None, maxPriorityFeePerGas := None)
         == SwapTransactionParamsAsWritten(quoteParams.src.value.amountIn, net.contractChainId)
  {
    Helpers.GasFieldsByNetwork(net.contractChainId);
  }

  /** `fetchAndSetEvmEmitterAndSequence` after its guard: where to look for the VAA. */
  function VaaSearchParamsFor(receipt: TransactionReceipt, srcExec: ExecutionParameters, net: Network): (r: VaaSearchParams)
    ensures r.sequence == net.parseSequence(receipt, srcExec.wormhole.coreBridgeAddress)
    ensures r.emitterAddress == net.emitterAddress(srcExec.wormhole.circleEmitterAddress)
  {
    VaaSearchParams(
      net.parseSequence(receipt, srcExec.wormhole.coreBridgeAddress),
      net.emitterAddress(srcExec.wormhole.circleEmitterAddress))
  }

  /** The search parameters of a swap on one of the two chains: the sequence is read from
      the receipt's logs of that chain's core bridge, and the emitter is that chain's
      Circle emitter. */
  lemma VaaSearchUsesSourceChainContracts(
    d: Deployment, chainId: Consts.ChainId, receipt: TransactionReceipt, net: Network)
    requires MakeExecutionParameters(d, chainId).Ok?
    ensures var search := VaaSearchParamsFor(receipt, MakeExecutionParameters(d, chainId).value, net);
      && (chainId == Consts.CHAIN_ID_ETH ==>
            search == VaaSearchParams(
              net.parseSequence(receipt, Consts.CORE_BRIDGE_ADDRESS_ETHEREUM), net.emitterAddress(d.circleEmitterEthereum)))
      && (chainId == Consts.CHAIN_ID_AVAX ==>
            search == VaaSearchParams(
              net.parseSequence(receipt, Consts.CORE_BRIDGE_ADDRESS_AVALANCHE), net.emitterAddress(d.circleEmitterAvalanche)))
  {
  }

  // ---------------------------------------------------------------- the executor

  /** `UniswapToUniswapExecutor`; `None` is `undefined`. */
  class Executor {
    const quoter: CrossQuote.Quoter
    var cachedExactInParams: Option<CrossQuote.ExactInCrossParameters>
    var cachedExactOutParams: Option<CrossQuote.ExactOutCrossParameters>
    var quoteType: Option<CrossQuote.QuoteType>
    var isNative: Option<bool>
    var slippage: Option<real>
    var relayerFeeAmount: Option<int>
    var srcExecutionParams: Option<ExecutionParameters>
    var dstExecutionParams: Option<ExecutionParameters>
    var vaaSearchParams: Option<VaaSearchParams>
    var vaaBytes: Option<Bytes>
    var srcEvmReceipt: Option<TransactionReceipt>

    constructor()
      ensures fresh(quoter) && quoter.State() == CrossQuote.EMPTY_QUOTER
      ensures cachedExactInParams.None? && cachedExactOutParams.None? && quoteType.None?
      ensures isNative.None? && slippage.None? && relayerFeeAmount.None?
      ensures srcExecutionParams.None? && dstExecutionParams.None?
      ensures vaaSearchParams.None? && vaaBytes.None? && srcEvmReceipt.None?
    {
      quoter := new CrossQuote.Quoter();
      cachedExactInParams, cachedExactOutParams, quoteType := None, None, None;
      isNative, slippage, relayerFeeAmount := None, None, None;
      srcExecutionParams, dstExecutionParams := None, None;
      vaaSearchParams, vaaBytes, srcEvmReceipt := None, None, None;
    }

    /** `initialize`: initialize the quoter, then look up the execution parameters of
        both chains; each assignment happens only if everything before it succeeded. */
    method Initialize(tokenIn: Address, tokenOut: Address, native: bool, factory: CrossQuote.RouterFactory, d: Deployment)
      returns (error: Option<string>)
      modifies this, quoter
      ensures isNative == Some(native)
      ensures var init := CrossQuote.Initialized(old(quoter.State()), tokenIn, tokenOut, factory);
        && quoter.State() == init.state
        && (init.error.Some? ==>
              && error == init.error
              && srcExecutionParams == old(srcExecutionParams) && dstExecutionParams == old(dstExecutionParams))
        && (init.error.None? ==>
              var src := CrossQuote.GetSrcChainId(init.state);
              var dst := CrossQuote.GetDstChainId(init.state);
              var srcExec := if src.Ok? then MakeExecutionParameters(d, src.value) else Err(src.message);
              var dstExec := if dst.Ok? then MakeExecutionParameters(d, dst.value) else Err(dst.message);
              && (srcExec.Err? ==>
                    && error == Some(srcExec.message)
                    && srcExecutionParams == old(srcExecutionParams) && dstExecutionParams == old(dstExecutionParams))
              && (srcExec.Ok? ==> srcExecutionParams == Some(srcExec.value))
              && (srcExec.Ok? && dstExec.Err? ==> error == Some(dstExec.message) && dstExecutionParams == old(dstExecutionParams))
              && (srcExec.Ok? && dstExec.Ok? ==> error.None? && dstExecutionParams == Some(dstExec.value)))
      ensures cachedExactInParams == old(cachedExactInParams) && cachedExactOutParams == old(cachedExactOutParams)
      ensures quoteType == old(quoteType) && slippage == old(slippage) && relayerFeeAmount == old(relayerFeeAmount)
      ensures vaaSearchParams == old(vaaSearchParams) && vaaBytes == old(vaaBytes) && srcEvmReceipt == old(srcEvmReceipt)
    {
      isNative := Some(native);
      var builds;
      builds, error := quoter.Initialize(tokenIn, tokenOut, factory);
      if error.Some? {
        return;
      }
      var src := CrossQuote.GetSrcChainId(quoter.State());
      var srcExec := if src.Ok? then MakeExecutionParameters(d, src.value) else Err(src.message);
      if srcExec.Err? {
        return Some(srcExec.message);
      }
      srcExecutionParams := Some(srcExec.value);
      var dst := CrossQuote.GetDstChainId(quoter.State());
      var dstExec := if dst.Ok? then MakeExecutionParameters(d, dst.value) else Err(dst.message);
      if dstExec.Err? {
        return Some(dstExec.message);
      }
      dstExecutionParams := Some(dstExec.value);
    }

    method SetSlippage(s: real)
      modifies this`slippage
      ensures slippage == Some(s)
    {
      slippage := Some(s);
    }

    method SetRelayerFee(amount: int)
      modifies this`relayerFeeAmount
      ensures relayerFeeAmount == Some(amount)
    {
      relayerFeeAmount := Some(amount);
    }

    /** `areSwapParametersUndefined`. */
    predicate SwapParametersUndefined()
      reads this
      ensures !SwapParametersUndefined() <==> slippage.Some? && relayerFeeAmount.Some?
    {
      slippage.None? || relayerFeeAmount.None?
    }

    /** `computeQuoteExactIn`: refuses to quote before both the slippage and the relayer
        fee are set, and caches the quote (and its type) only when the quoter returns one. */
    method ComputeQuoteExactIn(amountIn: int) returns (result: Result<CrossQuote.ExactInCrossParameters>, calls: seq<CrossQuote.QuoteCall>)
      modifies this`cachedExactInParams, this`quoteType
      ensures SwapParametersUndefined() ==>
        && result == Err("undefined swap parameters") && calls == []
        && cachedExactInParams == old(cachedExactInParams) && quoteType == old(quoteType)
      ensures !SwapParametersUndefined() ==>
        var q := CrossQuote.ComputeExactInParameters(quoter.State(), amountIn, slippage.value, relayerFeeAmount.value);
        && result == q.result && calls == q.calls
        && (q.result.Ok? ==> cachedExactInParams == Some(q.result.value) && quoteType == Some(CrossQuote.ExactIn))
        && (q.result.Err? ==> cachedExactInParams == old(cachedExactInParams) && quoteType == old(quoteType))
    {
      if SwapParametersUndefined() {
        return Err("undefined swap parameters"), [];
      }
      var q := CrossQuote.ComputeExactInParameters(quoter.State(), amountIn, slippage.value, relayerFeeAmount.value);
      result, calls := q.result, q.calls;
      if result.Err? {
        return;
      }
      cachedExactInParams := Some(result.value);
      quoteType := Some(CrossQuote.ExactIn);
    }

    /** `computeQuoteExactOut`, the exact-out counterpart. */
    method ComputeQuoteExactOut(amountOut: int) returns (result: Result<CrossQuote.ExactOutCrossParameters>, calls: seq<CrossQuote.QuoteCall>)
      modifies this`cachedExactOutParams, this`quoteType
      ensures SwapParametersUndefined() ==>
        && result == Err("undefined swap parameters") && calls == []
        && cachedExactOutParams == old(cachedExactOutParams) && quoteType == old(quoteType)
      ensures !SwapParametersUndefined() ==>
        var q := CrossQuote.ComputeExactOutParameters(quoter.State(), amountOut, slippage.value, relayerFeeAmount.value);
        && result == q.result && calls == q.calls
        && (q.result.Ok? ==> cachedExactOutParams == Some(q.result.value) && quoteType == Some(CrossQuote.ExactOut))
        && (q.result.Err? ==> cachedExactOutParams == old(cachedExactOutParams) && quoteType == old(quoteType))
    {
      if SwapParametersUndefined() {
        return Err("undefined swap parameters"), [];
      }
      var q := CrossQuote.ComputeExactOutParameters(quoter.State(), amountOut, slippage.value, relayerFeeAmount.value);
      result, calls := q.result, q.calls;
      if result.Err? {
        return;
      }
      cachedExactOutParams := Some(result.value);
      quoteType := Some(CrossQuote.ExactOut);
    }

    /** `fetchAndSetEvmEmitterAndSequence`: needs the swap receipt, and derives the VAA
        search parameters from it and the source chain's contracts. */
    method FetchAndSetEvmEmitterAndSequence(net: Network) returns (error: Option<string>)
      modifies this`vaaSearchParams
      ensures srcEvmReceipt.None? ==> error == Some("no swap receipt found") && vaaSearchParams == old(vaaSearchParams)
      ensures srcEvmReceipt.Some? && srcExecutionParams.None? ==> error.Some? && vaaSearchParams == old(vaaSearchParams)
      ensures srcEvmReceipt.Some? && srcExecutionParams.Some? ==>
        error.None? && vaaSearchParams == Some(VaaSearchParamsFor(srcEvmReceipt.value, srcExecutionParams.value, net))
    {
      var receipt := srcEvmReceipt;
      if receipt.None? {
        return Some("no swap receipt found");
      }
      if srcExecutionParams.None? {
        return Some("source execution parameters undefined");
      }
      vaaSearchParams := Some(VaaSearchParamsFor(receipt.value, srcExecutionParams.value, net));
      return None;
    }

    /** `evmApproveAndSwap`: make the swap with the cached exact-in quote, store its
        receipt, and then derive the VAA search parameters from the stored receipt.
        `swap` is the call made, when one is made. */
    method EvmApproveAndSwap(recipientAddress: Address, net: Network)
      returns (swap: Option<SwapCall>, error: Option<string>)
      modifies this`srcEvmReceipt, this`vaaSearchParams
      ensures var call :=
          if cachedExactInParams.Some? && srcExecutionParams.Some? && dstExecutionParams.Some? then
            SwapExactInCall(cachedExactInParams.value, srcExecutionParams.value, dstExecutionParams.value, recipientAddress, net)
          else Err("swap state undefined");
        && (call.Err? ==> swap.None? && error == Some(call.message))
        && (call.Ok? ==> swap == Some(call.value))
        && (call.Err? || net.swapReceipt(call.value).None? ==>
              error.Some? && srcEvmReceipt == old(srcEvmReceipt) && vaaSearchParams == old(vaaSearchParams))
        && (call.Ok? && net.swapReceipt(call.value).Some? ==>
              && error.None?
              && srcEvmReceipt == net.swapReceipt(call.value)
              && vaaSearchParams == Some(VaaSearchParamsFor(srcEvmReceipt.value, srcExecutionParams.value, net)))
    {
      if cachedExactInParams.None? || srcExecutionParams.None? || dstExecutionParams.None? {
        return None, Some("swap state undefined");
      }
      var call := SwapExactInCall(cachedExactInParams.value, srcExecutionParams.value, dstExecutionParams.value, recipientAddress, net);
      if call.Err? {
        return None, Some(call.message);
      }
      swap := Some(call.value);
      var receipt := net.swapReceipt(call.value);
      if receipt.None? {
        return swap, Some("swap transaction failed");
      }
      srcEvmReceipt := receipt;
      error := FetchAndSetEvmEmitterAndSequence(net);
    }

    /** `fetchSignedVaaFromSwap`: needs the VAA search parameters, then asks the guardians
        for the VAA on the source chain and stores its bytes. */
    method FetchSignedVaaFromSwap(net: Network) returns (request: Option<VaaRequest>, error: Option<string>)
      modifies this`vaaBytes
      ensures vaaSearchParams.None? ==>
        request.None? && error == Some("no vaa search params found") && vaaBytes == old(vaaBytes)
      ensures vaaSearchParams.Some? && srcExecutionParams.None? ==>
        request.None? && error.Some? && vaaBytes == old(vaaBytes)
      ensures vaaSearchParams.Some? && srcExecutionParams.Some? ==>
        var req := VaaRequest(Consts.WORMHOLE_RPC_HOSTS, srcExecutionParams.value.wormhole.chainId, vaaSearchParams.value.emitterAddress, vaaSearchParams.value.sequence);
        && request == Some(req)
        && (net.signedVaa(req).None? ==> error.Some? && vaaBytes == old(vaaBytes))
        && (net.signedVaa(req).Some? ==> error.None? && vaaBytes == net.signedVaa(req))
    {
      var search := vaaSearchParams;
      if search.None? {
        return None, Some("no vaa search params found");
      }
      if srcExecutionParams.None? {
        return None, Some("source execution parameters undefined");
      }
      var req := VaaRequest(Consts.WORMHOLE_RPC_HOSTS, srcExecutionParams.value.wormhole.chainId, search.value.emitterAddress, search.value.sequence);
      request := Some(req);
      var response := net.signedVaa(req);
      if response.None? {
        return request, Some("signed VAA not found");
      }
      vaaBytes := response;
      error := None;
    }
  }
}
