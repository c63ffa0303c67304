/** The cross-chain quoter of the swap front end (ui/src/route/cross-quote.ts): the token
    address to chain lookup, the cached source and target routers, and how the two legs of
    an exact-in and an exact-out swap are quoted around the relayer fee. The routers
    themselves (Uniswap on Ethereum, Hurricaneswap on Avalanche) are abstracted as records
    of functions. */
module CrossQuote {
  import opened Wrappers
  import Consts

  type Address = string

  /** `getChainIdFromAddress`: the Wormhole chain of a listed native token. */
  function GetChainIdFromAddress(tokenAddress: Address): (r: Result<Consts.ChainId>)
    ensures r.Ok? <==> tokenAddress in {Consts.ETH_TOKEN_INFO.address, Consts.AVAX_TOKEN_INFO.address}
    ensures r.Err? ==> r.message == "unrecognized evm token address"
  {
    if tokenAddress == Consts.ETH_TOKEN_INFO.address then Ok(Consts.CHAIN_ID_ETH)
    else if tokenAddress == Consts.AVAX_TOKEN_INFO.address then Ok(Consts.CHAIN_ID_AVAX)
    else Err("unrecognized evm token address")
  }

  /** The lookup agrees with the token table: a listed token's address gives back the
      chain recorded for it, so the lookup inverts the table on its addresses. */
  lemma ChainIdFromAddressAgreesWithTokenInfos()
    ensures forall t :: t in Consts.TOKEN_INFOS ==> GetChainIdFromAddress(t.address) == Ok(t.chainId)
    ensures forall a :: GetChainIdFromAddress(a).Ok? ==>
      exists t :: t in Consts.TOKEN_INFOS && t.address == a && t.chainId == GetChainIdFromAddress(a).value
  {
    assert Consts.TOKEN_INFOS[0] == Consts.ETH_TOKEN_INFO;
    assert Consts.TOKEN_INFOS[1] == Consts.AVAX_TOKEN_INFO;
  }

  // ---------------------------------------------------------------- routers

  /** `UsdcLocation`: whether USDC is what the leg pays in or what it buys. */
  datatype UsdcLocation = UsdcIn | UsdcOut

  /** The leg parameters `makeExactInParameters` builds (defined outside this model). */
  datatype ExactInParameters = ExactInParameters(
    protocol: string,
    amountIn: int,
    minAmountOut: int,
    deadline: int,
    poolFee: Option<int>,
    path: seq<Address>)

  /** The leg parameters `makeExactOutParameters` builds (defined outside this model). */
  datatype ExactOutParameters = ExactOutParameters(
    protocol: string,
    amountOut: int,
    maxAmountIn: int,
    deadline: int,
    poolFee: Option<int>,
    path: seq<Address>)

  /** What an initialized router answers. Quotes take an amount and a per-leg slippage
      and fail with `None`; amounts are integers in base units. */
  datatype RouterOps = RouterOps(
    fetchExactInQuote: (int, real) -> Option<int>,
    fetchExactOutQuote: (int, real) -> Option<int>,
    makeExactIn: (int, int) -> Option<ExactInParameters>,
    makeExactOut: (int, int) -> Option<ExactOutParameters>,
    computeUnitAmountOut: int -> int,
    tokenOutAddress: Address)

  /** A router together with the token and USDC side it was built for. */
  datatype Router = Router(tokenAddress: Address, loc: UsdcLocation, ops: RouterOps)

  /** Building and initializing a router over the network: `None` when it fails. */
  type RouterFactory = (Address, UsdcLocation) -> Option<RouterOps>

  /** `makeRouter`: only the two listed tokens have a router. */
  function MakeRouter(tokenAddress: Address, loc: UsdcLocation, factory: RouterFactory): (r: Result<Router>)
    ensures r.Ok? ==> r.value.tokenAddress == tokenAddress && r.value.loc == loc
  {
    if tokenAddress != Consts.ETH_TOKEN_INFO.address && tokenAddress != Consts.AVAX_TOKEN_INFO.address then
      Err("unrecognized chain id")
    else match factory(tokenAddress, loc)
      case None => Err("router initialization failed")
      case Some(ops) => Ok(Router(tokenAddress, loc, ops))
  }

  /** A router is only ever built for a token whose chain the lookup knows. */
  lemma MakeRouterOnlyForKnownChains(tokenAddress: Address, loc: UsdcLocation, factory: RouterFactory)
    ensures MakeRouter(tokenAddress, loc, factory).Ok? ==> GetChainIdFromAddress(tokenAddress).Ok?
    ensures GetChainIdFromAddress(tokenAddress).Err? ==> MakeRouter(tokenAddress, loc, factory) == Err("unrecognized chain id")
  {
  }

  // ---------------------------------------------------------------- initialize

  /** The fields of `UniswapToUniswapQuoter`; `None` is `undefined`. */
  datatype QuoterState = QuoterState(
    tokenInAddress: Option<Address>,
    tokenOutAddress: Option<Address>,
    srcRouter: Option<Router>,
    dstRouter: Option<Router>)

  const EMPTY_QUOTER := QuoterState(None, None, None, None)

  /** A `makeRouter` call made by `initialize`. */
  datatype Build = Build(tokenAddress: Address, loc: UsdcLocation)

  /** The new fields, the routers built, and the error `initialize` throws, if any. */
  datatype Init = Init(state: QuoterState, builds: seq<Build>, error: Option<string>)

  /** `initialize(tokenInAddress, tokenOutAddress)`. Each side is rebuilt only when its
      address differs from the cached one, and the address is cached BEFORE the build is
      awaited; a failed build ends the call there. */
  function Initialized(st: QuoterState, tokenIn: Address, tokenOut: Address, factory: RouterFactory): (r: Init)
    ensures r.state.tokenInAddress == Some(tokenIn)
    ensures r.error.None? ==> r.state.tokenOutAddress == Some(tokenOut)
    ensures |r.builds| <= 2 && (r.builds == [] ==> r.state == st && r.error.None?)
  {
    if Some(tokenIn) != st.tokenInAddress then
      var st1 := st.(tokenInAddress := Some(tokenIn));
      match MakeRouter(tokenIn, UsdcOut, factory)
      case Err(e) => Init(st1, [Build(tokenIn, UsdcOut)], Some(e))
      case Ok(router) =>
        var rest := InitializedDst(st1.(srcRouter := Some(router)), tokenOut, factory);
        Init(rest.state, [Build(tokenIn, UsdcOut)] + rest.builds, rest.error)
    else InitializedDst(st, tokenOut, factory)
  }

  /** The second half of `initialize`, for the target side. */
  function InitializedDst(st: QuoterState, tokenOut: Address, factory: RouterFactory): (r: Init)
    ensures r.state.tokenOutAddress == Some(tokenOut)
    ensures r.state.tokenInAddress == st.tokenInAddress && r.state.srcRouter == st.srcRouter
    ensures r.builds == [] <==> Some(tokenOut) == st.tokenOutAddress
    ensures r.builds == [] ==> r.state == st && r.error.None?
    ensures r.builds != [] ==> r.builds == [Build(tokenOut, UsdcIn)]
  {
    if Some(tokenOut) != st.tokenOutAddress then
      var st1 := st.(tokenOutAddress := Some(tokenOut));
      match MakeRouter(tokenOut, UsdcIn, factory)
      case Err(e) => Init(st1, [Build(tokenOut, UsdcIn)], Some(e))
      case Ok(router) => Init(st1.(dstRouter := Some(router)), [Build(tokenOut, UsdcIn)], None)
    else Init(st, [], None)
  }

  /** Router caching: a side is rebuilt exactly when its address changed (the target side
      only if the source side did not fail first), a rebuilt side gets the router built for
      its new address, and a side that is not rebuilt keeps its router. */
  lemma InitializeRebuildsOnlyOnChange(st: QuoterState, tokenIn: Address, tokenOut: Address, factory: RouterFactory)
    ensures var r := Initialized(st, tokenIn, tokenOut, factory);
      var srcChanged := Some(tokenIn) != st.tokenInAddress;
      var srcFailed := srcChanged && MakeRouter(tokenIn, UsdcOut, factory).Err?;
      var dstChanged := Some(tokenOut) != st.tokenOutAddress;
      && r.state.tokenInAddress == Some(tokenIn)
      && r.builds == (if srcChanged then [Build(tokenIn, UsdcOut)] else []) +
                     (if dstChanged && !srcFailed then [Build(tokenOut, UsdcIn)] else [])
      && (srcChanged && !srcFailed ==> r.state.srcRouter == Some(MakeRouter(tokenIn, UsdcOut, factory).value))
      && (!srcChanged || srcFailed ==> r.state.srcRouter == st.srcRouter)
      && (srcFailed ==> r.state.tokenOutAddress == st.tokenOutAddress && r.state.dstRouter == st.dstRouter)
      && (!srcFailed ==> r.state.tokenOutAddress == Some(tokenOut))
      && (!srcFailed && dstChanged && MakeRouter(tokenOut, UsdcIn, factory).Ok? ==>
            r.state.dstRouter == Some(MakeRouter(tokenOut, UsdcIn, factory).value))
      && (!dstChanged || srcFailed || MakeRouter(tokenOut, UsdcIn, factory).Err? ==> r.state.dstRouter == st.dstRouter)
      && (r.error.None? <==> !srcFailed && !(dstChanged && MakeRouter(tokenOut, UsdcIn, factory).Err?))
  {
  }

  /** Re-initializing with the cached addresses builds nothing and changes nothing. */
  lemma InitializeSameTokensIsNoop(st: QuoterState, factory: RouterFactory)
    requires st.tokenInAddress.Some? && st.tokenOutAddress.Some?
    ensures Initialized(st, st.tokenInAddress.value, st.tokenOutAddress.value, factory) == Init(st, [], None)
  {
  }

  /** Each cached address has a router, built by `makeRouter` for that address, and
      there is no router without an address. */
  ghost predicate Synchronized(st: QuoterState)
  {
    && (st.srcRouter.Some? <==> st.tokenInAddress.Some?)
    && (st.dstRouter.Some? <==> st.tokenOutAddress.Some?)
    && (st.srcRouter.Some? ==>
          st.srcRouter.value.tokenAddress == st.tokenInAddress.value &&
          GetChainIdFromAddress(st.tokenInAddress.value).Ok?)
    && (st.dstRouter.Some? ==>
          st.dstRouter.value.tokenAddress == st.tokenOutAddress.value &&
          GetChainIdFromAddress(st.tokenOutAddress.value).Ok?)
  }

  /** A successful `initialize` from synchronized fields leaves both routers built for the
      requested tokens, and then both chain ids are known. */
  lemma InitializeSuccessSynchronizes(st: QuoterState, tokenIn: Address, tokenOut: Address, factory: RouterFactory)
    requires Synchronized(st)
    ensures var r := Initialized(st, tokenIn, tokenOut, factory);
      r.error.None? ==>
        && Synchronized(r.state)
        && r.state.srcRouter.Some? && r.state.srcRouter.value.tokenAddress == tokenIn
        && r.state.dstRouter.Some? && r.state.dstRouter.value.tokenAddress == tokenOut
        && GetSrcChainId(r.state).Ok? && GetDstChainId(r.state).Ok?
  {
    var r := Initialized(st, tokenIn, tokenOut, factory);
    InitializeRebuildsOnlyOnChange(st, tokenIn, tokenOut, factory);
    MakeRouterOnlyForKnownChains(tokenIn, UsdcOut, factory);
    MakeRouterOnlyForKnownChains(tokenOut, UsdcIn, factory);
  }

  /** Because the address is cached before the build is awaited, a failed build leaves
      the fields out of step, and retrying with the same tokens then builds nothing and
      reports no error while the source router is still the stale one (or undefined). */
  lemma RetryAfterFailedBuildIsSilent(st: QuoterState, tokenIn: Address, tokenOut: Address, factory: RouterFactory)
    requires Synchronized(st)
    requires Some(tokenIn) != st.tokenInAddress && MakeRouter(tokenIn, UsdcOut, factory).Err?
    ensures var r := Initialized(st, tokenIn, tokenOut, factory);
      && r.error.Some?
      && !Synchronized(r.state)
      && (st.tokenOutAddress.Some? ==>
            Initialized(r.state, tokenIn, st.tokenOutAddress.value, factory) == Init(r.state, [], None))
  {
    var r := Initialized(st, tokenIn, tokenOut, factory);
    assert r.state.srcRouter == st.srcRouter;
  }

  /** `getSrcChainId`: the chain of the cached input token (an undefined address falls
      through the lookup's default case). */
  function GetSrcChainId(st: QuoterState): (r: Result<Consts.ChainId>)
    ensures r.Ok? <==> st.tokenInAddress.Some? && GetChainIdFromAddress(st.tokenInAddress.value).Ok?
    ensures r.Ok? ==> r.value == Consts.CHAIN_ID_ETH || r.value == Consts.CHAIN_ID_AVAX
  {
    GetChainIdFromAddress(if st.tokenInAddress.Some? then st.tokenInAddress.value else "")
  }

  /** `getDstChainId`: the chain of the cached output token. */
  function GetDstChainId(st: QuoterState): (r: Result<Consts.ChainId>)
    ensures r.Ok? <==> st.tokenOutAddress.Some? && GetChainIdFromAddress(st.tokenOutAddress.value).Ok?
    ensures r.Ok? ==> r.value == Consts.CHAIN_ID_ETH || r.value == Consts.CHAIN_ID_AVAX
  {
    GetChainIdFromAddress(if st.tokenOutAddress.Some? then st.tokenOutAddress.value else "")
  }

  /** `UniswapToUniswapQuoter`: the fields `initialize` updates in place. */
  class Quoter {
    var tokenInAddress: Option<Address>
    var tokenOutAddress: Option<Address>
    var srcRouter: Option<Router>
    var dstRouter: Option<Router>

    function State(): QuoterState
      reads this
    {
      QuoterState(tokenInAddress, tokenOutAddress, srcRouter, dstRouter)
    }

    constructor()
      ensures State() == EMPTY_QUOTER
    {
      tokenInAddress, tokenOutAddress, srcRouter, dstRouter := None, None, None, None;
    }

    /** `initialize`; `builds` lists the `makeRouter` calls and `error` what it throws. */
    method Initialize(tokenIn: Address, tokenOut: Address, factory: RouterFactory)
      returns (builds: seq<Build>, error: Option<string>)
      modifies this
      ensures Init(State(), builds, error) == Initialized(old(State()), tokenIn, tokenOut, factory)
    {
      builds, error := [], None;
      if Some(tokenIn) != tokenInAddress {
        tokenInAddress := Some(tokenIn);
        builds := builds + [Build(tokenIn, UsdcOut)];
        var router := MakeRouter(tokenIn, UsdcOut, factory);
        if router.Err? {
          error := Some(router.message);
          return;
        }
        srcRouter := Some(router.value);
      }
      if Some(tokenOut) != tokenOutAddress {
        tokenOutAddress := Some(tokenOut);
        builds := builds + [Build(tokenOut, UsdcIn)];
        var router := MakeRouter(tokenOut, UsdcIn, factory);
        if router.Err? {
          error := Some(router.message);
          return;
        }
        dstRouter := Some(router.value);
      }
    }
  }

  /** A fresh quoter that initializes without error has both routers, built for the
      requested tokens. */
  lemma FirstInitializeSynchronizes(tokenIn: Address, tokenOut: Address, factory: RouterFactory)
    ensures var r := Initialized(EMPTY_QUOTER, tokenIn, tokenOut, factory);
      r.error.None? ==>
        && r.state.srcRouter == Some(Router(tokenIn, UsdcOut, factory(tokenIn, UsdcOut).value))
        && r.state.dstRouter == Some(Router(tokenOut, UsdcIn, factory(tokenOut, UsdcIn).value))
        && r.builds == [Build(tokenIn, UsdcOut), Build(tokenOut, UsdcIn)]
  {
    InitializeRebuildsOnlyOnChange(EMPTY_QUOTER, tokenIn, tokenOut, factory);
  }

  // ---------------------------------------------------------------- quotes

  /** `splitSlippageInHalf`: each leg gets half of the total slippage. */
  function SplitSlippageInHalf(totalSlippage: real): (r: real)
    ensures r + r == totalSlippage
  {
    totalSlippage / 2.0
  }

  datatype Side = Src | Dst
  datatype QuoteType = ExactIn | ExactOut

  /** A quote request: the side, the kind, the amount and the per-leg slippage. */
  datatype QuoteCall = QuoteCall(side: Side, kind: QuoteType, amount: int, slippage: real)

  /** A result together with the quote requests made to reach it. */
  datatype Quoted<T> = Quoted(result: Result<T>, calls: seq<QuoteCall>)

  datatype RelayerFee = RelayerFee(amount: int, tokenAddress: Address)

  datatype ExactInCrossParameters = ExactInCrossParameters(
    amountIn: int,
    usdcAmountIn: int,
    minAmountOut: int,
    src: Option<ExactInParameters>,
    dst: Option<ExactInParameters>,
    relayerFee: RelayerFee)

  datatype ExactOutCrossParameters = ExactOutCrossParameters(
    amountOut: int,
    usdcAmountIn: int,
    maxAmountIn: int,
    src: Option<ExactOutParameters>,
    dst: Option<ExactOutParameters>,
    relayerFee: RelayerFee)

  /** `getRelayerFee`, priced by the source router. */
  function GetRelayerFee(src: Router, amount: int): (r: RelayerFee)
    ensures r.amount == src.ops.computeUnitAmountOut(amount)
    ensures r.tokenAddress == src.ops.tokenOutAddress
  {
    RelayerFee(src.ops.computeUnitAmountOut(amount), src.ops.tokenOutAddress)
  }

  /** `computeExactInParameters`: the source leg is quoted first on `amountIn`; its minimum
      out, less the relayer fee, is what the target leg is quoted on. An undefined router
      fails where the source first calls into it. */
  function ComputeExactInParameters(st: QuoterState, amountIn: int, slippage: real, relayerFeeUsdc: int)
    : (q: Quoted<ExactInCrossParameters>)
    ensures q.result.Ok? ==> st.srcRouter.Some? && st.dstRouter.Some? && |q.calls| == 2
    ensures q.result.Ok? ==> q.result.value.amountIn == amountIn && q.result.value.usdcAmountIn >= 0
    ensures st.srcRouter.None? ==> q.calls == [] && q.result.Err?
    ensures forall c :: c in q.calls ==> c.kind == ExactIn
  {
    var single := SplitSlippageInHalf(slippage);
    if st.srcRouter.None? then Quoted(Err("source router undefined"), [])
    else
      var src := st.srcRouter.value;
      var srcCall := QuoteCall(Src, ExactIn, amountIn, single);
      match src.ops.fetchExactInQuote(amountIn, single)
      case None => Quoted(Err("source quote failed"), [srcCall])
      case Some(srcMinAmountOut) =>
        if srcMinAmountOut < relayerFeeUsdc then Quoted(Err("srcAmountOut <= relayerFeeUsdc"), [srcCall])
        else if st.dstRouter.None? then Quoted(Err("target router undefined"), [srcCall])
        else
          var dst := st.dstRouter.value;
          var dstAmountInAfterFee := srcMinAmountOut - relayerFeeUsdc;
          var dstCall := QuoteCall(Dst, ExactIn, dstAmountInAfterFee, single);
          match dst.ops.fetchExactInQuote(dstAmountInAfterFee, single)
          case None => Quoted(Err("target quote failed"), [srcCall, dstCall])
          case Some(dstMinAmountOut) =>
            Quoted(Ok(ExactInCrossParameters(
              amountIn,
              dstAmountInAfterFee,
              dstMinAmountOut,
              src.ops.makeExactIn(amountIn, srcMinAmountOut),
              dst.ops.makeExactIn(dstAmountInAfterFee, dstMinAmountOut),
              GetRelayerFee(src, relayerFeeUsdc))), [srcCall, dstCall])
  }

  /** The exact-in quote succeeds exactly when both routers exist, both quotes answer and
      the source quote covers the fee; the source leg is always asked first, and the
      target leg is asked (once) only when the source quote covers the fee. */
  lemma ExactInSucceedsIff(st: QuoterState, amountIn: int, slippage: real, relayerFeeUsdc: int)
    ensures var q := ComputeExactInParameters(st, amountIn, slippage, relayerFeeUsdc);
      var single := SplitSlippageInHalf(slippage);
      && (q.result.Ok? <==>
            && st.srcRouter.Some? && st.dstRouter.Some?
            && st.srcRouter.value.ops.fetchExactInQuote(amountIn, single).Some?
            && st.srcRouter.value.ops.fetchExactInQuote(amountIn, single).value >= relayerFeeUsdc
            && st.dstRouter.value.ops.fetchExactInQuote(
                 st.srcRouter.value.ops.fetchExactInQuote(amountIn, single).value - relayerFeeUsdc, single).Some?)
      && (st.srcRouter.Some? ==> |q.calls| >= 1 && q.calls[0] == QuoteCall(Src, ExactIn, amountIn, single))
      && |q.calls| <= 2
      && (|q.calls| == 2 ==>
            && q.calls[1].side == Dst && q.calls[1].kind == ExactIn
            && q.calls[1].amount == st.srcRouter.value.ops.fetchExactInQuote(amountIn, single).value - relayerFeeUsdc)
      && (forall c :: c in q.calls ==> c.slippage + c.slippage == slippage)
  {
  }

  /** The fee is taken out between the legs: USDC in plus the fee is the source leg's
      minimum out, the minimum out is the target quote on that USDC, the relayer fee is
      priced by the source router, and the legs carry the amounts they were quoted on. */
  lemma ExactInFeeAccounting(st: QuoterState, amountIn: int, slippage: real, relayerFeeUsdc: int)
    requires ComputeExactInParameters(st, amountIn, slippage, relayerFeeUsdc).result.Ok?
    ensures var p := ComputeExactInParameters(st, amountIn, slippage, relayerFeeUsdc).result.value;
      var single := SplitSlippageInHalf(slippage);
      var srcMin := st.srcRouter.value.ops.fetchExactInQuote(amountIn, single).value;
      && p.amountIn == amountIn
      && p.usdcAmountIn + relayerFeeUsdc == srcMin
      && p.usdcAmountIn >= 0
      && Some(p.minAmountOut) == st.dstRouter.value.ops.fetchExactInQuote(p.usdcAmountIn, single)
      && p.src == st.srcRouter.value.ops.makeExactIn(amountIn, srcMin)
      && p.dst == st.dstRouter.value.ops.makeExactIn(p.usdcAmountIn, p.minAmountOut)
      && p.relayerFee == GetRelayerFee(st.srcRouter.value, relayerFeeUsdc)
  {
  }

  /** `computeExactOutParameters`: the target leg is quoted first on `amountOut`; its
      maximum in, plus the relayer fee, is what the source leg must buy. */
  function ComputeExactOutParameters(st: QuoterState, amountOut: int, slippage: real, relayerFeeUsdc: int)
    : (q: Quoted<ExactOutCrossParameters>)
    ensures q.result.Ok? ==> st.srcRouter.Some? && st.dstRouter.Some? && |q.calls| == 2
    ensures q.result.Ok? ==> q.result.value.amountOut == amountOut && q.result.value.usdcAmountIn >= relayerFeeUsdc
    ensures st.dstRouter.None? ==> q.calls == [] && q.result.Err?
    ensures forall c :: c in q.calls ==> c.kind == ExactOut
  {
    var single := SplitSlippageInHalf(slippage);
    if st.dstRouter.None? then Quoted(Err("target router undefined"), [])
    else
      var dst := st.dstRouter.value;
      var dstCall := QuoteCall(Dst, ExactOut, amountOut, single);
      match dst.ops.fetchExactOutQuote(amountOut, single)
      case None => Quoted(Err("target quote failed"), [dstCall])
      case Some(dstMaxAmountIn) =>
        if dstMaxAmountIn < relayerFeeUsdc then Quoted(Err("dstAmountIn <= relayerFeeUsdc"), [dstCall])
        else if st.srcRouter.None? then Quoted(Err("source router undefined"), [dstCall])
        else
          var src := st.srcRouter.value;
          var srcAmountOutBeforeFee := dstMaxAmountIn + relayerFeeUsdc;
          var srcCall := QuoteCall(Src, ExactOut, srcAmountOutBeforeFee, single);
          match src.ops.fetchExactOutQuote(srcAmountOutBeforeFee, single)
          case None => Quoted(Err("source quote failed"), [dstCall, srcCall])
          case Some(srcMaxAmountIn) =>
            Quoted(Ok(ExactOutCrossParameters(
              amountOut,
              dstMaxAmountIn,
              srcMaxAmountIn,
              src.ops.makeExactOut(srcAmountOutBeforeFee, srcMaxAmountIn),
              dst.ops.makeExactOut(amountOut, dstMaxAmountIn),
              GetRelayerFee(src, relayerFeeUsdc))), [dstCall, srcCall])
  }

  /** The exact-out quote succeeds exactly when both routers exist, both quotes answer and
      the target's maximum in covers the fee; the target leg is always asked first. */
  lemma ExactOutSucceedsIff(st: QuoterState, amountOut: int, slippage: real, relayerFeeUsdc: int)
    ensures var q := ComputeExactOutParameters(st, amountOut, slippage, relayerFeeUsdc);
      var single := SplitSlippageInHalf(slippage);
      && (q.result.Ok? <==>
            && st.srcRouter.Some? && st.dstRouter.Some?
            && st.dstRouter.value.ops.fetchExactOutQuote(amountOut, single).Some?
            && st.dstRouter.value.ops.fetchExactOutQuote(amountOut, single).value >= relayerFeeUsdc
            && st.srcRouter.value.ops.fetchExactOutQuote(
                 st.dstRouter.value.ops.fetchExactOutQuote(amountOut, single).value + relayerFeeUsdc, single).Some?)
      && (st.dstRouter.Some? ==> |q.calls| >= 1 && q.calls[0] == QuoteCall(Dst, ExactOut, amountOut, single))
      && |q.calls| <= 2
      && (|q.calls| == 2 ==>
            && q.calls[1].side == Src && q.calls[1].kind == ExactOut
            && q.calls[1].amount == st.dstRouter.value.ops.fetchExactOutQuote(amountOut, single).value + relayerFeeUsdc)
      && (forall c :: c in q.calls ==> c.slippage + c.slippage == slippage)
  {
  }

  /** The fee is added between the legs: the source leg buys the target's maximum in plus
      the fee, USDC in is the target's maximum in, and the maximum in is the source quote. */
  lemma ExactOutFeeAccounting(st: QuoterState, amountOut: int, slippage: real, relayerFeeUsdc: int)
    requires ComputeExactOutParameters(st, amountOut, slippage, relayerFeeUsdc).result.Ok?
    ensures var p := ComputeExactOutParameters(st, amountOut, slippage, relayerFeeUsdc).result.value;
      var single := SplitSlippageInHalf(slippage);
      && p.amountOut == amountOut
      && Some(p.usdcAmountIn) == st.dstRouter.value.ops.fetchExactOutQuote(amountOut, single)
      && p.usdcAmountIn >= relayerFeeUsdc
      && Some(p.maxAmountIn) == st.srcRouter.value.ops.fetchExactOutQuote(p.usdcAmountIn + relayerFeeUsdc, single)
      && p.src == st.srcRouter.value.ops.makeExactOut(p.usdcAmountIn + relayerFeeUsdc, p.maxAmountIn)
      && p.dst == st.dstRouter.value.ops.makeExactOut(amountOut, p.usdcAmountIn)
      && p.relayerFee == GetRelayerFee(st.srcRouter.value, relayerFeeUsdc)
  {
  }
}
