/** Gas profiles and the redeem call of the swap front end (ui/src/swapper/helpers.ts). */
module Helpers {
  import opened Wrappers
  import Consts

  /** Opaque byte strings (a Wormhole message, a Circle message, a Circle attestation). */
  type Bytes = seq<bv8>

  /** Transaction overrides; a field that is `None` is absent from the JavaScript object. */
  datatype GasParameters = GasParameters(
    gasLimit: string,
    gasPrice: Option<string>,
    maxFeePerGas: Option<string>,
    maxPriorityFeePerGas: Option<string>)

  const CROSSCHAINSWAP_GAS_PARAMETERS_EIP1559: GasParameters :=
    GasParameters("694200", None, Some("100420690000"), Some("1690000000"))

  const CROSSCHAINSWAP_GAS_PARAMETERS_EVM: GasParameters :=
    GasParameters("694200", Some("20420690000"), None, None)

  /** EVM networks that take EIP-1559 fees; BSC is deliberately not among them. */
  const EVM_EIP1559_CHAIN_IDS: seq<int> := [
    Consts.EVM_ETH_NETWORK_CHAIN_ID,
    Consts.EVM_POLYGON_NETWORK_CHAIN_ID,
    Consts.EVM_AVAX_NETWORK_CHAIN_ID
  ]

  /** `s.indexOf(x)`: the first position of `x` in `s`, or -1. */
  function IndexOf(s: seq<int>, x: int): (i: int)
    ensures -1 <= i < |s|
    ensures i >= 0 ==> s[i] == x && forall j :: 0 <= j < i ==> s[j] != x
    ensures i == -1 <==> x !in s
  {
    if s == [] then -1
    else if s[0] == x then 0
    else
      var k := IndexOf(s[1..], x);
      if k == -1 then -1 else k + 1
  }

  /** The overrides used for a contract on EVM network `chainId`, chosen by membership
      of the network in the EIP-1559 list. */
  function GasParametersForChain(chainId: int): (g: GasParameters)
    ensures chainId in EVM_EIP1559_CHAIN_IDS ==> g == CROSSCHAINSWAP_GAS_PARAMETERS_EIP1559
    ensures chainId !in EVM_EIP1559_CHAIN_IDS ==> g == CROSSCHAINSWAP_GAS_PARAMETERS_EVM
  {
    if IndexOf(EVM_EIP1559_CHAIN_IDS, chainId) >= 0 then CROSSCHAINSWAP_GAS_PARAMETERS_EIP1559
    else CROSSCHAINSWAP_GAS_PARAMETERS_EVM
  }

  /** The EIP-1559 networks are exactly the Goerli, Mumbai and Fuji test networks. */
  lemma Eip1559Networks(chainId: int)
    ensures chainId in EVM_EIP1559_CHAIN_IDS <==> chainId == 5 || chainId == 80001 || chainId == 43113
    ensures Consts.EVM_BSC_NETWORK_CHAIN_ID !in EVM_EIP1559_CHAIN_IDS
  {
  }

  /** Whatever the network, the gas limit is 694200; a network on the EIP-1559 list gets
      the two EIP-1559 fee fields and no gas price, any other network only a gas price. */
  lemma GasFieldsByNetwork(chainId: int)
    ensures GasParametersForChain(chainId).gasLimit == "694200"
    ensures GasParametersForChain(chainId).gasPrice.Some? <==> chainId !in EVM_EIP1559_CHAIN_IDS
    ensures GasParametersForChain(chainId).maxFeePerGas.Some? <==> chainId in EVM_EIP1559_CHAIN_IDS
    ensures GasParametersForChain(chainId).maxPriorityFeePerGas.Some? <==> chainId in EVM_EIP1559_CHAIN_IDS
  {
  }

  /** BSC testnet (97) gets the legacy profile. */
  lemma BscTestnetIsLegacy()
    ensures GasParametersForChain(Consts.EVM_BSC_NETWORK_CHAIN_ID) == CROSSCHAINSWAP_GAS_PARAMETERS_EVM
  {
  }

  /** The struct `recvAndSwapExactNativeIn` takes. */
  datatype RedeemParameters = RedeemParameters(
    encodedWormholeMessage: Bytes,
    circleBridgeMessage: Bytes,
    circleAttestation: Bytes)

  /** A `recvAndSwapExactNativeIn(params, overrides)` call. */
  datatype RedeemCall = RedeemCall(params: RedeemParameters, overrides: GasParameters)

  /** The redeem call made for a swap contract on EVM network `contractChainId`
      (the id `contract.provider.getNetwork()` reports). */
  function EvmSwapExactInFromVaaNative(
    contractChainId: int,
    encodedWormholeMessage: Bytes,
    circleBridgeMessage: Bytes,
    circleAttestation: Bytes): (c: RedeemCall)
    ensures c.params.encodedWormholeMessage == encodedWormholeMessage
    ensures c.params.circleBridgeMessage == circleBridgeMessage
    ensures c.params.circleAttestation == circleAttestation
    ensures c.overrides.gasLimit == "694200"
    ensures c.overrides.gasPrice.Some? <==> contractChainId !in EVM_EIP1559_CHAIN_IDS
    ensures c.overrides == GasParametersForChain(contractChainId)
  {
    RedeemCall(
      RedeemParameters(encodedWormholeMessage, circleBridgeMessage, circleAttestation),
      GasParametersForChain(contractChainId))
  }
}
