/** The static chain and token tables of the swap front end (ui/src/utils/consts.ts). */
module Consts {
  import opened Wrappers

  /** A Wormhole chain id. */
  type ChainId = int

  // Wormhole chain ids as the Wormhole SDK numbers them.
  const CHAIN_ID_ETH: ChainId := 2
  const CHAIN_ID_BSC: ChainId := 4
  const CHAIN_ID_POLYGON: ChainId := 5
  const CHAIN_ID_AVAX: ChainId := 6

  // EVM network ids of the test networks the front end talks to.
  const EVM_POLYGON_NETWORK_CHAIN_ID: int := 80001
  const EVM_ETH_NETWORK_CHAIN_ID: int := 5
  const EVM_AVAX_NETWORK_CHAIN_ID: int := 43113
  const EVM_BSC_NETWORK_CHAIN_ID: int := 97

  datatype TokenInfo = TokenInfo(
    name: string,
    address: string,
    chainId: ChainId,
    evmChainId: Option<int>,
    maxAmount: real,
    usdcPairedAddress: Option<string>)

  const ETH_TOKEN_INFO: TokenInfo := TokenInfo(
    "ETH",
    "0xB4FBF271143F4FBf7B91A5ded31805e42b2208d6",
    CHAIN_ID_ETH,
    Some(EVM_ETH_NETWORK_CHAIN_ID),
    0.0001,
    Some("0x07865c6E87B9F70255377e024ace6630C1Eaa37F"))

  const AVAX_TOKEN_INFO: TokenInfo := TokenInfo(
    "AVAX",
    "0xd00ae08403B9bbb9124bB305C09058E32C39A48c",
    CHAIN_ID_AVAX,
    Some(EVM_AVAX_NETWORK_CHAIN_ID),
    0.01,
    Some("0x5425890298aed601595a70AB815c96711a31Bc65"))

  const TOKEN_INFOS: seq<TokenInfo> := [ETH_TOKEN_INFO, AVAX_TOKEN_INFO]

  /** The guardian hosts the front end asks for signed VAAs. */
  const WORMHOLE_RPC_HOSTS: seq<string> := ["https://wormhole-v2-testnet-api.certus.one"]

  // Wormhole core bridge contracts.
  const CORE_BRIDGE_ADDRESS_ETHEREUM: string := "0x706abc4E45D419950511e474C7B9Ed348A4a716c"
  const CORE_BRIDGE_ADDRESS_AVALANCHE: string := "0x7bbcE28e64B3F8b84d876Ab298393c38ad7aac4C"

  /** `s.filter((x) => x !== t)`: the elements of `s` other than `t`, in their order. */
  function Without<T(==,!new)>(s: seq<T>, t: T): (r: seq<T>)
    ensures forall x :: x in r <==> x in s && x != t
    ensures |r| <= |s|
  {
    if s == [] then []
    else if s[0] == t then Without(s[1..], t)
    else [s[0]] + Without(s[1..], t)
  }

  /** Filtering works element by element, so it keeps the relative order of what it keeps. */
  lemma {:induction false} WithoutDistributes<T(!new)>(a: seq<T>, b: seq<T>, t: T)
    ensures Without(a + b, t) == Without(a, t) + Without(b, t)
  {
    if a == [] {
      assert a + b == b;
    } else {
      assert (a + b)[0] == a[0];
      assert (a + b)[1..] == a[1..] + b;
      WithoutDistributes(a[1..], b, t);
    }
  }

  /** Filtering a sequence that does not hold `t` gives the sequence back unchanged. */
  lemma {:induction false} WithoutAbsent<T(!new)>(s: seq<T>, t: T)
    requires t !in s
    ensures Without(s, t) == s
  {
    if s != [] {
      assert s[0] != t;
      WithoutAbsent(s[1..], t);
    }
  }

  /** The tokens one can swap `tokenInfo` for: every listed token except itself. */
  function GetSupportedSwaps(tokenInfo: TokenInfo): (r: seq<TokenInfo>)
    ensures forall x :: x in r <==> x in TOKEN_INFOS && x != tokenInfo
  {
    Without(TOKEN_INFOS, tokenInfo)
  }

  lemma SupportedSwapsOfListedTokens()
    ensures GetSupportedSwaps(ETH_TOKEN_INFO) == [AVAX_TOKEN_INFO]
    ensures GetSupportedSwaps(AVAX_TOKEN_INFO) == [ETH_TOKEN_INFO]
  {
    assert TOKEN_INFOS == [ETH_TOKEN_INFO] + [AVAX_TOKEN_INFO];
    WithoutDistributes([ETH_TOKEN_INFO], [AVAX_TOKEN_INFO], ETH_TOKEN_INFO);
    WithoutDistributes([ETH_TOKEN_INFO], [AVAX_TOKEN_INFO], AVAX_TOKEN_INFO);
  }

  lemma SupportedSwapsOfUnlistedToken(tokenInfo: TokenInfo)
    requires tokenInfo !in TOKEN_INFOS
    ensures GetSupportedSwaps(tokenInfo) == TOKEN_INFOS
  {
    WithoutAbsent(TOKEN_INFOS, tokenInfo);
  }

  /** The EVM network id of a Wormhole chain, or `undefined`. */
  function GetEvmChainId(chainId: ChainId): (r: Option<int>)
    ensures r.Some? <==> chainId in {CHAIN_ID_ETH, CHAIN_ID_POLYGON, CHAIN_ID_AVAX, CHAIN_ID_BSC}
  {
    if chainId == CHAIN_ID_ETH then Some(EVM_ETH_NETWORK_CHAIN_ID)
    else if chainId == CHAIN_ID_POLYGON then Some(EVM_POLYGON_NETWORK_CHAIN_ID)
    else if chainId == CHAIN_ID_AVAX then Some(EVM_AVAX_NETWORK_CHAIN_ID)
    else if chainId == CHAIN_ID_BSC then Some(EVM_BSC_NETWORK_CHAIN_ID)
    else None
  }

  /** No two Wormhole chains share an EVM network id. */
  lemma EvmChainIdInjective(c1: ChainId, c2: ChainId)
    requires GetEvmChainId(c1).Some? && GetEvmChainId(c1) == GetEvmChainId(c2)
    ensures c1 == c2
  {
  }

  /** Every listed token records the EVM network id of its own Wormhole chain. */
  lemma TokenInfosAgreeWithEvmChainId()
    ensures forall t :: t in TOKEN_INFOS ==> t.evmChainId == GetEvmChainId(t.chainId)
  {
  }

  /** The display name of a Wormhole chain; empty for chains the front end does not name. */
  function GetChainName(chainId: ChainId): (r: string)
    ensures r != "" <==> chainId == CHAIN_ID_ETH || chainId == CHAIN_ID_AVAX
  {
    if chainId == CHAIN_ID_ETH then "Ethereum"
    else if chainId == CHAIN_ID_AVAX then "Avalanche"
    else ""
  }

  /** Exactly the chains of the listed tokens have a name, and the names differ. */
  lemma ChainNamesOfListedTokens()
    ensures forall t :: t in TOKEN_INFOS ==> GetChainName(t.chainId) != ""
    ensures GetChainName(CHAIN_ID_ETH) != GetChainName(CHAIN_ID_AVAX)
  {
  }
}
