/** The two Avalanche C-Chain networks the application is configured for,
    and the choice between them by network name. */
module Chains {
  import opened Common

  datatype Chain = Chain(id: nat, name: string, testnet: bool)

  /** Avalanche C-Chain mainnet. */
  const Avalanche: Chain := Chain(43114, "Avalanche", false)

  /** The Fuji test network, the only chain flagged as a testnet. */
  const AvalancheFuji: Chain := Chain(43113, "Avalanche Fuji", true)

  /** The chains offered to the wallet, Fuji first. */
  const SupportedChains: seq<Chain> := [AvalancheFuji, Avalanche]

  /** The network name from the environment; an unset or empty value means
      `"fuji"`. */
  function CurrentNetwork(env: Option<string>): (r: string)
    ensures env.Some? && env.value != "" ==> r == env.value
    ensures env.None? || env.value == "" ==> r == "fuji"
    ensures r != ""
  {
    if env.Some? && env.value != "" then env.value else "fuji"
  }

  /** The chain for a network name: `"mainnet"` selects Avalanche, every
      other name Fuji. */
  function GetChain(network: string): (r: Chain)
    ensures r in SupportedChains
    ensures r.id == 43114 <==> network == "mainnet"
    ensures r.testnet <==> network != "mainnet"
  {
    if network == "mainnet" then Avalanche else AvalancheFuji
  }

  /** `getChain()` with no argument uses the environment's network. */
  function DefaultChain(env: Option<string>): (r: Chain)
    ensures env.None? ==> r == AvalancheFuji
  {
    GetChain(CurrentNetwork(env))
  }

  /** Only Fuji is a testnet, and the ids are distinct. */
  lemma SupportedChainsShape()
    ensures forall i :: 0 <= i < |SupportedChains| ==> (SupportedChains[i].testnet <==> i == 0)
    ensures SupportedChains[0].id != SupportedChains[1].id
  {
  }

  /** No configured chain has id 5003, so a check for that id rejects every
      chain the application offers. */
  lemma NoChain5003(network: string)
    ensures GetChain(network).id != 5003
    ensures forall i :: 0 <= i < |SupportedChains| ==> SupportedChains[i].id != 5003
  {
  }
}
