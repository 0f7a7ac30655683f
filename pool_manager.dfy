/** Pool qualification and mirror-pool lookup, as `execute/poolManager.js` does
    them. The chain queries (`token0`, `token1`, `factory` on a pool,
    `getPair` on a factory) are answered by an oracle, `Chain`; every decision
    the manager takes on those answers is modelled exactly. */
module PoolManager {
  import opened Wrappers

  type Address = string

  /** The zero address that a factory's `getPair` returns when it holds no pool
      for the pair. */
  const ZeroAddress: Address := "0x0000000000000000000000000000000000000000"

  /** What a pool contract reports about itself. */
  datatype PoolInfo = PoolInfo(token0: Address, token1: Address, factory: Address)

  /** The provider's answers to the read-only contract calls the manager makes. */
  datatype Chain = Chain(
    pool: Address -> PoolInfo,
    getPair: (Address, Address, Address) -> Address)

  /** The factory and base-asset addresses of one network. */
  datatype NetworkAddresses = NetworkAddresses(
    uniswapFactory: Address, sushiFactory: Address, weth: Address)

  /** The entries of the configuration file the constructor reads. */
  datatype Config = Config(mainnet: NetworkAddresses, goerli: NetworkAddresses)

  /** A constructed manager. `addresses` is None when the network was neither
      `mainnet` nor `goerli`, where the source leaves all three fields unset. */
  datatype PoolManager = PoolManager(provider: Chain, addresses: Option<NetworkAddresses>)

  /** The constructor's network selection. */
  function NewPoolManager(provider: Chain, network: string, config: Config): (pm: PoolManager)
    ensures network == "mainnet" ==> pm.addresses == Some(config.mainnet)
    ensures network == "goerli" ==> pm.addresses == Some(config.goerli)
    ensures pm.addresses.None? <==> network != "mainnet" && network != "goerli"
  {
    if network == "mainnet" then PoolManager(provider, Some(config.mainnet))
    else if network == "goerli" then PoolManager(provider, Some(config.goerli))
    else PoolManager(provider, None)
  }

  /** The result of `checkPool`: either `[false, false, false]` or the pool's
      two tokens and the factory to probe for a mirror pool. */
  datatype PoolCheck =
    | NotWethPair
    | WethPair(token0: Address, token1: Address, factoryToCheck: Address)

  /** One of the pool's tokens is the configured WETH address. With no
      configured network no string equals the unset field. */
  predicate HasWeth(pm: PoolManager, info: PoolInfo) {
    pm.addresses.Some? && (info.token0 == pm.addresses.value.weth || info.token1 == pm.addresses.value.weth)
  }

  /** `checkPool(address)`. */
  function CheckPool(pm: PoolManager, address: Address): (r: PoolCheck)
    // not a WETH pair exactly when neither token is WETH
    ensures r.NotWethPair? <==> !HasWeth(pm, pm.provider.pool(address))
    // the tokens come back in the order the pool reported them
    ensures r.WethPair? ==>
      r.token0 == pm.provider.pool(address).token0 && r.token1 == pm.provider.pool(address).token1
    // a Uniswap pool is mirrored on Sushi, any other pool on Uniswap
    ensures r.WethPair? ==>
      (pm.provider.pool(address).factory == pm.addresses.value.uniswapFactory ==>
         r.factoryToCheck == pm.addresses.value.sushiFactory)
    ensures r.WethPair? ==>
      (pm.provider.pool(address).factory != pm.addresses.value.uniswapFactory ==>
         r.factoryToCheck == pm.addresses.value.uniswapFactory)
  {
    var info := pm.provider.pool(address);
    if HasWeth(pm, info) then
      var a := pm.addresses.value;
      if info.factory == a.uniswapFactory then WethPair(info.token0, info.token1, a.sushiFactory)
      else WethPair(info.token0, info.token1, a.uniswapFactory)
    else NotWethPair
  }

  /** When the two known factories differ and the pool belongs to one of them,
      the factory to probe is the other one, never the pool's own. */
  lemma CheckPoolProbesOtherFactory(pm: PoolManager, address: Address)
    requires pm.addresses.Some?
    requires pm.addresses.value.uniswapFactory != pm.addresses.value.sushiFactory
    requires pm.provider.pool(address).factory in {pm.addresses.value.uniswapFactory, pm.addresses.value.sushiFactory}
    ensures CheckPool(pm, address).WethPair? ==>
      && CheckPool(pm, address).factoryToCheck in {pm.addresses.value.uniswapFactory, pm.addresses.value.sushiFactory}
      && CheckPool(pm, address).factoryToCheck != pm.provider.pool(address).factory
  {
  }

  /** A manager built for an unknown network qualifies no pool at all. */
  lemma UnknownNetworkQualifiesNothing(provider: Chain, network: string, config: Config, address: Address)
    requires network != "mainnet" && network != "goerli"
    ensures CheckPool(NewPoolManager(provider, network, config), address) == NotWethPair
  {
  }

  /** `checkFactory(factory, token0, token1)`: the mirror pool, or None for the
      zero-address sentinel. */
  function CheckFactory(pm: PoolManager, factory: Address, token0: Address, token1: Address): (r: Option<Address>)
    ensures r.None? <==> pm.provider.getPair(factory, token0, token1) == ZeroAddress
    ensures r.Some? ==> r.value == pm.provider.getPair(factory, token0, token1)
    ensures r.Some? ==> r.value != ZeroAddress
  {
    var pair := pm.provider.getPair(factory, token0, token1);
    if pair == ZeroAddress then None else Some(pair)
  }
}
