/** Value types shared by the send page: the networks and bridges a transfer
    can use (`BlockChainType`, `BridgeType`), optional values, and the
    arbitrary-precision decimals of bignumber.js. */
module NetworkTypes {

  /** The chains the send page offers (`BlockChainType`). */
  datatype BlockChain =
    | Terra | Ethereum | Bsc | Hmy | Osmo | Scrt | Inj | Cosmos | Avalanche | Fantom

  /** The bridge providers a transfer can go through (`BridgeType`). */
  datatype Bridge = Shuttle | Ibc | Axelar | Wormhole | Thorswap

  datatype Option<+T> = None | Some(value: T)

  /** A bignumber.js value: a decimal, or NaN (what `new BigNumber('')` gives). */
  datatype Big = NaN | Num(v: real)

  /** `x.isGreaterThan(0)`: false for NaN. */
  predicate IsPositive(x: Big) {
    x.Num? && x.v > 0.0
  }

  /** `x.minus(y)`: NaN stays NaN. */
  function Minus(x: Big, y: real): (r: Big)
    ensures r.NaN? <==> x.NaN?
    ensures r.Num? ==> r.v + y == x.v
  {
    match x
    case NaN => NaN
    case Num(v) => Num(v - y)
  }
}
