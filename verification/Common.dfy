/** Types shared by the accounting modules. */
module Common {

  datatype Option<+T> = None | Some(value: T)

  /** Assets are identified by their rotki identifier. */
  type Asset = string

  /** Seconds since the epoch. */
  type Timestamp = int

  const A_ETH: Asset := "ETH"
  const A_WETH: Asset := "eip155:1/erc20:0xC02aaA39b223FE8D0A0e5C4F27eAD9083C756Cc2"
  const A_ETC: Asset := "ETC"
  const A_BTC: Asset := "BTC"
  const A_BCH: Asset := "BCH"
  const A_BSV: Asset := "BSV"
  const A_KFEE: Asset := "KFEE"

  /** The exceptions that can leave the accounting code. */
  datatype Error =
    | PriceQueryUnsupportedAsset
    | NoPriceForGivenTimestamp(rateLimited: bool)
    | RemoteError
    | AccountingError   // raised on purpose, stops the report
    | AssertionError    // a failed `assert`
    | TypeError         // arithmetic on None

  /** The errors a price query documents; they only skip an event. */
  predicate Skippable(e: Error) {
    e.PriceQueryUnsupportedAsset? || e.NoPriceForGivenTimestamp? || e.RemoteError?
  }

  function Abs(x: real): (r: real)
    ensures r >= 0.0 && (r == x || r == -x)
  {
    if x < 0.0 then -x else x
  }
}
