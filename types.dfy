/** Record and enum shapes of the presale dashboard. */
module Types {

  /** Lifecycle of the sale. */
  datatype SaleStatus = Upcoming | Live | Ended

  /**
   * The single presale record. Amounts are exact reals (the source uses
   * double-precision numbers); the end time is a millisecond timestamp.
   */
  datatype PresaleData = PresaleData(
    tokenName: string,
    tokenSymbol: string,
    status: SaleStatus,
    tokensSold: real,
    totalTokens: real,
    tokenPrice: real,    // price of one token, in ETH
    saleEndTime: int,    // milliseconds since the epoch
    minPurchase: real,   // in ETH
    maxPurchase: real    // in ETH
  )

  /** One participant, keyed by wallet address. */
  datatype UserData = UserData(
    address: string,
    isWhitelisted: bool,
    contribution: real,  // in ETH
    tokensOwed: real
  )

  datatype Option<+T> = None | Some(value: T)
}
