/**
 * The external collaborators the dashboard drives, reduced to what its logic looks at:
 * the trading venue's client (`DriftClient`), the account data it hands back, the
 * browser wallet, and the calls the dashboard makes into them.
 */
module Sdk {
  import opened Wrappers

  datatype PositionDirection = Long | Short

  /** The two venue order types the dashboard uses. */
  datatype OrderType = Market | Limit

  /** A perpetual market's on-chain account, opaque to the dashboard. */
  datatype PerpMarketAccount = PerpMarketAccount(marketIndex: int, data: nat)

  /** A sub-account's on-chain account, opaque to the dashboard. */
  datatype UserAccount = UserAccount(data: nat)

  /** An oracle reading; the price is an integer in the oracle's fixed-point units. */
  datatype OraclePriceData = OraclePriceData(price: int)

  /**
   * A connected venue client. Its precision conversions (human units to the venue's
   * fixed-point integers) are the SDK's and are not visible here, so they are kept
   * as functions the client carries.
   */
  datatype DriftClient = DriftClient(
    session: nat,
    convertToPerpPrecision: real -> int,
    convertToPricePrecision: real -> int,
    convertToSpotPrecision: (int, real) -> int)

  /** The perp-order parameter record; a field the source leaves out of the object is None. */
  datatype OrderParams = OrderParams(
    orderType: OrderType,
    marketIndex: int,
    direction: PositionDirection,
    baseAssetAmount: int,
    price: Option<int>,
    auctionStartPrice: Option<int>,
    auctionEndPrice: Option<int>,
    auctionDuration: Option<int>,
    maxTs: Option<int>,
    oraclePriceOffset: Option<int>)

  datatype PublicKey = PublicKey(bytes: seq<int>)
  datatype Transaction = Transaction(bytes: seq<int>)

  /**
   * The browser wallet's state. Each capability may be missing; the signing functions
   * give what the wallet answers (a signed transaction, or its refusal).
   */
  datatype WalletContext = WalletContext(
    publicKey: Option<PublicKey>,
    signTransaction: Option<Transaction -> Result<Transaction, string>>,
    signAllTransactions: Option<seq<Transaction> -> Result<seq<Transaction>, string>>)

  /** What reading a perp market from the client gives: a throw, or the account (if loaded) and its oracle data. */
  datatype MarketRead = ReadThrew(error: string) | MarketRead(account: Option<PerpMarketAccount>, oracle: OraclePriceData)

  /** One call the dashboard makes into the venue client. */
  datatype AdapterCall =
    | Subscribe
    | ReadPerpMarket(marketIndex: int)
    | GetUser(subAccountId: int)
    | DepositCall(amount: int, marketIndex: int, subAccountId: int)
    | WithdrawCall(amount: int, marketIndex: int)
    | PlacePerpOrder(params: OrderParams)
    | InitializeUserAccount(subAccountId: int, name: string)

  /**
   * The venue's answers during one operation: the client a connection yields (or the
   * connection error), the market read for each perp index, the user account for each
   * sub-account id, and the outcome of each mutating call.
   */
  datatype Venue = Venue(
    connect: Result<DriftClient, string>,
    perpMarket: int -> MarketRead,
    user: int -> Result<UserAccount, string>,
    execute: AdapterCall -> Outcome<string>)
}
