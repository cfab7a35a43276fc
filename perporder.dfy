/**
 * Construction of the perp-order parameter records for the three order kinds the
 * dashboard offers: auction-market, limit and oracle-offset. Each builder yields the
 * record that the source hands, once, to the client's `placePerpOrder`.
 */
module PerpOrder {
  import opened Wrappers
  import opened Sdk

  const DEFAULT_AUCTION_DURATION_SLOTS := 30
  const DEFAULT_SECONDS_TO_LIVE := 120

  datatype AuctionMarketArgs = AuctionMarketArgs(
    marketIndex: int,
    baseSize: real,
    direction: PositionDirection,
    startPrice: real,
    endPrice: real,
    finalPrice: real,
    auctionDurationSlots: Option<int>,
    secondsToLive: Option<int>)

  datatype LimitOrderArgs = LimitOrderArgs(
    marketIndex: int,
    baseSize: real,
    direction: PositionDirection,
    limitPrice: real)

  datatype OracleOffsetOrderArgs = OracleOffsetOrderArgs(
    marketIndex: int,
    baseSize: real,
    direction: PositionDirection,
    priceOffset: real)

  /** The order kinds, as they can be told apart from a parameter record. */
  datatype OrderKind = AuctionMarketKind | LimitKind | OracleOffsetKind

  /**
   * Reads the kind back from a record: MARKET with the auction fields is an auction
   * order; LIMIT with a price and no offset a limit order; LIMIT with an offset and no
   * price an oracle-offset order.
   */
  function KindOf(p: OrderParams): Option<OrderKind> {
    if p.orderType == Market && p.auctionStartPrice.Some? && p.auctionEndPrice.Some?
       && p.auctionDuration.Some? && p.maxTs.Some? && p.price.Some? && p.oraclePriceOffset.None?
    then Some(AuctionMarketKind)
    else if p.orderType == Limit && p.price.Some? && p.oraclePriceOffset.None?
       && p.auctionStartPrice.None? && p.auctionEndPrice.None? && p.auctionDuration.None? && p.maxTs.None?
    then Some(LimitKind)
    else if p.orderType == Limit && p.price.None? && p.oraclePriceOffset.Some?
       && p.auctionStartPrice.None? && p.auctionEndPrice.None? && p.auctionDuration.None? && p.maxTs.None?
    then Some(OracleOffsetKind)
    else None
  }

  /** `Math.floor(Date.now() / 1000)`: the whole seconds in a millisecond clock reading. */
  function NowSeconds(nowMs: int): (t: int)
    ensures t * 1000 <= nowMs < t * 1000 + 1000
  {
    nowMs / 1000
  }

  /**
   * The auction-market record. `nowMs` is the clock reading at submission; the
   * duration and time-to-live default to 30 slots and 120 seconds when not given.
   */
  function PlaceAuctionMarketPerpOrder(driftClient: DriftClient, args: AuctionMarketArgs, nowMs: int): (p: OrderParams)
    ensures KindOf(p) == Some(AuctionMarketKind) && p.orderType == Market
    ensures p.marketIndex == args.marketIndex && p.direction == args.direction
    ensures p.baseAssetAmount == driftClient.convertToPerpPrecision(args.baseSize)
    ensures p.auctionStartPrice == Some(driftClient.convertToPricePrecision(args.startPrice))
    ensures p.auctionEndPrice == Some(driftClient.convertToPricePrecision(args.endPrice))
    ensures p.price == Some(driftClient.convertToPricePrecision(args.finalPrice))
    ensures args.auctionDurationSlots.None? ==> p.auctionDuration == Some(DEFAULT_AUCTION_DURATION_SLOTS)
    ensures args.auctionDurationSlots.Some? ==> p.auctionDuration == args.auctionDurationSlots
    ensures var ttl := args.secondsToLive.GetOr(DEFAULT_SECONDS_TO_LIVE);
      && p.maxTs.Some?
      && (p.maxTs.value - ttl) * 1000 <= nowMs < (p.maxTs.value - ttl) * 1000 + 1000
  {
    var now := NowSeconds(nowMs);
    OrderParams(
      orderType := Market,
      marketIndex := args.marketIndex,
      direction := args.direction,
      baseAssetAmount := driftClient.convertToPerpPrecision(args.baseSize),
      price := Some(driftClient.convertToPricePrecision(args.finalPrice)),
      auctionStartPrice := Some(driftClient.convertToPricePrecision(args.startPrice)),
      auctionEndPrice := Some(driftClient.convertToPricePrecision(args.endPrice)),
      auctionDuration := Some(args.auctionDurationSlots.GetOr(DEFAULT_AUCTION_DURATION_SLOTS)),
      maxTs := Some(now + args.secondsToLive.GetOr(DEFAULT_SECONDS_TO_LIVE)),
      oraclePriceOffset := None)
  }

  /** The limit record: a LIMIT order at the converted limit price, with no auction fields. */
  function PlaceLimitPerpOrder(driftClient: DriftClient, args: LimitOrderArgs): (p: OrderParams)
    ensures KindOf(p) == Some(LimitKind) && p.orderType == Limit
    ensures p.marketIndex == args.marketIndex && p.direction == args.direction
    ensures p.baseAssetAmount == driftClient.convertToPerpPrecision(args.baseSize)
    ensures p.price == Some(driftClient.convertToPricePrecision(args.limitPrice))
  {
    OrderParams(
      orderType := Limit,
      marketIndex := args.marketIndex,
      direction := args.direction,
      baseAssetAmount := driftClient.convertToPerpPrecision(args.baseSize),
      price := Some(driftClient.convertToPricePrecision(args.limitPrice)),
      auctionStartPrice := None,
      auctionEndPrice := None,
      auctionDuration := None,
      maxTs := None,
      oraclePriceOffset := None)
  }

  /**
   * The oracle-offset record: a LIMIT order that carries only the converted offset; no
   * price is fixed when the record is built, the venue applies the offset to its oracle.
   */
  function PlaceOracleOffsetPerpOrder(driftClient: DriftClient, args: OracleOffsetOrderArgs): (p: OrderParams)
    ensures KindOf(p) == Some(OracleOffsetKind) && p.orderType == Limit
    ensures p.marketIndex == args.marketIndex && p.direction == args.direction
    ensures p.baseAssetAmount == driftClient.convertToPerpPrecision(args.baseSize)
    ensures p.oraclePriceOffset == Some(driftClient.convertToPricePrecision(args.priceOffset))
  {
    OrderParams(
      orderType := Limit,
      marketIndex := args.marketIndex,
      direction := args.direction,
      baseAssetAmount := driftClient.convertToPerpPrecision(args.baseSize),
      price := None,
      auctionStartPrice := None,
      auctionEndPrice := None,
      auctionDuration := None,
      maxTs := None,
      oraclePriceOffset := Some(driftClient.convertToPricePrecision(args.priceOffset)))
  }

  /** The auction record expires `secondsToLive` after the whole second of submission, and no earlier second. */
  lemma AuctionExpiryIsFloorPlusTtl(driftClient: DriftClient, args: AuctionMarketArgs, nowMs: int, t: int)
    requires t * 1000 <= nowMs < t * 1000 + 1000
    ensures PlaceAuctionMarketPerpOrder(driftClient, args, nowMs).maxTs == Some(t + args.secondsToLive.GetOr(DEFAULT_SECONDS_TO_LIVE))
  {
  }
}
