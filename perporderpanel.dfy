/**
 * The perp-order form: its initial state and its submit handler, which checks the
 * size and the price fields of the chosen order type and then calls exactly one of
 * the store's order actions.
 */
module PerpOrderPanel {
  import opened Wrappers
  import opened JsNumber
  import opened Sdk
  import opened PerpOrder
  import opened UserDriftStore

  /** The form's order-type codes. */
  const MARKET := 0
  const LIMIT := 1
  const ORACLE_OFFSET := 2

  const INVALID_SIZE := "Enter a valid size"
  const INVALID_LIMIT_PRICE := "Invalid limit price"
  const MISSING_AUCTION_PRICES := "Fill all auction price fields"
  const INVALID_PRICE_OFFSET := "Invalid price offset"
  const ORDER_FAILED := "Order failed"

  /** The form's fields; the size and prices hold the text the user typed. */
  datatype OrderForm = OrderForm(
    orderType: int,
    direction: PositionDirection,
    size: string,
    limitPrice: string,
    auctionStart: string,
    auctionEnd: string,
    auctionFinal: string,
    priceOffset: string)

  /** The store action a submission calls and its arguments. */
  datatype OrderRequest =
    | AuctionRequest(auction: AuctionMarketArgs)
    | LimitRequest(limit: LimitOrderArgs)
    | OracleOffsetRequest(offset: OracleOffsetOrderArgs)

  /** A size the handler accepts: a number that is neither 0, NaN nor negative. */
  predicate ValidSize(size: JsNumber) {
    !Falsy(size) && size.value > 0.0
  }

  function UnsupportedOrderType(orderType: int): string {
    "Unsupported order type: " + IntToString(orderType)
  }

  /**
   * What submitting the form with `marketIndex` selected in the store asks for: one
   * order action, or the message it is rejected with before any action is called.
   */
  function SubmitRequest(f: OrderForm, marketIndex: int): (r: Result<OrderRequest, string>)
    ensures !ValidSize(Number(f.size)) ==> r == Failure(INVALID_SIZE)
    ensures ValidSize(Number(f.size)) && f.orderType == LIMIT ==>
      (r.Success? <==> !Falsy(Number(f.limitPrice)))
    ensures ValidSize(Number(f.size)) && f.orderType == MARKET ==>
      (r.Success? <==> !Falsy(Number(f.auctionStart)) && !Falsy(Number(f.auctionEnd)) && !Falsy(Number(f.auctionFinal)))
    ensures ValidSize(Number(f.size)) && f.orderType == ORACLE_OFFSET ==>
      (r.Success? <==> !Falsy(Number(f.priceOffset)))
    ensures f.orderType !in {MARKET, LIMIT, ORACLE_OFFSET} ==> r.Failure?
    ensures r.Success? ==> match r.value
      case LimitRequest(a) =>
        f.orderType == LIMIT && a == LimitOrderArgs(marketIndex, Number(f.size).value, f.direction, Number(f.limitPrice).value)
      case AuctionRequest(a) =>
        && f.orderType == MARKET
        && a == AuctionMarketArgs(marketIndex, Number(f.size).value, f.direction,
             Number(f.auctionStart).value, Number(f.auctionEnd).value, Number(f.auctionFinal).value, None, None)
      case OracleOffsetRequest(a) =>
        f.orderType == ORACLE_OFFSET && a == OracleOffsetOrderArgs(marketIndex, Number(f.size).value, f.direction, Number(f.priceOffset).value)
  {
    var baseSize := Number(f.size);
    if !ValidSize(baseSize) then Failure(INVALID_SIZE)
    else if f.orderType == LIMIT then
      var priceNum := Number(f.limitPrice);
      if Falsy(priceNum) then Failure(INVALID_LIMIT_PRICE)
      else Success(LimitRequest(LimitOrderArgs(marketIndex, baseSize.value, f.direction, priceNum.value)))
    else if f.orderType == MARKET then
      var start, end, final := Number(f.auctionStart), Number(f.auctionEnd), Number(f.auctionFinal);
      if Falsy(start) || Falsy(end) || Falsy(final) then Failure(MISSING_AUCTION_PRICES)
      else Success(AuctionRequest(AuctionMarketArgs(marketIndex, baseSize.value, f.direction, start.value, end.value, final.value, None, None)))
    else if f.orderType == ORACLE_OFFSET then
      var offset := Number(f.priceOffset);
      if Falsy(offset) then Failure(INVALID_PRICE_OFFSET)
      else Success(OracleOffsetRequest(OracleOffsetOrderArgs(marketIndex, baseSize.value, f.direction, offset.value)))
    else Failure(UnsupportedOrderType(f.orderType))
  }

  /** The parameter record the store action for `req` submits. */
  function ParamsOf(driftClient: DriftClient, req: OrderRequest, nowMs: int): OrderParams {
    match req
    case AuctionRequest(a) => PlaceAuctionMarketPerpOrder(driftClient, a, nowMs)
    case LimitRequest(a) => PlaceLimitPerpOrder(driftClient, a)
    case OracleOffsetRequest(a) => PlaceOracleOffsetPerpOrder(driftClient, a)
  }

  /** A negative limit price passes the form's check. */
  lemma NegativeLimitPriceAccepted(f: OrderForm, marketIndex: int)
    requires ValidSize(Number(f.size)) && f.orderType == LIMIT
    requires Number(f.limitPrice).Num? && Number(f.limitPrice).value < 0.0
    ensures SubmitRequest(f, marketIndex).Success?
  {
  }

  /** Once a successful submission has cleared the size, submitting again is rejected. */
  lemma ClearedSizeIsRejected(f: OrderForm, marketIndex: int)
    ensures SubmitRequest(f.(size := ""), marketIndex) == Failure(INVALID_SIZE)
  {
  }

  class PerpOrderForm {
    var form: OrderForm

    /** The initial form: an auction-market order, long, with every text field empty. */
    constructor()
      ensures form == OrderForm(MARKET, Long, "", "", "", "", "", "")
    {
      form := OrderForm(MARKET, Long, "", "", "", "", "", "");
    }

    /**
     * Submits the form. A rejected form calls nothing and keeps every field; an accepted
     * one calls the one store action its order type names, with the store's selected
     * market and the form's direction, and on success clears the size alone.
     */
    method HandleSubmit(store: DriftStore, nowMs: int, venue: Venue) returns (r: Outcome<string>)
      requires store.Valid()
      modifies this`form, store`user, store`calls
      ensures store.Valid()
      ensures var req := SubmitRequest(old(form), store.currentMarketIndex);
        && (req.Failure? ==> r == Fail(req.error) && store.calls == old(store.calls) && store.user == old(store.user))
        && (req.Success? && store.driftClient.None? ==>
              r == Fail(NOT_INITIALISED) && store.calls == old(store.calls) && store.user == old(store.user))
        && (req.Success? && store.driftClient.Some? ==>
              exists sr :: store.ActionThenRefresh(PlacePerpOrder(ParamsOf(store.driftClient.value, req.value, nowMs)), venue, old(store.calls), old(store.user), sr)
                && r == (if sr.Pass? then Pass else if sr.error == "" then Fail(ORDER_FAILED) else sr)
           )
      ensures form == (if r.Pass? then old(form).(size := "") else old(form))
    {
      var baseSize := Number(form.size);
      if Falsy(baseSize) || baseSize.value <= 0.0 {
        return Fail(INVALID_SIZE);
      }
      var marketIndex := store.currentMarketIndex;
      var outcome: Outcome<string>;
      if form.orderType == LIMIT {
        var priceNum := Number(form.limitPrice);
        if Falsy(priceNum) {
          return Fail(INVALID_LIMIT_PRICE);
        }
        outcome := store.PlaceLimitOrder(LimitOrderArgs(marketIndex, baseSize.value, form.direction, priceNum.value), venue);
      } else if form.orderType == MARKET {
        var start, end, final := Number(form.auctionStart), Number(form.auctionEnd), Number(form.auctionFinal);
        if Falsy(start) || Falsy(end) || Falsy(final) {
          return Fail(MISSING_AUCTION_PRICES);
        }
        outcome := store.PlaceAuctionMarketOrder(
          AuctionMarketArgs(marketIndex, baseSize.value, form.direction, start.value, end.value, final.value, None, None), nowMs, venue);
      } else if form.orderType == ORACLE_OFFSET {
        var offset := Number(form.priceOffset);
        if Falsy(offset) {
          return Fail(INVALID_PRICE_OFFSET);
        }
        outcome := store.PlaceOracleOffsetOrder(OracleOffsetOrderArgs(marketIndex, baseSize.value, form.direction, offset.value), venue);
      } else {
        return Fail(UnsupportedOrderType(form.orderType));
      }
      if outcome.Fail? {
        return if outcome.error == "" then Fail(ORDER_FAILED) else outcome;
      }
      form := form.(size := "");
      r := Pass;
    }
  }
}
