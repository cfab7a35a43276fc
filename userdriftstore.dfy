/**
 * The session store: one state record holding the venue client, the loaded
 * sub-account, the wallet, the selected sub-account and market, and the market and
 * oracle-price caches, with the actions that read and update them.
 */
module UserDriftStore {
  import opened Wrappers
  import opened Sdk
  import opened PerpOrder
  import DriftWallet

  const NOT_INITIALISED := "DriftClient not initialised"

  /** The oracle's raw integer price is divided by this to give the cached human price. */
  const ORACLE_PRICE_DIVISOR: real := 1000000.0

  /** The loaded sub-account: the id it was fetched for and the account the venue returned. */
  datatype User = User(subAccountId: int, account: UserAccount)

  /** The oracle price in human units: the raw integer scaled down by 10^6. */
  function HumanPrice(oracle: OraclePriceData): (p: real)
    ensures p * ORACLE_PRICE_DIVISOR == oracle.price as real
    ensures (p < 0.0) == (oracle.price < 0)
  {
    oracle.price as real / ORACLE_PRICE_DIVISOR
  }

  /** The user a refresh of `subAccountId` leaves: the fetched one, or the previous one when the fetch failed. */
  function RefreshedUser(previous: Option<User>, subAccountId: int, read: Result<UserAccount, string>): Option<User> {
    if read.Success? then Some(User(subAccountId, read.value)) else previous
  }

  /** How a refresh of the user settles: it resolves, or rejects with the fetch error. */
  function RefreshOutcome(read: Result<UserAccount, string>): Outcome<string> {
    if read.Success? then Pass else Fail(read.error)
  }

  class DriftStore {
    var driftClient: Option<DriftClient>
    var user: Option<User>
    var walletAdapter: Option<WalletContext>
    var currentSubaccountId: int
    var currentMarketIndex: int
    var markets: map<int, PerpMarketAccount>
    var oraclePrices: map<int, real>
    /** Whether the five-second market poll has been started (and not cancelled by a client error). */
    var polling: bool
    /** Every call made into the venue client, in order. */
    ghost var calls: seq<AdapterCall>

    /**
     * The two caches always have the same keys; a loaded user, a running poll and a
     * client each imply the state they were created from.
     */
    ghost predicate Valid()
      reads this
    {
      && markets.Keys == oraclePrices.Keys
      && (user.Some? ==> driftClient.Some?)
      && (polling ==> driftClient.Some?)
      && (driftClient.Some? ==> walletAdapter.Some?)
    }

    /**
     * The market refresh for `target` has taken effect: when the client yields market 0's
     * account, it and market 0's oracle price are cached under `target` and every other
     * entry is kept; otherwise both caches are as before.
     */
    ghost predicate MarketRefreshed(target: int, venue: Venue, oldMarkets: map<int, PerpMarketAccount>, oldPrices: map<int, real>)
      reads this
    {
      var read := venue.perpMarket(0);
      if read.MarketRead? && read.account.Some? then
        markets == oldMarkets[target := read.account.value] && oraclePrices == oldPrices[target := HumanPrice(read.oracle)]
      else
        markets == oldMarkets && oraclePrices == oldPrices
    }

    /**
     * A mutating action has run against a present client: `call` was made once; if it
     * failed the action rejected with its error, otherwise exactly one user refresh followed.
     */
    ghost predicate ActionThenRefresh(call: AdapterCall, venue: Venue, oldCalls: seq<AdapterCall>, oldUser: Option<User>, r: Outcome<string>)
      reads this
    {
      var sent := venue.execute(call);
      if sent.Fail? then
        r == sent && user == oldUser && calls == oldCalls + [call]
      else
        var read := venue.user(currentSubaccountId);
        && calls == oldCalls + [call, GetUser(currentSubaccountId)]
        && user == RefreshedUser(oldUser, currentSubaccountId, read)
        && r == RefreshOutcome(read)
    }

    /** The default state: nothing connected, sub-account 0, market 0, empty caches. */
    constructor()
      ensures Valid()
      ensures driftClient == None && user == None && walletAdapter == None
      ensures currentSubaccountId == 0 && currentMarketIndex == 0
      ensures markets == map[] && oraclePrices == map[]
      ensures !polling && calls == []
    {
      driftClient, user, walletAdapter := None, None, None;
      currentSubaccountId, currentMarketIndex := 0, 0;
      markets, oraclePrices := map[], map[];
      polling := false;
      calls := [];
    }

    /** Changes the selected sub-account and nothing else; no refresh follows. */
    method SetSubaccountId(id: int)
      requires Valid()
      modifies this`currentSubaccountId
      ensures Valid() && currentSubaccountId == id
    {
      currentSubaccountId := id;
    }

    /** Changes the selected market and nothing else; no refresh follows. */
    method SetMarketIndex(idx: int)
      requires Valid()
      modifies this`currentMarketIndex
      ensures Valid() && currentMarketIndex == idx
    {
      currentMarketIndex := idx;
    }

    /**
     * Connects: stores the wallet first, then wraps it and subscribes a client; on
     * success refreshes market 0, then the user, then starts the poll.
     */
    method InitClient(wallet: WalletContext, venue: Venue) returns (r: Outcome<string>)
      requires Valid()
      modifies this
      ensures Valid()
      ensures walletAdapter == Some(wallet)
      ensures currentSubaccountId == old(currentSubaccountId) && currentMarketIndex == old(currentMarketIndex)
      ensures !DriftWallet.Compatible(wallet) ==>
        && r == Fail(DriftWallet.INCOMPATIBLE_WALLET)
        && driftClient == old(driftClient) && user == old(user) && polling == old(polling)
        && markets == old(markets) && oraclePrices == old(oraclePrices) && calls == old(calls)
      ensures DriftWallet.Compatible(wallet) && venue.connect.Failure? ==>
        && r == Fail(venue.connect.error)
        && driftClient == old(driftClient) && user == old(user) && polling == old(polling)
        && markets == old(markets) && oraclePrices == old(oraclePrices) && calls == old(calls) + [Subscribe]
      ensures DriftWallet.Compatible(wallet) && venue.connect.Success? ==>
        var read := venue.user(currentSubaccountId);
        && driftClient == Some(venue.connect.value)
        && MarketRefreshed(0, venue, old(markets), old(oraclePrices))
        && calls == old(calls) + [Subscribe, ReadPerpMarket(0), GetUser(currentSubaccountId)]
        && user == RefreshedUser(old(user), currentSubaccountId, read)
        && r == RefreshOutcome(read)
        && polling == (old(polling) || read.Success?)
    {
      walletAdapter := Some(wallet);
      var wrapped := DriftWallet.DriftWalletAdapterWrapper.Create(wallet);
      if wrapped.Failure? {
        return Fail(wrapped.error);
      }
      calls := calls + [Subscribe];
      if venue.connect.Failure? {
        return Fail(venue.connect.error);
      }
      driftClient := Some(venue.connect.value);
      RefreshMarket(Some(0), venue);
      r := RefreshUser(venue);
      if r.Fail? {
        return;
      }
      polling := true;
    }

    /** Fetches the selected sub-account; rejects when there is no client. */
    method RefreshUser(venue: Venue) returns (r: Outcome<string>)
      requires Valid()
      modifies this`user, this`calls
      ensures Valid()
      ensures driftClient.None? ==> r == Fail(NOT_INITIALISED) && user == old(user) && calls == old(calls)
      ensures driftClient.Some? ==>
        var read := venue.user(currentSubaccountId);
        && calls == old(calls) + [GetUser(currentSubaccountId)]
        && user == RefreshedUser(old(user), currentSubaccountId, read)
        && r == RefreshOutcome(read)
    {
      if driftClient.None? {
        return Fail(NOT_INITIALISED);
      }
      calls := calls + [GetUser(currentSubaccountId)];
      var read := venue.user(currentSubaccountId);
      if read.Failure? {
        return Fail(read.error);
      }
      user := Some(User(currentSubaccountId, read.value));
      r := Pass;
    }

    /**
     * Refreshes the cache entry for the given market, or for the selected one when none
     * is given. The client is always asked for perp market 0. Without a client nothing
     * happens; a missing account or a throwing read is swallowed.
     */
    method RefreshMarket(marketIndexParam: Option<int>, venue: Venue)
      requires Valid()
      modifies this`markets, this`oraclePrices, this`calls
      ensures Valid()
      ensures driftClient.None? ==> markets == old(markets) && oraclePrices == old(oraclePrices) && calls == old(calls)
      ensures driftClient.Some? ==>
        && calls == old(calls) + [ReadPerpMarket(0)]
        && MarketRefreshed(marketIndexParam.GetOr(currentMarketIndex), venue, old(markets), old(oraclePrices))
    {
      var marketIndex := marketIndexParam.GetOr(currentMarketIndex);
      if driftClient.None? {
        return;
      }
      calls := calls + [ReadPerpMarket(0)];
      var read := venue.perpMarket(0);
      match read
      case ReadThrew(_) =>
      case MarketRead(account, oracle) =>
        if account.Some? {
          markets := markets[marketIndex := account.value];
          oraclePrices := oraclePrices[marketIndex := HumanPrice(oracle)];
        }
    }

    /** One tick of the five-second poll: refreshes the market selected at that moment. */
    method PollTick(venue: Venue)
      requires Valid() && polling
      modifies this`markets, this`oraclePrices, this`calls
      ensures Valid()
      ensures calls == old(calls) + [ReadPerpMarket(0)]
      ensures MarketRefreshed(currentMarketIndex, venue, old(markets), old(oraclePrices))
    {
      RefreshMarket(Some(currentMarketIndex), venue);
    }

    /** The client's error event cancels the poll. */
    method OnClientError()
      requires Valid()
      modifies this`polling
      ensures Valid() && !polling
    {
      polling := false;
    }

    /** Makes `call` and, if it succeeded, refreshes the user. */
    method ActThenRefresh(call: AdapterCall, venue: Venue) returns (r: Outcome<string>)
      requires Valid() && driftClient.Some?
      modifies this`user, this`calls
      ensures Valid()
      ensures ActionThenRefresh(call, venue, old(calls), old(user), r)
    {
      calls := calls + [call];
      var sent := venue.execute(call);
      if sent.Fail? {
        return sent;
      }
      r := RefreshUser(venue);
    }

    /**
     * Deposits `amount` (human units) into the selected market for the selected
     * sub-account, both read when the action starts.
     */
    method Deposit(amount: real, venue: Venue) returns (r: Outcome<string>)
      requires Valid()
      modifies this`user, this`calls
      ensures Valid()
      ensures driftClient.None? ==> r == Fail(NOT_INITIALISED) && user == old(user) && calls == old(calls)
      ensures driftClient.Some? ==>
        var native := driftClient.value.convertToSpotPrecision(currentMarketIndex, amount);
        ActionThenRefresh(DepositCall(native, currentMarketIndex, currentSubaccountId), venue, old(calls), old(user), r)
    {
      if driftClient.None? {
        return Fail(NOT_INITIALISED);
      }
      var native := driftClient.value.convertToSpotPrecision(currentMarketIndex, amount);
      r := ActThenRefresh(DepositCall(native, currentMarketIndex, currentSubaccountId), venue);
    }

    /** Withdraws `amount` (human units) from the selected market; no sub-account id is passed. */
    method Withdraw(amount: real, venue: Venue) returns (r: Outcome<string>)
      requires Valid()
      modifies this`user, this`calls
      ensures Valid()
      ensures driftClient.None? ==> r == Fail(NOT_INITIALISED) && user == old(user) && calls == old(calls)
      ensures driftClient.Some? ==>
        var native := driftClient.value.convertToSpotPrecision(currentMarketIndex, amount);
        ActionThenRefresh(WithdrawCall(native, currentMarketIndex), venue, old(calls), old(user), r)
    {
      if driftClient.None? {
        return Fail(NOT_INITIALISED);
      }
      var native := driftClient.value.convertToSpotPrecision(currentMarketIndex, amount);
      r := ActThenRefresh(WithdrawCall(native, currentMarketIndex), venue);
    }

    /** Submits an auction-market order built at clock reading `nowMs`. */
    method PlaceAuctionMarketOrder(args: AuctionMarketArgs, nowMs: int, venue: Venue) returns (r: Outcome<string>)
      requires Valid()
      modifies this`user, this`calls
      ensures Valid()
      ensures driftClient.None? ==> r == Fail(NOT_INITIALISED) && user == old(user) && calls == old(calls)
      ensures driftClient.Some? ==>
        var p := PlaceAuctionMarketPerpOrder(driftClient.value, args, nowMs);
        ActionThenRefresh(PlacePerpOrder(p), venue, old(calls), old(user), r)
    {
      if driftClient.None? {
        return Fail(NOT_INITIALISED);
      }
      var p := PlaceAuctionMarketPerpOrder(driftClient.value, args, nowMs);
      r := ActThenRefresh(PlacePerpOrder(p), venue);
    }

    /** Submits a limit order. */
    method PlaceLimitOrder(args: LimitOrderArgs, venue: Venue) returns (r: Outcome<string>)
      requires Valid()
      modifies this`user, this`calls
      ensures Valid()
      ensures driftClient.None? ==> r == Fail(NOT_INITIALISED) && user == old(user) && calls == old(calls)
      ensures driftClient.Some? ==>
        var p := PlaceLimitPerpOrder(driftClient.value, args);
        ActionThenRefresh(PlacePerpOrder(p), venue, old(calls), old(user), r)
    {
      if driftClient.None? {
        return Fail(NOT_INITIALISED);
      }
      var p := PlaceLimitPerpOrder(driftClient.value, args);
      r := ActThenRefresh(PlacePerpOrder(p), venue);
    }

    /** Submits an oracle-offset order. */
    method PlaceOracleOffsetOrder(args: OracleOffsetOrderArgs, venue: Venue) returns (r: Outcome<string>)
      requires Valid()
      modifies this`user, this`calls
      ensures Valid()
      ensures driftClient.None? ==> r == Fail(NOT_INITIALISED) && user == old(user) && calls == old(calls)
      ensures driftClient.Some? ==>
        var p := PlaceOracleOffsetPerpOrder(driftClient.value, args);
        ActionThenRefresh(PlacePerpOrder(p), venue, old(calls), old(user), r)
    {
      if driftClient.None? {
        return Fail(NOT_INITIALISED);
      }
      var p := PlaceOracleOffsetPerpOrder(driftClient.value, args);
      r := ActThenRefresh(PlacePerpOrder(p), venue);
    }
  }
}
