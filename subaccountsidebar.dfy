/**
 * The new-sub-account dialog: the id it offers next, the cap of eight sub-accounts
 * on its button, and its create handler.
 */
module SubaccountSidebar {
  import opened Wrappers
  import opened Sdk
  import opened UserDriftStore

  const MAX_SUBACCOUNTS := 8
  const SUBACCOUNT_NAME := "subaccount"
  const NOT_READY := "Drift client or wallet not initialized"
  const CREATE_FAILED := "Failed to initialize subaccount"

  /** `driftClient?.getUsers().length || 0`: the number of sub-accounts the client has loaded, 0 without a client. */
  function UsersLength(hasClient: bool, loadedUsers: seq<int>): nat {
    if hasClient then |loadedUsers| else 0
  }

  /** The id offered for the next sub-account: the count of loaded ones. */
  function NextSubaccountId(hasClient: bool, loadedUsers: seq<int>): (id: nat)
    ensures !hasClient ==> id == 0
    ensures hasClient ==> id == |loadedUsers|
  {
    UsersLength(hasClient, loadedUsers)
  }

  /** Another sub-account may be added while fewer than eight exist. */
  function CanAdd(hasClient: bool, loadedUsers: seq<int>): (b: bool)
    ensures b <==> UsersLength(hasClient, loadedUsers) < MAX_SUBACCOUNTS
    ensures b ==> NextSubaccountId(hasClient, loadedUsers) < MAX_SUBACCOUNTS
  {
    UsersLength(hasClient, loadedUsers) < MAX_SUBACCOUNTS
  }

  /** The create button is disabled while loading or once the cap is reached; this is the only place the cap is applied. */
  function CreateDisabled(loading: bool, hasClient: bool, loadedUsers: seq<int>): (d: bool)
    ensures !d ==> !loading && NextSubaccountId(hasClient, loadedUsers) < MAX_SUBACCOUNTS
    ensures d <==> loading || UsersLength(hasClient, loadedUsers) >= MAX_SUBACCOUNTS
  {
    loading || !CanAdd(hasClient, loadedUsers)
  }

  /** Sub-account ids 0 .. n-1, as a wallet has after creating them in order. */
  predicate Consecutive(ids: seq<int>) {
    forall i :: 0 <= i < |ids| ==> ids[i] == i
  }

  /**
   * With consecutive ids, the offered id is new, and creating it keeps the ids consecutive.
   * `Consecutive` is an assumption about the wallet, not something the dialog checks: the
   * loaded users need not be ids 0 .. n-1 (a sub-account created elsewhere out of order,
   * or one deleted), and then the offered id can already be taken.
   */
  lemma NextIdIsFresh(ids: seq<int>)
    requires Consecutive(ids)
    ensures NextSubaccountId(true, ids) !in ids
    ensures Consecutive(ids + [NextSubaccountId(true, ids)])
  {
  }

  class SubaccountModal {
    var open: bool
    var loading: bool
    var error: Option<string>

    constructor(open: bool)
      ensures this.open == open && !loading && error == None
    {
      this.open, loading, error := open, false, None;
    }

    /**
     * Creates the next sub-account. Without a client or wallet it only sets an error.
     * Otherwise it asks the client to initialise the next id (whatever the count), then
     * refreshes the user, then closes; on a failure it shows the message and stays open.
     * Loading ends cleared either way.
     */
    method HandleCreate(store: DriftStore, loadedUsers: seq<int>, venue: Venue)
      requires store.Valid()
      modifies this, store`user, store`calls
      ensures store.Valid()
      ensures store.driftClient.None? || store.walletAdapter.None? ==>
        && error == Some(NOT_READY) && loading == old(loading) && open == old(open)
        && store.calls == old(store.calls) && store.user == old(store.user)
      ensures store.driftClient.Some? && store.walletAdapter.Some? ==>
        var call := InitializeUserAccount(NextSubaccountId(true, loadedUsers), SUBACCOUNT_NAME);
        && !loading
        && exists sr :: store.ActionThenRefresh(call, venue, old(store.calls), old(store.user), sr)
             && open == (old(open) && sr.Fail?)
             && error == (if sr.Pass? then None else if sr.error == "" then Some(CREATE_FAILED) else Some(sr.error))
    {
      if store.driftClient.None? || store.walletAdapter.None? {
        error := Some(NOT_READY);
        return;
      }
      var nextSubaccountId := NextSubaccountId(true, loadedUsers);
      loading := true;
      error := None;
      var outcome := store.ActThenRefresh(InitializeUserAccount(nextSubaccountId, SUBACCOUNT_NAME), venue);
      if outcome.Pass? {
        open := false;
      } else {
        error := Some(if outcome.error == "" then CREATE_FAILED else outcome.error);
      }
      loading := false;
    }
  }
}
