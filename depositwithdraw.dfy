/**
 * The deposit/withdraw form: its defaults and its submit handler, which checks the
 * amount, copies the form's market into the store's selection and calls the store's
 * deposit or withdraw.
 */
module DepositWithdraw {
  import opened Wrappers
  import opened JsNumber
  import opened Sdk
  import opened UserDriftStore

  datatype Mode = DepositMode | WithdrawMode

  /** What a submission did: returned at the amount check, or ran the store action with this outcome. */
  datatype Submission = Ignored | Submitted(outcome: Outcome<string>)

  /** An amount the handler acts on: `parseFloat` gives a number above 0. */
  predicate ValidAmount(amount: string) {
    var n := ParseFloat(amount);
    n.Num? && n.value > 0.0
  }

  /** A cleared amount field is never acted on. */
  lemma ClearedAmountIsIgnored()
    ensures !ValidAmount("")
  {
  }

  class DepositWithdrawForm {
    var amount: string
    var marketIndex: int
    var loading: bool
    var mode: Mode

    /** The defaults: no amount, market 1, not loading, deposit mode. */
    constructor()
      ensures amount == "" && marketIndex == 1 && !loading && mode == DepositMode
    {
      amount, marketIndex, loading, mode := "", 1, false, DepositMode;
    }

    /**
     * Submits the form. An amount that is NaN or not above 0 returns at once and
     * changes nothing. Otherwise the store's market becomes the form's (and stays so
     * whatever follows), the action of the current mode runs, the amount is cleared
     * only if it succeeded, and loading ends cleared.
     */
    method HandleSubmit(store: DriftStore, venue: Venue) returns (r: Submission)
      requires store.Valid()
      modifies this`amount, this`loading, store`currentMarketIndex, store`user, store`calls
      ensures store.Valid()
      ensures marketIndex == old(marketIndex) && mode == old(mode)
      ensures !ValidAmount(old(amount)) ==>
        && r == Ignored && amount == old(amount) && loading == old(loading)
        && store.currentMarketIndex == old(store.currentMarketIndex)
        && store.calls == old(store.calls) && store.user == old(store.user)
      ensures ValidAmount(old(amount)) ==>
        var value := ParseFloat(old(amount)).value;
        && r.Submitted?
        && store.currentMarketIndex == marketIndex
        && !loading
        && amount == (if r.outcome.Pass? then "" else old(amount))
        && (store.driftClient.None? ==>
              r.outcome == Fail(NOT_INITIALISED) && store.calls == old(store.calls) && store.user == old(store.user))
        && (store.driftClient.Some? ==>
              var native := store.driftClient.value.convertToSpotPrecision(marketIndex, value);
              var call := if mode == DepositMode then DepositCall(native, marketIndex, store.currentSubaccountId)
                          else WithdrawCall(native, marketIndex);
              store.ActionThenRefresh(call, venue, old(store.calls), old(store.user), r.outcome))
    {
      var numericAmount := ParseFloat(amount);
      if numericAmount.NaN? || numericAmount.value <= 0.0 {
        return Ignored;
      }
      loading := true;
      store.SetMarketIndex(marketIndex);
      var outcome: Outcome<string>;
      if mode == DepositMode {
        outcome := store.Deposit(numericAmount.value, venue);
      } else {
        outcome := store.Withdraw(numericAmount.value, venue);
      }
      if outcome.Pass? {
        amount := "";
      }
      loading := false;
      r := Submitted(outcome);
    }
  }
}
