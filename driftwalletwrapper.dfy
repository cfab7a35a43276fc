/**
 * The wallet wrapper handed to the venue client: it admits a browser wallet only when
 * the wallet offers a public key and both signing functions, and then forwards to it.
 */
module DriftWallet {
  import opened Wrappers
  import opened Sdk

  const INCOMPATIBLE_WALLET := "Wallet adapter not fully connected or incompatible"
  const SIGN_TRANSACTION_MISSING := "signTransaction not implemented"
  const SIGN_ALL_TRANSACTIONS_MISSING := "signAllTransactions not implemented"

  /** The wallet offers all three capabilities the venue client needs. */
  predicate Compatible(w: WalletContext) {
    w.publicKey.Some? && w.signTransaction.Some? && w.signAllTransactions.Some?
  }

  class DriftWalletAdapterWrapper {
    const adapter: WalletContext

    /** Every wrapper that construction lets through holds a compatible wallet. */
    ghost predicate Valid() {
      Compatible(adapter)
    }

    /** Stores the wallet; only `Create` calls this, after its check. */
    constructor Wrap(adapter: WalletContext)
      requires Compatible(adapter)
      ensures this.adapter == adapter && Valid()
    {
      this.adapter := adapter;
    }

    /** The source's constructor: throws unless the wallet is compatible, else wraps it unchanged. */
    static method Create(adapter: WalletContext) returns (r: Result<DriftWalletAdapterWrapper, string>)
      ensures r.Success? <==> Compatible(adapter)
      ensures r.Failure? ==> r.error == INCOMPATIBLE_WALLET
      ensures r.Success? ==> fresh(r.value) && r.value.adapter == adapter && r.value.Valid()
    {
      if adapter.publicKey.None? || adapter.signTransaction.None? || adapter.signAllTransactions.None? {
        return Failure(INCOMPATIBLE_WALLET);
      }
      var w := new DriftWalletAdapterWrapper.Wrap(adapter);
      return Success(w);
    }

    /** The `publicKey` getter: the wallet's own key. */
    function PublicKey(): (k: PublicKey)
      requires Valid()
      ensures adapter.publicKey == Some(k)
    {
      adapter.publicKey.value
    }

    /** Signs through the wallet; the wallet's answer, or an error if it has no such function. */
    method SignTransaction(tx: Transaction) returns (r: Result<Transaction, string>)
      ensures adapter.signTransaction.None? ==> r == Failure(SIGN_TRANSACTION_MISSING)
      ensures adapter.signTransaction.Some? ==> r == adapter.signTransaction.value(tx)
      ensures Valid() ==> r == adapter.signTransaction.value(tx)
    {
      if adapter.signTransaction.None? {
        return Failure(SIGN_TRANSACTION_MISSING);
      }
      r := adapter.signTransaction.value(tx);
    }

    /** Signs a whole list through the wallet in one call; an error if it has no such function. */
    method SignAllTransactions(txs: seq<Transaction>) returns (r: Result<seq<Transaction>, string>)
      ensures adapter.signAllTransactions.None? ==> r == Failure(SIGN_ALL_TRANSACTIONS_MISSING)
      ensures adapter.signAllTransactions.Some? ==> r == adapter.signAllTransactions.value(txs)
      ensures Valid() ==> r == adapter.signAllTransactions.value(txs)
    {
      if adapter.signAllTransactions.None? {
        return Failure(SIGN_ALL_TRANSACTIONS_MISSING);
      }
      r := adapter.signAllTransactions.value(txs);
    }
  }
}
