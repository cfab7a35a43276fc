# Drift dashboard session store — a Dafny model

This project models the client-side logic of a browser dashboard for the Drift
perpetual-futures venue: the session store that owns the venue client, the selected
sub-account and market and the market/oracle-price caches; the builders of the three
perp-order parameter records (auction-market, limit, oracle-offset); the wallet
wrapper that admits a browser wallet; and the submit handlers of the order form, the
deposit/withdraw form and the new-sub-account dialog.

The venue SDK and the wallet are external. They appear as `Sdk.Venue`, a record of
the answers the venue gives during one operation (the client a connection yields,
the market read for each perp index, the user account for each sub-account id, the
outcome of each mutating call), and `Sdk.WalletContext`. The SDK's precision
conversions are functions carried by `Sdk.DriftClient` and are not interpreted. The
store keeps a ghost log `calls` of every call made into the venue client, so the
contracts state which calls happen, in which order and how often.

Modules, one per source file: `Sdk` (the external interfaces), `PerpOrder`
(`src/app/lib/perporder.ts`), `DriftWallet` (`src/app/lib/driftWalletWrapper.ts`),
`UserDriftStore` (`src/app/store/userdriftstore.ts`), `PerpOrderPanel`,
`DepositWithdraw` and `SubaccountSidebar` (the components of the same names), plus
`JsNumber` (JavaScript's `Number(text)` and `parseFloat(text)`, which the handlers
apply to what the user typed) and `Wrappers` (Option, Result, Outcome). A thrown
error or rejected promise is a `Fail`/`Failure` value carrying the source's message.

Behaviour of the code that the model keeps as it is:
- `refreshMarket` always reads perp market 0 and caches that account and price under
  the requested key (`UserDriftStore.DriftStore.MarketRefreshed`).
- `withdraw` passes no sub-account id to the venue (`WithdrawCall` has none).
- `initClient` stores the wallet before the compatibility check and the connection,
  so a failed connection leaves the new wallet beside the previous client (or none).
  If the user refresh at the end of `initClient` fails, the poll is not started.
- The sub-account cap of eight is applied only by the create button's disabled rule,
  not by the create handler.
- The order form's price checks reject only 0 and NaN: negative limit prices and
  negative offsets pass.
- The store does not check that amounts are positive; no oracle-plus-offset price is
  computed when an oracle-offset order is built; errors are plain messages.

## Model

| member | source | states |
|---|---|---|
| `JsNumber.Number` | src/app/components/PerpOrderPanel.tsx:62-63 | empty text reads as 0; a text holding a character that cannot appear in a decimal number reads as NaN; a negative value needs a leading '-' |
| `JsNumber.NumberReadsDecimalText` | src/app/components/PerpOrderPanel.tsx:62-63 | a text made of an optional sign, digits and optionally a point and more digits, with at least one digit, reads as the value it denotes: the sign applied to the integer digits plus the fraction digits over 10 to their count |
| `JsNumber.ParseFloat` | src/app/components/DepositWithdraw.tsx:28-29 | empty text reads as NaN; a text starting with a digit reads as a number; a negative value needs a leading '-' |
| `JsNumber.ParseFloatReadsDecimalPrefix` | src/app/components/DepositWithdraw.tsx:28-29 | such a decimal text, ending the input or followed by a character that cannot continue a number, is read by `parseFloat` as the value it denotes |
| `JsNumber.ParseFloatAgreesWithNumber` | src/app/components/DepositWithdraw.tsx:28 | on a non-empty text that `Number` accepts, `parseFloat` gives the same value |
| `JsNumber.ParseFloatIgnoresTrailingText` | src/app/components/DepositWithdraw.tsx:28-29 | digits followed by a character that cannot continue a number: `parseFloat` reads the digits' value while `Number` gives NaN |
| `PerpOrder.NowSeconds` | src/app/lib/perporder.ts:30 | the result is the floor of the millisecond clock reading divided by 1000 |
| `PerpOrder.PlaceAuctionMarketPerpOrder` | src/app/lib/perporder.ts:19-47 | a MARKET record with start, end and final prices converted into auctionStartPrice, auctionEndPrice and price; duration defaults to 30 and time-to-live to 120; maxTs is the floor of now in seconds plus the time-to-live; market, direction pass through and base amount is the perp-precision size |
| `PerpOrder.PlaceLimitPerpOrder` | src/app/lib/perporder.ts:53-69 | a LIMIT record whose price is the converted limit price, with no auction fields and no offset |
| `PerpOrder.PlaceOracleOffsetPerpOrder` | src/app/lib/perporder.ts:75-93 | a LIMIT record carrying only the converted offset and no price |
| `PerpOrder.AuctionExpiryIsFloorPlusTtl` | src/app/lib/perporder.ts:30-41 | for any whole second t containing the clock reading, maxTs is exactly t plus the time-to-live |
| `DriftWallet.DriftWalletAdapterWrapper.Create` | src/app/lib/driftWalletWrapper.ts:9-19 | succeeds if and only if the wallet has a public key and both signing functions, and then holds the wallet unchanged; otherwise fails with the source's message |
| `DriftWallet.DriftWalletAdapterWrapper.Wrap` | src/app/lib/driftWalletWrapper.ts:18 | the wrapper stores the wallet it is given |
| `DriftWallet.DriftWalletAdapterWrapper.PublicKey` | src/app/lib/driftWalletWrapper.ts:21-23 | the getter returns the wallet's own key |
| `DriftWallet.DriftWalletAdapterWrapper.SignTransaction` | src/app/lib/driftWalletWrapper.ts:25-30 | returns the wallet's answer, or the not-implemented error when the function is missing; on a constructed wrapper always the wallet's answer |
| `DriftWallet.DriftWalletAdapterWrapper.SignAllTransactions` | src/app/lib/driftWalletWrapper.ts:32-37 | returns the wallet's answer for the whole list, or the not-implemented error when the function is missing; on a constructed wrapper always the wallet's answer |
| `UserDriftStore.HumanPrice` | src/app/store/userdriftstore.ts:132 | the cached oracle price times 10^6 is the raw oracle integer, with the same sign |
| `UserDriftStore.DriftStore.constructor` | src/app/store/userdriftstore.ts:73-79 | no client, user or wallet; sub-account 0, market 0; both caches empty; no poll |
| `UserDriftStore.DriftStore.SetSubaccountId` | src/app/store/userdriftstore.ts:82 | sets the selected sub-account; its frame leaves every other field, including the call log, untouched |
| `UserDriftStore.DriftStore.SetMarketIndex` | src/app/store/userdriftstore.ts:83 | sets the selected market; its frame leaves every other field, including the call log, untouched |
| `UserDriftStore.DriftStore.InitClient` | src/app/store/userdriftstore.ts:86-107 | the wallet is stored in every outcome; an incompatible wallet or a failed connection leaves the client, user, caches and poll as they were; on connection, market 0 is refreshed before the user, and the poll starts only if that refresh succeeds; the cache-key invariant is kept |
| `UserDriftStore.DriftStore.RefreshUser` | src/app/store/userdriftstore.ts:110-116 | without a client rejects with "DriftClient not initialised" and calls nothing; otherwise fetches the selected sub-account once and stores it, or rejects with the fetch error and keeps the old user |
| `UserDriftStore.DriftStore.RefreshMarket` | src/app/store/userdriftstore.ts:119-145 | targets the argument or else the selected market; without a client changes nothing; otherwise reads market 0 once and, if an account came back, writes both caches at exactly the target key, keeping every other entry; a missing account or a throwing read leaves both caches unchanged |
| `UserDriftStore.DriftStore.PollTick` | src/app/store/userdriftstore.ts:99-101 | a poll tick refreshes the market selected at that moment |
| `UserDriftStore.DriftStore.OnClientError` | src/app/store/userdriftstore.ts:104-106 | the client's error event stops the poll |
| `UserDriftStore.DriftStore.ActThenRefresh` | src/app/store/userdriftstore.ts:152-158 | the tail of every store action: the call is made once; if it fails the user and the rest of the log are untouched and its error is returned; otherwise exactly one user refresh of the selected sub-account follows and its outcome is returned |
| `UserDriftStore.DriftStore.Deposit` | src/app/store/userdriftstore.ts:148-159 | without a client rejects before any call; otherwise one deposit of the spot-precision amount with the selected market and sub-account, then exactly one user refresh if it succeeded |
| `UserDriftStore.DriftStore.Withdraw` | src/app/store/userdriftstore.ts:161-167 | without a client rejects before any call; otherwise one withdrawal with the selected market and no sub-account id, then exactly one user refresh if it succeeded |
| `UserDriftStore.DriftStore.PlaceAuctionMarketOrder` | src/app/store/userdriftstore.ts:170-177 | without a client rejects before any call; otherwise submits the auction-market record once, then exactly one user refresh if it succeeded |
| `UserDriftStore.DriftStore.PlaceLimitOrder` | src/app/store/userdriftstore.ts:179-185 | without a client rejects before any call; otherwise submits the limit record once, then exactly one user refresh if it succeeded |
| `UserDriftStore.DriftStore.PlaceOracleOffsetOrder` | src/app/store/userdriftstore.ts:187-193 | without a client rejects before any call; otherwise submits the oracle-offset record once, then exactly one user refresh if it succeeded |
| `PerpOrderPanel.SubmitRequest` | src/app/components/PerpOrderPanel.tsx:59-132 | a size that is 0, NaN or negative is rejected; then, per order type, the submission is accepted if and only if its price fields are neither 0 nor NaN; an unknown type is rejected; an accepted submission names the one action of its type with the store's market, the form's direction and the parsed values |
| `PerpOrderPanel.NegativeLimitPriceAccepted` | src/app/components/PerpOrderPanel.tsx:73-74 | a negative limit price passes the price check |
| `PerpOrderPanel.ClearedSizeIsRejected` | src/app/components/PerpOrderPanel.tsx:62-66 | a form whose size was cleared is rejected for its size |
| `PerpOrderPanel.PerpOrderForm.constructor` | src/app/components/PerpOrderPanel.tsx:30-41 | the form starts as an auction-market order, long, with every text field empty |
| `PerpOrderPanel.PerpOrderForm.HandleSubmit` | src/app/components/PerpOrderPanel.tsx:59-141 | a rejected form calls no store action; an accepted one submits exactly the record of its type through the store; only the size is cleared and only on success |
| `DepositWithdraw.ClearedAmountIsIgnored` | src/app/components/DepositWithdraw.tsx:28-29 | a cleared amount field is never acted on |
| `DepositWithdraw.DepositWithdrawForm.constructor` | src/app/components/DepositWithdraw.tsx:14-17 | the form starts with no amount, market 1, not loading, deposit mode |
| `DepositWithdraw.DepositWithdrawForm.HandleSubmit` | src/app/components/DepositWithdraw.tsx:25-46 | a NaN or non-positive amount returns without touching loading or the store; otherwise the store's market becomes the form's and stays so, only the mode's action runs, the amount is cleared only on success and loading ends cleared |
| `SubaccountSidebar.NextSubaccountId` | src/app/components/SubaccountSidebar.tsx:14-15 | the next id is the number of loaded sub-accounts, 0 without a client |
| `SubaccountSidebar.CanAdd` | src/app/components/SubaccountSidebar.tsx:10-16 | true if and only if fewer than 8 sub-accounts are loaded, so the offered id is below 8 |
| `SubaccountSidebar.CreateDisabled` | src/app/components/SubaccountSidebar.tsx:85 | the button is disabled exactly while loading or at the cap; when enabled the offered id is below 8 |
| `SubaccountSidebar.NextIdIsFresh` | src/app/components/SubaccountSidebar.tsx:14-15 | assuming the loaded ids are 0 .. n-1 (the dialog does not check this), the offered id is new and creating it keeps them consecutive |
| `SubaccountSidebar.SubaccountModal.constructor` | src/app/components/SubaccountSidebar.tsx:18-19 | the dialog starts not loading and with no error, open as its prop says |
| `SubaccountSidebar.SubaccountModal.HandleCreate` | src/app/components/SubaccountSidebar.tsx:21-38 | without a client or wallet only sets the error; otherwise initialises the next id whatever the count, then refreshes the user, then closes; on failure shows the message and stays open; loading ends cleared |

## Left out

- Rendering, styling, toasts and console logging in every component; the modal's `open` prop is a field that `onClose` clears.
- Asynchronous interleaving: each operation runs to completion, so races between overlapping refreshes and selection changes made while an operation is suspended are not modelled.
- The polling timer itself: `PollTick` is one tick, and `polling` is a flag. A second `initClient` would start a second timer; the flag does not count timers.
- Floating point: numbers are exact reals. The oracle price is the raw integer divided by 1e6 exactly, without rounding.
- `PerpOrder.PlaceOracleOffsetPerpOrder`: does not model that `.toNumber()` on the converted offset throws once its magnitude exceeds 2^53 (src/app/lib/perporder.ts:87-89); the offset field is an unbounded integer.
- `JsNumber.Number`, `JsNumber.ParseFloat`: plain decimal notation only; no whitespace trimming, exponents, hexadecimal, `Infinity` or negative zero.
- The SDK's precision conversions, `placePerpOrder`'s returned value, account subscription and the associated-token-account lookup: the conversions are uninterpreted functions and each mutating call is reduced to its outcome.
- The prefilled prices of the order form (derived from the oracle price by float multiplication) and the form's setters other than the submit handlers.
- `src/app/lib/driftclient.ts` is used only as the contract of the venue calls; `usePythPrice.ts`, `driftinitialiser.tsx`, `SubaccountSelector.tsx`, `format.ts`, `FirstDeposit.tsx`, `InputWalletData.tsx`, `SubaccountDetails.tsx`, `WalletContextProvider.tsx` and `page.tsx` are not part of this model.
