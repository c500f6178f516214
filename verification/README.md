# Verified model of the L402 payment engine

This project models the part of the SDK that decides whether money may move:
the budget tracker, the pay-once protocol of the client that drives it, the
decoders that say how much an invoice asks for, the wallet adapters, the mock
server and wallet, and the two token stores. `dafny verify dfyconfig.toml`
checks all of it.

## How it is organised

| file | what it holds |
|---|---|
| `Numbers.dfy`, `Sums.dfy`, `Text.dfy` | 64-bit arithmetic (saturating, checked), sums over lists and maps, ASCII text |
| `BudgetModel.dfy` | one reservation, release or settlement as a function on a tracker value |
| `BudgetTracker.dfy` | the ledgers and the tracker as classes updated in place, proved equal to those functions |
| `BudgetSpec.dfy` | what a budget promises, written over its own fields and the full log |
| `BudgetRuns.dfy`, `BudgetInvariant.dfy`, `BudgetTheorems.dfy` | every sequence of tracker calls, what each call keeps, and what follows for all runs |
| `PaymentModel.dfy`, `PaymentInvariant.dfy`, `PaymentTheorems.dfy` | `pay_challenge` as atomic steps of any number of tasks with an adversarial wallet, its invariant, and the theorems |
| `ClientTasks.dfy` | the client class: one method for each lock-holding stretch of code, proved to be one step of the model |
| `Bolt11.dfy`, `Challenge.dfy`, `Token.dfy` | the invoice amount, the challenge header and the token header: parsers, printers, exactness |
| `WalletAdapters.dfy`, `HonestWallet.dfy` | what LND and CLN answers become, and the money bound they give |
| `MockBackend.dfy`, `MockRuns.dfy` | the mock invoice writer and wallet, and runs of a client against its own mock |
| `TokenCache.dfy`, `TokenRetention.dfy` | the in-memory token store as one ordered list; `persist_token` in all interleavings |

A run is a list of events, and theorems quantify over all of them. The clock is
an argument of the events that read it. A wallet may answer anything, or never.
Reservations are linear tokens: a task can settle, release or drop one only
while it holds it, and the proofs show that the source's assertion "live
reservation" then always holds.

## What the proofs brought to light

- `decode_bolt11_amount` is exact against BOLT #11 ("Human-Readable Part") if
  and only if the digits themselves fit 64 bits. For the multiplier `p` they may
  not fit although the amount does; such an invoice is refused
  (`Bolt11.DecodeExact`, `Bolt11.LargePicoAmountRefused`).
- The source reads the clock before it takes the lock, so two callers can be
  ordered against their readings. A limit on hours or days is then missed by at
  most what is reserved or settled late, at a reading in an hour (or day) that was
  already over (`BudgetTheorems.WindowOverspendIsBounded`), and it can be missed by
  that much (`BudgetTheorems.LateBoundIsReached`). Steps back within the hour do no
  harm, and the total cap does not depend on the clock.
- What the tracker has pruned does not matter until some settlement is more than
  48 hours (for daily caps, 2 days) later than the reading in question
  (`BudgetTheorems.PruningIsInvisible`); beyond that it does
  (`BudgetTheorems.PruningShowsBeyond`).
- `persist_token` drops the retained token if it is still equal to the one that
  was stored. A task that is overtaken, between its put and its check, by a
  rejection and by a second task that retains the same token, drops the second
  one's copy. `TokenRetention.SafeIffNotOvertaken` says that this order of events
  is the only way, `TokenRetention.FreshTokensAreSafe` that a server which never
  issues a token twice rules it out, and `TokenRetention.StaleDropHappens` that it
  can happen.
- A rejection first forgets the token in memory and then waits for the store to
  remove its own. A put of another task that returns in between is removed with
  it (`TokenRetention.LateRemovalHappens`). And a slow put of a token can return
  after that token was rejected, and overwrite the one that was paid for since
  (`TokenRetention.LatePutHappens`). `TokenRetention.HeldIffNotLost` says exactly in
  which orders of events a proof taken in since the last rejection is then nowhere;
  if requests for a URL take turns, in none (`TokenRetention.TurnsKeepTheProof`).
- When LND writes only whole sats, rounded down, an honest payment of an invoice
  that asks for a fraction of a sat is taken for a violation, and freezes the
  tracker (`HonestWallet.WholeSatsFreeze`).
- The in-memory store calls its policy LRU. It evicts by the most recent *put*;
  reading an entry does not renew it (`TokenCache.ReadingDoesNotRenew`). Capacity 0
  holds one entry (`TokenCache.CapacityZeroHoldsOne`).
- Of the invoices that decode, `from_header` accepts only those with a lower-case
  network prefix, while the decoder and the payment key ignore letter case
  (`Challenge.HeaderNeedsLowerCase`).
- The mock writer's comment says that its data part avoids `1`, `b`, `i` and `o`;
  it starts with `mock`, and a hash may bring a `b`. What the decoder needs is
  that it has no `1`, and it has none (`MockBackend.WrittenInvoiceDecodes`).
- `check_and_record` takes its lock twice, once to reserve and once to settle. No
  call that comes between can make the settlement fail
  (`BudgetTheorems.CheckAndRecordCommits`).

## Model

| member | source | states |
|---|---|---|
| `BudgetModel.AllowanceIsGreatest` | crates/l402-core/src/budget.rs:97-116 | an amount is allowed iff it breaks no cap in exact integers, and the allowance is the largest extra that still breaks none |
| `BudgetTracker.Ledger.AllowanceFor` | crates/l402-core/src/budget.rs:76-117 | the loop over the five caps, with its early exit, computes that allowance |
| `BudgetTracker.Ledger.RecordPayment` | crates/l402-core/src/budget.rs:119-130 | recording updates total and both buckets and prunes, as the ledger function says |
| `BudgetTracker.Tracker.SumPending` | crates/l402-core/src/budget.rs:187-198 | the unchecked sum of reservations is exact in any iteration order and fits 64 bits |
| `BudgetTracker.Tracker.DecideFee` | crates/l402-core/src/budget.rs:187-201 | the fee is cut to the global allowance and to that of the domain, if it has one |
| `BudgetTracker.Tracker.ReserveAt` | crates/l402-core/src/budget.rs:173-216 | a reservation refines the tracker function: result and whole new state, refusals unchanged |
| `BudgetTracker.Tracker.Release` | crates/l402-core/src/budget.rs:219-225 | releasing removes exactly that reservation |
| `BudgetTracker.Tracker.RecordInDomain` | crates/l402-core/src/budget.rs:253-257 | only the ledger of that domain changes, and it is created by its first payment |
| `BudgetTracker.Tracker.SettleAt` | crates/l402-core/src/budget.rs:241-265 | a settlement charges both ledgers, ends the reservation, and freezes on a violation |
| `BudgetTracker.Tracker.CheckAndRecord` | crates/l402-core/src/budget.rs:271-278 | all or nothing: an error leaves the tracker as it was, success moves the amount into the ledgers, and it never freezes |
| `BudgetTracker.Tracker.TotalSpentNow` | crates/l402-core/src/budget.rs:283-291 | the saturating fold gives min(2^64-1, settled + reserved) in any iteration order |
| `BudgetInvariant.StepKeeps` | crates/l402-core/src/budget.rs:164-265 | every call on the tracker keeps the invariant of all runs |
| `BudgetTheorems.WindowLimitsSurviveRollover` | crates/l402-core/src/budget.rs:76-130 | without overspend, and if nothing was reserved or settled late, no hour or day is ever over the budget's hourly or daily limit, nor over that of any of its domains, whenever the money was reserved |
| `BudgetTheorems.InOrderIsNotLate` | crates/l402-core/src/budget.rs:148-153 | nothing is late if no reading takes the hour (or day) back |
| `BudgetTheorems.WindowOverspendIsBounded` | crates/l402-core/src/budget.rs:241-265 | in every run, whatever the clock shows, an hour or day exceeds its cap by at most the excess over reservations plus what was reserved or settled late, in the log and in the tracker's own buckets |
| `BudgetTheorems.LateBoundIsReached` | crates/l402-core/src/budget.rs:148-153 | for any two readings in different hours (or days) there is a run, without overspend, that ends an hour (or day) over its cap by exactly what came late; the same run keeps the cap if they agree |
| `BudgetTheorems.OverspendIsBounded` | crates/l402-core/src/budget.rs:180-265 | in every state, frozen or not, settled plus reserved is within the total limit, of the budget and of each of its domains, plus the excess over reservations |
| `BudgetTheorems.FrozenIffViolated` | crates/l402-core/src/budget.rs:258-264 | the tracker is frozen iff some settlement violated its authorization |
| `BudgetTheorems.FrozenForGood` | crates/l402-core/src/budget.rs:180-186 | after that nothing is ever reserved again |
| `BudgetTheorems.SettlementsAreCharged` | crates/l402-core/src/budget.rs:241-265 | a settlement is accepted iff it kept to its authorization, and charged to the global ledger and that of its domain, and to no other, in any case |
| `BudgetTheorems.PruningIsInvisible` | crates/l402-core/src/budget.rs:119-130 | in every run, whatever the clock did, every line of the table of caps, and so every allowance, is that of the full log, unless the account settled something more than 48 hours after the reading |
| `BudgetTheorems.PruningShowsBeyond` | crates/l402-core/src/budget.rs:125-129 | for any two readings more than 48 hours (or 2 days) apart there is a run in which an amount is granted that the full log has no room for |
| `BudgetTheorems.BucketsAreFew` | crates/l402-core/src/budget.rs:125-129 | at most 49 hours and 3 days are kept of an account whose last settlement is in its latest hour (or day) |
| `BudgetTheorems.InOrderLastIsLatest` | crates/l402-core/src/budget.rs:125-129 | which it is if no reading takes the hour (or day) back |
| `BudgetTheorems.ReserveIsExactAndGreedy` | crates/l402-core/src/budget.rs:173-216 | from any reachable unfrozen state, unless an hour or day that is capped has been pruned, a reservation is granted iff an id is left and the amount fits, in exact integers over the full log, the budget's four limits, the four of its domain if that has any, and 64 bits; the fee is the largest that fits; exactly what was granted is held, and a refusal changes nothing |
| `BudgetTheorems.FrozenRefuses` | crates/l402-core/src/budget.rs:180-186 | a frozen tracker refuses every reservation and stays as it is |
| `BudgetTheorems.AccountingNeverOverflows` | crates/l402-core/src/budget.rs:103-114 | whatever the clock does, reservations always fit 64 bits; before the first violation every account's total is exact, and its total and each hour and day, with its reservations, fit 64 bits; live ids are below the next one; `total_spent` is the exact sum, saturated |
| `BudgetTheorems.IdsAreNeverReused` | crates/l402-core/src/budget.rs:202-208 | the next id never decreases along a run, so no id is handed out twice |
| `BudgetTheorems.CheckAndRecordCommits` | crates/l402-core/src/budget.rs:271-278 | once the reservation is granted, the settlement charges exactly the amount and freezes nothing, whatever other callers do in between |
| `BudgetTheorems.DomainsOnlyTighten` | crates/l402-core/src/budget.rs:187-211 | domain totals add up to no more than the global one; until a violation each budgeted domain and the whole are within their caps |
| `PaymentInvariant.StepKeeps` | crates/l402-core/src/client.rs:375-464 | every atomic step of every task keeps the invariant that links calls, reservations, payments map, receipts and ledger |
| `PaymentTheorems.PayOnce` | crates/l402-core/src/client.rs:385-426 | an invoice, in any letter case, goes to the wallet again only after every earlier attempt was confirmed to have moved no money |
| `Text.LowerIsCaseBlind` | crates/l402-core/src/client.rs:385-387 | two invoices have the same key iff they differ at most in the case of their letters |
| `PaymentTheorems.ClaimsAreRefused` | crates/l402-core/src/client.rs:388-399 | no call is started for a known invoice, without fee caps, or once frozen |
| `PaymentTheorems.ClaimsAreExactAndGreedy` | crates/l402-core/src/client.rs:388-403 | otherwise a call for exactly this invoice, amount, domain and URL is started iff an id is left and the amount fits every limit, and it may spend the largest fee up to the configured one that fits |
| `PaymentTheorems.OneReceiptPerInvoice` | crates/l402-core/src/client.rs:428-442 | an invoice leaves at most one receipt, ever |
| `PaymentTheorems.HistoryIsFinal` | crates/l402-core/src/client.rs:404-461 | what a call was for never changes, and the wallet's answer to it is final |
| `PaymentTheorems.ReceiptsAreKept` | crates/l402-core/src/client.rs:330-336 | receipts keep their place and, but for the response status, their contents |
| `PaymentTheorems.StatusesAreRecorded` | crates/l402-core/src/client.rs:330-336 | a receipt shows the status last recorded for its payment, and 0 until one is |
| `PaymentTheorems.PaymentsAreHandedBack` | crates/l402-core/src/client.rs:385-463 | the payment of a known invoice, or one that was just published, is handed back to the caller |
| `PaymentTheorems.ReservationsBelongToUnresolvedCalls` | crates/l402-core/src/client.rs:386-426 | open reservations are exactly those of unresolved calls, one each, and the map holds `None` for their invoices, all different |
| `PaymentTheorems.LookupsNeverFail` | crates/l402-core/src/budget.rs:249-252 | a running task's reservation is always live, and the receipt index of a returned payment is always in range |
| `PaymentTheorems.KnownPaymentsHaveTheirReceipt` | crates/l402-core/src/client.rs:456-461 | whatever is returned or shown as settled is within its authorization and has a receipt with its amounts, hash and preimage |
| `PaymentTheorems.ShownPaymentIsForItsInvoice` | crates/l402-core/src/client.rs:456-461 | the payment shown for an invoice was made by a call for that invoice, and two invoices never share a receipt index |
| `PaymentTheorems.CallsLeaveTheirMark` | crates/l402-core/src/client.rs:404-461 | in any interleaving, the map, the receipts, the reservations and the freeze show of each call exactly what its own progress says |
| `PaymentTheorems.InterleavingIsInvisible` | crates/l402-core/src/client.rs:375-464 | how far a call gets, and with what verdict, depends on its own events alone, whatever other tasks do between them |
| `PaymentTheorems.LedgerMatchesReceipts` | crates/l402-core/src/receipt.rs:62-65 | unless a task is between receipt and settlement, the tracker's total is the saturated cost of all receipts; `total_spent` adds exactly the unresolved calls |
| `PaymentTheorems.FreezeStopsPayments` | crates/l402-core/src/client.rs:443-455 | the tracker is frozen iff some wallet broke an authorization, and then no invoice is submitted any more |
| `PaymentTheorems.ClientRefinesTracker` | crates/l402-core/src/client.rs:394-455 | every run of the client is a run of the tracker, so all tracker theorems hold for it |
| `PaymentTheorems.ClientOverspendIsBounded` | crates/l402-core/src/client.rs:443-455 | paid and unresolved calls together are within the total cap plus the excess over reservations |
| `ClientTasks.L402Client.Claim` | crates/l402-core/src/client.rs:385-403 | checking, reserving and claiming under the payments lock is the claiming step, with its answer |
| `ClientTasks.L402Client.PushReceipt` | crates/l402-core/src/client.rs:428-442 | the receipt is appended and its index returned |
| `ClientTasks.L402Client.SettlePayment` | crates/l402-core/src/client.rs:443-455 | the charge refines the settling step on a live reservation, and freezes exactly when it is refused |
| `ClientTasks.L402Client.Publish` | crates/l402-core/src/client.rs:456-459 | the payment becomes known under its key |
| `ClientTasks.L402Client.FinishPaid` | crates/l402-core/src/client.rs:428-461 | after a successful payment: a receipt always, an error and a freeze iff the authorization was broken, else the payment is known |
| `ClientTasks.L402Client.FinishRefused` | crates/l402-core/src/client.rs:413-423 | after a confirmed rejection: reservation and claim are gone and nothing else changed |
| `ClientTasks.L402Client.PayChallenge` | crates/l402-core/src/client.rs:375-464 | the whole call without interleaving: a known invoice is not paid again; `PaymentRejected` and `FeeLimitUnsupported`, and no other error, leave everything but the id counter as it was; every other failure keeps claim and reservation; a payment is receipted, and known iff it kept to the amount and the fee, else it freezes |
| `ClientTasks.ClaimsCanFinish` | crates/l402-core/src/client.rs:404-461 | in every reachable state a task that claims finds what it needs in each later step, whatever the wallet answers |
| `ClientTasks.PayingKeeps` | crates/l402-core/src/client.rs:375-464 | the state such a call leaves meets the invariant of all runs again |
| `ClientTasks.ClaimsAnswerForTheirInvoice` | crates/l402-core/src/client.rs:388-390 | a claim of a known invoice is answered with the payment that was made for that invoice |
| `ClientTasks.L402Client.RecordStatus` | crates/l402-core/src/client.rs:330-336 | the status is written into the receipt the index names |
| `ClientTasks.L402Client.RetainToken` | crates/l402-core/src/client.rs:357-361 | the proof is in memory before the first await |
| `ClientTasks.L402Client.ConfirmStored` | crates/l402-core/src/client.rs:366-371 | the retained token is dropped only if it is still the one that was stored |
| `HonestWallet.HonestIsNoViolation` | crates/l402-core/src/client.rs:443-446 | rounding up both parts of an honest payment never looks like a violation, and charges less than two sats too much |
| `HonestWallet.HonestWalletNeverFreezes` | crates/l402-core/src/client.rs:443-455 | with a wallet that pays the invoice and a fee within the cap, no payment is flagged and the tracker never freezes |
| `HonestWallet.RealSpendingIsBounded` | docs/design/070-payment-policy.md:32-54 | all millisatoshis that left the wallet, paid, in flight or lost track of, are at most 1000 times the total cap |
| `HonestWallet.ClnReportsHonestly` | crates/l402-cln/src/rest.rs:272-292 | the CLN adapter reports such a payment honestly, with its saturating cap and its rounding |
| `HonestWallet.LndReportsHonestly` | crates/l402-lnd/src/rest.rs:214-239 | the LND adapter, with either spelling of its fields, reports such a payment honestly iff amount and fee are written in millisatoshis or are whole sats |
| `HonestWallet.WholeSatsFreeze` | crates/l402-lnd/src/rest.rs:214-239 | otherwise, if the amount is a fraction of a sat and only whole sats are written, settling the honest payment freezes the tracker |
| `WalletAdapters.ScanBackward` | crates/l402-lnd/src/rest.rs:375-413 | the scan yields the last update that succeeded if all lines after it parse, an error at a garbled line, and the last update otherwise |
| `WalletAdapters.PayWithLnd` | crates/l402-lnd/src/rest.rs:355-451 | an error that releases money iff every line parsed, none succeeded and the last one failed; the last update that succeeded, if all after it parse, is reported with its own preimage, hash and amounts iff its preimage hashes to its hash; each other error exactly where the source has it |
| `WalletAdapters.ClnReportsItsAnswer` | crates/l402-cln/src/rest.rs:239-294 | a payment iff the answer is complete, with its own preimage and hash, its amount, and what was sent beyond it as the fee; an error that releases money iff the status is `failed` |
| `WalletAdapters.MaxFeeMsat` | crates/l402-cln/src/rest.rs:239-243 | the fee cap handed to the node is a thousandfold, as far as that fits 64 bits |
| `Bolt11.DecodeExact` | crates/l402-proto/src/bolt11.rs:104-220 | an invoice with digits decodes to an amount iff that is positive, denoted to the last millisatoshi, and the digits fit 64 bits, and to an error otherwise; for every network, multiplier and letter case |
| `Bolt11.DecodeOnlyWritten` | crates/l402-proto/src/bolt11.rs:104-176 | only an invoice of that form decodes to an amount, only one without digits to none, and every other is an invalid invoice |
| `Bolt11.DecodeWritten` | crates/l402-proto/src/bolt11.rs:179-197 | decoding undoes the decimal writing of every number |
| `Bolt11.DecodeAmountless` | crates/l402-proto/src/bolt11.rs:104-176 | an invoice without digits has no amount |
| `Bolt11.LargePicoAmountRefused` | crates/l402-proto/src/bolt11.rs:179-215 | an amount that fits 64 bits is refused because its pico digits do not |
| `Bolt11.OnlyPicoDigitsOverflow` | crates/l402-proto/src/bolt11.rs:191-215 | for every other multiplier the digits fit whenever the amount does, so only pico amounts are refused that way |
| `Bolt11.SatoshisCover` | crates/l402-proto/src/bolt11.rs:61-72 | rounding up gives the least whole number of sats that covers the invoice, at most one above rounding down |
| `Challenge.PiecesOfJoin` | crates/l402-proto/src/challenge.rs:130-158 | splitting at unquoted commas finds exactly the pieces that were joined |
| `Challenge.JoinOfPieces` | crates/l402-proto/src/challenge.rs:130-158 | joining the pieces of any text gives it back |
| `Challenge.ParseParams` | crates/l402-proto/src/challenge.rs:130-158 | the one-pass reader with its quote flag computes those pieces, trimmed, without empty ones |
| `Challenge.ReadHeader` | crates/l402-proto/src/challenge.rs:61-127 | the assignment loop reads a header as the pure reader does, and fails on the first part that is not key=value |
| `Challenge.FromHeaderMeans` | crates/l402-proto/src/challenge.rs:61-127 | the reader gives the last macaroon, invoice and address of the parameters, and each error exactly if a scheme, an equals sign or a parameter is missing, the last macaroon is not base64, or the last invoice has no accepted prefix |
| `Challenge.ParamsExact` | crates/l402-proto/src/challenge.rs:130-158 | blank pieces are skipped, all others kept in order and trimmed |
| `Challenge.ParseKvExact` | crates/l402-proto/src/challenge.rs:161-170 | a parameter is cut at its first equals sign into a trimmed lower-case key and a value without the quotes around it, or has no equals sign |
| `Challenge.ParametersRoundTrip` | crates/l402-proto/src/challenge.rs:130-170 | every printed list of quote-free values, commas and equals signs included, is read back exactly |
| `Challenge.HeaderRoundTrip` | crates/l402-proto/src/challenge.rs:61-127 | a printed header, in either scheme, means what its last macaroon, invoice and address say, wherever they stand in the list |
| `Challenge.HeaderNeedsLowerCase` | crates/l402-proto/src/challenge.rs:110-120 | of the invoices that decode, exactly those with a lower-case network prefix are accepted |
| `Token.HeaderRoundTrip` | crates/l402-proto/src/token.rs:36-81 | a token survives its own header, written in the scheme L402, iff both parts are non-empty, the macaroon has no colon and the preimage no white space at its end |
| `Token.HeaderReads` | crates/l402-proto/src/token.rs:45-81 | a header reads as a token iff, trimmed, it presents that token in one of the two schemes |
| `MockBackend.WrittenInvoiceDecodes` | crates/l402-mock/src/challenge.rs:50-61 | a generated invoice decodes to exactly 1000 times its price, and to nothing else |
| `MockBackend.ChallengeRoundTrip` | crates/l402-mock/src/challenge.rs:73-78 | a generated challenge is read back from its own header |
| `MockBackend.MockLnBackend.PayInvoice` | crates/l402-mock/src/backend.rs:45-77 | a known invoice that the balance covers is paid with its own preimage, hash and amount, which leaves the balance; any other is rejected and costs nothing |
| `MockRuns.MockNeverFreezes` | crates/l402-mock/src/backend.rs:45-77 | a client on its own mock never freezes |
| `MockRuns.MoneyIsConserved` | crates/l402-mock/src/backend.rs:59-76 | between polls, and as long as nobody resets it, the wallet's balance and what the client has settled add up to the initial balance |
| `TokenCache.InMemoryTokenStore.PutToken` | crates/l402-core/src/cache.rs:47-71 | map and order vector stay one ordered list; a put moves its endpoint to the end and may evict the front |
| `TokenCache.InMemoryTokenStore.Get` | crates/l402-core/src/cache.rs:73-76 | a lookup in the map is a lookup in the list |
| `TokenCache.InMemoryTokenStore.Remove` | crates/l402-core/src/cache.rs:78-83 | removing drops the endpoint from both |
| `TokenCache.TraceIsSound` | crates/l402-core/src/cache.rs:47-90 | over any trace endpoints are distinct, at most max(1, capacity) are held, and a lookup yields the latest put or nothing |
| `TokenCache.ReadingDoesNotRenew` | crates/l402-core/src/cache.rs:50-57 | a full store evicts the endpoint put longest ago, even if it was read just before |
| `TokenCache.CapacityZeroHoldsOne` | crates/l402-core/src/cache.rs:50-57 | a store of capacity 0 holds exactly the entry put last |
| `TokenCache.PutsKeepNewest` | crates/l402-core/src/cache.rs:47-71 | after puts only, exactly the last max(1, capacity) distinct endpoints are held, each with its latest put |
| `TokenRetention.ProofIsNeverDropped` | crates/l402-core/src/client.rs:356-373 | in every order of events, a proof taken in since the last rejection is in memory unless a put of that very token has returned at some time, before that rejection or after it |
| `TokenRetention.SafeIffNotOvertaken` | crates/l402-core/src/client.rs:356-373 | throughout a run, a proof taken in since the last rejection is in memory or a put has returned since then (for the URL, or for that very token), iff no task is overtaken by a rejection and a second retaining of its token between its put and its check |
| `TokenRetention.FreshTokensAreSafe` | crates/l402-core/src/client.rs:356-373 | if no token is issued twice for a URL, that always holds |
| `TokenRetention.HeldIffNotLost` | crates/l402-core/src/client.rs:250-284 | at any point of any run, memory or the store has a token that was taken in since the last rejection, if any was, iff it is not so that the task that stored the last one has confirmed, the store has removed what it had or had it overwritten by the late put of a rejected token, and nothing still good was put since |
| `TokenRetention.TurnsKeepTheProof` | crates/l402-core/src/client.rs:250-284 | a caller's way to that: if requests for a URL take turns, memory or the store has such a token at every point |
| `TokenRetention.StaleDropHappens` | crates/l402-core/src/client.rs:366-371 | for every URL and token, a run in which an overtaken check leaves the proof nowhere |
| `TokenRetention.LateRemovalHappens` | crates/l402-core/src/client.rs:274-284 | for every URL and token, a run in which a removal that lands after another task's put leaves its proof nowhere, although no token was issued twice |
| `TokenRetention.LatePutHappens` | crates/l402-core/src/client.rs:356-373 | for every URL and any two tokens, a run in which the late put of the rejected one overwrites the other, which is then nowhere, although no token was issued twice |

## Left out

- HTTP, TLS, redirects, JSON and gRPC: a response or a wallet's answer is an arbitrary value.
- SHA-256, hex and base64: parameters of the functions that use them; nothing is assumed of them.
- Clocks, latencies and receipt timestamps: `now` is an argument, the rest is not modelled.
- Error texts, logging and `Debug` output: errors are constructors.
- Unicode: letter case and white space are those of ASCII.
- Nested domain budgets inside a domain budget: the tracker never reads them.
- `Budget::check` and the time-reading wrappers of the tracker: each is one line over what is modelled.
- Lock poisoning and memory exhaustion.
- The SQLite store, the SwissKnife and NWC adapters, the language bindings, the server side and the tools.
- `request` as a whole: its token lookup, its retry and its status update appear as the events of TokenRetention.dfy and PaymentModel.dfy, in any order, which allows more than the code does.
- The asynchronous runtime: tasks interleave between lock-holding stretches, each of which is one step; the claim, which holds the payments lock while it takes the tracker's, is one step too.
- Mock prices for which the writer's own multiplication by ten overflows: the writer panics or wraps depending on the build, so the model starts where it does not.
- BudgetTracker.Tracker.SettleAt: requires a live reservation where the source would panic; PaymentTheorems.LookupsNeverFail shows that the client always has one.
- BudgetTracker.Tracker.CheckAndRecord: states the outcome when no other caller comes between its two lock acquisitions; BudgetTheorems.CheckAndRecordCommits states it for any calls between them.
- ClientTasks.L402Client.PayChallenge: states the outcome when no other task comes between its steps; PaymentTheorems.InterleavingIsInvisible and PaymentTheorems.CallsLeaveTheirMark state it for any interleaving.
- TokenRetention.ProofIsNeverDropped: counts a put from before the last rejection too; TokenRetention.SafeIffNotOvertaken is the exact condition without those.
- TokenRetention.HeldIffNotLost: is about a store that forgets only what it is asked to remove; a store that evicts on its own is TokenCache.dfy.
- TokenRetention.TurnsKeepTheProof: is about the same kind of store.
