# Renewable-energy-certificate ledger, modelled in Dafny

The repository describes a renewable-energy-certificate (REC) economy as three
contracts, each a small state machine driven by one call at a time:

- the **certificate contract** (`certificate.dfy`, module `CertificateLedger`):
  a certificate counter, issued certificates, and a balance per account; only
  the identity `CONTRACT_OWNER` issues certificates, and holders transfer
  balance to each other;
- the **generation contract** (`generation.dfy`, module `GenerationRegistry`):
  producers register themselves, and a producer's owner records generation
  events that add to the producer's running `total-generation`;
- the **trading contract** (`trading.dfy`, module `Marketplace`): sellers list
  a quantity at a price per unit, cancel their own active listings, and
  buyers take part or all of an active listing, which closes itself when
  nothing is left.

Each contract is a state record (counters and typed maps) plus one total
transition function per method. The caller identity is an explicit parameter,
and so is the block height that `record-generation` stamps on its event. Each
method that writes returns a `Step`: a `Result` (`Ok(value)` or `Err(error)`,
one error constructor per message the contract returns) together with the
next state. A method that only reads returns a bare `Result`.
A per-contract `Call` dispatches on an `Op` datatype, including an `Unknown`
method that fails with `MethodNotFound`. `Run` applies a sequence of calls.

Shared modules: `outcome.dfy` (`Option`, `Result`, `Error`, `Step`, and the
`Dense` invariant that a store holds exactly the ids 1..counter, and the
`Account` type of caller identities) and
`balances.dfy` (balances where a missing account reads as 0, and the ghost
`Total` of all balances with its update lemma).

What is proved:

- Each method's contract gives its success condition as an if-and-only-if.
  It also gives the error it reports, that a failure changes nothing, the id
  it hands out (old counter + 1), the record it stores, and that nothing else
  changes.
- Every contract has a `Valid` invariant that every call and every run of
  calls preserve. Ids are dense, so a new id never overwrites a record.
  - Certificates: the sum of all balances equals the sum of all issued
    amounts.
  - Generation: every event names a registered producer, and each producer's
    `total-generation` is the sum of its events.
  - Trading: remaining amounts are never negative, and an active listing has
    something left.
- Certificates: a transfer conserves the sum of all balances, whether it
  succeeds or not. Calls without issuance leave the supply and the
  certificates alone. With non-negative amounts, no balance goes negative.
- Generation: a producer's owner and energy type never change, and events
  are immutable. With non-negative amounts, totals never decrease.
- Trading: seller and price never change. An inactive listing is frozen for
  good. Buying the whole remainder closes a listing. A cancelled listing
  cannot be cancelled again.
- The contracts' own example scenarios, as lemmas about concrete calls.

## Model

| member | source | states |
|---|---|---|
| Balances.BalanceOf | tests/certificate-contract.test.ts:29 | an account with no stored balance reads as 0; otherwise the stored balance is read |
| Balances.Credit | tests/certificate-contract.test.ts:25 | crediting an account changes its balance (missing reads as 0) by exactly the delta and no other account's balance |
| Balances.TotalCredit | tests/certificate-contract.test.ts:25-34 | crediting one account moves the sum of all balances by exactly the delta |
| CertificateLedger.IssueCertificate | tests/certificate-contract.test.ts:14-26 | succeeds iff the caller is `CONTRACT_OWNER`; otherwise `NotAuthorized` with no state change; on success returns old counter + 1, stores `{owner: producer, amount, is-retired: false}` under it, keeps every other certificate, credits the producer by `amount` and no one else |
| CertificateLedger.Transfer | tests/certificate-contract.test.ts:27-35 | fails with `InsufficientBalance` iff the sender's balance is below the amount, changing nothing; on success debits the sender and credits a distinct recipient by the amount; a self-transfer leaves the balance as it was; third parties, certificates and the counter never change |
| CertificateLedger.GetBalance | tests/certificate-contract.test.ts:36-37 | never fails; a never-credited account reads 0; non-negative when all balances are |
| CertificateLedger.GetCertificate | tests/certificate-contract.test.ts:38-39 | never fails; returns the stored certificate or `None`, and under the invariant `Some` exactly for ids 1..counter |
| CertificateLedger.Call | tests/certificate-contract.test.ts:12-43 | a failed call and a read change nothing; an unknown method fails with `MethodNotFound`; only issuance touches certificates or the counter, which moves by at most one |
| CertificateLedger.IssuePreservesValid | tests/certificate-contract.test.ts:19-25 | issuance keeps ids dense and the sum of balances equal to the issued total; a successful issue raises the sum of balances by exactly `amount` |
| CertificateLedger.TransferConservesTotal | tests/certificate-contract.test.ts:29-34 | a transfer leaves the sum of all balances unchanged |
| CertificateLedger.CallPreservesValid | tests/certificate-contract.test.ts:12-43 | every call keeps certificate ids dense and the supply equal to the issued total |
| CertificateLedger.CallPreservesNonNegative | tests/certificate-contract.test.ts:25-34 | with non-negative amounts no call makes any balance negative |
| CertificateLedger.RunPreservesValid | tests/certificate-contract.test.ts:12-43 | any sequence of calls keeps the invariant |
| CertificateLedger.RunPreservesNonNegative | tests/certificate-contract.test.ts:25-34 | any sequence of calls with non-negative amounts keeps every balance non-negative |
| CertificateLedger.RunWithoutIssueConserves | tests/certificate-contract.test.ts:27-39 | a sequence of calls without issuance keeps the sum of balances, the certificates and the counter unchanged |
| CertificateLedger.RunNonceMonotone | tests/certificate-contract.test.ts:19 | the certificate counter never decreases over any run, so ids are not reused |
| CertificateLedger.InitialValid | tests/certificate-contract.test.ts:7-10 | the empty ledger satisfies the invariant and holds no negative balance |
| CertificateLedger.Examples | tests/certificate-contract.test.ts:45-81 | issuing as `user1` fails; issuing 1000 to producer1 returns id 1 and stores it; moving 1500 fails leaving 1000; moving 500 leaves 500 with each side |
| GenerationRegistry.RegisterProducer | tests/generation-contract.test.ts:16-24 | always succeeds, returns old producer counter + 1 and stores `{owner: sender, energy-type, total-generation: 0}` there, keeping every other producer and all events |
| GenerationRegistry.RecordGeneration | tests/generation-contract.test.ts:25-39 | succeeds iff the producer exists and the caller owns it, else the one collapsed error with no state change; on success returns old event counter + 1, stores the event with the given producer id, amount and timestamp, adds exactly `amount` to that producer's total, keeps its owner and energy type, and touches no other producer or event |
| GenerationRegistry.GetProducer | tests/generation-contract.test.ts:40-41 | never fails; returns the producer or `None`, and under the invariant `Some` exactly for ids 1..producer counter |
| GenerationRegistry.GetGenerationEvent | tests/generation-contract.test.ts:42-43 | never fails; returns the event or `None`, and under the invariant `Some` exactly for ids 1..event counter, each event naming a registered producer |
| GenerationRegistry.GetTotalGeneration | tests/generation-contract.test.ts:44-48 | fails with `ProducerNotFound` iff the producer is unknown; otherwise returns its total, which under the invariant is the sum of its recorded events |
| GenerationRegistry.Call | tests/generation-contract.test.ts:14-52 | a failure and every read leave the state unchanged; the call fails exactly for an unknown method, a total of an unknown producer, or a recording by a non-owner or for an unknown producer |
| GenerationRegistry.RegisterPreservesValid | tests/generation-contract.test.ts:16-24 | registration keeps ids dense, events pointing at producers, and totals equal to the sums of events |
| GenerationRegistry.RecordPreservesValid | tests/generation-contract.test.ts:31-38 | recording keeps the invariant: the new event and the added amount match |
| GenerationRegistry.CallPreservesValid | tests/generation-contract.test.ts:14-52 | every call keeps the invariant |
| GenerationRegistry.RunPreservesValid | tests/generation-contract.test.ts:14-52 | any sequence of calls keeps the invariant |
| GenerationRegistry.CallExtends | tests/generation-contract.test.ts:25-39 | no call removes a producer, changes its owner or energy type, or alters an event; with a non-negative amount no total decreases |
| GenerationRegistry.RunExtends | tests/generation-contract.test.ts:14-52 | the same over any sequence of calls whose recorded amounts are non-negative |
| GenerationRegistry.RecordingsAccumulate | tests/generation-contract.test.ts:88-95 | two recordings by the owner raise the total by the sum of both amounts |
| GenerationRegistry.InitialValid | tests/generation-contract.test.ts:7-12 | the empty registry satisfies the invariant |
| GenerationRegistry.Examples | tests/generation-contract.test.ts:54-95 | the first producer gets id 1 with its energy type; producer2 cannot record for it; recording 1000 gives event 1 with amount 1000; 1000 then 500 totals 1500; unknown ids give `None` from the lookups but an error from the total |
| Marketplace.CreateListing | tests/trading-contract.test.ts:14-26 | succeeds iff `amount > 0`, else `InvalidAmount` with no state change; on success returns old counter + 1 and stores an active listing with seller = caller and the given amount and price, keeping every other listing |
| Marketplace.CancelListing | tests/trading-contract.test.ts:27-35 | succeeds iff the listing exists, the caller is its seller, and it is active; otherwise the one collapsed error with no state change; on success only `is-active` becomes false and every other listing is kept |
| Marketplace.BuyRec | tests/trading-contract.test.ts:36-45 | succeeds iff the listing exists, is active, and the purchase does not exceed what is left; otherwise an error with no state change; on success the remainder is the old amount minus the purchase, never negative, active iff positive, seller and price kept |
| Marketplace.GetListing | tests/trading-contract.test.ts:46-47 | never fails; returns the listing or `None`, and under the invariant `Some` exactly for ids 1..counter |
| Marketplace.Call | tests/trading-contract.test.ts:12-51 | a failure and a read change nothing; an unknown method fails with `MethodNotFound`; only creation moves the counter or adds an id |
| Marketplace.CallPreservesValid | tests/trading-contract.test.ts:16-45 | every call keeps ids dense, amounts non-negative, and active listings non-empty |
| Marketplace.RunPreservesValid | tests/trading-contract.test.ts:12-51 | any sequence of calls keeps the invariant |
| Marketplace.CallEvolves | tests/trading-contract.test.ts:27-45 | no call removes a listing or changes its seller or price, and an inactive listing stays exactly as it is |
| Marketplace.RunEvolves | tests/trading-contract.test.ts:12-51 | the same over any sequence of calls: inactive is absorbing |
| Marketplace.SellOutCloses | tests/trading-contract.test.ts:42-44 | buying the whole remainder succeeds, leaves 0 and closes the listing; any later purchase fails |
| Marketplace.CancelTwiceFails | tests/trading-contract.test.ts:30-34 | after a successful cancel, a second cancel by anyone fails and changes nothing |
| Marketplace.InitialValid | tests/trading-contract.test.ts:7-10 | the empty marketplace satisfies the invariant |
| Marketplace.Examples | tests/trading-contract.test.ts:53-94 | amount 0 is refused; listing 1000 at 10 gives id 1; its seller can cancel and seller2 cannot; buying 500 leaves 500, still active; buying 1500 fails |

## Left out

- The test harness around each contract (`describe`, `it`, `expect`, `beforeEach`) is not modelled; its example scenarios appear as the `Examples` lemmas.
- A single string-keyed store (`producer-1`, `balance-alice`, ...) is modelled as one typed map per entity. JavaScript's coercion of ids to text, where `1` and `"1"` name the same entry, is not modelled.
- Method names are modelled as an `Op` datatype, not strings; an unknown name is the `Unknown` constructor.
- Amounts are JavaScript numbers. They are modelled as unbounded integers, so floating-point rounding, `NaN` and non-numeric arguments are left out.
- The caller identity is not authenticated; it is a parameter.
- The block height stamped on a generation event is a constant in the source. Here it is a parameter stored verbatim.
- Lookups hand back the stored record itself. In the source, `get-producer` and `get-listing` return the very object that `record-generation`, `cancel-listing` and `buy-rec` later update in place; `get-certificate` also returns the stored object. A caller holding an earlier result sees it change, and a caller who edits a returned record edits the contract state; setting `is-active` back to true on a returned listing would reopen a cancelled one. The model returns immutable snapshots and does not model a caller mutating a returned record.
- Certificate retirement: the flag is only ever initialised to false, and no method changes it.
- Buying moves no balance and settles no price. Issuance is not linked to recorded generation. The contracts never call each other. All of this is also true of the source.
- The source validates only one amount: `create-listing` refuses `amount <= 0`. Issue, transfer, record-generation and buy-rec take amounts of any sign. The model keeps that.
- CertificateLedger.CallPreservesNonNegative: requires non-negative amounts. A negative transfer would overdraw the recipient, and the source does not check the sign.
- CertificateLedger.RunPreservesNonNegative: requires non-negative amounts, for the same reason.
- GenerationRegistry.CallExtends: promises non-decreasing totals only for a non-negative amount. Totals grow monotonically only when nobody records a negative amount.
- GenerationRegistry.RunExtends: as for `CallExtends`.
- Self-transfer: `transfer` writes the account's entry back with the same balance. It is a no-op for every balance read, but an account with no entry that self-transfers 0 gains an entry holding 0.
