# Financial settlement chaincode, modelled in Dafny

This project models the settlement core of a Hyperledger Fabric chaincode for a small financial-performance system.

- **Currency ledger.** Coins are held UTXO-style under the composite key `("Currency", owner, id)`. The operations create coins, list an owner's coins, sum an owner's balance and transfer value by spending whole coins and minting new ones.
- **Loan and insurance contracts.** Each contract is stored under `(kind, applicant, businessId)` and moves through the states Applied, then Approved or Rejected, then Claimed. Underwriting rules decide each step, and every accepted step settles value through a currency transfer.

The model is built in layers.

- `Keys`, `Store` and `World` model the world state.
  - It holds three tables, one per composite-key tag.
  - Each table is kept in Fabric's composite-key order (owner, then id).
  - GetState, PutState, DelState and the partial-composite-key scan are functions on those tables.
  - `World.WorldState` is the mutable world state the chaincode methods update.
- `Records` holds the records, the composite keys and the coin a transfer mints. A minted coin's id is `"Currency"` + owner + the decimal timestamp.
- `Coins` and `Contracts` state what every operation does, as functions of the world state.
- `CoinLedger` and `ContractEngine` hold the imperative operations: loops over the scans, reads, writes and transfers, in the source's order. Each is proved to produce exactly what its specifying function says.
- `Underwriting` holds the underwriting rules as predicates.
- `ContractLaws` states each operation's error cases, its decision and settlement, and the invariants one invocation keeps.
- `Invariants` runs any sequence of transactions and proves these properties over the whole run:
  - the tables stay well formed;
  - contracts only move forward;
  - value is created only by CreateCurrency;
  - no owner holds more than four approved loans.

A failed invocation's writes are discarded by the platform. Each imperative operation therefore specifies its post-state fully on success. Where the source refuses before writing (a missing record, a record in the wrong state, a claim condition that fails, too few funds), the operation also promises that nothing changed.

Two details of the source are worth stating:

- The claim checks return an error when the claim condition fails (`smartcontract.go:364`, `:576`). The model fails with `NotClaimable`.
- The source's overview comment (`smartcontract.go:21`) says transfers make no change. The code does mint a `"Change"` coin (`:185-201`), and the model does too.

## Model

All source paths are under `asset-transfer-events/chaincode-go/chaincode/`.

| member | source | states |
|---|---|---|
| Store.ReadState | asset-transfer-events/chaincode-go/chaincode/smartcontract.go:611-621 | readState succeeds exactly when a record is stored under the key, returns that stored record, and otherwise fails as NotFound |
| Store.Lookup | asset-transfer-events/chaincode-go/chaincode/smartcontract.go:612 | GetState only returns a record that is stored under the key asked for |
| Store.LookupNone | asset-transfer-events/chaincode-go/chaincode/smartcontract.go:615-617 | GetState finds nothing exactly when the key is absent from the table |
| Store.PutLookup | asset-transfer-events/chaincode-go/chaincode/smartcontract.go:73 | after PutState the key reads back the new record and every other key reads as before |
| Store.RemoveLookup | asset-transfer-events/chaincode-go/chaincode/smartcontract.go:162 | after DelState the key reads as absent and every other key reads as before |
| Store.ScanMember | asset-transfer-events/chaincode-go/chaincode/smartcontract.go:96 | an entry is in an owner's scan if and only if it is in the table and its key names that owner |
| Store.ListByOwner | asset-transfer-events/chaincode-go/chaincode/smartcontract.go:94-119 | the iterator loop keeps, in scan order, exactly the scanned records whose owner field names the owner, and every record it returns names the owner |
| Store.ListingMember | asset-transfer-events/chaincode-go/chaincode/smartcontract.go:114 | every listed record names the owner and is stored in the scan |
| World.WorldState.PutCoin | asset-transfer-events/chaincode-go/chaincode/smartcontract.go:73 | PutState of a coin under its own composite key keeps every table sorted and keyed, and touches only the coin table |
| World.WorldState.DelCoin | asset-transfer-events/chaincode-go/chaincode/smartcontract.go:161-162 | DelState of a coin key keeps the tables well formed and touches only the coin table |
| World.WorldState.PutLoan | asset-transfer-events/chaincode-go/chaincode/smartcontract.go:445 | PutState of a loan under its own composite key keeps the tables well formed and touches only the loan table |
| World.WorldState.PutInsurance | asset-transfer-events/chaincode-go/chaincode/smartcontract.go:262 | PutState of an insurance under its own composite key keeps the tables well formed and touches only the insurance table |
| Coins.CoinsOfOwned | asset-transfer-events/chaincode-go/chaincode/smartcontract.go:114-116 | every coin ReadCurrencyListByOwner returns belongs to the owner, whatever the table holds |
| Coins.CoinsOfIsScan | asset-transfer-events/chaincode-go/chaincode/smartcontract.go:94-119 | on a keyed table the owner re-check drops nothing, so the listing is the whole owner scan |
| Coins.AddCoin | asset-transfer-events/chaincode-go/chaincode/smartcontract.go:59-74 | CreateCurrency fails as AlreadyExists exactly when the coin's composite key is taken; otherwise the coin reads back under its key |
| Coins.AddCoinLookup | asset-transfer-events/chaincode-go/chaincode/smartcontract.go:63-73 | a created coin is stored under its key and every other key reads as before |
| Coins.AddCoinCredits | asset-transfer-events/chaincode-go/chaincode/smartcontract.go:59-74 | a created coin is inserted into its owner's scan in key order, leaves every other owner's scan alone, and adds its amount to the owner's balance and to the supply |
| Coins.Pick | asset-transfer-events/chaincode-go/chaincode/smartcontract.go:148-154 | the greedy loop takes at most the whole list, and at least one coin from a non-empty list |
| Coins.PickReaches | asset-transfer-events/chaincode-go/chaincode/smartcontract.go:148-154 | the coins taken reach the amount, or the loop took every coin; no shorter non-empty prefix reaches it |
| Coins.SpendIsShortestReachingPrefix | asset-transfer-events/chaincode-go/chaincode/smartcontract.go:148-154 | the spent coins are the shortest non-empty prefix of the payer's listing whose total reaches the amount, or the whole listing when none does |
| Coins.SpentKeys | asset-transfer-events/chaincode-go/chaincode/smartcontract.go:160-161 | the deleted keys are the payer's key with each spent coin's id, one per spent coin, in order |
| Coins.TransferErrors | asset-transfer-events/chaincode-go/chaincode/smartcontract.go:142-158 | a transfer fails only as NoFunds, InsufficientBalance or AlreadyExists |
| Coins.TransferRefusals | asset-transfer-events/chaincode-go/chaincode/smartcontract.go:142-158 | a transfer fails as NoFunds exactly when the payer lists no coin, and as InsufficientBalance exactly when it lists some but the greedy pick stays below the amount |
| Coins.TransferRefusesBelowBalance | asset-transfer-events/chaincode-go/chaincode/smartcontract.go:156-158 | with no negative coin, a payer who lists some coins is refused as insufficient exactly when the balance is below the amount |
| Coins.SpendCoins | asset-transfer-events/chaincode-go/chaincode/smartcontract.go:160-167 | deleting the first n listed coins leaves the rest of the owner's scan and every other owner's scan, and takes their total off the balance and the supply |
| Coins.SettleCredits | asset-transfer-events/chaincode-go/chaincode/smartcontract.go:168-201 | settling mints the payee's coin of the amount and, only when the spent total exceeds it, the payer's Change coin of the difference; no other owner's scan changes |
| Coins.TransferConserves | asset-transfer-events/chaincode-go/chaincode/smartcontract.go:136-203 | a successful transfer keeps the coin table well formed and the total value held by all owners unchanged, even when payer and payee are the same owner |
| Coins.TransferSettles | asset-transfer-events/chaincode-go/chaincode/smartcontract.go:136-203 | between two owners a successful transfer lowers the payer's balance and raises the payee's by exactly the amount |
| Coins.TransferRescans | asset-transfer-events/chaincode-go/chaincode/smartcontract.go:160-201 | after a successful transfer between two owners the payer's coins are the unspent rest of the greedy pick plus the change coin when there is change, the payee's coins gain exactly the paid coin, and every other owner's coins are unchanged |
| Coins.TransferLookup | asset-transfer-events/chaincode-go/chaincode/smartcontract.go:160-201 | after a successful transfer every key reads as follows: the paid coin, the change coin when there is change, nothing for a spent coin, and the old record anywhere else |
| Coins.TransferSpends | asset-transfer-events/chaincode-go/chaincode/smartcontract.go:160-167 | no double spend: no spent coin can be read back after a successful transfer, except under the one id the transfer mints with |
| Coins.TransferKeepsUnspent | asset-transfer-events/chaincode-go/chaincode/smartcontract.go:148-154 | every coin of the payer after the spent prefix is still stored, unchanged |
| CoinLedger.CreateCurrency | asset-transfer-events/chaincode-go/chaincode/smartcontract.go:59-74 | the method does what AddCoin says: on refusal the coin table is unchanged; the loan and insurance tables never change |
| CoinLedger.ReadCurrencyListByOwner | asset-transfer-events/chaincode-go/chaincode/smartcontract.go:94-119 | the result is the owner's scan filtered on the owner field, in scan order, and every coin in it belongs to the owner; on a well-formed ledger it is the whole scan |
| CoinLedger.ReadTotalCurrencyByOwner | asset-transfer-events/chaincode-go/chaincode/smartcontract.go:122-132 | the summing loop returns the owner's balance, and 0 when the owner has no coin |
| CoinLedger.PickCoins | asset-transfer-events/chaincode-go/chaincode/smartcontract.go:146-154 | the selection loop returns exactly the prefix the greedy rule picks, with its total |
| CoinLedger.DeleteCoins | asset-transfer-events/chaincode-go/chaincode/smartcontract.go:160-167 | the deletion loop removes exactly the payer keys of the spent coins and keeps the tables well formed |
| CoinLedger.MintCoins | asset-transfer-events/chaincode-go/chaincode/smartcontract.go:168-201 | the payee's coin and, when there is change, the payer's change coin are created exactly as Settle says |
| CoinLedger.TransferCurrency | asset-transfer-events/chaincode-go/chaincode/smartcontract.go:136-203 | the method produces exactly the coin table Transfer specifies, or its error; a refusal for want of funds leaves the coin table unchanged; the contract tables never change |
| Contracts.HistoryReaches | asset-transfer-events/chaincode-go/chaincode/smartcontract.go:230 | along any history of single transitions the last state is reachable from the first; a contract that ends Claimed after starting Applied was Approved on the way; Rejected and Claimed never change |
| Contracts.ApprovedCountPut | asset-transfer-events/chaincode-go/chaincode/smartcontract.go:465-487 | storing a loan changes only its applicant's approved count, by what the new record adds minus what it replaces |
| Contracts.CreateLoan | asset-transfer-events/chaincode-go/chaincode/smartcontract.go:421-446 | fails as AlreadyExists exactly when the composite key is taken; otherwise the key reads back a new Applied loan created and updated at the transaction time, and coins and insurances are untouched |
| Contracts.CreateInsurance | asset-transfer-events/chaincode-go/chaincode/smartcontract.go:239-263 | fails as AlreadyExists exactly when the composite key is taken; otherwise the key reads back a new Applied insurance created and updated at the transaction time, and coins and loans are untouched |
| Contracts.CreateContract | asset-transfer-events/chaincode-go/chaincode/smartcontract.go:206-215 | fails as UnknownKind exactly when the kind is neither "Loan" nor "Insurance" |
| Contracts.CreateLoanStoresOne | asset-transfer-events/chaincode-go/chaincode/smartcontract.go:445 | a successful CreateLoan leaves every other key of the loan table as it was |
| Contracts.CreateInsuranceStoresOne | asset-transfer-events/chaincode-go/chaincode/smartcontract.go:262 | a successful CreateInsurance leaves every other key of the insurance table as it was |
| ContractLaws.StartLoanGuards | asset-transfer-events/chaincode-go/chaincode/smartcontract.go:492-502 | StartLoan fails as NotFound exactly when no loan is stored under the key, and as InvalidState exactly when the stored loan is not Applied |
| ContractLaws.StartInsuranceGuards | asset-transfer-events/chaincode-go/chaincode/smartcontract.go:286-297 | StartInsurance fails as NotFound exactly when no insurance is stored under the key, and as InvalidState exactly when the stored insurance is not Applied |
| ContractLaws.LoanCheckGuards | asset-transfer-events/chaincode-go/chaincode/smartcontract.go:538-577 | LoanContractCheck fails as NotFound exactly when the loan is missing, as InvalidState exactly when it is not Approved, and as NotClaimable exactly when it is Approved but neither credit>60, income<5000 nor overdue holds |
| ContractLaws.InsuranceCheckGuards | asset-transfer-events/chaincode-go/chaincode/smartcontract.go:331-365 | InsuranceContractCheck fails as NotFound exactly when the insurance is missing, as InvalidState exactly when it is not Approved, and as NotClaimable exactly when it is Approved but credit>60 and income<10000 and sudden do not all hold |
| ContractLaws.StartLoanDecides | asset-transfer-events/chaincode-go/chaincode/smartcontract.go:505-532 | an Applied loan is rejected exactly when credit<60, income<5000, amount>10000 or the applicant already has more than three approved loans; a rejected loan is stored Rejected and no coin moves; otherwise it is accepted exactly when the issuer can pay the principal, is stored Approved, and the issuer's balance drops and the applicant's rises by the principal |
| ContractLaws.StartInsuranceDecides | asset-transfer-events/chaincode-go/chaincode/smartcontract.go:298-325 | an Applied insurance is rejected exactly when credit<60 or income<5000; a rejected one is stored Rejected and no coin moves; otherwise it is accepted exactly when the applicant can pay the premium, is stored Approved, and the premium moves from applicant to issuer |
| ContractLaws.LoanCheckClaims | asset-transfer-events/chaincode-go/chaincode/smartcontract.go:557-573 | a claimable Approved loan is claimed exactly when the applicant can pay amount*(1+rate); it is then stored Claimed and that sum moves from applicant to issuer |
| ContractLaws.InsuranceCheckClaims | asset-transfer-events/chaincode-go/chaincode/smartcontract.go:343-361 | a claimable Approved insurance is claimed exactly when the issuer can pay amount*(1+rate); it is then stored Claimed and that sum moves from issuer to applicant |
| ContractLaws.LoanCapPut | asset-transfer-events/chaincode-go/chaincode/smartcontract.go:482 | storing a loan keeps every owner within four approved loans when its applicant's corrected count stays within four |
| ContractLaws.CreateContractStep | asset-transfer-events/chaincode-go/chaincode/smartcontract.go:206-215 | a successful creation keeps the tables well formed, moves no value and keeps the loan cap; for "Loan" it writes exactly the new Applied loan under its key and leaves every other loan and the insurances as they were, and for "Insurance" the mirror image |
| ContractLaws.CreateLoanStep | asset-transfer-events/chaincode-go/chaincode/smartcontract.go:421-446 | a successful CreateLoan keeps the tables well formed, writes exactly the new Applied loan under its key, leaves every other loan, the insurances and the coins as they were, and keeps the loan cap |
| ContractLaws.CreateInsuranceStep | asset-transfer-events/chaincode-go/chaincode/smartcontract.go:239-263 | a successful CreateInsurance keeps the tables well formed, writes exactly the new Applied insurance under its key, and leaves every other insurance, the loans and the coins as they were |
| ContractLaws.StartLoanStep | asset-transfer-events/chaincode-go/chaincode/smartcontract.go:492-533 | a successful StartLoan keeps the tables well formed, conserves the supply and keeps every owner within four approved loans; it writes only the started loan, now Approved when accepted and Rejected otherwise with its update time set to now and nothing else about it changed; every other loan and the insurances stay as they were |
| ContractLaws.StartInsuranceStep | asset-transfer-events/chaincode-go/chaincode/smartcontract.go:286-326 | a successful StartInsurance keeps the tables well formed and conserves the supply; it writes only the started insurance, now Approved when accepted and Rejected otherwise with its update time set to now and nothing else about it changed; every other insurance and the loans stay as they were |
| ContractLaws.LoanCheckStep | asset-transfer-events/chaincode-go/chaincode/smartcontract.go:538-577 | a successful LoanContractCheck keeps the tables well formed, conserves the supply and keeps the loan cap; the loan was Approved and is now Claimed with its update time set to now and nothing else about it changed; every other loan and the insurances stay as they were |
| ContractLaws.InsuranceCheckStep | asset-transfer-events/chaincode-go/chaincode/smartcontract.go:331-365 | a successful InsuranceContractCheck keeps the tables well formed and conserves the supply; the insurance was Approved and is now Claimed with its update time set to now and nothing else about it changed; every other insurance and the loans stay as they were |
| Invariants.ApplyStep | asset-transfer-events/chaincode-go/chaincode/smartcontract.go:59-577 | every successful transaction keeps the tables well formed, moves each stored contract by at most one forward transition, starts new contracts in Applied, changes the supply only by the coin CreateCurrency creates, and keeps the loan cap |
| Invariants.RunKeeps | asset-transfer-events/chaincode-go/chaincode/smartcontract.go:24-29 | over any sequence of transactions, failed ones having no effect: the tables stay well formed; no contract disappears; each contract's state only moves forward and no other field but its update time changes; the supply grows by exactly what successful CreateCurrency calls mint; the loan cap is kept |
| Invariants.RunFromEmpty | asset-transfer-events/chaincode-go/chaincode/smartcontract.go:507 | from an empty ledger, after any transactions, the supply is exactly what was minted and no owner holds more than four approved loans |
| Invariants.LoanFinalStays | asset-transfer-events/chaincode-go/chaincode/smartcontract.go:409 | a Rejected or Claimed loan stays stored in that state through any run |
| Invariants.InsuranceFinalStays | asset-transfer-events/chaincode-go/chaincode/smartcontract.go:230 | a Rejected or Claimed insurance stays stored in that state through any run |
| Invariants.LoanNeverExpires | asset-transfer-events/chaincode-go/chaincode/smartcontract.go:409 | no transaction puts a loan into Expired |
| Invariants.InsuranceNeverExpires | asset-transfer-events/chaincode-go/chaincode/smartcontract.go:230 | no transaction puts an insurance into Expired |
| ContractEngine.ReadLoan | asset-transfer-events/chaincode-go/chaincode/smartcontract.go:448-462 | succeeds exactly when a loan is stored under ("Loan", owner, id), returns that loan and otherwise fails as NotFound; on a well-formed ledger the loan names that applicant and id |
| ContractEngine.ReadInsurance | asset-transfer-events/chaincode-go/chaincode/smartcontract.go:267-281 | succeeds exactly when an insurance is stored under ("Insurance", owner, id), returns that insurance and otherwise fails as NotFound; on a well-formed ledger the insurance names that applicant and id |
| ContractEngine.ReadLoanListByOwner | asset-transfer-events/chaincode-go/chaincode/smartcontract.go:580-604 | the loans under the owner's prefix whose applicant is the owner, in scan order; on a well-formed ledger, all of them |
| ContractEngine.ReadInsuranceListByOwner | asset-transfer-events/chaincode-go/chaincode/smartcontract.go:368-393 | the insurances under the owner's prefix whose applicant is the owner, in scan order; on a well-formed ledger, all of them |
| ContractEngine.CountLoansByOwner | asset-transfer-events/chaincode-go/chaincode/smartcontract.go:465-487 | the counting loop returns the number of the owner's scanned loans that name the owner and are Approved, at most the length of the scan |
| ContractEngine.CreateLoan | asset-transfer-events/chaincode-go/chaincode/smartcontract.go:421-446 | the method does what Contracts.CreateLoan says and writes nothing when the key is taken |
| ContractEngine.CreateInsurance | asset-transfer-events/chaincode-go/chaincode/smartcontract.go:239-263 | the method does what Contracts.CreateInsurance says and writes nothing when the key is taken |
| ContractEngine.CreateContract | asset-transfer-events/chaincode-go/chaincode/smartcontract.go:206-215 | the method does what Contracts.CreateContract says and writes nothing when it fails |
| ContractEngine.StartLoan | asset-transfer-events/chaincode-go/chaincode/smartcontract.go:492-533 | the method does what Contracts.StartLoan says, including its acceptance flag, never reports acceptance on failure, and leaves the world state unchanged on every failure except a taken minted-coin key |
| ContractEngine.StartInsurance | asset-transfer-events/chaincode-go/chaincode/smartcontract.go:286-326 | the method does what Contracts.StartInsurance says, including its acceptance flag, never reports acceptance on failure, and leaves the world state unchanged on every failure except a taken minted-coin key |
| ContractEngine.LoanContractCheck | asset-transfer-events/chaincode-go/chaincode/smartcontract.go:538-577 | the method does what Contracts.LoanCheck says, reports a claim exactly when it succeeds, and leaves the world state unchanged on NotFound, InvalidState, NotClaimable and a refusal for want of funds |
| ContractEngine.InsuranceContractCheck | asset-transfer-events/chaincode-go/chaincode/smartcontract.go:331-365 | the method does what Contracts.InsuranceCheck says, reports a claim exactly when it succeeds, and leaves the world state unchanged on NotFound, InvalidState, NotClaimable and a refusal for want of funds |

## Left out

- Events: the SetEvent call every successful operation makes with its record's JSON is not modelled: CreateCurrency (`:72`), CreateInsurance (`:261`), StartInsurance (`:308`, `:324`), InsuranceContractCheck (`:360`), CreateLoan (`:444`), StartLoan (`:515`, `:531`) and LoanContractCheck (`:572`). Events are emitted only on commit and change no world state; the listener that consumes them is in `application-gateway-go/app.go`, which is not part of this model.
- JSON: marshalling and unmarshalling are not modelled. CreateCurrency takes an already decoded coin. Malformed records and serialization errors are not represented.
- Fabric's key encoding: composite keys are modelled as (owner, id) pairs, ordered by owner, then id.
- Number types: float32 arithmetic is not modelled. Amounts, rates, credit scores and incomes are exact reals, so rounding in sums, comparisons and `amount*(1+rate)` is not captured.
- Timestamps: the transaction timestamp is an integer parameter `now`.
- Loan check time: the `currentTime` argument of LoanContractCheck is an integer. The source's Atoi parsing (`:551-552`), where a malformed string silently becomes 0, is not modelled.
- Overdue computation: `Period*24*60*60` (`:553`) uses unbounded integers, so Go's 64-bit overflow is not modelled.
- Platform errors: failures from GetState, PutState, DelState and the scan iterators are not modelled. Neither is the process exit of `log.Fatalln` (`:139`, `:164`), nor the error CountLoansByOwner returns into StartLoan (`:505`), which the source ignores.
- Read-your-writes: Fabric's GetState does not see writes made earlier in the same transaction, but the model's tables do. Two cases differ:
  - a self-transfer with change: the model refuses it with AlreadyExists, while Fabric would overwrite the paid coin with the change coin;
  - a minted coin whose key equals a coin spent in the same transfer: the model stores it, while Fabric would refuse it.
- Transaction atomicity is taken from the platform. A failed invocation's writes are discarded, so the failure-path state is left open in these contracts:
- CoinLedger.TransferCurrency: on an AlreadyExists failure during minting, the contract does not say what the coin table holds, because the platform discards it.
- ContractEngine.StartLoan: when minting a coin of the transfer fails as AlreadyExists, the contract does not state the world state, because the platform discards it. On every other failure it promises that nothing changed.
- ContractEngine.StartInsurance: when minting a coin of the transfer fails as AlreadyExists, the contract does not state the world state, because the platform discards it. On every other failure it promises that nothing changed.
- ContractEngine.LoanContractCheck: when minting a coin of the repayment fails as AlreadyExists, the contract does not state the world state, because the platform discards it. On every other failure it promises that nothing changed.
- ContractEngine.InsuranceContractCheck: when minting a coin of the payout fails as AlreadyExists, the contract does not state the world state, because the platform discards it. On every other failure it promises that nothing changed.
- InsuranceContractCheck's `contingencyInfo` argument (`:331`) is unused by the source and is not modelled.
- ReadCurrency (`:78-91`) is not modelled. It reads by a bare id rather than a composite key, so it does not reach coins stored under composite keys. No other operation calls it.
- The Asset operations (`:626-768`) are not part of this model. They are legacy reference code outside the settlement core.
- `application-gateway-go/app.go` (HTTP handlers, gateway connection, event listener) is not part of this model.
- The web frontend is not part of this model.
- The Expired state can be stored, but no operation reaches it. The model proves that no operation produces it.
