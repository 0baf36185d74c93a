# Bank-account microservice: posting engine, debit cards and reports

This project is a Dafny model of the core of a reactive Java bank-account
service. It covers these parts:

- **Posting engine** (`Posting`, `Engine`). A transaction request is stamped with the current
  instant and checked by the validator for its account type. It is then posted either on one
  account or between two accounts. Posting updates the balance and the movement counter and
  may charge a per-transaction commission once the free-movement limit is reached. It records
  the stored transaction, plus a commission record when one is charged.
- **Transaction and account validators** (`TransactionRules`, `AccountRules`) and the
  validator factories.
- **Account strategies** (`Strategies`): the live personal creation strategy and the
  business/personal creation and update strategies.
- **Debit cards** (`DebitCards`, `CardService`). Cards are created and accounts associated
  with them. A card payment is posted from the card's primary account. When that account is
  short of funds, the payment is retried from each associated account in turn.
- **Balance replay** (`Balances`): how a stored transaction moves the balance of one account.
- **Reports** (`Reporting`): the average daily balance of a period, the commission report of
  an account, and the last ten card transactions.

## How the model is built

Money is an `int` in minor units. A Java `null` is an `Option`, and a thrown exception or
`Mono.error` is an `Err(Failure(kind, message))`. Error messages are kept verbatim.
The `Integer` movement counter wraps at 32 bits (`Domain.Inc32`).

Repositories are values:

- accounts are a `map` keyed by id;
- transactions and commissions are append-only `seq`s (a stored transaction's id is its
  position);
- debit cards are a `seq` with first-match lookup and upsert-by-id save.

The posting engine is specified by the pure function `Posting.PostSpec`. The class
`Engine.PostingEngine` holds the three stores as fields, and its methods are proved to change
them exactly as `PostSpec` says. A transfer is recorded the way a single-account posting is:
its transaction is stored once and its commission record refers to the stored transaction. The
service as written also stores a transfer's transaction, but builds its commission record from
the request before it was saved, so a new transfer's commission has no transaction id; see
"Findings". In the same way, `CardService.DebitCardService` holds the card
repository and drives a `PostingEngine`, and each of its methods is proved equal to a function
of `DebitCards`. The average-balance computation is a method whose loops are proved against
`Reporting.AverageSpec`.

Account validators in the source write defaults into the request object even when they
reject it. They are modelled on values that return both the outcome and the written account
(`AccountRules.Step`).

## Model

| member | source | states |
|---|---|---|
| Domain.ParseInt | src/main/java/nnt_data/bankaccount_microservice/domain/validator/transaction/FixedTermTransactionValidator.java:28 | a parsed value is a 32-bit integer read from an optionally signed run of ASCII digits; an unsigned, "+"-signed or "-"-signed run of digits parses to its value exactly when that value is within the 32-bit range, and to nothing otherwise |
| Domain.Inc32 | src/main/java/nnt_data/bankaccount_microservice/domain/service/TransactionOperationsService.java:141 | the movement counter increments by one and wraps from the largest int to the smallest |
| TransactionRules.HasExceededLimit | src/main/java/nnt_data/bankaccount_microservice/domain/validator/TransactionValidator.java:12-18 | a null counter or limit fails with a null-pointer error; a counter at or above the limit fails with the limit message; otherwise the check passes |
| TransactionRules.ExceededLimitAtBoundary | src/main/java/nnt_data/bankaccount_microservice/domain/validator/TransactionValidator.java:12-18 | a counter exactly at the limit is already rejected |
| TransactionRules.SameDayCount | src/main/java/nnt_data/bankaccount_microservice/domain/validator/transaction/FixedTermTransactionValidator.java:21-44 | the count of the account's stored transactions on the same calendar day is zero exactly when there are none |
| TransactionRules.MonthCount | src/main/java/nnt_data/bankaccount_microservice/domain/validator/transaction/SavingsTransactionValidator.java:19-28 | the count of the account's transactions in the current month is bounded by the store and zero exactly when none qualifies |
| TransactionRules.MonthCountAppend | src/main/java/nnt_data/bankaccount_microservice/domain/validator/transaction/SavingsTransactionValidator.java:31-43 | the monthly count is additive over concatenated histories |
| TransactionRules.FixedTermValidate | src/main/java/nnt_data/bankaccount_microservice/domain/validator/transaction/FixedTermTransactionValidator.java:21-64 | accepts exactly when the withdrawal has balance, the day matches the allowed day and no other transaction of the account was made that day; a wrong day gives the allowed-day message and a second posting on the same day the one-movement-per-day message; an accepted context is returned unchanged |
| TransactionRules.SavingsValidate | src/main/java/nnt_data/bankaccount_microservice/domain/validator/transaction/SavingsTransactionValidator.java:19-43 | with dated history and a limit, rejects exactly when the month's count has reached the monthly limit, with the monthly-limit message; never returns any other illegal-argument error |
| TransactionRules.CheckingValidate | src/main/java/nnt_data/bankaccount_microservice/domain/validator/transaction/CheckingTransactionValidator.java:17-19 | a checking transaction is always accepted unchanged |
| TransactionRules.GetTransactionValidator | src/main/java/nnt_data/bankaccount_microservice/domain/validator/factory/ValidatorFactory.java:46-58 | each account type selects its own validator, in both directions; a null type is a null-pointer error |
| TransactionRules.ValidateTransaction | src/main/java/nnt_data/bankaccount_microservice/domain/service/TransactionOperationsService.java:78-87 | the account's type decides the validator; a fixed-term transaction passes exactly when the fixed-term rules admit it; a savings transaction is judged by the savings rules and, with dated history and a limit, passes exactly when the month's count is below the monthly limit; checking always passes |
| TransactionRules.FixedTermDepositIgnoresBalance | src/main/java/nnt_data/bankaccount_microservice/domain/validator/transaction/FixedTermTransactionValidator.java:46-52 | the balance check applies only to withdrawals |
| TransactionRules.SavingsIgnoresBalanceAndType | src/main/java/nnt_data/bankaccount_microservice/domain/validator/transaction/SavingsTransactionValidator.java:31-43 | the savings rule looks at neither the balance nor the transaction type |
| TransactionRules.HasUndatedInsert | src/main/java/nnt_data/bankaccount_microservice/domain/validator/transaction/SavingsTransactionValidator.java:19-28 | adding a dated transaction or one of another account does not change whether the history has an undated entry |
| TransactionRules.MonthCountInsert | src/main/java/nnt_data/bankaccount_microservice/domain/validator/transaction/SavingsTransactionValidator.java:19-28 | a transaction outside the month or of another account does not change the monthly count |
| TransactionRules.SavingsIgnoresUnrelated | src/main/java/nnt_data/bankaccount_microservice/domain/validator/transaction/SavingsTransactionValidator.java:31-43 | another account's transactions and earlier months' transactions do not affect the savings decision |
| TransactionRules.SavingsMonthlyLimitBoundary | src/main/java/nnt_data/bankaccount_microservice/domain/validator/transaction/SavingsTransactionValidator.java:31-43 | with the count at the limit the transaction is refused, one below it is accepted |
| AccountRules.DefaultCounter | src/main/java/nnt_data/bankaccount_microservice/domain/validator/AccountTypeValidator.java:32-33 | a missing movement counter becomes 0 and nothing else changes |
| AccountRules.HasValidLimitsAndFees | src/main/java/nnt_data/bankaccount_microservice/domain/validator/AccountTypeValidator.java:28-36 | fails exactly when the movement limit or the fee is missing, leaving the account as it was; on success the counter is defaulted |
| AccountRules.HasValidFees | src/main/java/nnt_data/bankaccount_microservice/domain/validator/AccountTypeValidator.java:38-46 | fails exactly when the fee is missing; on success the counter is defaulted |
| AccountRules.CheckingAccountValidate | src/main/java/nnt_data/bankaccount_microservice/domain/validator/account/CheckingAccountValidator.java:19-42 | accepts exactly the accounts `CheckingAdmits` describes; a PYME customer needs a non-positive maintenance fee and a credit card, the others a non-negative fee and no monthly movement limit; each refusal carries its message, and a PYME account with no fee is a null-pointer error; the counter default is written even on refusal |
| AccountRules.FixedTermAccountValidate | src/main/java/nnt_data/bankaccount_microservice/domain/validator/account/FixedTermAccountValidator.java:18-28 | accepts exactly when the fee and the allowed day are present; sets the movement limit to 1 once the fee check passes |
| AccountRules.SavingsAccountValidate | src/main/java/nnt_data/bankAccount_service/domain/validator/account/SavingsAccountValidator.java:18-32 | accepts exactly when the monthly limit is at least 1 and there is no maintenance fee, returning the account unchanged |
| AccountRules.GetAccountValidator | src/main/java/nnt_data/bankaccount_microservice/domain/validator/factory/ValidatorFactory.java:33-44 | each account type selects its validator, in both directions; a null type is a null-pointer error |
| AccountRules.ValidateWithFactory | src/main/java/nnt_data/bankAccount_service/application/usecase/BaseAccountStrategy.java:20-23 | dispatches by type; a checking account passes exactly when `CheckingAdmits`; identity, type and balance are never written |
| AccountRules.PymeSkipsMonthlyLimit | src/main/java/nnt_data/bankaccount_microservice/domain/validator/account/CheckingAccountValidator.java:19-42 | the monthly movement limit plays no part in a PYME checking account's validation |
| AccountRules.FixedTermLimitForcedOnRejection | src/main/java/nnt_data/bankaccount_microservice/domain/validator/account/FixedTermAccountValidator.java:18-28 | an account refused for lacking an allowed day has still had its movement limit forced to 1 |
| AccountRules.FixedTermAcceptsAnyDayText | src/main/java/nnt_data/bankaccount_microservice/domain/validator/account/FixedTermAccountValidator.java:18-28 | any allowed-day text, numeric or not, is accepted at creation |
| AccountRules.ValidateWithFactoryIdempotent | src/main/java/nnt_data/bankAccount_service/application/usecase/BaseAccountStrategy.java:20-23 | validating an account that validation has accepted and written accepts it again |
| Strategies.ValidateCustomerSubtype | src/main/java/nnt_data/bankAccount_service/application/usecase/BaseAccountStrategy.java:26-46 | accepts exactly the subtypes allowed for the customer type (personal: regular or vip; business: regular or pyme); each refusal carries its message; a null customer type is a null-pointer error |
| Strategies.CrossedSubtypesRejected | src/main/java/nnt_data/bankAccount_service/application/usecase/BaseAccountStrategy.java:26-46 | vip is refused for a business and pyme for a personal customer |
| Strategies.PersonalCreationValidate | src/main/java/nnt_data/bankaccount_microservice/application/usecase/personal/PersonalAccountCreationStrategy.java:33-59 | accepts exactly when the customer id and subtype are valid and, unless fixed-term, the customer has no account of that type; each refusal carries its message |
| Strategies.PersonalCreateAccount | src/main/java/nnt_data/bankaccount_microservice/application/usecase/personal/PersonalAccountCreationStrategy.java:62-65 | a refusal of the personal rules is returned as is, otherwise the factory validator decides; a created account keeps its customer and type |
| Strategies.OneAccountPerTypeForPersonal | src/main/java/nnt_data/bankaccount_microservice/application/usecase/personal/PersonalAccountCreationStrategy.java:45-56 | a personal customer cannot open a second savings or checking account |
| Strategies.FixedTermIgnoresExistingAccounts | src/main/java/nnt_data/bankaccount_microservice/application/usecase/personal/PersonalAccountCreationStrategy.java:45-47 | the existing accounts play no part in creating a fixed-term account |
| Strategies.BusinessCreationValidate | src/main/java/nnt_data/bankAccount_service/application/usecase/business/BusinessAccountCreationStrategy.java:27-40 | accepts exactly a valid business subtype on a checking account with a non-empty owners list, refusing a missing owner with the owner message |
| Strategies.BusinessCreateAccount | src/main/java/nnt_data/bankAccount_service/application/usecase/business/BusinessAccountCreationStrategy.java:43-46 | a created business account is a checking account the checking rules admit, with its counter defaulted; once the business rules pass, the outcome is the checking validator's and the account is created exactly when the checking rules admit it |
| Strategies.SameTypeAsStored | src/main/java/nnt_data/bankAccount_service/application/usecase/business/BusinessAccountUpdateStrategy.java:31-47 | an update passes exactly when the stored account exists and has the same type; a missing account gives the not-found message |
| Strategies.BusinessUpdateValidate | src/main/java/nnt_data/bankAccount_service/application/usecase/business/BusinessAccountUpdateStrategy.java:31-47 | accepts exactly a valid business subtype on a checking account whose stored account is also checking |
| Strategies.BusinessUpdateAccount | src/main/java/nnt_data/bankAccount_service/application/usecase/business/BusinessAccountUpdateStrategy.java:50-60 | an updated account carries the path id, was stored as checking and passes the checking rules; a bad subtype or a non-checking type is refused with its message; once the business rules pass, the update succeeds exactly when the checking rules admit the account under the path id |
| Strategies.PersonalUpdateValidate | src/main/java/nnt_data/bankAccount_service/application/usecase/PersonalAccountUpdateStrategy.java:29-43 | accepts exactly when there is a customer id and the stored account exists with the same type |
| Strategies.PersonalUpdateAccount | src/main/java/nnt_data/bankAccount_service/application/usecase/PersonalAccountUpdateStrategy.java:46-56 | an updated account carries the path id and the stored type; a missing customer id or account gives its message |
| Strategies.UpdatesKeepStoredType | src/main/java/nnt_data/bankAccount_service/application/usecase/PersonalAccountUpdateStrategy.java:46-56 | neither update strategy can change an account's type |
| Posting.Stamp | src/main/java/nnt_data/bankaccount_microservice/domain/service/TransactionOperationsService.java:38-47 | the request gets the current instant, and a missing card flag becomes false; nothing else changes |
| Posting.ShouldApplyCommission | src/main/java/nnt_data/bankaccount_microservice/domain/service/TransactionOperationsService.java:289-291 | a commission is due exactly when the counter has reached the movement limit; null counters fail |
| Posting.CommissionAmount | src/main/java/nnt_data/bankaccount_microservice/domain/service/TransactionOperationsService.java:274-287 | below the limit the commission is zero, at or above it the account's fee |
| Posting.ApplyTransactionAmount | src/main/java/nnt_data/bankaccount_microservice/domain/service/TransactionOperationsService.java:293-304 | a deposit adds; a withdrawal succeeds exactly when the balance covers it and never leaves it negative; otherwise "Saldo insuficiente" |
| Posting.CalculateBalanceWithCommission | src/main/java/nnt_data/bankaccount_microservice/domain/service/TransactionOperationsService.java:274-304 | with a commission due, a deposit always succeeds with the balance less the commission plus the amount, and a withdrawal succeeds with the balance less commission and amount exactly when that balance covers it, otherwise it is refused; a missing type is refused; a null commission input is a null-pointer error |
| Posting.Counted | src/main/java/nnt_data/bankaccount_microservice/domain/service/TransactionOperationsService.java:141 | one more movement on the counter, nothing else changed |
| Posting.Commit | src/main/java/nnt_data/bankaccount_microservice/domain/service/TransactionOperationsService.java:143-163 | the transaction is appended with a fresh id, the accounts are saved, and a commission record referring to it is appended exactly when the commission is positive; transfers go through the same commit, the corrected behaviour described under "Findings" |
| Posting.PostSingle | src/main/java/nnt_data/bankaccount_microservice/domain/service/TransactionOperationsService.java:97-102 | a single-account posting fails exactly when the balance calculation fails and then changes nothing |
| Posting.HandleDeposit | src/main/java/nnt_data/bankaccount_microservice/domain/service/TransactionOperationsService.java:195-230 | a transfer deposit succeeds exactly when the source covers amount plus commission, otherwise it fails with its message; success moves the amount from source to destination |
| Posting.HandleWithdrawal | src/main/java/nnt_data/bankaccount_microservice/domain/service/TransactionOperationsService.java:232-264 | a transfer withdrawal succeeds exactly when the destination covers the amount and the source covers the commission; the destination is checked first; success moves the amount from destination to source |
| Posting.PostTransfer | src/main/java/nnt_data/bankaccount_microservice/domain/service/TransactionOperationsService.java:104-193 | a missing destination id or account fails with its message; success moves the amount between the two accounts in the type's direction; a failure changes nothing |
| Posting.PostSpec | src/main/java/nnt_data/bankaccount_microservice/domain/service/TransactionOperationsService.java:38-95 | an unknown source account or a null account type fails with its error; no failure changes any store; a success passed the account type's validator, stores the stamped request under a fresh id, keeps the account keys, and appends at most one commission record |
| PostingProperties.CommitPreservesLinked | src/main/java/nnt_data/bankaccount_microservice/domain/service/TransactionOperationsService.java:266-272 | recording a transaction keeps every commission record linked to a stored transaction |
| PostingProperties.PostPreservesLinked | src/main/java/nnt_data/bankaccount_microservice/domain/service/TransactionOperationsService.java:89-95 | every posting keeps every commission record linked to a stored transaction |
| PostingProperties.TransferCommitAsWritten | src/main/java/nnt_data/bankaccount_microservice/domain/service/TransactionOperationsService.java:266-272 | as written, a transfer saves both accounts and then (lines 119-123 of the same file) stores its transaction with a fresh id, and a positive commission appends a record built from the request as it was before saving |
| PostingProperties.TransferCommitAsWrittenUnlinked | src/main/java/nnt_data/bankaccount_microservice/domain/service/TransactionOperationsService.java:217-228 | as written, a new charged transfer is stored but its commission record has no transaction id, so the commission store is no longer linked; the corrected commit keeps every commission linked |
| PostingProperties.SingleAccountPosting | src/main/java/nnt_data/bankaccount_microservice/domain/service/TransactionOperationsService.java:134-165 | a successful single-account posting sets the balance to the old one less the commission plus the signed amount, counts one movement, changes no other account, and stores a commission record exactly when the commission is positive |
| PostingProperties.SingleWithdrawalInsufficient | src/main/java/nnt_data/bankaccount_microservice/domain/service/TransactionOperationsService.java:146-159 | a validated withdrawal that the balance minus commission cannot cover fails with "Saldo insuficiente" and changes nothing |
| PostingProperties.SingleDepositChargesFee | src/main/java/nnt_data/bankaccount_microservice/domain/service/TransactionOperationsService.java:146-159 | on an account at its movement limit, a deposit is charged the fee and a commission record is stored |
| PostingProperties.TransferConservation | src/main/java/nnt_data/bankaccount_microservice/domain/service/TransactionOperationsService.java:167-264 | a transfer between two distinct accounts lowers their joint balance by exactly the commission, bumps only the source's counter, changes no third account, and stores a commission record exactly when the commission is positive |
| PostingProperties.TransferWithdrawalCheckOrder | src/main/java/nnt_data/bankaccount_microservice/domain/service/TransactionOperationsService.java:232-264 | when both the destination and the source are short, the destination's message is reported |
| PostingProperties.SelfTransferDepositLastWriteWins | src/main/java/nnt_data/bankaccount_microservice/domain/service/TransactionOperationsService.java:195-230 | a self-transfer deposit is accepted, but the destination copy is written last: the account ends credited with the amount and its counter unchanged |
| Engine.PostingEngine.constructor | src/main/java/nnt_data/bankaccount_microservice/domain/service/TransactionOperationsService.java:38-47 | the engine starts with the given accounts and empty transaction and commission stores |
| Engine.PostingEngine.Post | src/main/java/nnt_data/bankaccount_microservice/domain/service/TransactionOperationsService.java:38-95 | the stores change exactly as `PostSpec` says and the result is its result |
| Engine.PostingEngine.Record | src/main/java/nnt_data/bankaccount_microservice/domain/service/TransactionOperationsService.java:266-272 | the stores change exactly as `Commit` says |
| Engine.PostingEngine.PostSingleAccount | src/main/java/nnt_data/bankaccount_microservice/domain/service/TransactionOperationsService.java:97-165 | the stores change exactly as `PostSingle` says |
| Engine.PostingEngine.PostBetweenAccounts | src/main/java/nnt_data/bankaccount_microservice/domain/service/TransactionOperationsService.java:104-264 | the stores change exactly as `PostTransfer` says |
| DebitCards.FindCardById | src/main/java/nnt_data/bankaccount_microservice/domain/service/DebitCardOperationsService.java:81-86 | a found card is stored with that id; nothing is found exactly when no card has it |
| DebitCards.FindCardByNumber | src/main/java/nnt_data/bankaccount_microservice/domain/service/DebitCardOperationsService.java:88-93 | a found card is stored with that number; nothing is found exactly when no card has it |
| DebitCards.SaveCard | src/main/java/nnt_data/bankaccount_microservice/domain/service/DebitCardOperationsService.java:56-79 | after saving, the card is found by its id and every other id finds what it found before |
| DebitCards.FirstMissingIndex | src/main/java/nnt_data/bankaccount_microservice/domain/service/DebitCardOperationsService.java:56-79 | the first associated id with no account: every earlier one exists |
| DebitCards.CreateDebitCardSpec | src/main/java/nnt_data/bankaccount_microservice/domain/service/DebitCardOperationsService.java:56-79 | a card is created exactly when its primary and every associated account exist; a missing primary and the first missing associated account are each refused with their own message; a missing list is saved as empty; a refusal saves nothing |
| DebitCards.AssociateSpec | src/main/java/nnt_data/bankaccount_microservice/domain/service/DebitCardOperationsService.java:95-119 | an association succeeds exactly when the card and the account exist and the account is not already linked; it appends the account and saves; a missing card, a missing account and an already linked account are each refused with their own message |
| DebitCards.AssociateTwiceRejected | src/main/java/nnt_data/bankaccount_microservice/domain/service/DebitCardOperationsService.java:95-119 | associating the same account a second time is refused |
| DebitCards.AssociateKeepsAccountsDistinct | src/main/java/nnt_data/bankaccount_microservice/domain/service/DebitCardOperationsService.java:95-119 | association keeps a card's primary and associated accounts pairwise distinct |
| DebitCards.ShortfallQualifies | src/main/java/nnt_data/bankaccount_microservice/domain/service/DebitCardOperationsService.java:156-159 | any illegal-argument message that begins "Saldo insuficiente" counts as a funds shortfall |
| DebitCards.EngineFundsErrorsQualify | src/main/java/nnt_data/bankaccount_microservice/domain/service/DebitCardOperationsService.java:156-159 | every funds message of the posting engine is recognised as a shortfall by the router |
| DebitCards.PrepareVariesOnlySource | src/main/java/nnt_data/bankaccount_microservice/domain/service/DebitCardOperationsService.java:192-216 | retrying from another account changes only the source; the card-to-card request is the plain request with the destination set |
| DebitCards.TryAssociated | src/main/java/nnt_data/bankaccount_microservice/domain/service/DebitCardOperationsService.java:218-245 | a failed retry changes nothing; an empty list gives its message; a success was posted from one of the listed accounts as a card payment |
| DebitCards.TryAssociatedPostsFirstFunded | src/main/java/nnt_data/bankaccount_microservice/domain/service/DebitCardOperationsService.java:218-245 | the retry posts from the first account that is not short of funds, once all before it were short |
| DebitCards.TryAssociatedSucceedsIff | src/main/java/nnt_data/bankaccount_microservice/domain/service/DebitCardOperationsService.java:218-245 | the retry succeeds exactly when some listed account is the first not short and its posting succeeds |
| DebitCards.TryAssociatedAllShort | src/main/java/nnt_data/bankaccount_microservice/domain/service/DebitCardOperationsService.java:218-245 | when every listed account is short, the card-level message is returned and nothing changes |
| DebitCards.TryAssociatedStopsOnOtherError | src/main/java/nnt_data/bankaccount_microservice/domain/service/DebitCardOperationsService.java:218-245 | an error other than a shortfall stops the retry and is returned as it is |
| DebitCards.ProcessCardSpec | src/main/java/nnt_data/bankaccount_microservice/domain/service/DebitCardOperationsService.java:166-190 | an unknown card number gives its message; a failure changes nothing; a success is a card payment from the primary or an associated account |
| DebitCards.ProcessCardOutcome | src/main/java/nnt_data/bankaccount_microservice/domain/service/DebitCardOperationsService.java:166-190 | the primary account's posting is kept unless it is a shortfall; after a shortfall, the retry decides and any retry failure becomes the no-funds-anywhere message |
| DebitCards.FallbackToSecondAssociated | src/main/java/nnt_data/bankaccount_microservice/domain/service/DebitCardOperationsService.java:166-245 | with the primary and first associated account short and the second funded, the payment is posted from the second, recorded, and leaves every other account as it was |
| DebitCards.ProcessFromIdSpec | src/main/java/nnt_data/bankaccount_microservice/domain/service/DebitCardOperationsService.java:121-143 | the source card is looked up first, then the destination card, each missing one giving the card-not-found message; a failure changes nothing; a success is a card payment to the destination card's primary account from the source card's primary or an associated account |
| DebitCards.FromIdChainErrorsUnwrapped | src/main/java/nnt_data/bankaccount_microservice/domain/service/DebitCardOperationsService.java:121-154 | after a shortfall on the source card's primary account, a card with no associated accounts reports the empty-list message, not the combined one |
| CardService.DebitCardService.constructor | src/main/java/nnt_data/bankaccount_microservice/domain/service/DebitCardOperationsService.java:56-79 | the service starts with the given engine and cards |
| CardService.DebitCardService.CreateDebitCard | src/main/java/nnt_data/bankaccount_microservice/domain/service/DebitCardOperationsService.java:56-79 | the result and the new card store are exactly those of `CreateDebitCardSpec` |
| CardService.DebitCardService.AssociateAccountToCard | src/main/java/nnt_data/bankaccount_microservice/domain/service/DebitCardOperationsService.java:95-119 | the result and the new card store are exactly those of `AssociateSpec` |
| CardService.DebitCardService.TryWithAssociatedAccounts | src/main/java/nnt_data/bankaccount_microservice/domain/service/DebitCardOperationsService.java:218-245 | the loop over the associated accounts ends with the result and stores of `TryAssociated` |
| CardService.DebitCardService.ProcessDebitCardTransaction | src/main/java/nnt_data/bankaccount_microservice/domain/service/DebitCardOperationsService.java:145-190 | the result and stores are exactly those of `ProcessCardSpec` |
| CardService.DebitCardService.ProcessDebitCardTransactionFromId | src/main/java/nnt_data/bankaccount_microservice/domain/service/DebitCardOperationsService.java:121-154 | the result and stores are exactly those of `ProcessFromIdSpec` |
| Balances.CalculateDailyBalance | src/main/java/nnt_data/bankaccount_microservice/domain/utils/BalanceCalculator.java:9-19 | the replayed balance is the old one, or moved by the amount in one direction; the only failure is a null-pointer error |
| Balances.TransferReplayMovesAmount | src/main/java/nnt_data/bankaccount_microservice/domain/utils/BalanceCalculator.java:9-19 | replayed on both of its accounts, a transfer debits the source and credits the destination by the same amount |
| Balances.DestinylessReplayedAsDebit | src/main/java/nnt_data/bankaccount_microservice/domain/utils/BalanceCalculator.java:9-19 | a transaction with no destination is replayed on its own account as a debit whatever its type, a deposit included |
| Balances.UnrelatedTransactionReplay | src/main/java/nnt_data/bankaccount_microservice/domain/utils/BalanceCalculator.java:9-19 | a transfer between other accounts leaves the balance; a destination-less one of another account fails |
| Balances.SelfTransferReplayFollowsType | src/main/java/nnt_data/bankaccount_microservice/domain/utils/BalanceCalculator.java:9-19 | a self-transfer moves any replayed account's balance by its type |
| Reporting.RoundHalfUpNearest | src/main/java/nnt_data/bankaccount_microservice/domain/service/ReportingService.java:97-98 | the rounded quotient is within half the divisor of the exact one, and a tie rounds away from zero |
| Reporting.RoundHalfUpExact | src/main/java/nnt_data/bankaccount_microservice/domain/service/ReportingService.java:97-98 | an exact multiple divides back to its factor |
| Reporting.DivideHalfUp | src/main/java/nnt_data/bankaccount_microservice/domain/service/ReportingService.java:97-98 | division fails exactly when the divisor is zero, with the arithmetic error "/ by zero"; otherwise it is a nearest quotient |
| Reporting.OnDay | src/main/java/nnt_data/bankaccount_microservice/domain/service/ReportingService.java:82-84 | the transactions selected for a day are exactly the stored transactions dated on that day |
| Reporting.Replay | src/main/java/nnt_data/bankaccount_microservice/domain/service/ReportingService.java:86-91 | replaying a day's transactions fails only with a null-pointer error |
| Reporting.QuietDaysSum | src/main/java/nnt_data/bankaccount_microservice/domain/service/ReportingService.java:80-95 | with no transaction in the period, the daily sum is the balance times the number of days |
| Reporting.QuietPeriodAverage | src/main/java/nnt_data/bankaccount_microservice/domain/service/ReportingService.java:74-99 | with no transaction in the period, the average is the opening balance |
| Reporting.EmptyPeriodAverage | src/main/java/nnt_data/bankaccount_microservice/domain/service/ReportingService.java:74-99 | a period ending the day before it starts divides by zero days and fails with "/ by zero"; one ending earlier averages to 0 |
| Reporting.ApplyDailyTransactions | src/main/java/nnt_data/bankaccount_microservice/domain/service/ReportingService.java:86-91 | the loop over a day's transactions computes `Replay` |
| Reporting.CalculateSalaryAverage | src/main/java/nnt_data/bankaccount_microservice/domain/service/ReportingService.java:74-99 | the day loop computes `AverageSpec`: the sum of the end-of-day balances divided, rounding half up, by the number of days |
| Reporting.Selected | src/main/java/nnt_data/bankaccount_microservice/domain/service/ReportingService.java:132-163 | the selected commissions are exactly the account's commissions strictly inside the window, and none when none is |
| Reporting.CommissionReportSpec | src/main/java/nnt_data/bankaccount_microservice/domain/service/ReportingService.java:132-163 | the report names the account and the period, counts at most every stored commission, and is empty when none lies in the window |
| Reporting.CommissionReportAppend | src/main/java/nnt_data/bankaccount_microservice/domain/service/ReportingService.java:132-163 | storing one more commission adds its amount and one to the count exactly when it lies in the window |
| Reporting.TotalAtLeastCount | src/main/java/nnt_data/bankaccount_microservice/domain/service/ReportingService.java:132-163 | with positive commissions, the total is at least the count |
| Reporting.LinkedReportTotalAtLeastCount | src/main/java/nnt_data/bankaccount_microservice/domain/service/ReportingService.java:132-163 | on the posting engine's linked stores, every commission report's total is at least its count |
| Reporting.PostingNeverLowersReport | src/main/java/nnt_data/bankaccount_microservice/domain/service/ReportingService.java:132-163 | a posting never lowers an account's commission count or total over any window |
| Reporting.PositiveCommissionNeverLowersReport | src/main/java/nnt_data/bankaccount_microservice/domain/service/ReportingService.java:132-163 | storing one more commission with a positive amount never lowers the total and raises the count by at most one |
| Reporting.InsertNewestFirst | src/main/java/nnt_data/bankaccount_microservice/domain/service/ReportingService.java:182-184 | the insertion adds exactly one occurrence of the transaction |
| Reporting.InsertKeepsNewestFirst | src/main/java/nnt_data/bankaccount_microservice/domain/service/ReportingService.java:182-184 | inserting into a newest-first list keeps it newest-first |
| Reporting.SortNewestFirst | src/main/java/nnt_data/bankaccount_microservice/domain/service/ReportingService.java:182-184 | the sort is a permutation and is newest-first |
| Reporting.SourcedFrom | src/main/java/nnt_data/bankaccount_microservice/domain/service/ReportingService.java:170-180 | the gathered transactions are exactly the stored ones drawn on one of the card's accounts |
| Reporting.OwnTransactions | src/main/java/nnt_data/bankaccount_microservice/domain/service/ReportingService.java:178 | the transactions fetched for one account are exactly the stored ones drawn on it |
| Reporting.MadeByCard | src/main/java/nnt_data/bankaccount_microservice/domain/service/ReportingService.java:181 | exactly the transactions flagged as card payments are kept |
| Reporting.NewestPrefix | src/main/java/nnt_data/bankaccount_microservice/domain/service/ReportingService.java:185 | a prefix of a newest-first list is newest-first and part of it |
| Reporting.LastTenSpec | src/main/java/nnt_data/bankaccount_microservice/domain/service/ReportingService.java:165-205 | an unknown card gives its message; otherwise the report keeps the ten newest candidates (or all of them if fewer), newest first, and counts them |
| Reporting.LastTenReportsCardTransactions | src/main/java/nnt_data/bankaccount_microservice/domain/service/ReportingService.java:165-205 | every reported transaction is a stored card payment drawn on one of the card's accounts, and the newest and oldest dates are those of the first and last kept |
| Reporting.LastTenOmitsOnlyOlder | src/main/java/nnt_data/bankaccount_microservice/domain/service/ReportingService.java:165-205 | every stored card payment drawn on one of the card's accounts that the report leaves out is no newer than the oldest transaction it keeps |

## Left out

- Kafka listeners, REST controllers, mappers and the persistence entities are not modelled. Repositories are values, and reactive pipelines are modelled as their sequential order of effects. Two operations run lookups concurrently in the source: card creation checks the associated accounts through `Flux.flatMap`, and the card-to-card payment looks up both cards through `Mono.zip`. The model takes those lookups in list order and the source card first, so when several fail it names one refusal where the source reports whichever lookup fails first.
- Concurrency is not modelled. Neither is a partial failure between two repository writes: a posting's account saves and its record saves happen together or not at all.
- The system clock is a parameter (`now`). All attempts of one card transaction share one `now`.
- The customer's credit-card check is a remote HTTP call. It is a boolean input (`hasCreditCard`).
- Dates are `Instant(day, millis)`, where `day` is the local day number of the server's zone. The Gregorian calendar fields come from that day number. Time zones and daylight saving are not modelled.
- The date-conversion helper is not part of this model. Converting a date to a local day is assumed to take the instant's day and to fail on `null`. `new Date(0)` is taken as `Instant(0, 0)`, which assumes a UTC zone.
- `BigDecimal` amounts are `int` minor units of one common scale. Scale and precision are not modelled. Division rounds half up to a whole unit.
- A transaction's `sourceAccountId` and `amount` and an account's `balance` are taken to be non-null. Null `transactionMovements`, `movementLimit` and `feePerTransaction` are modelled.
- The debit-card operations take card ids, destination card ids, a card's primary account id and each associated account id to be non-null. The source's failures on a null id are not modelled: the repository's "The given id must not be null" error, the null-pointer error for a null element of the associated list, and the null-pointer error when association compares against a stored card with no primary account.
- Stored transaction ids are the store position. A caller-supplied id is not modelled, and neither is overwriting an existing record by id.
- Card ids are supplied by the caller. Looking a card up by number returns the first match, where the database would fail on duplicate numbers.
- The in-place mutation of the card's fixed-size associated list after its first association is not modelled: the list is a value.
- `Domain.ParseInt`: reads ASCII digits only; other Unicode digits that Java accepts are not modelled.
- The "Tipo de cuenta no soportado" branches cannot be reached, since the account type has three values and a null type fails earlier with a null-pointer error. They are not modelled.
- The live savings account validator and the live base strategy are not part of this model. The factories dispatch to the savings validator and base strategy of the older package.
- The older package's strategies are modelled composed with the live Checking and FixedTerm account and transaction validators and with the older package's Savings account validator; the older package's own copies of the other validators are not modelled separately.
- `minimumDailyAverage` is not part of this model.
- The average-balance report's wrapper (`generateResumeOfAvarageBalanceForPeriodByAccountId`) is left out: its repository query and error rewrapping are I/O. Only `calculateSalaryAverage` is modelled.
- The repositories' `Between` queries are modelled with exclusive bounds at both ends.
- Account validators write defaults into the request object. They are modelled on values that return the written account, and the strategies drop that written state when they refuse an account.
- The fixed-term transaction validator's history is keyed by the transaction's source account id.
- A self-transfer is modelled by the order of the two map updates: the destination copy, written last, wins.
- The mapping of stored transactions to domain transactions in the last-ten report is the identity, and its order is the list order.
- `Reporting.Replay`: fails on a null type or destination exactly where the replay consults it. A day's transactions keep their store order.

## Findings

| source | as written | input that shows it | evidently intended | confidence | as-written member | corrected member |
|---|---|---|---|---|---|---|
| src/main/java/nnt_data/bankaccount_microservice/domain/service/TransactionOperationsService.java:217-228, src/main/java/nnt_data/bankaccount_microservice/domain/service/TransactionOperationsService.java:251-262, src/main/java/nnt_data/bankaccount_microservice/domain/service/TransactionOperationsService.java:266-272, src/main/java/nnt_data/bankaccount_microservice/domain/service/TransactionOperationsService.java:119-123 | a transfer saves both accounts and then stores its transaction, but its commission record is built from the request converted before saving, so it takes that request's id, which is null for a new request | a new transfer (no id supplied) from an account at its movement limit with a positive fee: the transaction is stored, and the commission record saved for it has no transaction id | the commission record refers to the stored transfer, as for a single-account posting | not executed | PostingProperties.TransferCommitAsWrittenUnlinked | PostingProperties.CommitPreservesLinked |

