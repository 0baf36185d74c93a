/**
 * The posting engine as the service runs it: an object holding the account
 * repository and the two logs, whose `Post` overwrites the affected
 * accounts and appends the records (TransactionOperationsService). Each
 * method is proved to leave exactly the stores the matching function of
 * `Posting` describes, and `Post` keeps the logs linked.
 */
module Engine {
  import opened Domain
  import opened TransactionRules
  import opened Posting
  import opened PostingProperties

  class PostingEngine {
    var accounts: map<string, Account>
    var transactions: seq<Transaction>
    var commissions: seq<Commission>

    function Snapshot(): Stores
      reads this
    {
      Stores(accounts, transactions, commissions)
    }

    /** The logs are linked: ids are positions and commissions point at their transaction. */
    ghost predicate Valid()
      reads this
    {
      Linked(Snapshot())
    }

    /** An engine over the given accounts, with empty logs. */
    constructor (initialAccounts: map<string, Account>)
      ensures Snapshot() == Stores(initialAccounts, [], [])
      ensures Valid()
    {
      accounts := initialAccounts;
      transactions := [];
      commissions := [];
    }

    /**
     * createTransaction: stamp the request, find and validate the source
     * account, then post in the requested mode. A rejected posting writes
     * nothing.
     */
    method Post(tx: Transaction, now: Instant) returns (r: Result<Transaction>)
      requires Valid()
      modifies this
      ensures Posted(r, Snapshot()) == PostSpec(old(Snapshot()), tx, now)
      ensures Valid()
    {
      ghost var before := Snapshot();
      var t := Stamp(tx, now);
      if t.sourceAccountId !in accounts {
        return Err(IllegalArgumentError(SourceNotFoundMessage(t.sourceAccountId)));
      }
      var validated := ValidateTransaction(Context(accounts[t.sourceAccountId], t), transactions, now);
      if validated.Err? {
        return Err(validated.error);
      }
      if t.mode == SingleAccount {
        r := PostSingleAccount(t);
      } else {
        r := PostBetweenAccounts(t);
      }
      PostPreservesLinked(before, tx, now);
    }

    /** Append the transaction record and, when a fee was charged, its commission record. */
    method Record(t: Transaction, commission: int) returns (r: Result<Transaction>)
      requires t.date.Some?
      modifies this
      ensures Posted(r, Snapshot()) == Commit(old(Snapshot()), old(accounts), t, commission)
    {
      var record := t.(transactionId := Some(|transactions|));
      transactions := transactions + [record];
      if commission > 0 {
        commissions := commissions + [CommissionRecord(record, commission)];
      }
      r := Ok(record);
    }

    /** processSingleAccountBalance. */
    method PostSingleAccount(t: Transaction) returns (r: Result<Transaction>)
      requires t.sourceAccountId in accounts && t.date.Some?
      modifies this
      ensures Posted(r, Snapshot()) == PostSingle(old(Snapshot()), t)
    {
      var account := accounts[t.sourceAccountId];
      var calculated := CalculateBalanceWithCommission(account, t);
      if calculated.Err? {
        return Err(calculated.error);
      }
      var result := calculated.value;
      account := account.(balance := result.newBalance);
      account := account.(transactionMovements := Some(Inc32(account.transactionMovements.value)));
      accounts := accounts[t.sourceAccountId := account];
      r := Record(t, result.commissionApplied);
    }

    /** processDualAccountTransaction with handleDepositTransaction and handleWithdrawalTransaction. */
    method PostBetweenAccounts(t: Transaction) returns (r: Result<Transaction>)
      requires t.sourceAccountId in accounts && t.date.Some?
      modifies this
      ensures Posted(r, Snapshot()) == PostTransfer(old(Snapshot()), t)
    {
      if t.destinyAccountId.None? {
        return Err(IllegalArgumentError(NullIdMessage));
      }
      var destinyId := t.destinyAccountId.value;
      if destinyId !in accounts {
        return Err(IllegalArgumentError(DestinyNotFoundMessage(destinyId)));
      }
      var source := accounts[t.sourceAccountId];
      var destiny := accounts[destinyId];
      var commission := CommissionAmount(source);
      if commission.Err? {
        return Err(commission.error);
      }
      match t.txType {
        case None =>
          return Err(Failure(IllegalState, UnsupportedTypeMessage));
        case Some(Deposit) =>
          if commission.value.None? {
            return Err(NullPointerError);
          }
          var totalDebit := t.amount + commission.value.value;
          if source.balance < totalDebit {
            return Err(IllegalArgumentError(TransferDepositInsufficientMessage));
          }
          source := source.(balance := source.balance - totalDebit);
          destiny := destiny.(balance := destiny.balance + t.amount);
          source := source.(transactionMovements := Some(Inc32(source.transactionMovements.value)));
          accounts := accounts[t.sourceAccountId := source];
          accounts := accounts[destinyId := destiny];
          r := Record(t, commission.value.value);
        case Some(Withdrawal) =>
          if destiny.balance < t.amount {
            return Err(IllegalArgumentError(DestinyInsufficientMessage));
          }
          if commission.value.None? {
            return Err(NullPointerError);
          }
          var fee := commission.value.value;
          if source.balance < fee {
            return Err(IllegalArgumentError(CommissionInsufficientMessage));
          }
          source := source.(balance := source.balance + t.amount - fee);
          destiny := destiny.(balance := destiny.balance - t.amount);
          source := source.(transactionMovements := Some(Inc32(source.transactionMovements.value)));
          accounts := accounts[t.sourceAccountId := source];
          accounts := accounts[destinyId := destiny];
          r := Record(t, fee);
      }
    }
  }
}
