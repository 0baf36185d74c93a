/**
 * What a posting promises, proved about `PostSpec`: the single-account
 * balance formula (the fee is taken from deposits too), conservation of
 * money across a transfer, the order of the rejection checks, and the
 * integrity of the logs, meaning every commission record points at the
 * stored transaction it was charged for.
 */
module PostingProperties {
  import opened Domain
  import opened TransactionRules
  import opened Posting

  // ---------------------------------------------------------------- log integrity

  /** A commission record refers to a stored transaction of the same account and date, and charges something. */
  predicate CommissionLinked(c: Commission, transactions: seq<Transaction>)
  {
    && c.transactionId.Some?
    && c.transactionId.value < |transactions|
    && transactions[c.transactionId.value].sourceAccountId == c.accountId
    && transactions[c.transactionId.value].date == Some(c.dateTime)
    && c.amount > 0
  }

  /** Stored transactions carry their position as id, and every commission record is linked. */
  predicate Linked(s: Stores)
  {
    && (forall i :: 0 <= i < |s.transactions| ==> s.transactions[i].transactionId == Some(i))
    && (forall j :: 0 <= j < |s.commissions| ==> CommissionLinked(s.commissions[j], s.transactions))
  }

  lemma CommitPreservesLinked(s: Stores, accounts: map<string, Account>, t: Transaction, commission: int)
    requires Linked(s) && t.date.Some?
    ensures Linked(Commit(s, accounts, t, commission).stores)
  {
    var s' := Commit(s, accounts, t, commission).stores;
    assert forall i :: 0 <= i < |s.transactions| ==> s'.transactions[i] == s.transactions[i];
    forall j | 0 <= j < |s'.commissions|
      ensures CommissionLinked(s'.commissions[j], s'.transactions)
    {
      if j < |s.commissions| {
        assert s'.commissions[j] == s.commissions[j];
        assert CommissionLinked(s.commissions[j], s.transactions);
      }
    }
  }

  /** Every posting, accepted or rejected, keeps the logs linked. */
  lemma PostPreservesLinked(s: Stores, tx: Transaction, now: Instant)
    requires Linked(s)
    ensures Linked(PostSpec(s, tx, now).stores)
  {
    var p := PostSpec(s, tx, now);
    if p.result.Ok? {
      var t := Stamp(tx, now);
      if t.mode == SingleAccount {
        var a := s.accounts[t.sourceAccountId];
        var res := CalculateBalanceWithCommission(a, t).value;
        CommitPreservesLinked(s, s.accounts[t.sourceAccountId := Counted(a).(balance := res.newBalance)], t, res.commissionApplied);
      } else {
        var c := CommissionAmount(s.accounts[t.sourceAccountId]).value;
        CommitPreservesLinked(s, p.stores.accounts, t, c.value);
      }
    }
  }

  // ---------------------------------------------------------------- the transfer record as written

  /**
   * A transfer's writes as the service performs them: the accounts are saved
   * and the transaction is stored under a fresh id, but the commission record
   * is built from the transaction before it was stored, so it carries the
   * request's transaction id instead of the stored one.
   */
  function TransferCommitAsWritten(s: Stores, accounts: map<string, Account>, t: Transaction, commission: int): (p: Posted)
    requires t.date.Some?
    ensures p == Commit(s, accounts, t, commission).(stores := p.stores)
    ensures p.stores.accounts == accounts && p.stores.transactions == s.transactions + [p.result.value]
    ensures commission > 0 ==> p.stores.commissions == s.commissions + [CommissionRecord(t, commission)]
    ensures commission <= 0 ==> p.stores.commissions == s.commissions
  {
    var record := t.(transactionId := Some(|s.transactions|));
    var commissions := if commission > 0 then s.commissions + [CommissionRecord(t, commission)] else s.commissions;
    Posted(Ok(record), Stores(accounts, s.transactions + [record], commissions))
  }

  /**
   * As written, a new (id-less) transfer that is charged a commission is
   * stored, yet its commission record points at no transaction; recording it
   * with `Commit` keeps every commission linked.
   */
  lemma TransferCommitAsWrittenUnlinked(s: Stores, accounts: map<string, Account>, t: Transaction, commission: int)
    requires t.date.Some? && t.transactionId.None? && commission > 0
    ensures var written := TransferCommitAsWritten(s, accounts, t, commission);
      && written.stores.transactions == s.transactions + [written.result.value]
      && written.stores.commissions[|written.stores.commissions| - 1].transactionId.None?
      && !Linked(written.stores)
    ensures Linked(s) ==> Linked(Commit(s, accounts, t, commission).stores)
  {
    var s' := TransferCommitAsWritten(s, accounts, t, commission).stores;
    assert s'.commissions[|s'.commissions| - 1].transactionId.None?;
    if Linked(s) {
      CommitPreservesLinked(s, accounts, t, commission);
    }
  }

  // ---------------------------------------------------------------- single-account mode

  /** The amount's signed effect on the balance in single-account mode. */
  function SignedAmount(t: Transaction): int
  {
    if t.txType == Some(Deposit) then t.amount else -t.amount
  }

  /**
   * An accepted single-account posting takes the commission (the fee once
   * the counter has reached the limit, else 0) and applies the amount, bumps
   * the counter, touches no other account, and logs a commission exactly
   * when one was charged.
   */
  lemma SingleAccountPosting(s: Stores, tx: Transaction, now: Instant)
    requires PostSpec(s, tx, now).result.Ok? && tx.mode == SingleAccount
    ensures tx.sourceAccountId in s.accounts
    ensures var a := s.accounts[tx.sourceAccountId];
      && CommissionAmount(a).Ok? && CommissionAmount(a).value.Some?
      && a.transactionMovements.Some? && tx.txType.Some?
    ensures var a := s.accounts[tx.sourceAccountId];
      var c := CommissionAmount(a).value.value;
      var p := PostSpec(s, tx, now);
      && p.stores.accounts == s.accounts[tx.sourceAccountId := Counted(a).(balance := a.balance - c + SignedAmount(tx))]
      && (c > 0 ==> p.stores.commissions == s.commissions + [Commission(Some(|s.transactions|), tx.sourceAccountId, c, now)])
      && (c <= 0 ==> p.stores.commissions == s.commissions)
  {
    var t := Stamp(tx, now);
    var a := s.accounts[t.sourceAccountId];
    assert CalculateBalanceWithCommission(a, t).Ok?;
  }

  /**
   * A single-account withdrawal that the balance minus the commission does
   * not cover is refused with "Saldo insuficiente" and changes nothing.
   */
  lemma SingleWithdrawalInsufficient(s: Stores, tx: Transaction, now: Instant, c: int)
    requires tx.sourceAccountId in s.accounts && tx.mode == SingleAccount && tx.txType == Some(Withdrawal)
    requires ValidateTransaction(Context(s.accounts[tx.sourceAccountId], Stamp(tx, now)), s.transactions, now).Ok?
    requires CommissionAmount(s.accounts[tx.sourceAccountId]) == Ok(Some(c))
    requires s.accounts[tx.sourceAccountId].balance - c < tx.amount
    ensures PostSpec(s, tx, now) == Posted(Err(IllegalArgumentError(InsufficientMessage)), s)
  {
    var t := Stamp(tx, now);
    assert CalculateBalanceWithCommission(s.accounts[t.sourceAccountId], t) == Err(IllegalArgumentError(InsufficientMessage));
  }

  /** A checking account at its free-movement limit, holding 200 with a fee of 5. */
  function FeeDueAccount(): Account
  {
    Account(Some("acc-1"), Some(Checking), 200, Some("cust-1"), Some(Personal), Some(Regular), None,
            Some(0), Some(5), Some(3), None, Some(3), None)
  }

  /** A deposit of 100 into that account leaves 200 + 100 - 5 = 295: the fee is charged on deposits too. */
  lemma SingleDepositChargesFee(now: Instant)
    ensures var s := Stores(map["acc-1" := FeeDueAccount()], [], []);
      var tx := Transaction(None, None, Some(Deposit), 100, "acc-1", None, SingleAccount, None);
      var p := PostSpec(s, tx, now);
      && p.result.Ok?
      && p.stores.accounts["acc-1"].balance == 295
      && p.stores.accounts["acc-1"].transactionMovements == Some(4)
      && p.stores.commissions == [Commission(Some(0), "acc-1", 5, now)]
  {
    var s := Stores(map["acc-1" := FeeDueAccount()], [], []);
    var tx := Transaction(None, None, Some(Deposit), 100, "acc-1", None, SingleAccount, None);
    var t := Stamp(tx, now);
    assert ValidateTransaction(Context(FeeDueAccount(), t), [], now) == Ok(Context(FeeDueAccount(), t));
    assert CalculateBalanceWithCommission(FeeDueAccount(), t) == Ok(BalanceResult(295, 5));
  }

  // ---------------------------------------------------------------- transfers

  /**
   * An accepted transfer between two distinct accounts moves money between
   * them and to the bank's fee only: their joint balance drops by exactly
   * the commission, the source's counter goes up by one, the destination's
   * counter is untouched, and no third account changes.
   */
  lemma TransferConservation(s: Stores, tx: Transaction, now: Instant)
    requires PostSpec(s, tx, now).result.Ok? && tx.mode != SingleAccount
    requires tx.destinyAccountId.Some? && tx.destinyAccountId.value != tx.sourceAccountId
    ensures tx.sourceAccountId in s.accounts && tx.destinyAccountId.value in s.accounts
    ensures var src := s.accounts[tx.sourceAccountId];
      CommissionAmount(src).Ok? && CommissionAmount(src).value.Some? && src.transactionMovements.Some?
    ensures var p := PostSpec(s, tx, now);
      var srcId := tx.sourceAccountId;
      var dstId := tx.destinyAccountId.value;
      var src := s.accounts[srcId];
      var dst := s.accounts[dstId];
      var c := CommissionAmount(src).value.value;
      && p.stores.accounts[srcId].balance + p.stores.accounts[dstId].balance == src.balance + dst.balance - c
      && p.stores.accounts[srcId].transactionMovements == Some(Inc32(src.transactionMovements.value))
      && p.stores.accounts[dstId].transactionMovements == dst.transactionMovements
      && (forall k :: k in s.accounts && k != srcId && k != dstId ==> p.stores.accounts[k] == s.accounts[k])
      && (c > 0 <==> |p.stores.commissions| == |s.commissions| + 1)
  {
    var t := Stamp(tx, now);
    var p := PostSpec(s, tx, now);
    assert p == PostTransfer(s, t);
    var c := CommissionAmount(s.accounts[t.sourceAccountId]).value;
    if t.txType == Some(Deposit) {
      assert p == HandleDeposit(s, t, c);
    } else {
      assert p == HandleWithdrawal(s, t, c);
    }
  }

  /**
   * A transfer-mode withdrawal checks the destination's funds before the
   * source's ability to pay the commission: when both fall short, the
   * destination's message wins.
   */
  lemma TransferWithdrawalCheckOrder(s: Stores, t: Transaction, c: int)
    requires TransferReady(s, t)
    requires s.accounts[t.destinyAccountId.value].balance < t.amount
    requires s.accounts[t.sourceAccountId].balance < c
    ensures HandleWithdrawal(s, t, Some(c)) == Posted(Err(IllegalArgumentError(DestinyInsufficientMessage)), s)
  {
  }

  /**
   * A self-transfer (source equal to destination) is accepted, but the
   * destination's copy is written last: the account ends up credited with
   * the amount and its counter unchanged.
   */
  lemma SelfTransferDepositLastWriteWins(s: Stores, t: Transaction, c: int)
    requires TransferReady(s, t) && t.destinyAccountId == Some(t.sourceAccountId)
    requires s.accounts[t.sourceAccountId].balance >= t.amount + c
    ensures var p := HandleDeposit(s, t, Some(c));
      var a := s.accounts[t.sourceAccountId];
      p.result.Ok? && p.stores.accounts[t.sourceAccountId] == a.(balance := a.balance + t.amount)
  {
  }
}
