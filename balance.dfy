/**
 * BalanceCalculator: how the reports replay one stored transaction onto the
 * running balance of one account. The replay looks only at the two account
 * ids: a transaction drawn on the account debits it whatever its type, one
 * towards it credits it, and only a transaction whose destination is its
 * own source consults the type.
 */
module Balances {
  import opened Domain

  /** calculateDailyBalance; a null type or destination that must be compared fails as in Java. */
  function CalculateDailyBalance(balance: int, t: Transaction, accountId: string): (r: Result<int>)
    ensures r.Err? ==> r.error == NullPointerError
    ensures r.Ok? ==> r.value == balance || r.value == balance + t.amount || r.value == balance - t.amount
  {
    if t.destinyAccountId == Some(t.sourceAccountId) then
      match t.txType
      case None => Err(NullPointerError)
      case Some(Deposit) => Ok(balance + t.amount)
      case Some(Withdrawal) => Ok(balance - t.amount)
    else if t.sourceAccountId == accountId then
      Ok(balance - t.amount)
    else if t.destinyAccountId.None? then
      Err(NullPointerError)
    else if t.destinyAccountId.value == accountId then
      Ok(balance + t.amount)
    else
      Ok(balance)
  }

  /**
   * Replayed on both of its accounts, a transfer between two distinct
   * accounts moves its amount from the source to the destination whatever
   * its type: the two replays cancel out.
   */
  lemma TransferReplayMovesAmount(t: Transaction, sourceBalance: int, destinyBalance: int)
    requires t.destinyAccountId.Some? && t.destinyAccountId.value != t.sourceAccountId
    ensures CalculateDailyBalance(sourceBalance, t, t.sourceAccountId) == Ok(sourceBalance - t.amount)
    ensures CalculateDailyBalance(destinyBalance, t, t.destinyAccountId.value) == Ok(destinyBalance + t.amount)
    ensures CalculateDailyBalance(sourceBalance, t, t.sourceAccountId).value - sourceBalance
          + CalculateDailyBalance(destinyBalance, t, t.destinyAccountId.value).value - destinyBalance == 0
  {
  }

  /** A transaction with no destination that is drawn on the account debits it, whatever its type, even a deposit. */
  lemma DestinylessReplayedAsDebit(t: Transaction, balance: int)
    requires t.destinyAccountId.None?
    ensures CalculateDailyBalance(balance, t, t.sourceAccountId) == Ok(balance - t.amount)
  {
  }

  /**
   * A transaction between two other accounts leaves the balance as it is,
   * while one without destination on another account cannot be replayed at
   * all.
   */
  lemma UnrelatedTransactionReplay(t: Transaction, balance: int, accountId: string)
    requires t.sourceAccountId != accountId && t.destinyAccountId != Some(t.sourceAccountId)
    ensures t.destinyAccountId.Some? && t.destinyAccountId.value != accountId ==>
      CalculateDailyBalance(balance, t, accountId) == Ok(balance)
    ensures t.destinyAccountId.None? ==> CalculateDailyBalance(balance, t, accountId) == Err(NullPointerError)
  {
  }

  /**
   * A self-transfer replays as a single-account posting of its type would
   * move the balance, on whichever account it is replayed, its own or not.
   */
  lemma SelfTransferReplayFollowsType(t: Transaction, balance: int, accountId: string)
    requires t.destinyAccountId == Some(t.sourceAccountId) && t.txType.Some?
    ensures CalculateDailyBalance(balance, t, accountId)
         == Ok(if t.txType == Some(Deposit) then balance + t.amount else balance - t.amount)
  {
  }
}
