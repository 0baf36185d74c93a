/**
 * The per-account-type transaction rules consulted before every posting
 * (the transaction validators, TransactionValidator and the transaction
 * half of ValidatorFactory). Each rule reads the account, the proposed
 * transaction and the stored transactions, and either accepts, returning
 * the context it was given, or rejects with the source's message.
 */
module TransactionRules {
  import opened Domain

  /** The account and the proposed transaction (TransactionContext). */
  datatype Context = Context(account: Account, transaction: Transaction)

  const LimitExceededMessage: string := "El número de transacciones ha superado el límite permitido"
  const ZeroBalanceWithdrawalMessage: string := "No se puede realizar retiros con saldo cero"
  const OneMovementPerDayMessage: string := "Solo se permite un movimiento por día"
  const MonthlyLimitMessage: string := "Se ha excedido el límite de movimientos mensuales"

  function WrongDayMessage(allowedDay: string): string
  {
    "Solo se permiten transacciones el día " + allowedDay
  }

  // ---------------------------------------------------------------- movement limit

  /** TransactionValidator.hasExceededLimit: the counter may not have reached the limit. */
  function HasExceededLimit(account: Account): (r: Result<bool>)
    ensures account.transactionMovements.None? || account.movementLimit.None? ==> r == Err(NullPointerError)
    ensures account.transactionMovements.Some? && account.movementLimit.Some? ==>
      (r.Err? <==> account.transactionMovements.value >= account.movementLimit.value)
    ensures r.Err? && account.transactionMovements.Some? && account.movementLimit.Some? ==>
      r.error == IllegalArgumentError(LimitExceededMessage)
    ensures r.Ok? ==> r == Ok(true)
  {
    if account.transactionMovements.None? || account.movementLimit.None? then Err(NullPointerError)
    else if account.transactionMovements.value >= account.movementLimit.value then
      Err(IllegalArgumentError(LimitExceededMessage))
    else Ok(true)
  }

  // ---------------------------------------------------------------- stored-history queries

  /** Some stored transaction of the account has no date (the calendar lookup would fail). */
  predicate HasUndatedFor(stored: seq<Transaction>, accountId: string)
  {
    exists i :: 0 <= i < |stored| && stored[i].sourceAccountId == accountId && stored[i].date.None?
  }

  /** Every stored transaction of the account carries a date. */
  predicate AllDatedFor(stored: seq<Transaction>, accountId: string)
  {
    forall i :: 0 <= i < |stored| && stored[i].sourceAccountId == accountId ==> stored[i].date.Some?
  }

  /** The number of stored transactions of the account dated on the same calendar day as `date`. */
  function SameDayCount(stored: seq<Transaction>, accountId: string, date: Instant): (n: nat)
    requires AllDatedFor(stored, accountId)
    ensures n <= |stored|
    ensures n == 0 <==> forall i :: 0 <= i < |stored| && stored[i].sourceAccountId == accountId ==>
                                    !SameCalendarDay(stored[i].date.value, date)
  {
    if stored == [] then 0
    else
      var last := stored[|stored| - 1];
      var earlier := stored[..|stored| - 1];
      assert forall i :: 0 <= i < |earlier| ==> earlier[i] == stored[i];
      SameDayCount(earlier, accountId, date)
      + (if last.sourceAccountId == accountId && SameCalendarDay(last.date.value, date) then 1 else 0)
  }

  /** Does `t` count toward the account's movements of the month containing `now`? */
  predicate InMonthFor(t: Transaction, accountId: string, now: Instant)
  {
    t.sourceAccountId == accountId && t.date.Some? && SameCalendarMonth(t.date.value, now)
  }

  /** The number of stored transactions of the account dated in the calendar month of `now`. */
  function MonthCount(stored: seq<Transaction>, accountId: string, now: Instant): (n: nat)
    ensures n <= |stored|
    ensures n == 0 <==> forall i :: 0 <= i < |stored| ==> !InMonthFor(stored[i], accountId, now)
  {
    if stored == [] then 0
    else
      var earlier := stored[..|stored| - 1];
      assert forall i :: 0 <= i < |earlier| ==> earlier[i] == stored[i];
      MonthCount(earlier, accountId, now)
      + (if InMonthFor(stored[|stored| - 1], accountId, now) then 1 else 0)
  }

  lemma {:induction false} MonthCountAppend(a: seq<Transaction>, b: seq<Transaction>, accountId: string, now: Instant)
    ensures MonthCount(a + b, accountId, now) == MonthCount(a, accountId, now) + MonthCount(b, accountId, now)
    decreases |b|
  {
    if b == [] {
      assert a + b == a;
    } else {
      var b' := b[..|b| - 1];
      MonthCountAppend(a, b', accountId, now);
      assert (a + b)[..|a + b| - 1] == a + b';
      assert (a + b)[|a + b| - 1] == b[|b| - 1];
    }
  }

  // ---------------------------------------------------------------- the three validators

  /**
   * FixedTermTransactionValidator.validate, with the history keyed by the
   * source account: no withdrawal from a non-positive balance, postings only
   * on the configured day of the month, and at most one posting per day.
   */
  function FixedTermValidate(ctx: Context, stored: seq<Transaction>): (r: Result<Context>)
    ensures r.Ok? ==> r.value == ctx
    ensures ctx.transaction.txType == Some(Withdrawal) && ctx.account.balance <= 0 ==>
      r == Err(IllegalArgumentError(ZeroBalanceWithdrawalMessage))
    ensures r.Ok? <==> FixedTermAdmits(ctx, stored)
    ensures ctx.transaction.date.Some? && ctx.account.allowedDayOfMonth.Some?
            && !(ctx.transaction.txType == Some(Withdrawal) && ctx.account.balance <= 0)
            && ParseInt(ctx.account.allowedDayOfMonth.value).Some?
            && ParseInt(ctx.account.allowedDayOfMonth.value).value != DayOfMonth(ctx.transaction.date.value)
            ==> r == Err(IllegalArgumentError(WrongDayMessage(ctx.account.allowedDayOfMonth.value)))
    ensures ctx.transaction.date.Some? && ctx.account.allowedDayOfMonth.Some?
            && !(ctx.transaction.txType == Some(Withdrawal) && ctx.account.balance <= 0)
            && ParseInt(ctx.account.allowedDayOfMonth.value) == Some(DayOfMonth(ctx.transaction.date.value))
            && AllDatedFor(stored, ctx.transaction.sourceAccountId)
            && SameDayCount(stored, ctx.transaction.sourceAccountId, ctx.transaction.date.value) > 0
            ==> r == Err(IllegalArgumentError(OneMovementPerDayMessage))
  {
    var account := ctx.account;
    var tx := ctx.transaction;
    if tx.txType == Some(Withdrawal) && account.balance <= 0 then
      Err(IllegalArgumentError(ZeroBalanceWithdrawalMessage))
    else if tx.date.None? then
      Err(NullPointerError)
    else
      var allowed := if account.allowedDayOfMonth.Some? then ParseInt(account.allowedDayOfMonth.value) else None;
      if allowed.None? then
        Err(ParseIntFailure(account.allowedDayOfMonth))
      else if DayOfMonth(tx.date.value) != allowed.value then
        Err(IllegalArgumentError(WrongDayMessage(account.allowedDayOfMonth.value)))
      else if HasUndatedFor(stored, tx.sourceAccountId) then
        Err(NullPointerError)
      else if SameDayCount(stored, tx.sourceAccountId, tx.date.value) > 0 then
        Err(IllegalArgumentError(OneMovementPerDayMessage))
      else
        Ok(ctx)
  }

  /** When the fixed-term rules accept a posting, stated without the check order. */
  predicate FixedTermAdmits(ctx: Context, stored: seq<Transaction>)
  {
    var tx := ctx.transaction;
    && !(tx.txType == Some(Withdrawal) && ctx.account.balance <= 0)
    && tx.date.Some?
    && ctx.account.allowedDayOfMonth.Some?
    && ParseInt(ctx.account.allowedDayOfMonth.value) == Some(DayOfMonth(tx.date.value))
    && forall i :: 0 <= i < |stored| && stored[i].sourceAccountId == tx.sourceAccountId ==>
         stored[i].date.Some? && !SameCalendarDay(stored[i].date.value, tx.date.value)
  }

  /**
   * SavingsTransactionValidator.validate: the account's postings in the
   * calendar month of `now` must stay below the monthly movement limit.
   */
  function SavingsValidate(ctx: Context, stored: seq<Transaction>, now: Instant): (r: Result<Context>)
    ensures r.Ok? ==> r.value == ctx
    ensures !HasUndatedFor(stored, ctx.transaction.sourceAccountId) && ctx.account.monthlyMovementLimit.Some? ==>
      (r.Ok? <==> MonthCount(stored, ctx.transaction.sourceAccountId, now) < ctx.account.monthlyMovementLimit.value)
    ensures r.Err? && r.error.kind != NullPointer ==> r.error == IllegalArgumentError(MonthlyLimitMessage)
    ensures r.Ok? ==> ctx.account.monthlyMovementLimit.Some? && !HasUndatedFor(stored, ctx.transaction.sourceAccountId)
  {
    var accountId := ctx.transaction.sourceAccountId;
    if HasUndatedFor(stored, accountId) then Err(NullPointerError)
    else if ctx.account.monthlyMovementLimit.None? then Err(NullPointerError)
    else if MonthCount(stored, accountId, now) >= ctx.account.monthlyMovementLimit.value then
      Err(IllegalArgumentError(MonthlyLimitMessage))
    else Ok(ctx)
  }

  /** CheckingTransactionValidator.validate accepts every posting. */
  function CheckingValidate(ctx: Context): (r: Result<Context>)
    ensures r == Ok(ctx)
  {
    Ok(ctx)
  }

  // ---------------------------------------------------------------- dispatch

  datatype TransactionValidatorKind =
    | SavingsTransactionValidator
    | FixedTermTransactionValidator
    | CheckingTransactionValidator

  /**
   * ValidatorFactory.getTransactionValidator: one validator per account
   * type. The enum has no fourth value, so the "unsupported type" branch
   * can only be reached through a null type, which fails in the switch.
   */
  function GetTransactionValidator(account: Account): (r: Result<TransactionValidatorKind>)
    ensures account.accountType == Some(Savings) <==> r == Ok(SavingsTransactionValidator)
    ensures account.accountType == Some(FixedTerm) <==> r == Ok(FixedTermTransactionValidator)
    ensures account.accountType == Some(Checking) <==> r == Ok(CheckingTransactionValidator)
    ensures account.accountType.None? <==> r == Err(NullPointerError)
  {
    match account.accountType
    case None => Err(NullPointerError)
    case Some(Savings) => Ok(SavingsTransactionValidator)
    case Some(FixedTerm) => Ok(FixedTermTransactionValidator)
    case Some(Checking) => Ok(CheckingTransactionValidator)
  }

  function RunValidator(kind: TransactionValidatorKind, ctx: Context, stored: seq<Transaction>, now: Instant): Result<Context>
  {
    match kind
    case SavingsTransactionValidator => SavingsValidate(ctx, stored, now)
    case FixedTermTransactionValidator => FixedTermValidate(ctx, stored)
    case CheckingTransactionValidator => CheckingValidate(ctx)
  }

  /**
   * The validation step of a posting (TransactionOperationsService.validateTransaction):
   * select the validator by the account's type and run it.
   */
  function ValidateTransaction(ctx: Context, stored: seq<Transaction>, now: Instant): (r: Result<Context>)
    ensures r.Ok? ==> r.value == ctx
    ensures ctx.account.accountType.None? ==> r == Err(NullPointerError)
    ensures ctx.account.accountType == Some(Checking) ==> r == Ok(ctx)
    ensures ctx.account.accountType == Some(FixedTerm) ==> (r.Ok? <==> FixedTermAdmits(ctx, stored))
    ensures ctx.account.accountType == Some(Savings) && !HasUndatedFor(stored, ctx.transaction.sourceAccountId)
            && ctx.account.monthlyMovementLimit.Some? ==>
      (r.Ok? <==> MonthCount(stored, ctx.transaction.sourceAccountId, now) < ctx.account.monthlyMovementLimit.value)
    ensures ctx.account.accountType == Some(Savings) ==> r == SavingsValidate(ctx, stored, now)
  {
    match GetTransactionValidator(ctx.account)
    case Err(e) => Err(e)
    case Ok(kind) => RunValidator(kind, ctx, stored, now)
  }

  // ---------------------------------------------------------------- properties

  /** Deposits are never held to the fixed-term balance floor: the balance does not matter to them. */
  lemma FixedTermDepositIgnoresBalance(ctx: Context, stored: seq<Transaction>, balance: int)
    requires ctx.transaction.txType != Some(Withdrawal)
    ensures FixedTermValidate(Context(ctx.account.(balance := balance), ctx.transaction), stored).Ok?
            == FixedTermValidate(ctx, stored).Ok?
  {
  }

  /** The savings rule ignores the balance and the transaction type entirely. */
  lemma SavingsIgnoresBalanceAndType(ctx: Context, stored: seq<Transaction>, now: Instant, balance: int, txType: Option<TxType>)
    ensures SavingsValidate(Context(ctx.account.(balance := balance), ctx.transaction.(txType := txType)), stored, now).Ok?
            == SavingsValidate(ctx, stored, now).Ok?
  {
  }

  /** Inserting a transaction of another account never changes whether an undated one exists. */
  lemma HasUndatedInsert(before: seq<Transaction>, t: Transaction, after: seq<Transaction>, accountId: string)
    requires t.sourceAccountId != accountId || t.date.Some?
    ensures HasUndatedFor(before + [t] + after, accountId) == HasUndatedFor(before + after, accountId)
  {
    var with := before + [t] + after;
    var without := before + after;
    if HasUndatedFor(with, accountId) {
      var i :| 0 <= i < |with| && with[i].sourceAccountId == accountId && with[i].date.None?;
      if i < |before| { assert without[i] == with[i]; } else { assert without[i - 1] == with[i]; }
    }
    if HasUndatedFor(without, accountId) {
      var i :| 0 <= i < |without| && without[i].sourceAccountId == accountId && without[i].date.None?;
      if i < |before| { assert with[i] == without[i]; } else { assert with[i + 1] == without[i]; }
    }
  }

  /** Inserting a transaction that does not count leaves the month's count unchanged. */
  lemma MonthCountInsert(before: seq<Transaction>, t: Transaction, after: seq<Transaction>, accountId: string, now: Instant)
    requires !InMonthFor(t, accountId, now)
    ensures MonthCount(before + [t] + after, accountId, now) == MonthCount(before + after, accountId, now)
  {
    MonthCountAppend(before + [t], after, accountId, now);
    MonthCountAppend(before, [t], accountId, now);
    MonthCountAppend(before, after, accountId, now);
    assert [t][..0] == [];
  }

  /**
   * A stored transaction of another account, or a dated one of another
   * month, never changes the savings outcome, wherever it sits in the store.
   */
  lemma SavingsIgnoresUnrelated(ctx: Context, before: seq<Transaction>, t: Transaction, after: seq<Transaction>, now: Instant)
    requires t.sourceAccountId != ctx.transaction.sourceAccountId
             || (t.date.Some? && !SameCalendarMonth(t.date.value, now))
    ensures SavingsValidate(ctx, before + [t] + after, now) == SavingsValidate(ctx, before + after, now)
  {
    var id := ctx.transaction.sourceAccountId;
    HasUndatedInsert(before, t, after, id);
    MonthCountInsert(before, t, after, id, now);
  }

  /**
   * With `limit` movements already posted this month the next one is
   * refused; with one fewer it passes.
   */
  lemma SavingsMonthlyLimitBoundary(ctx: Context, stored: seq<Transaction>, now: Instant)
    requires !HasUndatedFor(stored, ctx.transaction.sourceAccountId)
    requires ctx.account.monthlyMovementLimit.Some?
    ensures MonthCount(stored, ctx.transaction.sourceAccountId, now) == ctx.account.monthlyMovementLimit.value
            ==> SavingsValidate(ctx, stored, now) == Err(IllegalArgumentError(MonthlyLimitMessage))
    ensures MonthCount(stored, ctx.transaction.sourceAccountId, now) == ctx.account.monthlyMovementLimit.value - 1
            ==> SavingsValidate(ctx, stored, now) == Ok(ctx)
  {
  }

  /** hasExceededLimit rejects exactly at the boundary counter == limit. */
  lemma ExceededLimitAtBoundary(account: Account)
    requires account.transactionMovements.Some? && account.movementLimit.Some?
    requires account.transactionMovements.value == account.movementLimit.value
    ensures HasExceededLimit(account) == Err(IllegalArgumentError(LimitExceededMessage))
  {
  }
}
