/**
 * The posting rules of TransactionOperationsService, as functions from the
 * stores before a posting to the result and the stores after it. The
 * stateful engine (engine.dfy) is proved to compute exactly `PostSpec`.
 *
 * The stores are the account repository (a map from id to account), the
 * transaction log and the commission log. A stored transaction's id is its
 * position in the log.
 */
module Posting {
  import opened Domain
  import opened TransactionRules

  datatype Stores = Stores(
    accounts: map<string, Account>,
    transactions: seq<Transaction>,
    commissions: seq<Commission>)

  /** What a posting returns, and the stores it leaves behind. */
  datatype Posted = Posted(result: Result<Transaction>, stores: Stores)

  function SourceNotFoundMessage(id: string): string
  {
    "No existe la cuenta con ID: " + id
  }

  function DestinyNotFoundMessage(id: string): string
  {
    "No existe la cuenta destino con ID: " + id
  }

  const InsufficientMessage: string := "Saldo insuficiente"
  const UnsupportedTypeMessage: string := "Tipo de transacción no soportado"
  const TransferDepositInsufficientMessage: string := InsufficientMessage + " para realizar la transacción y pagar la comisión"
  const DestinyInsufficientMessage: string := InsufficientMessage + " en la cuenta destino"
  const CommissionInsufficientMessage: string := InsufficientMessage + " para pagar la comisión"

  // ---------------------------------------------------------------- the pure steps

  /** createTransaction's first writes: the posting date, and "not by card" by default. */
  function Stamp(tx: Transaction, now: Instant): (t: Transaction)
    ensures t.date == Some(now)
    ensures tx.isByCreditCard.Some? ==> t.isByCreditCard == tx.isByCreditCard
    ensures tx.isByCreditCard.None? ==> t.isByCreditCard == Some(false)
    ensures t.(date := tx.date, isByCreditCard := tx.isByCreditCard) == tx
  {
    tx.(date := Some(now), isByCreditCard := if tx.isByCreditCard.None? then Some(false) else tx.isByCreditCard)
  }

  /** shouldApplyCommission: the counter, before this posting, has reached the limit. */
  function ShouldApplyCommission(a: Account): (r: Result<bool>)
    ensures r.Ok? <==> a.transactionMovements.Some? && a.movementLimit.Some?
    ensures r.Ok? ==> (r.value <==> a.transactionMovements.value >= a.movementLimit.value)
    ensures r.Err? ==> r.error == NullPointerError
  {
    if a.transactionMovements.None? || a.movementLimit.None? then Err(NullPointerError)
    else Ok(a.transactionMovements.value >= a.movementLimit.value)
  }

  /**
   * The commission one posting charges the account: the per-transaction fee
   * (None when that fee is null) once the counter has reached the limit,
   * and zero before.
   */
  function CommissionAmount(a: Account): (r: Result<Option<int>>)
    ensures r.Ok? <==> ShouldApplyCommission(a).Ok?
    ensures r.Err? ==> r.error == NullPointerError
    ensures r.Ok? && a.transactionMovements.value < a.movementLimit.value ==> r.value == Some(0)
    ensures r.Ok? && a.transactionMovements.value >= a.movementLimit.value ==> r.value == a.feePerTransaction
  {
    match ShouldApplyCommission(a)
    case Err(e) => Err(e)
    case Ok(needed) => Ok(if needed then a.feePerTransaction else Some(0))
  }

  /** applyTransactionAmount: credit a deposit, debit a covered withdrawal. */
  function ApplyTransactionAmount(balance: int, t: Transaction): (r: Result<int>)
    ensures t.txType == Some(Deposit) ==> r == Ok(balance + t.amount)
    ensures t.txType == Some(Withdrawal) ==> (r.Ok? <==> balance >= t.amount)
    ensures t.txType == Some(Withdrawal) && r.Ok? ==> r.value == balance - t.amount && r.value >= 0
    ensures t.txType == Some(Withdrawal) && r.Err? ==> r.error == IllegalArgumentError(InsufficientMessage)
    ensures t.txType.None? ==> r == Err(IllegalArgumentError(UnsupportedTypeMessage))
  {
    match t.txType
    case Some(Deposit) => Ok(balance + t.amount)
    case Some(Withdrawal) =>
      if balance < t.amount then Err(IllegalArgumentError(InsufficientMessage))
      else Ok(balance - t.amount)
    case None => Err(IllegalArgumentError(UnsupportedTypeMessage))
  }

  datatype BalanceResult = BalanceResult(newBalance: int, commissionApplied: int)

  /**
   * calculateBalanceWithCommission: the commission is taken first, from
   * deposits as well as withdrawals, and the amount is applied to what is
   * left.
   */
  function CalculateBalanceWithCommission(a: Account, t: Transaction): (r: Result<BalanceResult>)
    ensures r.Ok? ==> CommissionAmount(a) == Ok(Some(r.value.commissionApplied))
    ensures r.Ok? ==> t.txType.Some?
    ensures r.Ok? && t.txType == Some(Deposit) ==>
      r.value.newBalance == a.balance - r.value.commissionApplied + t.amount
    ensures r.Ok? && t.txType == Some(Withdrawal) ==>
      r.value.newBalance == a.balance - r.value.commissionApplied - t.amount && r.value.newBalance >= 0
    ensures forall c :: CommissionAmount(a) == Ok(Some(c)) && t.txType == Some(Withdrawal) && a.balance - c < t.amount ==>
      r == Err(IllegalArgumentError(InsufficientMessage))
    ensures forall c :: CommissionAmount(a) == Ok(Some(c)) && t.txType == Some(Deposit) ==>
      r == Ok(BalanceResult(a.balance - c + t.amount, c))
    ensures forall c :: CommissionAmount(a) == Ok(Some(c)) && t.txType == Some(Withdrawal) && a.balance - c >= t.amount ==>
      r == Ok(BalanceResult(a.balance - c - t.amount, c))
    ensures CommissionAmount(a).Ok? && CommissionAmount(a).value.Some? && t.txType.None? ==>
      r == Err(IllegalArgumentError(UnsupportedTypeMessage))
    ensures CommissionAmount(a) == Ok(None) ==> r == Err(NullPointerError)
    ensures CommissionAmount(a).Err? ==> r == Err(NullPointerError)
  {
    match CommissionAmount(a)
    case Err(e) => Err(e)
    case Ok(None) => Err(NullPointerError)
    case Ok(Some(c)) =>
      match ApplyTransactionAmount(a.balance - c, t)
      case Err(e) => Err(e)
      case Ok(b) => Ok(BalanceResult(b, c))
  }

  /** The source account's counter after a posting (a 32-bit increment). */
  function Counted(a: Account): (r: Account)
    requires a.transactionMovements.Some?
    ensures r.transactionMovements == Some(Inc32(a.transactionMovements.value))
    ensures r.(transactionMovements := a.transactionMovements) == a
  {
    a.(transactionMovements := Some(Inc32(a.transactionMovements.value)))
  }

  // ---------------------------------------------------------------- recording

  /** The commission record a posting leaves: the stored transaction's id, source, fee and date. */
  function CommissionRecord(record: Transaction, amount: int): Commission
    requires record.date.Some?
  {
    Commission(record.transactionId, record.sourceAccountId, amount, record.date.value)
  }

  /**
   * The writes of a successful posting: the new accounts, one transaction
   * record with the next id, and a commission record only when a fee was
   * charged.
   */
  function Commit(s: Stores, accounts: map<string, Account>, t: Transaction, commission: int): (p: Posted)
    requires t.date.Some?
    ensures p.result.Ok? && p.result.value == t.(transactionId := Some(|s.transactions|))
    ensures p.stores.accounts == accounts
    ensures p.stores.transactions == s.transactions + [p.result.value]
    ensures commission > 0 ==> p.stores.commissions == s.commissions + [CommissionRecord(p.result.value, commission)]
    ensures commission <= 0 ==> p.stores.commissions == s.commissions
  {
    var record := t.(transactionId := Some(|s.transactions|));
    var commissions := if commission > 0 then s.commissions + [CommissionRecord(record, commission)] else s.commissions;
    Posted(Ok(record), Stores(accounts, s.transactions + [record], commissions))
  }

  // ---------------------------------------------------------------- the two modes

  /** processSingleAccountBalance: one account, the fee taken from deposits too. */
  function PostSingle(s: Stores, t: Transaction): (p: Posted)
    requires t.sourceAccountId in s.accounts && t.date.Some?
    ensures p.result.Err? ==> p.stores == s
    ensures p.result.Err? <==> CalculateBalanceWithCommission(s.accounts[t.sourceAccountId], t).Err?
    ensures p.result.Ok? ==>
      var a := s.accounts[t.sourceAccountId];
      var res := CalculateBalanceWithCommission(a, t).value;
      p == Commit(s, s.accounts[t.sourceAccountId := Counted(a).(balance := res.newBalance)], t, res.commissionApplied)
  {
    var a := s.accounts[t.sourceAccountId];
    match CalculateBalanceWithCommission(a, t)
    case Err(e) => Posted(Err(e), s)
    case Ok(res) =>
      Commit(s, s.accounts[t.sourceAccountId := Counted(a).(balance := res.newBalance)], t, res.commissionApplied)
  }

  /** The preconditions shared by the two transfer forms: both accounts exist, the source has a counter. */
  predicate TransferReady(s: Stores, t: Transaction)
  {
    && t.date.Some?
    && t.sourceAccountId in s.accounts
    && t.destinyAccountId.Some? && t.destinyAccountId.value in s.accounts
    && s.accounts[t.sourceAccountId].transactionMovements.Some?
  }

  /**
   * handleDepositTransaction: the source pays amount plus commission, the
   * destination receives the amount.
   */
  function HandleDeposit(s: Stores, t: Transaction, commission: Option<int>): (p: Posted)
    requires TransferReady(s, t)
    ensures p.result.Err? ==> p.stores == s
    ensures var src := s.accounts[t.sourceAccountId];
      p.result.Ok? <==> commission.Some? && src.balance >= t.amount + commission.value
    ensures commission.None? ==> p.result == Err(NullPointerError)
    ensures commission.Some? && s.accounts[t.sourceAccountId].balance < t.amount + commission.value ==>
      p.result == Err(IllegalArgumentError(TransferDepositInsufficientMessage))
    ensures p.result.Ok? ==>
      var srcId := t.sourceAccountId;
      var dstId := t.destinyAccountId.value;
      var src := s.accounts[srcId];
      var dst := s.accounts[dstId];
      var c := commission.value;
      && p.stores.accounts.Keys == s.accounts.Keys
      && p.stores.accounts[dstId] == dst.(balance := dst.balance + t.amount)
      && (srcId != dstId ==>
            && p.stores.accounts[srcId] == Counted(src).(balance := src.balance - t.amount - c)
            && p.stores.accounts[srcId].balance + p.stores.accounts[dstId].balance == src.balance + dst.balance - c)
      && p == Commit(s, p.stores.accounts, t, c)
  {
    var srcId := t.sourceAccountId;
    var dstId := t.destinyAccountId.value;
    var src := s.accounts[srcId];
    var dst := s.accounts[dstId];
    if commission.None? then Posted(Err(NullPointerError), s)
    else
      var totalDebit := t.amount + commission.value;
      if src.balance < totalDebit then
        Posted(Err(IllegalArgumentError(TransferDepositInsufficientMessage)), s)
      else
        var src' := Counted(src).(balance := src.balance - totalDebit);
        var dst' := dst.(balance := dst.balance + t.amount);
        Commit(s, s.accounts[srcId := src'][dstId := dst'], t, commission.value)
  }

  /**
   * handleWithdrawalTransaction: the destination pays the amount to the
   * source, and the source pays the commission.
   */
  function HandleWithdrawal(s: Stores, t: Transaction, commission: Option<int>): (p: Posted)
    requires TransferReady(s, t)
    ensures p.result.Err? ==> p.stores == s
    ensures var src := s.accounts[t.sourceAccountId];
      var dst := s.accounts[t.destinyAccountId.value];
      p.result.Ok? <==> dst.balance >= t.amount && commission.Some? && src.balance >= commission.value
    ensures s.accounts[t.destinyAccountId.value].balance < t.amount ==>
      p.result == Err(IllegalArgumentError(DestinyInsufficientMessage))
    ensures s.accounts[t.destinyAccountId.value].balance >= t.amount && commission.Some?
            && s.accounts[t.sourceAccountId].balance < commission.value
            ==> p.result == Err(IllegalArgumentError(CommissionInsufficientMessage))
    ensures p.result.Ok? ==>
      var srcId := t.sourceAccountId;
      var dstId := t.destinyAccountId.value;
      var src := s.accounts[srcId];
      var dst := s.accounts[dstId];
      var c := commission.value;
      && p.stores.accounts.Keys == s.accounts.Keys
      && p.stores.accounts[dstId] == dst.(balance := dst.balance - t.amount)
      && p.stores.accounts[dstId].balance >= 0
      && (srcId != dstId ==>
            && p.stores.accounts[srcId] == Counted(src).(balance := src.balance + t.amount - c)
            && p.stores.accounts[srcId].balance + p.stores.accounts[dstId].balance == src.balance + dst.balance - c)
      && p == Commit(s, p.stores.accounts, t, c)
  {
    var srcId := t.sourceAccountId;
    var dstId := t.destinyAccountId.value;
    var src := s.accounts[srcId];
    var dst := s.accounts[dstId];
    if dst.balance < t.amount then
      Posted(Err(IllegalArgumentError(DestinyInsufficientMessage)), s)
    else if commission.None? then
      Posted(Err(NullPointerError), s)
    else if src.balance < commission.value then
      Posted(Err(IllegalArgumentError(CommissionInsufficientMessage)), s)
    else
      var src' := Counted(src).(balance := src.balance + t.amount - commission.value);
      var dst' := dst.(balance := dst.balance - t.amount);
      Commit(s, s.accounts[srcId := src'][dstId := dst'], t, commission.value)
  }

  /**
   * processDualAccountTransaction: find the destination, decide the
   * commission on the source, then run the form the type names.
   */
  function PostTransfer(s: Stores, t: Transaction): (p: Posted)
    requires t.sourceAccountId in s.accounts && t.date.Some?
    ensures p.result.Err? ==> p.stores == s
    ensures t.destinyAccountId.None? ==> p == Posted(Err(IllegalArgumentError(NullIdMessage)), s)
    ensures t.destinyAccountId.Some? && t.destinyAccountId.value !in s.accounts ==>
      p == Posted(Err(IllegalArgumentError(DestinyNotFoundMessage(t.destinyAccountId.value))), s)
    ensures t.destinyAccountId.Some? && t.destinyAccountId.value in s.accounts
            && CommissionAmount(s.accounts[t.sourceAccountId]).Ok? && t.txType.None?
            ==> p == Posted(Err(Failure(IllegalState, UnsupportedTypeMessage)), s)
    ensures p.result.Ok? ==> TransferReady(s, t) && CommissionAmount(s.accounts[t.sourceAccountId]).Ok?
    ensures p.result.Ok? && t.txType == Some(Deposit) ==>
      p == HandleDeposit(s, t, CommissionAmount(s.accounts[t.sourceAccountId]).value)
    ensures p.result.Ok? && t.txType == Some(Withdrawal) ==>
      p == HandleWithdrawal(s, t, CommissionAmount(s.accounts[t.sourceAccountId]).value)
  {
    if t.destinyAccountId.None? then Posted(Err(IllegalArgumentError(NullIdMessage)), s)
    else if t.destinyAccountId.value !in s.accounts then
      Posted(Err(IllegalArgumentError(DestinyNotFoundMessage(t.destinyAccountId.value))), s)
    else
      match CommissionAmount(s.accounts[t.sourceAccountId])
      case Err(e) => Posted(Err(e), s)
      case Ok(c) =>
        match t.txType
        case None => Posted(Err(Failure(IllegalState, UnsupportedTypeMessage)), s)
        case Some(Deposit) => HandleDeposit(s, t, c)
        case Some(Withdrawal) => HandleWithdrawal(s, t, c)
  }

  /**
   * createTransaction: stamp the request, find the source account, run the
   * account type's transaction rules, then post in the requested mode.
   */
  function PostSpec(s: Stores, tx: Transaction, now: Instant): (p: Posted)
    ensures p.result.Err? ==> p.stores == s
    ensures tx.sourceAccountId !in s.accounts ==>
      p == Posted(Err(IllegalArgumentError(SourceNotFoundMessage(tx.sourceAccountId))), s)
    ensures tx.sourceAccountId in s.accounts && s.accounts[tx.sourceAccountId].accountType.None? ==>
      p == Posted(Err(NullPointerError), s)
    ensures p.result.Ok? ==>
      && tx.sourceAccountId in s.accounts
      && ValidateTransaction(Context(s.accounts[tx.sourceAccountId], Stamp(tx, now)), s.transactions, now).Ok?
      && p.result.value == Stamp(tx, now).(transactionId := Some(|s.transactions|))
      && p.stores.transactions == s.transactions + [p.result.value]
      && p.stores.accounts.Keys == s.accounts.Keys
      && (|p.stores.commissions| == |s.commissions| || |p.stores.commissions| == |s.commissions| + 1)
      && p.stores.commissions[..|s.commissions|] == s.commissions
  {
    var t := Stamp(tx, now);
    if t.sourceAccountId !in s.accounts then
      Posted(Err(IllegalArgumentError(SourceNotFoundMessage(t.sourceAccountId))), s)
    else
      match ValidateTransaction(Context(s.accounts[t.sourceAccountId], t), s.transactions, now)
      case Err(e) => Posted(Err(e), s)
      case Ok(_) =>
        if t.mode == SingleAccount then PostSingle(s, t) else PostTransfer(s, t)
  }
}
