/**
 * The structural rules an account must satisfy for its type
 * (CheckingAccountValidator, FixedTermAccountValidator, the savings
 * account validator, the AccountTypeValidator helpers and the account
 * half of ValidatorFactory).
 *
 * The validators write to the account object they are given
 * (transactionMovements defaults to 0, a fixed-term movementLimit is forced
 * to 1) and then hand back that same object. Here each call returns a
 * `Step`: the account as it stands after the call, whatever the outcome,
 * and the outcome itself.
 */
module AccountRules {
  import opened Domain

  /** The request account after a call, and what the call returned. */
  datatype Step<+T> = Step(state: Account, outcome: Result<T>)

  const LimitsAndFeesMessage: string := "Los limites y comisiones no pueden ser nulos"
  const FeesMessage: string := "Los fees y comisiones no pueden ser nulos"
  const PymeMaintenanceFeeMessage: string := "Las cuentas corrientes de clientes PYME no deben tener comision de mantenimiento"
  const PymeCreditCardMessage: string := "Las Pymes no pueden abrir cuenta sin tarjeta de credito"
  const NegativeMaintenanceFeeMessage: string := "La comisión de mantenimiento no puede ser negativa"
  const CheckingMonthlyLimitMessage: string := "Este tipo de cuenta no tiene limite de movimientos para mantenimiento"
  const AllowedDayMessage: string := "Debe especificar el dia de retiro permitido"
  const SavingsMonthlyLimitMessage: string := "El límite mensual de movimientos debe ser mayor a 0"
  const SavingsMaintenanceFeeMessage: string := "Las cuentas de Ahorro no tienen comisiones"

  /** A null movement counter means a new account: it starts at 0. */
  function DefaultCounter(a: Account): (r: Account)
    ensures r.transactionMovements.Some?
    ensures a.transactionMovements.Some? ==> r == a
    ensures a.transactionMovements.None? ==> r.transactionMovements == Some(0)
    ensures r.(transactionMovements := a.transactionMovements) == a
  {
    if a.transactionMovements.None? then a.(transactionMovements := Some(0)) else a
  }

  // ---------------------------------------------------------------- AccountTypeValidator helpers

  /** hasValidLimitsAndFees: both the movement limit and the per-transaction fee must be present. */
  function HasValidLimitsAndFees(a: Account): (s: Step<bool>)
    ensures s.outcome.Err? <==> a.movementLimit.None? || a.feePerTransaction.None?
    ensures s.outcome.Err? ==> s.outcome.error == IllegalArgumentError(LimitsAndFeesMessage) && s.state == a
    ensures s.outcome.Ok? ==> s.outcome.value && s.state == DefaultCounter(a)
  {
    if a.movementLimit.None? || a.feePerTransaction.None? then
      Step(a, Err(IllegalArgumentError(LimitsAndFeesMessage)))
    else
      Step(DefaultCounter(a), Ok(true))
  }

  /** hasValidFees: only the per-transaction fee must be present. */
  function HasValidFees(a: Account): (s: Step<bool>)
    ensures s.outcome.Err? <==> a.feePerTransaction.None?
    ensures s.outcome.Err? ==> s.outcome.error == IllegalArgumentError(FeesMessage) && s.state == a
    ensures s.outcome.Ok? ==> s.outcome.value && s.state == DefaultCounter(a)
  {
    if a.feePerTransaction.None? then
      Step(a, Err(IllegalArgumentError(FeesMessage)))
    else
      Step(DefaultCounter(a), Ok(true))
  }

  // ---------------------------------------------------------------- the validators

  /** When a checking account is acceptable, stated without the check order. */
  predicate CheckingAdmits(a: Account, hasCreditCard: bool)
  {
    && a.movementLimit.Some? && a.feePerTransaction.Some? && a.maintenanceFee.Some?
    && if a.customerSubType == Some(Pyme) then
         a.maintenanceFee.value <= 0 && hasCreditCard
       else
         a.maintenanceFee.value >= 0 && a.monthlyMovementLimit.None?
  }

  /**
   * CheckingAccountValidator.validate. `hasCreditCard` is the answer of the
   * credit service for the account's customer.
   */
  function CheckingAccountValidate(a: Account, hasCreditCard: bool): (s: Step<Account>)
    ensures s.outcome.Ok? <==> CheckingAdmits(a, hasCreditCard)
    ensures s.outcome.Ok? ==> s.outcome.value == s.state
    ensures a.movementLimit.None? || a.feePerTransaction.None? ==>
      s == Step(a, Err(IllegalArgumentError(LimitsAndFeesMessage)))
    ensures a.movementLimit.Some? && a.feePerTransaction.Some? ==> s.state == DefaultCounter(a)
    ensures a.movementLimit.Some? && a.feePerTransaction.Some? && a.customerSubType == Some(Pyme)
            && a.maintenanceFee.Some? && a.maintenanceFee.value > 0
            ==> s.outcome == Err(IllegalArgumentError(PymeMaintenanceFeeMessage))
    ensures a.movementLimit.Some? && a.feePerTransaction.Some? && a.customerSubType == Some(Pyme)
            && a.maintenanceFee.Some? && a.maintenanceFee.value <= 0 && !hasCreditCard
            ==> s.outcome == Err(IllegalArgumentError(PymeCreditCardMessage))
    ensures a.movementLimit.Some? && a.feePerTransaction.Some? && a.customerSubType != Some(Pyme)
            && (a.maintenanceFee.None? || a.maintenanceFee.value < 0)
            ==> s.outcome == Err(IllegalArgumentError(NegativeMaintenanceFeeMessage))
    ensures a.movementLimit.Some? && a.feePerTransaction.Some? && a.customerSubType != Some(Pyme)
            && a.maintenanceFee.Some? && a.maintenanceFee.value >= 0 && a.monthlyMovementLimit.Some?
            ==> s.outcome == Err(IllegalArgumentError(CheckingMonthlyLimitMessage))
    ensures a.movementLimit.Some? && a.feePerTransaction.Some? && a.customerSubType == Some(Pyme)
            && a.maintenanceFee.None?
            ==> s.outcome == Err(NullPointerError)
  {
    var checked := HasValidLimitsAndFees(a);
    if checked.outcome.Err? then
      Step(checked.state, Err(checked.outcome.error))
    else
      var acc := checked.state;
      if acc.customerSubType == Some(Pyme) then
        if acc.maintenanceFee.None? then Step(acc, Err(NullPointerError))
        else if acc.maintenanceFee.value > 0 then Step(acc, Err(IllegalArgumentError(PymeMaintenanceFeeMessage)))
        else if !hasCreditCard then Step(acc, Err(IllegalArgumentError(PymeCreditCardMessage)))
        else Step(acc, Ok(acc))
      else if acc.maintenanceFee.None? || acc.maintenanceFee.value < 0 then
        Step(acc, Err(IllegalArgumentError(NegativeMaintenanceFeeMessage)))
      else if acc.monthlyMovementLimit.Some? then
        Step(acc, Err(IllegalArgumentError(CheckingMonthlyLimitMessage)))
      else
        Step(acc, Ok(acc))
  }

  /**
   * FixedTermAccountValidator.validate: the per-transaction fee must be
   * present, the movement limit becomes 1 and a withdrawal day must be given.
   */
  function FixedTermAccountValidate(a: Account): (s: Step<Account>)
    ensures s.outcome.Ok? <==> a.feePerTransaction.Some? && a.allowedDayOfMonth.Some?
    ensures s.outcome.Ok? ==> s.outcome.value == s.state
    ensures a.feePerTransaction.None? ==> s == Step(a, Err(IllegalArgumentError(FeesMessage)))
    ensures a.feePerTransaction.Some? ==>
      s.state == DefaultCounter(a).(movementLimit := Some(1))
    ensures a.feePerTransaction.Some? && a.allowedDayOfMonth.None? ==>
      s.outcome == Err(IllegalArgumentError(AllowedDayMessage))
  {
    var checked := HasValidFees(a);
    if checked.outcome.Err? then
      Step(checked.state, Err(checked.outcome.error))
    else
      var acc := checked.state.(movementLimit := Some(1));
      if acc.allowedDayOfMonth.None? then Step(acc, Err(IllegalArgumentError(AllowedDayMessage)))
      else Step(acc, Ok(acc))
  }

  /**
   * SavingsAccountValidator.validate: a monthly movement limit of at least
   * one, and no maintenance fee. It writes nothing.
   */
  function SavingsAccountValidate(a: Account): (r: Result<Account>)
    ensures r.Ok? <==> a.monthlyMovementLimit.Some? && a.monthlyMovementLimit.value >= 1 && a.maintenanceFee.None?
    ensures r.Ok? ==> r.value == a
    ensures a.monthlyMovementLimit.None? || a.monthlyMovementLimit.value < 1 ==>
      r == Err(IllegalArgumentError(SavingsMonthlyLimitMessage))
    ensures a.monthlyMovementLimit.Some? && a.monthlyMovementLimit.value >= 1 && a.maintenanceFee.Some? ==>
      r == Err(IllegalArgumentError(SavingsMaintenanceFeeMessage))
  {
    if a.monthlyMovementLimit.None? || a.monthlyMovementLimit.value < 1 then
      Err(IllegalArgumentError(SavingsMonthlyLimitMessage))
    else if a.maintenanceFee.Some? then
      Err(IllegalArgumentError(SavingsMaintenanceFeeMessage))
    else
      Ok(a)
  }

  // ---------------------------------------------------------------- dispatch

  datatype AccountValidatorKind =
    | SavingsAccountValidator
    | FixedTermAccountValidator
    | CheckingAccountValidator

  /** ValidatorFactory.getAccountValidator; a null type fails in the switch. */
  function GetAccountValidator(t: Option<AccountType>): (r: Result<AccountValidatorKind>)
    ensures t == Some(Savings) <==> r == Ok(SavingsAccountValidator)
    ensures t == Some(FixedTerm) <==> r == Ok(FixedTermAccountValidator)
    ensures t == Some(Checking) <==> r == Ok(CheckingAccountValidator)
    ensures t.None? <==> r == Err(NullPointerError)
  {
    match t
    case None => Err(NullPointerError)
    case Some(Savings) => Ok(SavingsAccountValidator)
    case Some(FixedTerm) => Ok(FixedTermAccountValidator)
    case Some(Checking) => Ok(CheckingAccountValidator)
  }

  function RunAccountValidator(kind: AccountValidatorKind, a: Account, hasCreditCard: bool): Step<Account>
  {
    match kind
    case SavingsAccountValidator => Step(a, SavingsAccountValidate(a))
    case FixedTermAccountValidator => FixedTermAccountValidate(a)
    case CheckingAccountValidator => CheckingAccountValidate(a, hasCreditCard)
  }

  /** BaseAccountStrategy.validateWithFactory: run the validator selected by the account's own type. */
  function ValidateWithFactory(a: Account, hasCreditCard: bool): (s: Step<Account>)
    ensures a.accountType.None? ==> s == Step(a, Err(NullPointerError))
    ensures s.outcome.Ok? ==> s.outcome.value == s.state
    ensures s.state.accountType == a.accountType && s.state.accountId == a.accountId
    ensures s.state.balance == a.balance && s.state.customerId == a.customerId
    ensures a.accountType == Some(Checking) ==> (s.outcome.Ok? <==> CheckingAdmits(a, hasCreditCard))
    ensures a.accountType == Some(FixedTerm) ==>
      (s.outcome.Ok? <==> a.feePerTransaction.Some? && a.allowedDayOfMonth.Some?)
    ensures a.accountType == Some(Savings) ==> s.state == a
  {
    match GetAccountValidator(a.accountType)
    case Err(e) => Step(a, Err(e))
    case Ok(kind) => RunAccountValidator(kind, a, hasCreditCard)
  }

  // ---------------------------------------------------------------- properties

  /**
   * PYME checking accounts are never held to the "no monthly limit" rule:
   * the monthly limit does not affect their outcome.
   */
  lemma PymeSkipsMonthlyLimit(a: Account, hasCreditCard: bool, limit: Option<Int32>)
    requires a.customerSubType == Some(Pyme)
    ensures CheckingAccountValidate(a.(monthlyMovementLimit := limit), hasCreditCard).outcome.Ok?
            == CheckingAccountValidate(a, hasCreditCard).outcome.Ok?
  {
  }

  /** The fixed-term movement limit is forced to 1 even when the account is then rejected. */
  lemma FixedTermLimitForcedOnRejection(a: Account)
    requires a.feePerTransaction.Some? && a.allowedDayOfMonth.None?
    ensures FixedTermAccountValidate(a).outcome.Err?
    ensures FixedTermAccountValidate(a).state.movementLimit == Some(1)
  {
  }

  /** Any withdrawal-day text is accepted, "31" included; only its presence is checked. */
  lemma FixedTermAcceptsAnyDayText(a: Account, day: string)
    requires a.feePerTransaction.Some?
    ensures FixedTermAccountValidate(a.(allowedDayOfMonth := Some(day))).outcome.Ok?
  {
  }

  /** The validators are idempotent: validating the accepted account again changes nothing. */
  lemma ValidateWithFactoryIdempotent(a: Account, hasCreditCard: bool)
    requires ValidateWithFactory(a, hasCreditCard).outcome.Ok?
    ensures ValidateWithFactory(ValidateWithFactory(a, hasCreditCard).state, hasCreditCard)
            == ValidateWithFactory(a, hasCreditCard)
  {
  }
}
