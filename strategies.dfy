/**
 * The account creation and update strategies: the guards each strategy
 * applies before handing the account to the type validator selected by
 * ValidatorFactory (PersonalAccountCreationStrategy, and the
 * BaseAccountStrategy, BusinessAccountCreationStrategy,
 * BusinessAccountUpdateStrategy and PersonalAccountUpdateStrategy rules).
 *
 * The account repository is a map from account id to account. The
 * strategies only read it. `hasCreditCard` is the credit service's answer
 * for the account's customer, passed through to the checking validator.
 */
module Strategies {
  import opened Domain
  import opened AccountRules

  type AccountStore = map<string, Account>

  const NullCustomerIdMessage: string := "El ID del cliente no puede ser null"
  const NullSubtypeMessage: string := "El subtipo de cuenta no puede ser null"
  const PersonalSubtypeMessage: string := "El subtipo de cuenta personal solo puede ser 'regular' o 'vip'"
  const BusinessSubtypeMessage: string := "El subtipo de cuenta empresarial solo puede ser 'regular' o 'pyme'"
  const BusinessCheckingOnlyMessage: string := "Cuentas empresariales solo pueden ser de tipo CHECKING"
  const BusinessOwnerMessage: string := "Cuenta empresarial debe tener un propietario con identificación válida"
  const TypeChangeMessage: string := "No se permite cambiar el tipo de cuenta"

  function DuplicateTypeMessage(t: Option<AccountType>): string
  {
    "Cliente personal ya tiene una cuenta de tipo " + AccountTypeName(t)
  }

  function AccountNotFoundMessage(id: string): string
  {
    "Account not found with ID: " + id
  }

  /** The subtypes each kind of customer may hold. */
  function AllowedSubtypes(customerType: CustomerType): set<CustomerSubtype>
  {
    match customerType
    case Personal => {Regular, Vip}
    case Business => {Regular, Pyme}
  }

  // ---------------------------------------------------------------- BaseAccountStrategy

  /** validateCustomerSubtype: a present subtype allowed for the customer type. */
  function ValidateCustomerSubtype(subtype: Option<CustomerSubtype>, customerType: Option<CustomerType>): (r: Result<CustomerSubtype>)
    ensures r.Ok? <==> subtype.Some? && customerType.Some? && subtype.value in AllowedSubtypes(customerType.value)
    ensures r.Ok? ==> subtype == Some(r.value)
    ensures subtype.None? ==> r == Err(IllegalArgumentError(NullSubtypeMessage))
    ensures subtype.Some? && customerType.None? ==> r == Err(NullPointerError)
    ensures subtype.Some? && customerType == Some(Personal) && subtype.value !in AllowedSubtypes(Personal) ==>
      r == Err(IllegalArgumentError(PersonalSubtypeMessage))
    ensures subtype.Some? && customerType == Some(Business) && subtype.value !in AllowedSubtypes(Business) ==>
      r == Err(IllegalArgumentError(BusinessSubtypeMessage))
  {
    if subtype.None? then Err(IllegalArgumentError(NullSubtypeMessage))
    else match customerType
      case None => Err(NullPointerError)
      case Some(Personal) =>
        if subtype.value != Regular && subtype.value != Vip then Err(IllegalArgumentError(PersonalSubtypeMessage))
        else Ok(subtype.value)
      case Some(Business) =>
        if subtype.value != Regular && subtype.value != Pyme then Err(IllegalArgumentError(BusinessSubtypeMessage))
        else Ok(subtype.value)
  }

  /** A VIP business customer and a PYME personal customer are both refused. */
  lemma CrossedSubtypesRejected()
    ensures ValidateCustomerSubtype(Some(Vip), Some(Business)) == Err(IllegalArgumentError(BusinessSubtypeMessage))
    ensures ValidateCustomerSubtype(Some(Pyme), Some(Personal)) == Err(IllegalArgumentError(PersonalSubtypeMessage))
  {
  }

  // ---------------------------------------------------------------- personal creation

  /** The repository query findByCustomerIdAndAccountType(...).hasElements(). */
  predicate HasAccountOfType(store: AccountStore, customerId: string, t: Option<AccountType>)
  {
    exists k :: k in store && store[k].customerId == Some(customerId) && store[k].accountType == t
  }

  /** PersonalAccountCreationStrategy.validateAccount. */
  function PersonalCreationValidate(a: Account, store: AccountStore): (r: Result<Account>)
    ensures r.Ok? ==> r.value == a
    ensures r.Ok? <==>
      && a.customerId.Some?
      && ValidateCustomerSubtype(a.customerSubType, a.customerType).Ok?
      && (a.accountType != Some(FixedTerm) ==> !HasAccountOfType(store, a.customerId.value, a.accountType))
    ensures a.customerId.None? ==> r == Err(IllegalArgumentError(NullCustomerIdMessage))
    ensures a.customerId.Some? && a.customerSubType.None? ==> r == Err(IllegalArgumentError(NullSubtypeMessage))
    ensures a.customerId.Some? && ValidateCustomerSubtype(a.customerSubType, a.customerType).Ok?
            && a.accountType != Some(FixedTerm) && HasAccountOfType(store, a.customerId.value, a.accountType)
            ==> r == Err(IllegalArgumentError(DuplicateTypeMessage(a.accountType)))
  {
    if a.customerId.None? then Err(IllegalArgumentError(NullCustomerIdMessage))
    else if a.customerSubType.None? then Err(IllegalArgumentError(NullSubtypeMessage))
    else match ValidateCustomerSubtype(a.customerSubType, a.customerType)
      case Err(e) => Err(e)
      case Ok(_) =>
        if a.accountType == Some(FixedTerm) then Ok(a)
        else if HasAccountOfType(store, a.customerId.value, a.accountType) then
          Err(IllegalArgumentError(DuplicateTypeMessage(a.accountType)))
        else Ok(a)
  }

  /** PersonalAccountCreationStrategy.createAccount: the guards, then the type validator. */
  function PersonalCreateAccount(a: Account, store: AccountStore, hasCreditCard: bool): (r: Result<Account>)
    ensures PersonalCreationValidate(a, store).Err? ==> r == PersonalCreationValidate(a, store)
    ensures PersonalCreationValidate(a, store).Ok? ==> r == ValidateWithFactory(a, hasCreditCard).outcome
    ensures r.Ok? ==> r.value.customerId == a.customerId && r.value.accountType == a.accountType
  {
    match PersonalCreationValidate(a, store)
    case Err(e) => Err(e)
    case Ok(acc) => ValidateWithFactory(acc, hasCreditCard).outcome
  }

  /**
   * A personal customer can hold only one account of each type other than
   * FIXED_TERM: once the store holds one, creating another is refused.
   */
  lemma OneAccountPerTypeForPersonal(a: Account, store: AccountStore, k: string, hasCreditCard: bool)
    requires k in store && a.customerId.Some? && store[k].customerId == a.customerId
    requires store[k].accountType == a.accountType && a.accountType != Some(FixedTerm)
    ensures PersonalCreateAccount(a, store, hasCreditCard).Err?
  {
  }

  /** FIXED_TERM accounts skip the one-per-type rule: the store does not matter to them. */
  lemma FixedTermIgnoresExistingAccounts(a: Account, store: AccountStore, other: AccountStore, hasCreditCard: bool)
    requires a.accountType == Some(FixedTerm)
    ensures PersonalCreateAccount(a, store, hasCreditCard) == PersonalCreateAccount(a, other, hasCreditCard)
  {
  }

  // ---------------------------------------------------------------- business creation

  /** BusinessAccountCreationStrategy.validateAccount. */
  function BusinessCreationValidate(a: Account): (r: Result<Account>)
    ensures r.Ok? ==> r.value == a
    ensures r.Ok? <==>
      && ValidateCustomerSubtype(a.customerSubType, a.customerType).Ok?
      && a.accountType == Some(Checking)
      && a.owners.Some? && |a.owners.value| > 0
    ensures ValidateCustomerSubtype(a.customerSubType, a.customerType).Err? ==>
      r == Err(ValidateCustomerSubtype(a.customerSubType, a.customerType).error)
    ensures ValidateCustomerSubtype(a.customerSubType, a.customerType).Ok? && a.accountType != Some(Checking) ==>
      r == Err(IllegalArgumentError(BusinessCheckingOnlyMessage))
    ensures ValidateCustomerSubtype(a.customerSubType, a.customerType).Ok? && a.accountType == Some(Checking)
            && (a.owners.None? || |a.owners.value| == 0) ==>
      r == Err(IllegalArgumentError(BusinessOwnerMessage))
  {
    match ValidateCustomerSubtype(a.customerSubType, a.customerType)
    case Err(e) => Err(e)
    case Ok(_) =>
      if a.accountType != Some(Checking) then Err(IllegalArgumentError(BusinessCheckingOnlyMessage))
      else if a.owners.None? || |a.owners.value| == 0 then Err(IllegalArgumentError(BusinessOwnerMessage))
      else Ok(a)
  }

  /** BusinessAccountCreationStrategy.createAccount: the guards, then the checking validator. */
  function BusinessCreateAccount(a: Account, hasCreditCard: bool): (r: Result<Account>)
    ensures r.Ok? ==> a.accountType == Some(Checking) && CheckingAdmits(a, hasCreditCard)
    ensures r.Ok? ==> r.value == DefaultCounter(a)
    ensures BusinessCreationValidate(a).Err? ==> r == BusinessCreationValidate(a)
    ensures BusinessCreationValidate(a).Ok? ==> r == ValidateWithFactory(a, hasCreditCard).outcome
    ensures BusinessCreationValidate(a).Ok? ==> (r.Ok? <==> CheckingAdmits(a, hasCreditCard))
  {
    match BusinessCreationValidate(a)
    case Err(e) => Err(e)
    case Ok(acc) => ValidateWithFactory(acc, hasCreditCard).outcome
  }

  // ---------------------------------------------------------------- updates

  /**
   * The existing-account comparison both update strategies make: the
   * stored account must exist and keep its type.
   */
  function SameTypeAsStored(a: Account, id: string, store: AccountStore): (r: Result<Account>)
    ensures r.Ok? <==> id in store && store[id].accountType.Some? && store[id].accountType == a.accountType
    ensures r.Ok? ==> r.value == a
    ensures id !in store ==> r == Err(IllegalArgumentError(AccountNotFoundMessage(id)))
    ensures id in store && store[id].accountType.Some? && store[id].accountType != a.accountType ==>
      r == Err(IllegalArgumentError(TypeChangeMessage))
  {
    if id !in store then Err(IllegalArgumentError(AccountNotFoundMessage(id)))
    else if store[id].accountType.None? then Err(NullPointerError)
    else if store[id].accountType != a.accountType then Err(IllegalArgumentError(TypeChangeMessage))
    else Ok(a)
  }

  /** BusinessAccountUpdateStrategy.validateAccount, for a request already carrying the path id. */
  function BusinessUpdateValidate(a: Account, id: string, store: AccountStore): (r: Result<Account>)
    ensures r.Ok? ==> r.value == a
    ensures r.Ok? <==>
      && ValidateCustomerSubtype(a.customerSubType, a.customerType).Ok?
      && a.accountType == Some(Checking)
      && id in store && store[id].accountType == a.accountType
  {
    match ValidateCustomerSubtype(a.customerSubType, a.customerType)
    case Err(e) => Err(e)
    case Ok(_) =>
      if a.accountType != Some(Checking) then Err(IllegalArgumentError(BusinessCheckingOnlyMessage))
      else SameTypeAsStored(a, id, store)
  }

  /**
   * BusinessAccountUpdateStrategy.updateAccount: the path id overwrites the
   * request's id, the guards and the type validator run, and the stored
   * account is looked up once more before the validated account is returned.
   */
  function BusinessUpdateAccount(id: string, a: Account, store: AccountStore, hasCreditCard: bool): (r: Result<Account>)
    ensures r.Ok? ==> r.value.accountId == Some(id)
    ensures r.Ok? ==> id in store && store[id].accountType == Some(Checking) && a.accountType == Some(Checking)
    ensures r.Ok? ==> CheckingAdmits(a, hasCreditCard)
    ensures ValidateCustomerSubtype(a.customerSubType, a.customerType).Ok? && a.accountType == Some(Checking) && id !in store
            ==> r == Err(IllegalArgumentError(AccountNotFoundMessage(id)))
    ensures ValidateCustomerSubtype(a.customerSubType, a.customerType).Err? ==>
      r == Err(ValidateCustomerSubtype(a.customerSubType, a.customerType).error)
    ensures ValidateCustomerSubtype(a.customerSubType, a.customerType).Ok? && a.accountType != Some(Checking) ==>
      r == Err(IllegalArgumentError(BusinessCheckingOnlyMessage))
    ensures BusinessUpdateValidate(a.(accountId := Some(id)), id, store).Ok? ==>
      && r == ValidateWithFactory(a.(accountId := Some(id)), hasCreditCard).outcome
      && (r.Ok? <==> CheckingAdmits(a.(accountId := Some(id)), hasCreditCard))
  {
    var request := a.(accountId := Some(id));
    match BusinessUpdateValidate(request, id, store)
    case Err(e) => Err(e)
    case Ok(acc) =>
      match ValidateWithFactory(acc, hasCreditCard).outcome
      case Err(e) => Err(e)
      case Ok(validated) =>
        if id !in store then Err(IllegalArgumentError(AccountNotFoundMessage(id)))
        else Ok(validated.(accountId := Some(id)))
  }

  /** PersonalAccountUpdateStrategy.validateAccount, for a request already carrying the path id. */
  function PersonalUpdateValidate(a: Account, id: string, store: AccountStore): (r: Result<Account>)
    ensures r.Ok? ==> r.value == a
    ensures r.Ok? <==> a.customerId.Some? && id in store && store[id].accountType.Some? && store[id].accountType == a.accountType
    ensures a.customerId.None? ==> r == Err(IllegalArgumentError(NullCustomerIdMessage))
  {
    if a.customerId.None? then Err(IllegalArgumentError(NullCustomerIdMessage))
    else SameTypeAsStored(a, id, store)
  }

  /** PersonalAccountUpdateStrategy.updateAccount. */
  function PersonalUpdateAccount(id: string, a: Account, store: AccountStore, hasCreditCard: bool): (r: Result<Account>)
    ensures r.Ok? ==> r.value.accountId == Some(id)
    ensures r.Ok? ==> a.customerId.Some? && id in store && store[id].accountType == a.accountType
    ensures a.customerId.None? ==> r == Err(IllegalArgumentError(NullCustomerIdMessage))
    ensures a.customerId.Some? && id !in store ==> r == Err(IllegalArgumentError(AccountNotFoundMessage(id)))
    ensures PersonalUpdateValidate(a.(accountId := Some(id)), id, store).Ok? ==>
      r == ValidateWithFactory(a.(accountId := Some(id)), hasCreditCard).outcome
  {
    var request := a.(accountId := Some(id));
    match PersonalUpdateValidate(request, id, store)
    case Err(e) => Err(e)
    case Ok(acc) =>
      match ValidateWithFactory(acc, hasCreditCard).outcome
      case Err(e) => Err(e)
      case Ok(validated) =>
        if id !in store then Err(IllegalArgumentError(AccountNotFoundMessage(id)))
        else Ok(validated.(accountId := Some(id)))
  }

  /** An update can never change an account's type. */
  lemma UpdatesKeepStoredType(id: string, a: Account, store: AccountStore, hasCreditCard: bool)
    ensures PersonalUpdateAccount(id, a, store, hasCreditCard).Ok? ==>
      PersonalUpdateAccount(id, a, store, hasCreditCard).value.accountType == store[id].accountType
    ensures BusinessUpdateAccount(id, a, store, hasCreditCard).Ok? ==>
      BusinessUpdateAccount(id, a, store, hasCreditCard).value.accountType == store[id].accountType
  {
  }
}
