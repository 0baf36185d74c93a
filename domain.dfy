/**
 * The entities shared by the bank-account service: accounts, transactions,
 * commission records and debit cards, the failures the service raises, and
 * the few pieces of Java library behaviour the rules depend on (32-bit
 * counters, Integer.parseInt, String.contains and the Gregorian calendar).
 *
 * Money is an exact decimal in the service; here it is an `int` counting
 * minor units. A Java field that may be null is an `Option`.
 */
module Domain {

  datatype Option<+T> = None | Some(value: T)

  /** The exception classes the service's rules can raise. */
  datatype ErrorKind = IllegalArgument | IllegalState | NullPointer | Arithmetic

  /** A raised exception: its class and its message text. */
  datatype Failure = Failure(kind: ErrorKind, message: string)

  datatype Result<+T> = Ok(value: T) | Err(error: Failure)

  function IllegalArgumentError(message: string): Failure
  {
    Failure(IllegalArgument, message)
  }

  /** Unboxing a null Integer, calling a method on a null reference, or switching on a null enum. */
  const NullPointerError: Failure := Failure(NullPointer, "")

  /** What a repository lookup by a null id raises. */
  const NullIdMessage: string := "The given id must not be null"

  // ---------------------------------------------------------------- enums

  datatype AccountType = Savings | Checking | FixedTerm
  datatype CustomerType = Personal | Business
  datatype CustomerSubtype = Regular | Vip | Pyme
  datatype TxType = Deposit | Withdrawal
  /** SINGLE_ACCOUNT, or any other mode, which the engine treats as a transfer. */
  datatype TxMode = SingleAccount | BetweenAccounts

  /** The text Java's string concatenation produces for a possibly null account type. */
  function AccountTypeName(t: Option<AccountType>): string
  {
    match t
    case None => "null"
    case Some(Savings) => "SAVINGS"
    case Some(Checking) => "CHECKING"
    case Some(FixedTerm) => "FIXED_TERM"
  }

  // ---------------------------------------------------------------- time

  /**
   * A point in time: the calendar day (days since 1970-01-01 in the
   * server's time zone) and the milliseconds elapsed in that day.
   */
  datatype Instant = Instant(day: int, millis: int)

  const MillisPerDay: int := 86_400_000

  /** Strict chronological order of well-formed instants. */
  predicate Before(a: Instant, b: Instant)
  {
    a.day < b.day || (a.day == b.day && a.millis < b.millis)
  }

  predicate AtOrBefore(a: Instant, b: Instant)
  {
    Before(a, b) || a == b
  }

  datatype CivilDate = CivilDate(year: int, month: int, dayOfMonth: int)

  /**
   * Year, month (1..12) and day of month of a day number in the proleptic
   * Gregorian calendar (the classic days-to-civil conversion).
   */
  function CivilFromDays(days: int): CivilDate
  {
    var z := days + 719468;
    var era := z / 146097;
    var doe := z % 146097;
    var yoe := (doe - doe / 1460 + doe / 36524 - doe / 146096) / 365;
    var doy := doe - (365 * yoe + yoe / 4 - yoe / 100);
    var mp := (5 * doy + 2) / 153;
    var d := doy - (153 * mp + 2) / 5 + 1;
    var m := if mp < 10 then mp + 3 else mp - 9;
    CivilDate(yoe + era * 400 + (if m <= 2 then 1 else 0), m, d)
  }

  function DayOfMonth(t: Instant): int
  {
    CivilFromDays(t.day).dayOfMonth
  }

  /** Same year, month and day of month (FixedTermTransactionValidator.isSameDay). */
  predicate SameCalendarDay(a: Instant, b: Instant)
  {
    var ca := CivilFromDays(a.day);
    var cb := CivilFromDays(b.day);
    ca.year == cb.year && ca.month == cb.month && ca.dayOfMonth == cb.dayOfMonth
  }

  /** Same year and month (SavingsTransactionValidator.isInCurrentMonth). */
  predicate SameCalendarMonth(a: Instant, b: Instant)
  {
    var ca := CivilFromDays(a.day);
    var cb := CivilFromDays(b.day);
    ca.year == cb.year && ca.month == cb.month
  }

  // ---------------------------------------------------------------- 32-bit integers

  const MinInt: int := -0x8000_0000
  const MaxInt: int := 0x7fff_ffff

  /** The values of a Java `int` (or of a non-null `Integer`). */
  type Int32 = x: int | -0x8000_0000 <= x <= 0x7fff_ffff

  /** Java's `int` addition of one: Integer.MAX_VALUE + 1 wraps to Integer.MIN_VALUE. */
  function Inc32(x: Int32): (r: Int32)
    ensures x < MaxInt ==> r == x + 1
    ensures x == MaxInt ==> r == MinInt
  {
    (x + 1 - MinInt) % 0x1_0000_0000 + MinInt
  }

  // ---------------------------------------------------------------- strings

  /** String.contains. */
  predicate Contains(s: string, sub: string)
    decreases |s|
  {
    sub <= s || (|s| > 0 && Contains(s[1..], sub))
  }

  lemma {:induction false} ContainsInfix(prefix: string, sub: string, suffix: string)
    ensures Contains(prefix + sub + suffix, sub)
    decreases |prefix|
  {
    var s := prefix + sub + suffix;
    if prefix == [] {
      assert s[..|sub|] == sub;
    } else {
      ContainsInfix(prefix[1..], sub, suffix);
      assert s[1..] == prefix[1..] + sub + suffix;
    }
  }

  predicate IsDigit(c: char)
  {
    '0' <= c <= '9'
  }

  predicate AllDigits(s: string)
  {
    forall i :: 0 <= i < |s| ==> IsDigit(s[i])
  }

  function DigitsValue(s: string): (v: nat)
    requires AllDigits(s)
  {
    if s == [] then 0
    else 10 * DigitsValue(s[..|s| - 1]) + (s[|s| - 1] as int - '0' as int)
  }

  /**
   * Integer.parseInt(s) for a non-null string: an optional sign followed by
   * one or more decimal digits whose value fits in 32 bits.
   */
  function ParseInt(s: string): (r: Option<int>)
    ensures r.Some? ==> MinInt <= r.value <= MaxInt
    ensures r.Some? ==> 0 < |s| && (AllDigits(s) || (s[0] in "+-" && AllDigits(s[1..])))
    ensures AllDigits(s) && 0 < |s| && DigitsValue(s) <= MaxInt ==> r == Some(DigitsValue(s))
    ensures AllDigits(s) && 0 < |s| && DigitsValue(s) > MaxInt ==> r.None?
    ensures 1 < |s| && s[0] == '+' && AllDigits(s[1..]) ==>
      r == (if DigitsValue(s[1..]) <= MaxInt then Some(DigitsValue(s[1..])) else None)
    ensures 1 < |s| && s[0] == '-' && AllDigits(s[1..]) ==>
      r == (if DigitsValue(s[1..]) <= -MinInt then Some(-(DigitsValue(s[1..]) as int)) else None)
  {
    if |s| == 0 then None
    else
      var digits := if s[0] == '-' || s[0] == '+' then s[1..] else s;
      if |digits| == 0 || !AllDigits(digits) then None
      else
        var v: int := if s[0] == '-' then -(DigitsValue(digits) as int) else DigitsValue(digits);
        if MinInt <= v <= MaxInt then Some(v) else None
  }

  /** The message of the NumberFormatException that Integer.parseInt raises. */
  function ParseIntFailure(s: Option<string>): Failure
  {
    match s
    case None => IllegalArgumentError("Cannot parse null string: null")
    case Some(text) => IllegalArgumentError("For input string: \"" + text + "\"")
  }

  // ---------------------------------------------------------------- entities

  /**
   * A bank account (AccountBaseEntity / AccountBase). Owners and authorised
   * signers are reduced to the owners' identifiers; only whether the list
   * is null or empty matters to the rules.
   */
  datatype Account = Account(
    accountId: Option<string>,
    accountType: Option<AccountType>,
    balance: int,
    customerId: Option<string>,
    customerType: Option<CustomerType>,
    customerSubType: Option<CustomerSubtype>,
    owners: Option<seq<string>>,
    maintenanceFee: Option<int>,
    feePerTransaction: Option<int>,
    movementLimit: Option<Int32>,
    monthlyMovementLimit: Option<Int32>,
    transactionMovements: Option<Int32>,
    allowedDayOfMonth: Option<string>)

  /** A transaction (Transaction / TransactionEntity); ids are store positions. */
  datatype Transaction = Transaction(
    transactionId: Option<nat>,
    date: Option<Instant>,
    txType: Option<TxType>,
    amount: int,
    sourceAccountId: string,
    destinyAccountId: Option<string>,
    mode: TxMode,
    isByCreditCard: Option<bool>)

  /** A commission record (CommissionEntity). */
  datatype Commission = Commission(
    transactionId: Option<nat>,
    accountId: string,
    amount: int,
    dateTime: Instant)

  /** A debit card (DebitCard / DebitCardEntity). */
  datatype DebitCard = DebitCard(
    id: string,
    cardNumber: string,
    primaryAccountId: string,
    associatedAccountIds: Option<seq<string>>)
}
