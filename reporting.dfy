/**
 * ReportingService: the day-by-day average balance of an account over a
 * period, the commission report of an account, and the last ten card
 * transactions of a debit card.
 */
module Reporting {
  import opened Domain
  import opened Posting
  import opened PostingProperties
  import opened DebitCards
  import opened Balances

  // ---------------------------------------------------------------- BigDecimal division

  function Abs(x: int): nat
  {
    if x < 0 then -x else x
  }

  /** a / b for a non-negative a, rounded half up. */
  function HalfUpQuotient(a: nat, b: int): nat
    requires b > 0
  {
    if 2 * (a % b) >= b then a / b + 1 else a / b
  }

  /** The quotient n / d rounded to the nearest integer, ties away from zero (RoundingMode.HALF_UP). */
  function RoundHalfUp(n: int, d: int): int
    requires d != 0
  {
    var m: int := HalfUpQuotient(Abs(n), Abs(d));
    if (n < 0) != (d < 0) then -m else m
  }

  /** On magnitudes: rounding a / b half up lands within half a divisor, and a tie goes up. */
  lemma HalfUpMagnitude(a: nat, b: int)
    requires b > 0
    ensures var m := HalfUpQuotient(a, b);
      && 2 * Abs(a - m * b) <= b
      && (2 * Abs(a - m * b) == b ==> m * b > a)
  {
    var q, rem := a / b, a % b;
    assert a == q * b + rem && 0 <= rem < b;
    if 2 * rem >= b {
      assert (q + 1) * b == q * b + b;
    }
  }

  /** The rounded quotient times the divisor has the dividend's sign and the magnitudes' product. */
  lemma SignedProduct(n: int, d: int)
    requires d != 0
    ensures var m := HalfUpQuotient(Abs(n), Abs(d));
      RoundHalfUp(n, d) * d == (if n < 0 then -(m * Abs(d)) else m * Abs(d))
  {
    var m: int := HalfUpQuotient(Abs(n), Abs(d));
    var b: int := Abs(d);
    if n >= 0 && d > 0 {
    } else if n >= 0 {
      assert RoundHalfUp(n, d) * d == (-m) * (-b);
    } else if d > 0 {
      assert RoundHalfUp(n, d) * d == (-m) * b;
    } else {
      assert RoundHalfUp(n, d) * d == m * (-b);
    }
  }

  /** HALF_UP picks the nearest multiple of the divisor and, between two equally near, the one farther from zero. */
  lemma RoundHalfUpNearest(n: int, d: int)
    requires d != 0
    ensures 2 * Abs(n - RoundHalfUp(n, d) * d) <= Abs(d)
    ensures 2 * Abs(n - RoundHalfUp(n, d) * d) == Abs(d) ==> Abs(RoundHalfUp(n, d) * d) > Abs(n)
  {
    var a, b := Abs(n), Abs(d);
    var p := HalfUpQuotient(a, b) * b;
    HalfUpMagnitude(a, b);
    SignedProduct(n, d);
    assert Abs(n - RoundHalfUp(n, d) * d) == Abs(a - p);
    assert Abs(RoundHalfUp(n, d) * d) == p;
  }

  /** Euclidean division undoes a multiplication by a positive divisor. */
  lemma MulDivExact(a: nat, d: int)
    requires d > 0
    ensures (a * d) / d == a && (a * d) % d == 0
  {
    var q, r := (a * d) / d, (a * d) % d;
    assert a * d == q * d + r && 0 <= r < d;
    assert (a - q) * d == r;
    if a - q >= 1 {
      assert false;
    } else if a - q <= -1 {
      assert false;
    }
  }

  /** A divisor that goes exactly into the dividend gives the exact quotient. */
  lemma RoundHalfUpExact(k: int, d: int)
    requires d > 0
    ensures RoundHalfUp(k * d, d) == k
  {
    var a := Abs(k);
    if k < 0 {
      assert k * d == -(a * d);
      assert a * d > 0;
    } else {
      assert k * d == a * d;
    }
    MulDivExact(a, d);
  }

  /** The message of the ArithmeticException the long division inside BigDecimal.divide raises. */
  const DivisionByZeroMessage: string := "/ by zero"

  /**
   * BigDecimal.divide(divisor, HALF_UP) at the dividend's scale: a zero
   * divisor raises an ArithmeticException, otherwise the rounded quotient.
   */
  function DivideHalfUp(n: int, d: int): (r: Result<int>)
    ensures d == 0 <==> r.Err?
    ensures d == 0 ==> r == Err(Failure(Arithmetic, DivisionByZeroMessage))
    ensures r.Ok? ==> 2 * Abs(n - r.value * d) <= Abs(d)
  {
    if d == 0 then
      Err(Failure(Arithmetic, DivisionByZeroMessage))
    else
      RoundHalfUpNearest(n, d);
      Ok(RoundHalfUp(n, d))
  }

  // ---------------------------------------------------------------- average balance over a period

  /** Every transaction has a date (DateUtils.toLocalDate fails on a missing one). */
  predicate AllDated(txs: seq<Transaction>)
  {
    forall i :: 0 <= i < |txs| ==> txs[i].date.Some?
  }

  /** The transactions dated on the given day, in their stored order. */
  function OnDay(txs: seq<Transaction>, day: int): (r: seq<Transaction>)
    requires AllDated(txs)
    ensures forall t :: t in r <==> t in txs && t.date.Some? && t.date.value.day == day
    ensures (forall t :: t in txs ==> t.date.value.day != day) ==> r == []
  {
    if txs == [] then []
    else
      var rest := OnDay(txs[1..], day);
      if txs[0].date.value.day == day then [txs[0]] + rest else rest
  }

  /** The balance after replaying the transactions in order onto the given one. */
  function Replay(balance: int, ts: seq<Transaction>, accountId: string): (r: Result<int>)
    ensures r.Err? ==> r.error == NullPointerError
    decreases |ts|
  {
    if ts == [] then Ok(balance)
    else
      match CalculateDailyBalance(balance, ts[0], accountId)
      case Err(e) => Err(e)
      case Ok(b) => Replay(b, ts[1..], accountId)
  }

  /** The closing balance of one day: that day's transactions replayed onto the previous closing balance. */
  function ReplayDay(balance: int, txs: seq<Transaction>, day: int, accountId: string): Result<int>
  {
    if !AllDated(txs) then Err(NullPointerError) else Replay(balance, OnDay(txs, day), accountId)
  }

  /** The sum of the closing balances of the days from `day` to `end`, starting from the given balance. */
  function SumFrom(balance: int, txs: seq<Transaction>, day: int, end: int, accountId: string): Result<int>
    decreases if day <= end then end - day + 1 else 0
  {
    if day > end then Ok(0)
    else
      match ReplayDay(balance, txs, day, accountId)
      case Err(e) => Err(e)
      case Ok(b) =>
        match SumFrom(b, txs, day + 1, end, accountId)
        case Err(e) => Err(e)
        case Ok(rest) => Ok(b + rest)
  }

  /** A partial sum added to a pending sum. */
  function Plus(r: Result<int>, k: int): Result<int>
  {
    if r.Ok? then Ok(r.value + k) else r
  }

  /**
   * calculateSalaryAverage: the mean of the closing balances of the days
   * from start to end inclusive, replayed from the given balance, rounded
   * HALF_UP. An empty period divides by zero days or by a negative count.
   */
  function AverageSpec(balance: int, txs: seq<Transaction>, start: int, end: int, accountId: string): Result<int>
  {
    match SumFrom(balance, txs, start, end, accountId)
    case Err(e) => Err(e)
    case Ok(sum) => DivideHalfUp(sum, end - start + 1)
  }

  /** The days of a period with no dated transaction in it all close at the opening balance. */
  lemma {:induction false} QuietDaysSum(balance: int, txs: seq<Transaction>, day: int, end: int, accountId: string)
    requires AllDated(txs)
    requires forall t :: t in txs ==> t.date.value.day < day || t.date.value.day > end
    ensures SumFrom(balance, txs, day, end, accountId) == Ok(if day <= end then balance * (end - day + 1) else 0)
    decreases if day <= end then end - day + 1 else 0
  {
    if day <= end {
      assert OnDay(txs, day) == [];
      QuietDaysSum(balance, txs, day + 1, end, accountId);
      assert balance * (end - day + 1) == balance + (if day + 1 <= end then balance * (end - day) else 0);
    }
  }

  /** With no transaction in the period the average is the balance the replay starts from. */
  lemma QuietPeriodAverage(balance: int, txs: seq<Transaction>, start: int, end: int, accountId: string)
    requires start <= end && AllDated(txs)
    requires forall t :: t in txs ==> t.date.value.day < start || t.date.value.day > end
    ensures AverageSpec(balance, txs, start, end, accountId) == Ok(balance)
  {
    QuietDaysSum(balance, txs, start, end, accountId);
    RoundHalfUpExact(balance, end - start + 1);
  }

  /** An empty period: the division by zero days fails, a negative day count yields zero. */
  lemma EmptyPeriodAverage(balance: int, txs: seq<Transaction>, start: int, end: int, accountId: string)
    requires start > end
    ensures start == end + 1 ==> AverageSpec(balance, txs, start, end, accountId) == Err(Failure(Arithmetic, DivisionByZeroMessage))
    ensures start > end + 1 ==> AverageSpec(balance, txs, start, end, accountId) == Ok(0)
  {
    if start > end + 1 {
      RoundHalfUpNearest(0, end - start + 1);
    }
  }

  /** The inner loop of calculateSalaryAverage: one day's transactions applied in order. */
  method ApplyDailyTransactions(openingBalance: int, dailyTransactions: seq<Transaction>, accountId: string)
    returns (r: Result<int>)
    ensures r == Replay(openingBalance, dailyTransactions, accountId)
  {
    var dailyBalance := openingBalance;
    for i := 0 to |dailyTransactions|
      invariant Replay(openingBalance, dailyTransactions, accountId) == Replay(dailyBalance, dailyTransactions[i..], accountId)
    {
      assert dailyTransactions[i..][1..] == dailyTransactions[i + 1..];
      var next := CalculateDailyBalance(dailyBalance, dailyTransactions[i], accountId);
      if next.Err? {
        return Err(next.error);
      }
      dailyBalance := next.value;
    }
    assert dailyTransactions[|dailyTransactions|..] == [];
    r := Ok(dailyBalance);
  }

  /** The day-by-day loop of calculateSalaryAverage. */
  method CalculateSalaryAverage(initialBalance: int, transactions: seq<Transaction>, startOfMonth: int, endOfMonth: int,
                                accountId: string) returns (r: Result<int>)
    ensures r == AverageSpec(initialBalance, transactions, startOfMonth, endOfMonth, accountId)
  {
    var dailyBalance := initialBalance;
    var sumOfBalances := 0;
    var currentDate := startOfMonth;
    while currentDate <= endOfMonth
      invariant startOfMonth <= currentDate
      invariant currentDate <= endOfMonth + 1 || currentDate == startOfMonth
      invariant SumFrom(initialBalance, transactions, startOfMonth, endOfMonth, accountId)
             == Plus(SumFrom(dailyBalance, transactions, currentDate, endOfMonth, accountId), sumOfBalances)
      decreases endOfMonth - currentDate
    {
      if !AllDated(transactions) {
        return Err(NullPointerError);
      }
      var closing := ApplyDailyTransactions(dailyBalance, OnDay(transactions, currentDate), accountId);
      if closing.Err? {
        return Err(closing.error);
      }
      dailyBalance := closing.value;
      sumOfBalances := sumOfBalances + dailyBalance;
      currentDate := currentDate + 1;
    }
    var daysInPeriod := endOfMonth - startOfMonth + 1;
    r := DivideHalfUp(sumOfBalances, daysInPeriod);
  }

  // ---------------------------------------------------------------- commission report

  /** LocalTime.MAX truncated to the millisecond a Date holds. */
  const EndOfDayMillis: int := 86_399_999

  /** The account's commission lies strictly between the start of the first day and the end of the last. */
  predicate InReportWindow(c: Commission, accountId: string, startDay: int, endDay: int)
  {
    && c.accountId == accountId
    && Before(Instant(startDay, 0), c.dateTime)
    && Before(c.dateTime, Instant(endDay, EndOfDayMillis))
  }

  /** findByAccountIdAndDateTimeBetween, in stored order. */
  function Selected(cs: seq<Commission>, accountId: string, startDay: int, endDay: int): (r: seq<Commission>)
    ensures |r| <= |cs|
    ensures forall c :: c in r <==> c in cs && InReportWindow(c, accountId, startDay, endDay)
    ensures (forall c :: c in cs ==> !InReportWindow(c, accountId, startDay, endDay)) ==> r == []
  {
    if cs == [] then []
    else
      assert cs == cs[..|cs| - 1] + [cs[|cs| - 1]];
      var rest := Selected(cs[..|cs| - 1], accountId, startDay, endDay);
      if InReportWindow(cs[|cs| - 1], accountId, startDay, endDay) then rest + [cs[|cs| - 1]] else rest
  }

  /** The reduce over the amounts, starting from zero. */
  function TotalAmount(cs: seq<Commission>): int
  {
    if cs == [] then 0 else TotalAmount(cs[..|cs| - 1]) + cs[|cs| - 1].amount
  }

  datatype CommissionReport = CommissionReport(
    accountId: string,
    totalCommission: int,
    transactionCount: nat,
    startDate: Instant,
    endDate: Instant)

  /** generateCommissionReportByAccountId: total and count of the selected commissions; zero and zero when there are none. */
  function CommissionReportSpec(commissions: seq<Commission>, accountId: string, startDate: Instant, endDate: Instant): (r: CommissionReport)
    ensures r.accountId == accountId && r.startDate == startDate && r.endDate == endDate
    ensures r.transactionCount <= |commissions|
    ensures (forall c :: c in commissions ==> !InReportWindow(c, accountId, startDate.day, endDate.day)) ==>
      r.totalCommission == 0 && r.transactionCount == 0
  {
    var selected := Selected(commissions, accountId, startDate.day, endDate.day);
    CommissionReport(accountId, TotalAmount(selected), |selected|, startDate, endDate)
  }

  /** One more stored commission adds its amount and one to the count exactly when it is in the window. */
  lemma CommissionReportAppend(cs: seq<Commission>, c: Commission, accountId: string, startDate: Instant, endDate: Instant)
    ensures var before := CommissionReportSpec(cs, accountId, startDate, endDate);
      var after := CommissionReportSpec(cs + [c], accountId, startDate, endDate);
      if InReportWindow(c, accountId, startDate.day, endDate.day) then
        after.totalCommission == before.totalCommission + c.amount && after.transactionCount == before.transactionCount + 1
      else
        after == before
  {
    assert (cs + [c])[..|cs + [c]| - 1] == cs;
  }

  /** With only positive commissions the total is at least the count. */
  lemma {:induction false} TotalAtLeastCount(cs: seq<Commission>, accountId: string, startDay: int, endDay: int)
    requires forall c :: c in cs ==> c.amount > 0
    ensures TotalAmount(Selected(cs, accountId, startDay, endDay)) >= |Selected(cs, accountId, startDay, endDay)|
  {
    if cs != [] {
      assert forall c :: c in cs[..|cs| - 1] ==> c in cs;
      TotalAtLeastCount(cs[..|cs| - 1], accountId, startDay, endDay);
    }
  }

  /** On the posting engine's stores every commission charged something, so a report's total is at least its count. */
  lemma LinkedReportTotalAtLeastCount(s: Stores, accountId: string, startDate: Instant, endDate: Instant)
    requires Linked(s)
    ensures var r := CommissionReportSpec(s.commissions, accountId, startDate, endDate);
      r.totalCommission >= r.transactionCount
  {
    forall c | c in s.commissions
      ensures c.amount > 0
    {
      var j :| 0 <= j < |s.commissions| && s.commissions[j] == c;
      assert CommissionLinked(s.commissions[j], s.transactions);
    }
    TotalAtLeastCount(s.commissions, accountId, startDate.day, endDate.day);
  }

  /**
   * A posting on linked stores never lowers a commission report: it adds at
   * most one record, with a positive amount.
   */
  lemma PostingNeverLowersReport(s: Stores, tx: Transaction, now: Instant, accountId: string, startDate: Instant, endDate: Instant)
    requires Linked(s)
    ensures var before := CommissionReportSpec(s.commissions, accountId, startDate, endDate);
      var after := CommissionReportSpec(PostSpec(s, tx, now).stores.commissions, accountId, startDate, endDate);
      && before.totalCommission <= after.totalCommission
      && before.transactionCount <= after.transactionCount <= before.transactionCount + 1
  {
    var p := PostSpec(s, tx, now);
    var after := p.stores.commissions;
    if p.result.Err? || |after| == |s.commissions| {
      assert after == after[..|s.commissions|] == s.commissions;
    } else {
      PostPreservesLinked(s, tx, now);
      var added := after[|s.commissions|];
      assert CommissionLinked(added, p.stores.transactions);
      assert after == after[..|s.commissions|] + [added];
      PositiveCommissionNeverLowersReport(s.commissions, added, accountId, startDate, endDate);
    }
  }

  /** Storing one more commission with a positive amount never lowers the report. */
  lemma PositiveCommissionNeverLowersReport(cs: seq<Commission>, c: Commission, accountId: string, startDate: Instant, endDate: Instant)
    requires c.amount > 0
    ensures var before := CommissionReportSpec(cs, accountId, startDate, endDate);
      var after := CommissionReportSpec(cs + [c], accountId, startDate, endDate);
      && before.totalCommission <= after.totalCommission
      && before.transactionCount <= after.transactionCount <= before.transactionCount + 1
  {
    CommissionReportAppend(cs, c, accountId, startDate, endDate);
  }

  // ---------------------------------------------------------------- last ten card transactions

  /** The sort key: the date, or the epoch for an undated transaction. */
  function DateKey(t: Transaction): Instant
  {
    if t.date.Some? then t.date.value else Instant(0, 0)
  }

  /** Newest first: no transaction is newer than one before it. */
  predicate NewestFirst(ts: seq<Transaction>)
  {
    forall i, j :: 0 <= i < j < |ts| ==> AtOrBefore(DateKey(ts[j]), DateKey(ts[i]))
  }

  /** Place t before the first element that is not strictly newer, so equal keys keep their order. */
  function InsertNewestFirst(t: Transaction, ts: seq<Transaction>): (r: seq<Transaction>)
    ensures multiset(r) == multiset(ts) + multiset{t}
    ensures forall x :: x in r <==> x in ts || x == t
  {
    if ts == [] || AtOrBefore(DateKey(ts[0]), DateKey(t)) then
      [t] + ts
    else
      assert ts == [ts[0]] + ts[1..];
      [ts[0]] + InsertNewestFirst(t, ts[1..])
  }

  /** Inserting into a newest-first list keeps it newest first. */
  lemma {:induction false} InsertKeepsNewestFirst(t: Transaction, ts: seq<Transaction>)
    requires NewestFirst(ts)
    ensures NewestFirst(InsertNewestFirst(t, ts))
  {
    if ts != [] && !AtOrBefore(DateKey(ts[0]), DateKey(t)) {
      var rest := InsertNewestFirst(t, ts[1..]);
      assert NewestFirst(ts[1..]) by {
        forall i, j | 0 <= i < j < |ts[1..]|
          ensures AtOrBefore(DateKey(ts[1..][j]), DateKey(ts[1..][i]))
        {
          assert ts[1..][j] == ts[j + 1] && ts[1..][i] == ts[i + 1];
        }
      }
      InsertKeepsNewestFirst(t, ts[1..]);
      forall x | x in rest
        ensures AtOrBefore(DateKey(x), DateKey(ts[0]))
      {
        if x != t {
          var j :| 0 <= j < |ts[1..]| && ts[1..][j] == x;
          assert ts[j + 1] == x;
        }
      }
      var r := [ts[0]] + rest;
      forall i, j | 0 <= i < j < |r|
        ensures AtOrBefore(DateKey(r[j]), DateKey(r[i]))
      {
        if i == 0 {
          assert r[j] == rest[j - 1] && r[j] in rest;
        } else {
          assert r[j] == rest[j - 1] && r[i] == rest[i - 1];
        }
      }
    }
  }

  /** The stable newest-first sort of the pipeline. */
  function SortNewestFirst(ts: seq<Transaction>): (r: seq<Transaction>)
    ensures multiset(r) == multiset(ts)
    ensures NewestFirst(r)
  {
    if ts == [] then []
    else
      assert ts == [ts[0]] + ts[1..];
      var sorted := SortNewestFirst(ts[1..]);
      InsertKeepsNewestFirst(ts[0], sorted);
      InsertNewestFirst(ts[0], sorted)
  }

  /** The primary account followed by the associated ones. */
  function CardAccountIds(card: DebitCard): seq<string>
  {
    [card.primaryAccountId] + AssociatedIds(card)
  }

  /** findBySourceAccountId for each account in turn, concatenated. */
  function SourcedFrom(store: seq<Transaction>, ids: seq<string>): (r: seq<Transaction>)
    ensures forall t :: t in r <==> t in store && t.sourceAccountId in ids
  {
    if ids == [] then []
    else
      var own := OwnTransactions(store, ids[0]);
      own + SourcedFrom(store, ids[1..])
  }

  function OwnTransactions(store: seq<Transaction>, id: string): (r: seq<Transaction>)
    ensures forall t :: t in r <==> t in store && t.sourceAccountId == id
  {
    if store == [] then []
    else
      var rest := OwnTransactions(store[1..], id);
      if store[0].sourceAccountId == id then [store[0]] + rest else rest
  }

  /** Keep only transactions flagged as made with the card. */
  function MadeByCard(ts: seq<Transaction>): (r: seq<Transaction>)
    ensures forall t :: t in r <==> t in ts && t.isByCreditCard == Some(true)
  {
    if ts == [] then []
    else
      var rest := MadeByCard(ts[1..]);
      if ts[0].isByCreditCard == Some(true) then [ts[0]] + rest else rest
  }

  /** The card transactions the report chooses from. */
  function Candidates(store: seq<Transaction>, card: DebitCard): seq<Transaction>
  {
    MadeByCard(SourcedFrom(store, CardAccountIds(card)))
  }

  function Min(a: int, b: int): int
  {
    if a < b then a else b
  }

  datatype TransactionReport = TransactionReport(
    cardNumber: string,
    generationDate: Instant,
    transactions: seq<Transaction>,
    transactionCount: nat,
    newestTransactionDate: Option<Instant>,
    oldestTransactionDate: Option<Instant>)

  /** The first n of a newest-first list: still newest first, and part of the list. */
  lemma NewestPrefix(sorted: seq<Transaction>, n: nat)
    requires NewestFirst(sorted) && n <= |sorted|
    ensures NewestFirst(sorted[..n])
    ensures multiset(sorted[..n]) <= multiset(sorted)
  {
    assert sorted == sorted[..n] + sorted[n..];
    assert multiset(sorted) == multiset(sorted[..n]) + multiset(sorted[n..]);
  }

  /**
   * getLastTenTransactions: the ten newest card transactions drawn on the
   * card's accounts, newest first, with their count and the dates of the
   * first and last.
   */
  function LastTenSpec(cards: seq<DebitCard>, store: seq<Transaction>, cardNumber: string, now: Instant): (r: Result<TransactionReport>)
    ensures r.Err? <==> FindCardByNumber(cards, cardNumber).None?
    ensures r.Err? ==> r.error == IllegalArgumentError(CardNumberNotFoundMessage(cardNumber))
    ensures r.Ok? ==>
      var candidates := Candidates(store, FindCardByNumber(cards, cardNumber).value);
      var kept := r.value.transactions;
      && |kept| == Min(10, |candidates|)
      && r.value.transactionCount == |kept|
      && NewestFirst(kept)
      && multiset(kept) <= multiset(candidates)
  {
    match FindCardByNumber(cards, cardNumber)
    case None => Err(IllegalArgumentError(CardNumberNotFoundMessage(cardNumber)))
    case Some(card) =>
      var sorted := SortNewestFirst(Candidates(store, card));
      var kept := sorted[..Min(10, |sorted|)];
      NewestPrefix(sorted, |kept|);
      Ok(TransactionReport(cardNumber, now, kept, |kept|,
                           if kept == [] then None else kept[0].date,
                           if kept == [] then None else kept[|kept| - 1].date))
  }

  /**
   * Every reported transaction was made with the card and drawn on one of
   * its accounts, and the report's dates are those of its first and last
   * transaction.
   */
  lemma LastTenReportsCardTransactions(cards: seq<DebitCard>, store: seq<Transaction>, cardNumber: string, now: Instant)
    requires LastTenSpec(cards, store, cardNumber, now).Ok?
    ensures var card := FindCardByNumber(cards, cardNumber).value;
      var report := LastTenSpec(cards, store, cardNumber, now).value;
      var kept := report.transactions;
      && (forall t :: t in kept ==> t in store && t.isByCreditCard == Some(true) && t.sourceAccountId in CardAccountIds(card))
      && (kept == [] ==> report.newestTransactionDate.None? && report.oldestTransactionDate.None?)
      && (kept != [] ==> report.newestTransactionDate == kept[0].date && report.oldestTransactionDate == kept[|kept| - 1].date)
  {
    var card := FindCardByNumber(cards, cardNumber).value;
    var candidates := Candidates(store, card);
    var kept := LastTenSpec(cards, store, cardNumber, now).value.transactions;
    forall t | t in kept
      ensures t in store && t.isByCreditCard == Some(true) && t.sourceAccountId in CardAccountIds(card)
    {
      assert t in multiset(kept);
      assert t in multiset(candidates);
      assert t in MadeByCard(SourcedFrom(store, CardAccountIds(card)));
    }
  }

  /** What the first n of a list leave out is found after position n. */
  lemma OmittedLiesBeyond(sorted: seq<Transaction>, n: nat, x: Transaction) returns (j: int)
    requires n <= |sorted| && x in multiset(sorted) - multiset(sorted[..n])
    ensures n <= j < |sorted| && sorted[j] == x
  {
    assert sorted == sorted[..n] + sorted[n..];
    assert multiset(sorted) == multiset(sorted[..n]) + multiset(sorted[n..]);
    assert x in multiset(sorted[n..]);
    assert x in sorted[n..];
    var k :| 0 <= k < |sorted[n..]| && sorted[n..][k] == x;
    j := n + k;
  }

  /**
   * Every stored card payment drawn on one of the card's accounts that the
   * report leaves out is no newer than the oldest transaction it keeps.
   */
  lemma LastTenOmitsOnlyOlder(cards: seq<DebitCard>, store: seq<Transaction>, cardNumber: string, now: Instant, x: Transaction)
    requires LastTenSpec(cards, store, cardNumber, now).Ok?
    requires x in store && x.isByCreditCard == Some(true)
    requires x.sourceAccountId in CardAccountIds(FindCardByNumber(cards, cardNumber).value)
    requires x !in LastTenSpec(cards, store, cardNumber, now).value.transactions
    ensures var kept := LastTenSpec(cards, store, cardNumber, now).value.transactions;
      kept != [] && AtOrBefore(DateKey(x), DateKey(kept[|kept| - 1]))
  {
    var card := FindCardByNumber(cards, cardNumber).value;
    var candidates := Candidates(store, card);
    var sorted := SortNewestFirst(candidates);
    var n := Min(10, |sorted|);
    var kept := sorted[..n];
    assert kept == LastTenSpec(cards, store, cardNumber, now).value.transactions;
    assert x in candidates;
    assert x in multiset(sorted);
    assert x in multiset(sorted) - multiset(kept);
    var j := OmittedLiesBeyond(sorted, n, x);
    assert n > 0 && kept[n - 1] == sorted[n - 1];
  }
}
