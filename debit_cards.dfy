/**
 * The debit-card layer of DebitCardOperationsService as functions: the card
 * repository (lookup by id and by number, save as an upsert by id), card
 * creation and account association, and the fallback router that re-drives
 * the posting engine against a card's associated accounts when the primary
 * account cannot cover a card transaction.
 */
module DebitCards {
  import opened Domain
  import opened TransactionRules
  import opened Posting
  import opened PostingProperties

  // ---------------------------------------------------------------- messages

  function CardIdNotFoundMessage(id: string): string
  {
    "La tarjeta de débito con ID " + id + " no existe"
  }

  /** Also used, with a card id in it, when a transfer between cards names an unknown card. */
  function CardNumberNotFoundMessage(number: string): string
  {
    "La tarjeta de débito con número " + number + " no existe"
  }

  function PrimaryAccountMissingMessage(id: string): string
  {
    "La cuenta principal con ID " + id + " no existe"
  }

  function AssociatedAccountMissingMessage(id: string): string
  {
    "La cuenta asociada con ID " + id + " no existe"
  }

  function AccountMissingMessage(id: string): string
  {
    "La cuenta con ID " + id + " no existe"
  }

  const AlreadyAssociatedMessage: string := "La cuenta ya está asociada a esta tarjeta"
  const NoAssociatedFundsMessage: string := "No hay fondos suficientes en ninguna cuenta asociada"
  const NoAssociatedFundsOnCardMessage: string := "No hay fondos suficientes en ninguna cuenta asociada a la tarjeta"
  const NoFundsAnywhereMessage: string := "No hay fondos suficientes en la cuenta principal ni en las asociadas"

  // ---------------------------------------------------------------- the card repository

  /** findById: the first stored card with that id. */
  function FindCardById(cards: seq<DebitCard>, id: string): (r: Option<DebitCard>)
    ensures r.Some? ==> r.value in cards && r.value.id == id
    ensures r.None? <==> forall i :: 0 <= i < |cards| ==> cards[i].id != id
  {
    if cards == [] then None
    else if cards[0].id == id then Some(cards[0])
    else FindCardById(cards[1..], id)
  }

  /** findByCardNumber: the first stored card with that number. */
  function FindCardByNumber(cards: seq<DebitCard>, number: string): (r: Option<DebitCard>)
    ensures r.Some? ==> r.value in cards && r.value.cardNumber == number
    ensures r.None? <==> forall i :: 0 <= i < |cards| ==> cards[i].cardNumber != number
  {
    if cards == [] then None
    else if cards[0].cardNumber == number then Some(cards[0])
    else FindCardByNumber(cards[1..], number)
  }

  /** save: replaces the card stored under the same id, or adds it. */
  function SaveCard(cards: seq<DebitCard>, card: DebitCard): (r: seq<DebitCard>)
    ensures FindCardById(r, card.id) == Some(card)
    ensures forall id :: id != card.id ==> FindCardById(r, id) == FindCardById(cards, id)
  {
    if cards == [] then [card]
    else if cards[0].id == card.id then [card] + cards[1..]
    else [cards[0]] + SaveCard(cards[1..], card)
  }

  /** The card's associated accounts, a missing list read as empty (getAssociatedAccountsFlux). */
  function AssociatedIds(card: DebitCard): seq<string>
  {
    if card.associatedAccountIds.Some? then card.associatedAccountIds.value else []
  }

  /** The outcome of a card operation together with the card repository after it. */
  datatype CardUpdate = CardUpdate(result: Result<DebitCard>, cards: seq<DebitCard>)

  /** The position of the first id with no account, or the length when every id resolves. */
  function FirstMissingIndex(ids: seq<string>, accounts: map<string, Account>): (k: nat)
    ensures k <= |ids|
    ensures forall j :: 0 <= j < k ==> ids[j] in accounts
    ensures k < |ids| ==> ids[k] !in accounts
  {
    if ids == [] then 0
    else if ids[0] !in accounts then 0
    else 1 + FirstMissingIndex(ids[1..], accounts)
  }

  /**
   * createDebitCard: the primary account must exist, then every associated
   * account in list order; a missing list is stored as empty.
   */
  function CreateDebitCardSpec(cards: seq<DebitCard>, accounts: map<string, Account>, card: DebitCard): (u: CardUpdate)
    ensures u.result.Ok? <==> card.primaryAccountId in accounts && forall id :: id in AssociatedIds(card) ==> id in accounts
    ensures u.result.Err? ==> u.cards == cards
    ensures card.primaryAccountId !in accounts ==>
      u.result == Err(IllegalArgumentError(PrimaryAccountMissingMessage(card.primaryAccountId)))
    ensures card.primaryAccountId in accounts && FirstMissingIndex(AssociatedIds(card), accounts) < |AssociatedIds(card)| ==>
      u.result == Err(IllegalArgumentError(AssociatedAccountMissingMessage(
        AssociatedIds(card)[FirstMissingIndex(AssociatedIds(card), accounts)])))
    ensures u.result.Ok? ==>
      && u.result.value == card.(associatedAccountIds := Some(AssociatedIds(card)))
      && FindCardById(u.cards, card.id) == Some(u.result.value)
      && forall id :: id != card.id ==> FindCardById(u.cards, id) == FindCardById(cards, id)
  {
    if card.primaryAccountId !in accounts then
      CardUpdate(Err(IllegalArgumentError(PrimaryAccountMissingMessage(card.primaryAccountId))), cards)
    else if card.associatedAccountIds.Some? && |card.associatedAccountIds.value| > 0 then
      var ids := card.associatedAccountIds.value;
      var k := FirstMissingIndex(ids, accounts);
      if k < |ids| then
        CardUpdate(Err(IllegalArgumentError(AssociatedAccountMissingMessage(ids[k]))), cards)
      else
        CardUpdate(Ok(card), SaveCard(cards, card))
    else
      var saved := card.(associatedAccountIds := Some(AssociatedIds(card)));
      CardUpdate(Ok(saved), SaveCard(cards, saved))
  }

  /** The account is the card's primary account or already in its associated list. */
  predicate AlreadyLinked(card: DebitCard, accountId: string)
  {
    card.primaryAccountId == accountId || accountId in AssociatedIds(card)
  }

  /**
   * associateAccountToCard: the card and the account must exist and the
   * account must not already be linked; it is appended to the list.
   */
  function AssociateSpec(cards: seq<DebitCard>, accounts: map<string, Account>, cardId: string, accountId: string): (u: CardUpdate)
    ensures u.result.Err? ==> u.cards == cards
    ensures u.result.Ok? <==>
      FindCardById(cards, cardId).Some? && accountId in accounts && !AlreadyLinked(FindCardById(cards, cardId).value, accountId)
    ensures FindCardById(cards, cardId).None? ==> u.result == Err(IllegalArgumentError(CardIdNotFoundMessage(cardId)))
    ensures FindCardById(cards, cardId).Some? && accountId !in accounts ==>
      u.result == Err(IllegalArgumentError(AccountMissingMessage(accountId)))
    ensures FindCardById(cards, cardId).Some? && accountId in accounts && AlreadyLinked(FindCardById(cards, cardId).value, accountId) ==>
      u.result == Err(IllegalArgumentError(AlreadyAssociatedMessage))
    ensures u.result.Ok? ==>
      var card := FindCardById(cards, cardId).value;
      && u.result.value == card.(associatedAccountIds := Some(AssociatedIds(card) + [accountId]))
      && FindCardById(u.cards, cardId) == Some(u.result.value)
      && forall id :: id != cardId ==> FindCardById(u.cards, id) == FindCardById(cards, id)
  {
    match FindCardById(cards, cardId)
    case None => CardUpdate(Err(IllegalArgumentError(CardIdNotFoundMessage(cardId))), cards)
    case Some(card) =>
      if accountId !in accounts then
        CardUpdate(Err(IllegalArgumentError(AccountMissingMessage(accountId))), cards)
      else if AlreadyLinked(card, accountId) then
        CardUpdate(Err(IllegalArgumentError(AlreadyAssociatedMessage)), cards)
      else
        var saved := card.(associatedAccountIds := Some(AssociatedIds(card) + [accountId]));
        CardUpdate(Ok(saved), SaveCard(cards, saved))
  }

  /** Associating the same account to the same card a second time is refused. */
  lemma AssociateTwiceRejected(cards: seq<DebitCard>, accounts: map<string, Account>, cardId: string, accountId: string)
    requires AssociateSpec(cards, accounts, cardId, accountId).result.Ok?
    ensures var u := AssociateSpec(cards, accounts, cardId, accountId);
      AssociateSpec(u.cards, accounts, cardId, accountId) == CardUpdate(Err(IllegalArgumentError(AlreadyAssociatedMessage)), u.cards)
  {
    var u := AssociateSpec(cards, accounts, cardId, accountId);
    var saved := u.result.value;
    assert AssociatedIds(saved)[|AssociatedIds(saved)| - 1] == accountId;
  }

  /** No account appears twice among a card's accounts, primary included. */
  predicate DistinctAccounts(card: DebitCard)
  {
    && card.primaryAccountId !in AssociatedIds(card)
    && forall i, j :: 0 <= i < j < |AssociatedIds(card)| ==> AssociatedIds(card)[i] != AssociatedIds(card)[j]
  }

  /** Association keeps a card's accounts distinct. */
  lemma AssociateKeepsAccountsDistinct(cards: seq<DebitCard>, accounts: map<string, Account>, cardId: string, accountId: string)
    requires AssociateSpec(cards, accounts, cardId, accountId).result.Ok?
    requires DistinctAccounts(FindCardById(cards, cardId).value)
    ensures DistinctAccounts(AssociateSpec(cards, accounts, cardId, accountId).result.value)
  {
    var card := FindCardById(cards, cardId).value;
    var ids := AssociatedIds(card);
    var saved := AssociateSpec(cards, accounts, cardId, accountId).result.value;
    assert AssociatedIds(saved) == ids + [accountId];
    forall i, j | 0 <= i < j < |ids + [accountId]|
      ensures (ids + [accountId])[i] != (ids + [accountId])[j]
    {
      if j == |ids| {
        assert (ids + [accountId])[i] == ids[i];
      }
    }
  }

  // ---------------------------------------------------------------- the fallback router

  /** isInsufficientFundsError: an IllegalArgumentException whose message mentions missing funds or the commission. */
  predicate IsInsufficientFundsError(f: Failure)
  {
    f.kind == IllegalArgument && (Contains(f.message, "insuficiente") || Contains(f.message, "comisión"))
  }

  /** A message that starts with "Saldo insuficiente" is a funds shortfall. */
  lemma ShortfallQualifies(rest: string)
    ensures IsInsufficientFundsError(IllegalArgumentError("Saldo insuficiente" + rest))
  {
    ContainsInfix("Saldo ", "insuficiente", rest);
    assert "Saldo " + "insuficiente" + rest == "Saldo insuficiente" + rest;
  }

  /** Every funds shortfall the posting engine reports sends the router to the associated accounts. */
  lemma EngineFundsErrorsQualify()
    ensures IsInsufficientFundsError(IllegalArgumentError(InsufficientMessage))
    ensures IsInsufficientFundsError(IllegalArgumentError(TransferDepositInsufficientMessage))
    ensures IsInsufficientFundsError(IllegalArgumentError(DestinyInsufficientMessage))
    ensures IsInsufficientFundsError(IllegalArgumentError(CommissionInsufficientMessage))
  {
    assert InsufficientMessage == InsufficientMessage + [];
    ShortfallQualifies([]);
    ShortfallQualifies(" para realizar la transacción y pagar la comisión");
    ShortfallQualifies(" en la cuenta destino");
    ShortfallQualifies(" para pagar la comisión");
  }

  /**
   * prepareTransaction: a fresh card transaction carrying the base's amount,
   * type, mode, date and destination, drawn on the given account.
   */
  function PrepareTransaction(base: Transaction, accountId: string): Transaction
  {
    Transaction(None, base.date, base.txType, base.amount, accountId, base.destinyAccountId, base.mode, Some(true))
  }

  /** prepareTransactionCards: the same, with the destination replaced as well. */
  function PrepareTransactionCards(base: Transaction, accountId: string, destinyAccountId: string): Transaction
  {
    Transaction(None, base.date, base.txType, base.amount, accountId, Some(destinyAccountId), base.mode, Some(true))
  }

  /**
   * A retry varies only the source: preparing from an already prepared
   * transaction is preparing from the original, and the card-to-card form is
   * the plain form over a base with the new destination.
   */
  lemma PrepareVariesOnlySource(base: Transaction, first: string, second: string, destiny: string)
    ensures PrepareTransaction(PrepareTransaction(base, first), second) == PrepareTransaction(base, second)
    ensures PrepareTransaction(PrepareTransactionCards(base, first, destiny), second)
         == PrepareTransactionCards(base, second, destiny)
    ensures PrepareTransactionCards(base, first, destiny) == PrepareTransaction(base.(destinyAccountId := Some(destiny)), first)
    ensures PrepareTransaction(base, first).(sourceAccountId := base.sourceAccountId, transactionId := base.transactionId,
                                             isByCreditCard := base.isByCreditCard) == base
  {
  }

  /** Drawing the base transaction on this account fails with a funds shortfall. */
  predicate Qualifies(s: Stores, base: Transaction, accountId: string, now: Instant)
  {
    var r := PostSpec(s, PrepareTransaction(base, accountId), now).result;
    r.Err? && IsInsufficientFundsError(r.error)
  }

  /**
   * tryWithAssociatedAccounts: try each account in order; stop at the first
   * success or at the first error that is not a funds shortfall, and report
   * exhaustion with a message of its own.
   */
  function TryAssociated(s: Stores, ids: seq<string>, base: Transaction, now: Instant): (p: Posted)
    decreases |ids|
    ensures p.result.Err? ==> p.stores == s
    ensures ids == [] ==> p.result == Err(IllegalArgumentError(NoAssociatedFundsMessage))
    ensures p.result.Ok? ==> p.result.value.sourceAccountId in ids && p.result.value.isByCreditCard == Some(true)
  {
    if ids == [] then Posted(Err(IllegalArgumentError(NoAssociatedFundsMessage)), s)
    else
      var attempt := PostSpec(s, PrepareTransaction(base, ids[0]), now);
      if attempt.result.Ok? || !IsInsufficientFundsError(attempt.result.error) then attempt
      else if |ids| == 1 then Posted(Err(IllegalArgumentError(NoAssociatedFundsOnCardMessage)), attempt.stores)
      else TryAssociated(attempt.stores, ids[1..], base, now)
  }

  /** ids[k] is the first account that covers the transaction, every earlier one falling short. */
  predicate FirstFunded(s: Stores, ids: seq<string>, base: Transaction, now: Instant, k: int)
  {
    && 0 <= k < |ids|
    && (forall j :: 0 <= j < k ==> Qualifies(s, base, ids[j], now))
    && PostSpec(s, PrepareTransaction(base, ids[k]), now).result.Ok?
  }

  /** The chain posts exactly the first funded account's transaction, against the untouched stores. */
  lemma {:induction false} TryAssociatedPostsFirstFunded(s: Stores, ids: seq<string>, base: Transaction, now: Instant, k: int)
    requires FirstFunded(s, ids, base, now, k)
    ensures TryAssociated(s, ids, base, now) == PostSpec(s, PrepareTransaction(base, ids[k]), now)
    decreases k
  {
    if k > 0 {
      assert Qualifies(s, base, ids[0], now);
      assert FirstFunded(s, ids[1..], base, now, k - 1) by {
        forall j | 0 <= j < k - 1
          ensures Qualifies(s, base, ids[1..][j], now)
        {
          assert Qualifies(s, base, ids[j + 1], now);
        }
      }
      TryAssociatedPostsFirstFunded(s, ids[1..], base, now, k - 1);
    }
  }

  /** The chain succeeds exactly when some account is the first funded one. */
  lemma {:induction false} TryAssociatedSucceedsIff(s: Stores, ids: seq<string>, base: Transaction, now: Instant)
    ensures TryAssociated(s, ids, base, now).result.Ok? <==> exists k :: FirstFunded(s, ids, base, now, k)
    decreases |ids|
  {
    if exists k :: FirstFunded(s, ids, base, now, k) {
      var k :| FirstFunded(s, ids, base, now, k);
      TryAssociatedPostsFirstFunded(s, ids, base, now, k);
    } else if ids != [] && TryAssociated(s, ids, base, now).result.Ok? {
      var attempt := PostSpec(s, PrepareTransaction(base, ids[0]), now);
      if attempt.result.Ok? {
        assert FirstFunded(s, ids, base, now, 0);
      } else {
        assert Qualifies(s, base, ids[0], now) && |ids| > 1;
        TryAssociatedSucceedsIff(s, ids[1..], base, now);
        var k :| FirstFunded(s, ids[1..], base, now, k);
        assert FirstFunded(s, ids, base, now, k + 1) by {
          forall j | 0 <= j < k + 1
            ensures Qualifies(s, base, ids[j], now)
          {
            if j > 0 {
              assert ids[j] == ids[1..][j - 1];
            }
          }
        }
      }
    }
  }

  /** When every associated account falls short the chain reports the card-wide shortfall and writes nothing. */
  lemma {:induction false} TryAssociatedAllShort(s: Stores, ids: seq<string>, base: Transaction, now: Instant)
    requires ids != []
    requires forall j :: 0 <= j < |ids| ==> Qualifies(s, base, ids[j], now)
    ensures TryAssociated(s, ids, base, now) == Posted(Err(IllegalArgumentError(NoAssociatedFundsOnCardMessage)), s)
    decreases |ids|
  {
    assert Qualifies(s, base, ids[0], now);
    if |ids| > 1 {
      assert forall j :: 0 <= j < |ids[1..]| ==> ids[1..][j] == ids[j + 1];
      TryAssociatedAllShort(s, ids[1..], base, now);
    }
  }

  /** An error other than a funds shortfall stops the chain and reaches the caller unchanged. */
  lemma {:induction false} TryAssociatedStopsOnOtherError(s: Stores, ids: seq<string>, base: Transaction, now: Instant, k: int)
    requires 0 <= k < |ids|
    requires forall j :: 0 <= j < k ==> Qualifies(s, base, ids[j], now)
    requires var r := PostSpec(s, PrepareTransaction(base, ids[k]), now).result;
      r.Err? && !IsInsufficientFundsError(r.error)
    ensures TryAssociated(s, ids, base, now) == PostSpec(s, PrepareTransaction(base, ids[k]), now)
    decreases k
  {
    if k > 0 {
      assert Qualifies(s, base, ids[0], now);
      assert forall j :: 0 <= j < k - 1 ==> ids[1..][j] == ids[j + 1];
      TryAssociatedStopsOnOtherError(s, ids[1..], base, now, k - 1);
    }
  }

  /**
   * processDebitCardTransaction: draw on the card's primary account; on a
   * funds shortfall retry the original request on the associated accounts,
   * and turn any failure of that retry into one combined message.
   */
  function ProcessCardSpec(cards: seq<DebitCard>, s: Stores, cardNumber: string, tx: Transaction, now: Instant): (p: Posted)
    ensures p.result.Err? ==> p.stores == s
    ensures FindCardByNumber(cards, cardNumber).None? ==>
      p == Posted(Err(IllegalArgumentError(CardNumberNotFoundMessage(cardNumber))), s)
    ensures p.result.Ok? ==>
      var card := FindCardByNumber(cards, cardNumber).value;
      && FindCardByNumber(cards, cardNumber).Some?
      && p.result.value.isByCreditCard == Some(true)
      && (p.result.value.sourceAccountId == card.primaryAccountId || p.result.value.sourceAccountId in AssociatedIds(card))
  {
    match FindCardByNumber(cards, cardNumber)
    case None => Posted(Err(IllegalArgumentError(CardNumberNotFoundMessage(cardNumber))), s)
    case Some(card) =>
      var primary := PostSpec(s, PrepareTransaction(tx, card.primaryAccountId), now);
      if primary.result.Ok? || !IsInsufficientFundsError(primary.result.error) then primary
      else
        var chain := TryAssociated(primary.stores, AssociatedIds(card), tx, now);
        if chain.result.Ok? then chain
        else Posted(Err(IllegalArgumentError(NoFundsAnywhereMessage)), chain.stores)
  }

  /**
   * The card transaction's outcome in full: the primary account's own result
   * unless it fell short; then the first funded associated account's
   * posting; and when none is funded the combined shortfall, whatever the
   * associated accounts reported.
   */
  lemma ProcessCardOutcome(cards: seq<DebitCard>, s: Stores, cardNumber: string, tx: Transaction, now: Instant)
    requires FindCardByNumber(cards, cardNumber).Some?
    ensures var card := FindCardByNumber(cards, cardNumber).value;
      var ids := AssociatedIds(card);
      var primary := PostSpec(s, PrepareTransaction(tx, card.primaryAccountId), now);
      var p := ProcessCardSpec(cards, s, cardNumber, tx, now);
      && (!Qualifies(s, tx, card.primaryAccountId, now) ==> p == primary)
      && (Qualifies(s, tx, card.primaryAccountId, now) ==>
            && (forall k :: FirstFunded(s, ids, tx, now, k) ==> p == PostSpec(s, PrepareTransaction(tx, ids[k]), now))
            && ((forall k :: !FirstFunded(s, ids, tx, now, k)) ==>
                  p == Posted(Err(IllegalArgumentError(NoFundsAnywhereMessage)), s)))
  {
    var card := FindCardByNumber(cards, cardNumber).value;
    var ids := AssociatedIds(card);
    if Qualifies(s, tx, card.primaryAccountId, now) {
      TryAssociatedSucceedsIff(s, ids, tx, now);
      forall k | FirstFunded(s, ids, tx, now, k)
        ensures ProcessCardSpec(cards, s, cardNumber, tx, now) == PostSpec(s, PrepareTransaction(tx, ids[k]), now)
      {
        TryAssociatedPostsFirstFunded(s, ids, tx, now, k);
      }
    }
  }

  /**
   * The fallback scenario: the primary and the first associated account fall
   * short and the second covers a single-account transaction. The posting
   * draws on the second associated account and no other account changes.
   */
  lemma FallbackToSecondAssociated(cards: seq<DebitCard>, s: Stores, cardNumber: string, tx: Transaction, now: Instant)
    requires FindCardByNumber(cards, cardNumber).Some?
    requires var card := FindCardByNumber(cards, cardNumber).value;
      && |AssociatedIds(card)| >= 2
      && Qualifies(s, tx, card.primaryAccountId, now)
      && Qualifies(s, tx, AssociatedIds(card)[0], now)
      && PostSpec(s, PrepareTransaction(tx, AssociatedIds(card)[1]), now).result.Ok?
    requires tx.mode == SingleAccount
    ensures var second := AssociatedIds(FindCardByNumber(cards, cardNumber).value)[1];
      var p := ProcessCardSpec(cards, s, cardNumber, tx, now);
      && p.result.Ok?
      && p.result.value.sourceAccountId == second
      && p.stores.transactions == s.transactions + [p.result.value]
      && p.stores.accounts.Keys == s.accounts.Keys
      && forall id :: id in s.accounts && id != second ==> p.stores.accounts[id] == s.accounts[id]
  {
    var card := FindCardByNumber(cards, cardNumber).value;
    var ids := AssociatedIds(card);
    assert FirstFunded(s, ids, tx, now, 1);
    ProcessCardOutcome(cards, s, cardNumber, tx, now);
    SingleAccountPosting(s, PrepareTransaction(tx, ids[1]), now);
  }

  /**
   * processDebitCardTransactionFromId: both cards must exist (the source is
   * looked up first), the transaction is drawn on the source card's primary
   * account towards the destination card's primary account, and a funds
   * shortfall falls back to the source card's associated accounts.
   */
  function ProcessFromIdSpec(cards: seq<DebitCard>, s: Stores, cardId: string, destinyCardId: string, tx: Transaction, now: Instant): (p: Posted)
    ensures p.result.Err? ==> p.stores == s
    ensures FindCardById(cards, cardId).None? ==>
      p == Posted(Err(IllegalArgumentError(CardNumberNotFoundMessage(cardId))), s)
    ensures FindCardById(cards, cardId).Some? && FindCardById(cards, destinyCardId).None? ==>
      p == Posted(Err(IllegalArgumentError(CardNumberNotFoundMessage(destinyCardId))), s)
    ensures p.result.Ok? ==>
      && FindCardById(cards, cardId).Some? && FindCardById(cards, destinyCardId).Some?
      && p.result.value.destinyAccountId == Some(FindCardById(cards, destinyCardId).value.primaryAccountId)
      && p.result.value.isByCreditCard == Some(true)
      && var source := FindCardById(cards, cardId).value;
         p.result.value.sourceAccountId == source.primaryAccountId || p.result.value.sourceAccountId in AssociatedIds(source)
  {
    match FindCardById(cards, cardId)
    case None => Posted(Err(IllegalArgumentError(CardNumberNotFoundMessage(cardId))), s)
    case Some(source) =>
      match FindCardById(cards, destinyCardId)
      case None => Posted(Err(IllegalArgumentError(CardNumberNotFoundMessage(destinyCardId))), s)
      case Some(destiny) =>
        var t := PrepareTransactionCards(tx, source.primaryAccountId, destiny.primaryAccountId);
        var first := PostSpec(s, t, now);
        if first.result.Ok? || !IsInsufficientFundsError(first.result.error) then first
        else
          var chain := TryAssociated(first.stores, AssociatedIds(source), t, now);
          assert chain.result.Ok? ==> chain.result.value.destinyAccountId == t.destinyAccountId by {
            if chain.result.Ok? {
              TryAssociatedSucceedsIff(first.stores, AssociatedIds(source), t, now);
              var k :| FirstFunded(first.stores, AssociatedIds(source), t, now, k);
              TryAssociatedPostsFirstFunded(first.stores, AssociatedIds(source), t, now, k);
            }
          }
          chain
  }

  /**
   * Unlike the lookup by card number, the card-to-card path does not wrap the
   * fallback's failure: a source card with no associated accounts reports
   * the empty-list message.
   */
  lemma FromIdChainErrorsUnwrapped(cards: seq<DebitCard>, s: Stores, cardId: string, destinyCardId: string, tx: Transaction, now: Instant)
    requires FindCardById(cards, cardId).Some? && FindCardById(cards, destinyCardId).Some?
    requires var source := FindCardById(cards, cardId).value;
      var destiny := FindCardById(cards, destinyCardId).value;
      var r := PostSpec(s, PrepareTransactionCards(tx, source.primaryAccountId, destiny.primaryAccountId), now).result;
      && AssociatedIds(source) == []
      && r.Err? && IsInsufficientFundsError(r.error)
    ensures ProcessFromIdSpec(cards, s, cardId, destinyCardId, tx, now)
         == Posted(Err(IllegalArgumentError(NoAssociatedFundsMessage)), s)
  {
  }
}
