/**
 * DebitCardOperationsService as an object: it holds the card repository and
 * drives the posting engine. Each method is proved to produce exactly the
 * outcome and the stores that the matching function of `DebitCards`
 * describes; the retry over a card's associated accounts is a loop that
 * stops at the first success or at the first error that is not a funds
 * shortfall.
 */
module CardService {
  import opened Domain
  import opened Posting
  import opened Engine
  import opened DebitCards

  class DebitCardService {
    var cards: seq<DebitCard>
    const engine: PostingEngine

    constructor (postingEngine: PostingEngine, initialCards: seq<DebitCard>)
      ensures engine == postingEngine && cards == initialCards
    {
      engine := postingEngine;
      cards := initialCards;
    }

    /** createDebitCard: check the primary account, then each associated account in order, then save. */
    method CreateDebitCard(card: DebitCard) returns (r: Result<DebitCard>)
      modifies this
      ensures CardUpdate(r, cards) == CreateDebitCardSpec(old(cards), engine.accounts, card)
    {
      if card.primaryAccountId !in engine.accounts {
        return Err(IllegalArgumentError(PrimaryAccountMissingMessage(card.primaryAccountId)));
      }
      var saved := card;
      if card.associatedAccountIds.Some? && |card.associatedAccountIds.value| > 0 {
        var ids := card.associatedAccountIds.value;
        for i := 0 to |ids|
          invariant forall j :: 0 <= j < i ==> ids[j] in engine.accounts
        {
          if ids[i] !in engine.accounts {
            assert FirstMissingIndex(ids, engine.accounts) == i;
            return Err(IllegalArgumentError(AssociatedAccountMissingMessage(ids[i])));
          }
        }
      } else if card.associatedAccountIds.None? {
        saved := card.(associatedAccountIds := Some([]));
      }
      cards := SaveCard(cards, saved);
      r := Ok(saved);
    }

    /** associateAccountToCard: find the card and the account, refuse a repeat, append and save. */
    method AssociateAccountToCard(cardId: string, accountId: string) returns (r: Result<DebitCard>)
      modifies this
      ensures CardUpdate(r, cards) == AssociateSpec(old(cards), engine.accounts, cardId, accountId)
    {
      var found := FindCardById(cards, cardId);
      if found.None? {
        return Err(IllegalArgumentError(CardIdNotFoundMessage(cardId)));
      }
      var card := found.value;
      if accountId !in engine.accounts {
        return Err(IllegalArgumentError(AccountMissingMessage(accountId)));
      }
      if card.primaryAccountId == accountId || (card.associatedAccountIds.Some? && accountId in card.associatedAccountIds.value) {
        return Err(IllegalArgumentError(AlreadyAssociatedMessage));
      }
      if card.associatedAccountIds.None? {
        assert AssociatedIds(card) + [accountId] == [accountId];
        card := card.(associatedAccountIds := Some([accountId]));
      } else {
        card := card.(associatedAccountIds := Some(card.associatedAccountIds.value + [accountId]));
      }
      cards := SaveCard(cards, card);
      r := Ok(card);
    }

    /** tryWithAssociatedAccounts: post the base transaction from each account in turn. */
    method TryWithAssociatedAccounts(ids: seq<string>, base: Transaction, now: Instant) returns (r: Result<Transaction>)
      requires engine.Valid()
      modifies engine
      ensures engine.Valid()
      ensures Posted(r, engine.Snapshot()) == TryAssociated(old(engine.Snapshot()), ids, base, now)
    {
      if |ids| == 0 {
        return Err(IllegalArgumentError(NoAssociatedFundsMessage));
      }
      ghost var s := engine.Snapshot();
      var i := 0;
      while true
        invariant 0 <= i < |ids|
        invariant engine.Valid() && engine.Snapshot() == s
        invariant TryAssociated(s, ids[i..], base, now) == TryAssociated(s, ids, base, now)
        decreases |ids| - i
      {
        assert ids[i..][0] == ids[i] && ids[i..][1..] == ids[i + 1..];
        r := engine.Post(PrepareTransaction(base, ids[i]), now);
        if r.Ok? || !IsInsufficientFundsError(r.error) {
          return;
        }
        if i + 1 == |ids| {
          return Err(IllegalArgumentError(NoAssociatedFundsOnCardMessage));
        }
        i := i + 1;
      }
    }

    /** processDebitCardTransaction: the primary account first, then the fallback, any fallback failure combined. */
    method ProcessDebitCardTransaction(cardNumber: string, tx: Transaction, now: Instant) returns (r: Result<Transaction>)
      requires engine.Valid()
      modifies engine
      ensures engine.Valid()
      ensures Posted(r, engine.Snapshot()) == ProcessCardSpec(cards, old(engine.Snapshot()), cardNumber, tx, now)
    {
      var found := FindCardByNumber(cards, cardNumber);
      if found.None? {
        return Err(IllegalArgumentError(CardNumberNotFoundMessage(cardNumber)));
      }
      var card := found.value;
      r := engine.Post(PrepareTransaction(tx, card.primaryAccountId), now);
      if r.Err? && IsInsufficientFundsError(r.error) {
        var ids := if card.associatedAccountIds.Some? then card.associatedAccountIds.value else [];
        r := TryWithAssociatedAccounts(ids, tx, now);
        if r.Err? {
          r := Err(IllegalArgumentError(NoFundsAnywhereMessage));
        }
      }
    }

    /** processDebitCardTransactionFromId: between the primary accounts of two cards, with the fallback unwrapped. */
    method ProcessDebitCardTransactionFromId(cardId: string, destinyCardId: string, tx: Transaction, now: Instant)
      returns (r: Result<Transaction>)
      requires engine.Valid()
      modifies engine
      ensures engine.Valid()
      ensures Posted(r, engine.Snapshot()) == ProcessFromIdSpec(cards, old(engine.Snapshot()), cardId, destinyCardId, tx, now)
    {
      var source := FindCardById(cards, cardId);
      if source.None? {
        return Err(IllegalArgumentError(CardNumberNotFoundMessage(cardId)));
      }
      var destiny := FindCardById(cards, destinyCardId);
      if destiny.None? {
        return Err(IllegalArgumentError(CardNumberNotFoundMessage(destinyCardId)));
      }
      var t := PrepareTransactionCards(tx, source.value.primaryAccountId, destiny.value.primaryAccountId);
      r := engine.Post(t, now);
      if r.Err? && IsInsufficientFundsError(r.error) {
        r := TryWithAssociatedAccounts(AssociatedIds(source.value), t, now);
      }
    }
  }
}
