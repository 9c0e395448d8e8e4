/**
 * The home page's card filter (client/src/pages/Home.tsx): the player's
 * owned cards whose tea card matches the rarity and type filters, where
 * "all" matches anything.
 */
module Home {
  import opened Common
  import opened Storage
  import opened Collection

  /** The test `filteredCards` applies to an owned card. */
  predicate KeepsOwned(rarityFilter: string, typeFilter: string, uc: OwnedCard)
  {
    Matches(rarityFilter, uc.card.rarity) && Matches(typeFilter, uc.card.teaType)
  }

  function OwnedKeeper(rarityFilter: string, typeFilter: string): OwnedCard -> bool
  {
    uc => KeepsOwned(rarityFilter, typeFilter, uc)
  }

  /** `filteredCards`: the owned cards both filters let through, in the order the server listed them. */
  function FilteredUserCards(userCards: seq<OwnedCard>, rarityFilter: string, typeFilter: string): (r: seq<OwnedCard>)
    ensures IsSubsequence(r, userCards)
    ensures forall uc :: uc in r <==> uc in userCards && KeepsOwned(rarityFilter, typeFilter, uc)
    ensures forall uc :: multiset(r)[uc] == if KeepsOwned(rarityFilter, typeFilter, uc) then multiset(userCards)[uc] else 0
  {
    FilterCounts(userCards, OwnedKeeper(rarityFilter, typeFilter));
    Filter(userCards, OwnedKeeper(rarityFilter, typeFilter))
  }

  /** With both filters on "all" every owned card is shown. */
  lemma AllFiltersShowAllOwned(userCards: seq<OwnedCard>)
    ensures FilteredUserCards(userCards, All, All) == userCards
  {
    FilterKeepsAll(userCards, OwnedKeeper(All, All));
  }

  /** Filtering the shown cards again with the same filters changes nothing. */
  lemma FilteredUserCardsIdempotent(userCards: seq<OwnedCard>, rarityFilter: string, typeFilter: string)
    ensures FilteredUserCards(FilteredUserCards(userCards, rarityFilter, typeFilter), rarityFilter, typeFilter)
            == FilteredUserCards(userCards, rarityFilter, typeFilter)
  {
    FilterIdempotent(userCards, OwnedKeeper(rarityFilter, typeFilter));
  }

  /** The home filter and the collection filter agree on a card: both test its rarity and type alone. */
  lemma HomeAgreesWithCollection(uc: OwnedCard, e: CollectionEntry, rarityFilter: string, typeFilter: string)
    requires e.card == uc.card
    ensures KeepsOwned(rarityFilter, typeFilter, uc) <==> Keeps(rarityFilter, typeFilter, e)
  {
  }
}
