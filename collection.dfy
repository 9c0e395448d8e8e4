/**
 * The collection page (client/src/pages/Collection.tsx): the catalog of tea
 * cards joined with the player's owned cards, and the rarity/type filter
 * over that view. The filter value "all" (`All`) matches every rarity and type.
 */
module Collection {
  import opened Common
  import opened Storage

  /** The filter value that matches everything. */
  const All := "all"

  /** `filter === "all" || value === filter`. */
  predicate Matches(filter: string, value: string)
  {
    filter == All || value == filter
  }

  /** One tile of the collection: the catalog card spread with its ownership fields. */
  datatype CollectionEntry = CollectionEntry(card: TeaCard, isOwned: bool, quantity: int, userCardId: Option<int>)

  /** The tile for one catalog card. */
  function Entry(userCards: seq<OwnedCard>, teaCard: TeaCard): (e: CollectionEntry)
    ensures e.card == teaCard
    ensures e.isOwned <==> exists i :: 0 <= i < |userCards| && userCards[i].cardId == teaCard.id
    ensures e.isOwned ==> exists i :: 0 <= i < |userCards| && userCards[i].cardId == teaCard.id &&
                                      (forall j :: 0 <= j < i ==> userCards[j].cardId != teaCard.id) &&
                                      e.quantity == userCards[i].quantity && e.userCardId == Some(userCards[i].id)
    ensures !e.isOwned ==> e.quantity == 0 && e.userCardId == None
  {
    var p := (uc: OwnedCard) => uc.cardId == teaCard.id;
    match Find(userCards, p)
    case Some(owned) => CollectionEntry(teaCard, true, owned.quantity, Some(owned.id))
    case None => CollectionEntry(teaCard, false, 0, None)
  }

  /** `completeCollection`: one tile per catalog card, in catalog order. */
  function CompleteCollection(allTeaCards: seq<TeaCard>, userCards: seq<OwnedCard>): (r: seq<CollectionEntry>)
    ensures |r| == |allTeaCards|
    ensures forall i :: 0 <= i < |r| ==> r[i].card == allTeaCards[i]
    ensures forall i :: 0 <= i < |r| ==> r[i] == Entry(userCards, allTeaCards[i])
  {
    seq(|allTeaCards|, i requires 0 <= i < |allTeaCards| => Entry(userCards, allTeaCards[i]))
  }

  /** The test `filteredCards` applies to a tile. */
  predicate Keeps(rarityFilter: string, typeFilter: string, e: CollectionEntry)
  {
    Matches(rarityFilter, e.card.rarity) && Matches(typeFilter, e.card.teaType)
  }

  function Keeper(rarityFilter: string, typeFilter: string): CollectionEntry -> bool
  {
    e => Keeps(rarityFilter, typeFilter, e)
  }

  /** `filteredCards`: the tiles both filters let through, in collection order. */
  function FilteredCards(collection: seq<CollectionEntry>, rarityFilter: string, typeFilter: string): (r: seq<CollectionEntry>)
    ensures IsSubsequence(r, collection)
    ensures forall e :: e in r <==> e in collection && Keeps(rarityFilter, typeFilter, e)
    ensures forall e :: multiset(r)[e] == if Keeps(rarityFilter, typeFilter, e) then multiset(collection)[e] else 0
  {
    FilterCounts(collection, Keeper(rarityFilter, typeFilter));
    Filter(collection, Keeper(rarityFilter, typeFilter))
  }

  /** With both filters on "all" every tile is shown. */
  lemma AllFiltersShowAll(collection: seq<CollectionEntry>)
    ensures FilteredCards(collection, All, All) == collection
  {
    FilterKeepsAll(collection, Keeper(All, All));
  }

  /** Filtering the shown tiles again with the same filters changes nothing. */
  lemma FilteredCardsIdempotent(collection: seq<CollectionEntry>, rarityFilter: string, typeFilter: string)
    ensures FilteredCards(FilteredCards(collection, rarityFilter, typeFilter), rarityFilter, typeFilter)
            == FilteredCards(collection, rarityFilter, typeFilter)
  {
    FilterIdempotent(collection, Keeper(rarityFilter, typeFilter));
  }

  function IsOwned(e: CollectionEntry): bool { e.isOwned }

  /** The "collected" figure: `completeCollection.filter(c => c.isOwned).length`. */
  function OwnedCount(collection: seq<CollectionEntry>): (n: nat)
    ensures n <= |collection|
  {
    |Filter(collection, IsOwned)|
  }

  /** A catalog card is shown as owned exactly when some owned row references it. */
  lemma OwnedIffReferenced(allTeaCards: seq<TeaCard>, userCards: seq<OwnedCard>, i: nat)
    requires i < |allTeaCards|
    ensures CompleteCollection(allTeaCards, userCards)[i].isOwned <==>
            exists j :: 0 <= j < |userCards| && userCards[j].cardId == allTeaCards[i].id
  {
  }
}
