/** The value types both versions of the game declare alike: the Swift structs
    and enums of Models.swift and the TypeScript interfaces of Card.ts. Cards
    and abilities are values (Swift structs, TypeScript object literals that
    are copied by spreads), so they are datatypes here. */
module CardTypes {
  import opened Prelude

  /** Identifiers are opaque: UUIDs on the Swift side, strings on the TypeScript side. */
  type Id = string

  datatype PokemonType = Fire | Water | Grass | Electric | Psychic | Fighting | Dark | Steel | Fairy | Normal

  datatype AbilityType = Physical | Special | Status

  datatype CardRarity = Common | Uncommon | Rare | Epic | Legendary

  /** `draw` and `battle` are declared by both versions but never entered. */
  datatype GamePhase = Setup | Draw | Main | Battle | End

  datatype Ability = Ability(
    id: Id,
    name: string,
    description: string,
    damage: int,
    cost: int,
    kind: AbilityType,
    cooldown: Option<int>)

  datatype PokemonCard = PokemonCard(
    id: Id,
    name: string,
    kind: PokemonType,
    hp: int,
    maxHp: int,
    attack: int,
    defense: int,
    speed: int,
    abilities: seq<Ability>,
    rarity: CardRarity,
    cost: int,
    image: Option<string>)

  /** The data-model invariants the rules rely on: costs and damage are not
      negative, and hp lies between 0 and maxHp. */
  predicate WellFormedAbility(a: Ability)
  {
    a.damage >= 0 && a.cost >= 0
  }

  predicate WellFormedCard(c: PokemonCard)
  {
    && 0 <= c.hp <= c.maxHp
    && c.cost >= 0
    && forall i :: 0 <= i < |c.abilities| ==> WellFormedAbility(c.abilities[i])
  }

  predicate AllWellFormed(cards: seq<PokemonCard>)
  {
    forall i :: 0 <= i < |cards| ==> WellFormedCard(cards[i])
  }

  predicate WellFormedSlot(slot: Option<PokemonCard>)
  {
    slot.Some? ==> WellFormedCard(slot.value)
  }

  /** `firstIndex(where: { $0.id == id })` and the position `find` stops at,
      over any list whose elements carry an id (`key` reads it). */
  function FirstIndex<T>(s: seq<T>, key: T -> Id, id: Id): (r: Option<nat>)
    ensures r.Some? ==> r.value < |s| && key(s[r.value]) == id
    ensures r.Some? ==> forall j :: 0 <= j < r.value ==> key(s[j]) != id
    ensures r.None? <==> forall j :: 0 <= j < |s| ==> key(s[j]) != id
  {
    if |s| == 0 then None
    else if key(s[0]) == id then Some(0)
    else match FirstIndex(s[1..], key, id)
      case None => None
      case Some(k) => Some(k + 1)
  }

  /** The keys the two searches use: a card's id and an ability's id. */
  function CardId(c: PokemonCard): Id { c.id }

  function AbilityId(a: Ability): Id { a.id }

  /** Swift's `remove(at: i)`: exactly one card leaves, the others keep their order. */
  function RemoveAt(cards: seq<PokemonCard>, i: nat): (r: seq<PokemonCard>)
    requires i < |cards|
    ensures |r| == |cards| - 1
    ensures forall j :: 0 <= j < i ==> r[j] == cards[j]
    ensures forall j :: i <= j < |r| ==> r[j] == cards[j + 1]
    ensures multiset(r) + multiset{cards[i]} == multiset(cards)
  {
    assert cards == cards[..i] + [cards[i]] + cards[i + 1..];
    cards[..i] + cards[i + 1..]
  }

  /** `cards.filter(c => c.id !== id)` and `removeAll { $0.id == id }`: every
      card carrying `id` leaves, every other card stays. */
  function WithoutId(cards: seq<PokemonCard>, id: Id): (r: seq<PokemonCard>)
    ensures |r| <= |cards|
    ensures forall c :: c in r <==> c in cards && c.id != id
  {
    if |cards| == 0 then []
    else (if cards[0].id == id then [] else [cards[0]]) + WithoutId(cards[1..], id)
  }

  /** Filtering works element by element, so it keeps the survivors in their
      original order: it distributes over concatenation. */
  lemma {:induction false} WithoutIdAppend(a: seq<PokemonCard>, b: seq<PokemonCard>, id: Id)
    ensures WithoutId(a + b, id) == WithoutId(a, id) + WithoutId(b, id)
  {
    if |a| == 0 {
      assert a + b == b;
    } else {
      assert (a + b)[1..] == a[1..] + b;
      WithoutIdAppend(a[1..], b, id);
    }
  }

  /** A list with no card carrying `id` is returned as it is. */
  lemma {:induction false} WithoutIdAbsent(cards: seq<PokemonCard>, id: Id)
    requires forall j :: 0 <= j < |cards| ==> cards[j].id != id
    ensures WithoutId(cards, id) == cards
  {
    if |cards| > 0 {
      WithoutIdAbsent(cards[1..], id);
      assert cards == [cards[0]] + cards[1..];
    }
  }

  /** Exactly the cards carrying `id` are dropped: the result is shorter by
      precisely their number. */
  lemma {:induction false} WithoutIdCount(cards: seq<PokemonCard>, id: Id)
    ensures |WithoutId(cards, id)| == |cards| - CountId(cards, id)
  {
    if |cards| > 0 {
      WithoutIdCount(cards[1..], id);
    }
  }

  /** How many cards of the list carry `id`. */
  function CountId(cards: seq<PokemonCard>, id: Id): nat
  {
    if |cards| == 0 then 0
    else (if cards[0].id == id then 1 else 0) + CountId(cards[1..], id)
  }

  /** Removing the first match and filtering out every match differ as soon as
      two cards share an id, as the two copies of one card value do. */
  lemma FirstRemovalKeepsTwin(twin: PokemonCard, other: PokemonCard)
    requires twin.id != other.id
    ensures FirstIndex([twin, twin, other], CardId, twin.id) == Some(0)
    ensures RemoveAt([twin, twin, other], 0) == [twin, other]
    ensures WithoutId([twin, twin, other], twin.id) == [other]
  {
    assert [twin, twin, other][1..] == [twin, other];
    assert [twin, other][1..] == [other];
    assert [other][1..] == [];
  }

  /** Cards drawn from a list of well-formed cards are well formed, whatever
      was dropped, repeated or reordered on the way: filtering and shuffling
      both produce such a list. */
  lemma ElementsWellFormed(cards: seq<PokemonCard>, source: seq<PokemonCard>)
    requires AllWellFormed(source)
    requires forall c :: c in cards ==> c in source
    ensures AllWellFormed(cards)
  {
    forall i | 0 <= i < |cards| ensures WellFormedCard(cards[i]) {
      assert cards[i] in source;
      var k :| 0 <= k < |source| && source[k] == cards[i];
    }
  }
}
