/** The Swift battle engine (GameManager.swift): a controller that mutates two
    `Player` objects, the `GameState` that holds them, and a list of custom cards. */
module Manager {
  import opened Prelude
  import opened CardTypes
  import opened Models

  /** The loss condition `checkForWinner` tests: no active card and an empty
      hand, so that the player owns nothing beyond the draw pile. */
  predicate HasLost(p: Player): (lost: bool)
    reads p
    ensures lost <==> p.CardCount() == |p.deck|
  {
    p.activeCard.None? && p.hand == []
  }

  /** Whom `checkForWinner` declares the winner. Player 1's loss is checked
      first, so if both have lost, player 2 wins. */
  function Verdict(p1Lost: bool, p2Lost: bool, p1Name: string, p2Name: string): (r: Option<string>)
    ensures r.None? <==> !p1Lost && !p2Lost
    ensures p1Lost ==> r == Some(p2Name)
    ensures !p1Lost && p2Lost ==> r == Some(p1Name)
  {
    if p1Lost then Some(p2Name) else if p2Lost then Some(p1Name) else None
  }

  /** What one hit of `damage` leaves of a card: hp drops to `max(0, hp - damage)`,
      and a card brought to 0 is removed. */
  function Strike(card: PokemonCard, damage: int): (r: Option<PokemonCard>)
    ensures r.None? <==> card.hp <= damage
    ensures r.Some? ==> r.value == card.(hp := card.hp - damage) && r.value.hp > 0
    ensures damage > 0 && r.Some? ==> r.value.hp < card.hp
    ensures WellFormedCard(card) && damage > 0 ==> WellFormedSlot(r)
  {
    var newHp := Max(0, card.hp - damage);
    if newHp <= 0 then None else Some(card.(hp := newHp))
  }

  class GameManager {
    /** The ids of the static card catalog, drawn once per process. */
    const catalog: CatalogIds
    var gameState: GameState
    var customCards: seq<PokemonCard>

    /** Every manager operation keeps two distinct player objects in the game state. */
    ghost predicate Valid()
      reads this, gameState
    {
      gameState.player1 != gameState.player2
    }

    /** `init`: a game state in the setup phase with two nameless default players. */
    constructor (catalog: CatalogIds)
      ensures this.catalog == catalog && Valid()
      ensures fresh(gameState) && fresh(gameState.player1) && fresh(gameState.player2)
      ensures gameState.player1.name == "" && gameState.player1.IsDefault()
      ensures gameState.player2.name == "" && gameState.player2.IsDefault()
      ensures gameState.currentTurn == 1 && gameState.gamePhase == Setup && gameState.winner.None?
      ensures customCards == []
    {
      this.catalog := catalog;
      var p1 := new Player("");
      var p2 := new Player("");
      gameState := new GameState(p1, p2);
      customCards := [];
    }

    /** `startGame`. The two shuffles are supplied: each is some permutation of
        the starter deck. Each player gets a new `Player` whose hand is the first
        three cards of its deck; the deck itself keeps all of its cards. */
    method StartGame(player1Name: string, player2Name: string,
                     shuffledDeck1: seq<PokemonCard>, shuffledDeck2: seq<PokemonCard>)
      requires multiset(shuffledDeck1) == multiset(StarterDeck(catalog))
      requires multiset(shuffledDeck2) == multiset(StarterDeck(catalog))
      modifies gameState
      ensures gameState == old(gameState) && Valid()
      ensures fresh(gameState.player1) && fresh(gameState.player2)
      ensures gameState.player1.name == player1Name && gameState.player2.name == player2Name
      ensures gameState.player1.deck == shuffledDeck1 && gameState.player2.deck == shuffledDeck2
      ensures gameState.player1.hand == Prefix(shuffledDeck1, HandSize)
      ensures gameState.player2.hand == Prefix(shuffledDeck2, HandSize)
      ensures gameState.player1.activeCard.None? && gameState.player2.activeCard.None?
      ensures gameState.player1.energy == gameState.player1.maxEnergy == 1
      ensures gameState.player2.energy == gameState.player2.maxEnergy == 1
      ensures gameState.player1.isTurn && !gameState.player2.isTurn
      ensures gameState.currentTurn == 1 && gameState.gamePhase == Main && gameState.winner.None?
      // the starter deck holds exactly three cards, so the whole deck is dealt a second time as the hand
      ensures |gameState.player1.hand| == 3 && gameState.player1.hand == gameState.player1.deck
      ensures |gameState.player2.hand| == 3 && gameState.player2.hand == gameState.player2.deck
      ensures gameState.player1.EnergyInRange() && gameState.player2.EnergyInRange()
      ensures AllWellFormed(gameState.player1.deck) && AllWellFormed(gameState.player2.deck)
    {
      assert |shuffledDeck1| == |multiset(shuffledDeck1)| == 3;
      assert |shuffledDeck2| == |multiset(shuffledDeck2)| == 3;
      forall c | c in shuffledDeck1 ensures c in StarterDeck(catalog) {
        assert c in multiset(shuffledDeck1);
      }
      forall c | c in shuffledDeck2 ensures c in StarterDeck(catalog) {
        assert c in multiset(shuffledDeck2);
      }
      ElementsWellFormed(shuffledDeck1, StarterDeck(catalog));
      ElementsWellFormed(shuffledDeck2, StarterDeck(catalog));
      gameState.player1 := new Player(player1Name, shuffledDeck1, Prefix(shuffledDeck1, HandSize), None, 1, 1, true);
      gameState.player2 := new Player(player2Name, shuffledDeck2, Prefix(shuffledDeck2, HandSize), None, 1, 1, false);
      gameState.currentTurn := 1;
      gameState.gamePhase := Main;
      gameState.winner := None;
    }

    /** `canPlayCard`: enough energy for the card and no card in play yet, so
        paying the cost keeps energy in range and every card the player owns is
        in the deck or the hand. */
    predicate CanPlayCard(card: PokemonCard, player: Player): (ok: bool)
      reads player
      ensures ok && card.cost >= 0 && player.EnergyInRange() ==> 0 <= player.energy - card.cost <= player.maxEnergy
      ensures ok ==> player.CardCount() == |player.deck| + |player.hand|
    {
      player.energy >= card.cost && player.activeCard.None?
    }

    /** `canUseAbility`: enough energy for the ability and a card in play, so
        paying the cost keeps energy in range and the player has not lost. It
        does not look at whether the card has that ability. */
    predicate CanUseAbility(ability: Ability, player: Player): (ok: bool)
      reads player
      ensures ok && ability.cost >= 0 && player.EnergyInRange() ==> 0 <= player.energy - ability.cost <= player.maxEnergy
      ensures ok ==> !HasLost(player)
    {
      player.energy >= ability.cost && player.activeCard.Some?
    }

    /** The guard of `useAbility`: a card in play that carries an ability with
        this id, and enough energy for the ability. */
    predicate AbilityUsable(ability: Ability, player: Player)
      reads player
    {
      && player.activeCard.Some?
      && player.energy >= ability.cost
      && FirstIndex(player.activeCard.value.abilities, AbilityId, ability.id).Some?
    }

    /** `useAbility` accepts exactly what `canUseAbility` allows, for an ability
        the active card carries. */
    lemma AbilityUsableIsCanUse(ability: Ability, player: Player)
      ensures AbilityUsable(ability, player) <==>
        CanUseAbility(ability, player) && exists i :: 0 <= i < |player.activeCard.value.abilities| && player.activeCard.value.abilities[i].id == ability.id
    {
      if CanUseAbility(ability, player) && FirstIndex(player.activeCard.value.abilities, AbilityId, ability.id).Some? {
        var i := FirstIndex(player.activeCard.value.abilities, AbilityId, ability.id).value;
        assert player.activeCard.value.abilities[i].id == ability.id;
      }
    }

    /** `useAbility` lands a hit: its guard holds, a target with a card in
        play is given, and the damage is positive. */
    ghost predicate Hits(ability: Ability, player: Player, target: Player?)
      reads player, target
    {
      AbilityUsable(ability, player) && target != null && target.activeCard.Some? && ability.damage > 0
    }

    /** `playCard`: with enough energy for `card`, no card in play and a card of
        the same id in hand, the first such hand card is removed, `card` itself
        becomes the active card and its cost is paid. Otherwise nothing changes. */
    method PlayCard(card: PokemonCard, player: Player)
      modifies player
      ensures var index := old(FirstIndex(player.hand, CardId, card.id));
        if old(CanPlayCard(card, player)) && index.Some? then
          && player.hand == RemoveAt(old(player.hand), index.value)
          && player.activeCard == Some(card)
          && player.energy == old(player.energy) - card.cost
          && player.deck == old(player.deck) && player.name == old(player.name)
          && player.maxEnergy == old(player.maxEnergy) && player.isTurn == old(player.isTurn)
        else
          unchanged(player)
      ensures player.CardCount() == old(player.CardCount())
      ensures old(player.EnergyInRange()) && card.cost >= 0 ==> player.EnergyInRange()
    {
      if player.energy >= card.cost && player.activeCard.None? {
        var index := FirstIndex(player.hand, CardId, card.id);
        if index.Some? {
          player.hand := RemoveAt(player.hand, index.value);
          player.activeCard := Some(card);
          player.energy := player.energy - card.cost;
        }
      }
    }

    /** The rule `checkForWinner` applies to the current state of the two players. */
    ghost predicate Decided(winner0: Option<string>, phase0: GamePhase)
      reads this, gameState, gameState.player1, gameState.player2
    {
      var v := Verdict(HasLost(gameState.player1), HasLost(gameState.player2),
                       gameState.player1.name, gameState.player2.name);
      if v.Some? then gameState.winner == v && gameState.gamePhase == End
      else gameState.winner == winner0 && gameState.gamePhase == phase0
    }

    /** `checkForWinner`: declares the other player the winner of a player left
        with no active card and no hand, player 1 first, and ends the game. */
    method CheckForWinner()
      modifies gameState
      ensures Decided(old(gameState.winner), old(gameState.gamePhase))
      ensures gameState.player1 == old(gameState.player1) && gameState.player2 == old(gameState.player2)
      ensures gameState.currentTurn == old(gameState.currentTurn)
    {
      if gameState.player1.activeCard.None? && gameState.player1.hand == [] {
        gameState.winner := Some(gameState.player2.name);
        gameState.gamePhase := End;
      } else if gameState.player2.activeCard.None? && gameState.player2.hand == [] {
        gameState.winner := Some(gameState.player1.name);
        gameState.gamePhase := End;
      }
    }

    /** `useAbility`. If the guard holds, the actor pays the ability's cost; if
        in addition a target with an active card is given and the damage is
        positive, that card takes the hit, and a card brought to 0 hp leaves
        play and the winner check runs. The target may be any player, the actor
        included. */
    method UseAbility(ability: Ability, player: Player, target: Player?)
      modifies player, target, gameState
      ensures var usable := old(AbilityUsable(ability, player));
        player.energy == if usable then old(player.energy) - ability.cost else old(player.energy)
      ensures !old(AbilityUsable(ability, player)) ==>
        unchanged(player) && unchanged(gameState) && (target != null ==> unchanged(target))
      ensures player.name == old(player.name) && player.deck == old(player.deck) && player.hand == old(player.hand)
      ensures player.maxEnergy == old(player.maxEnergy) && player.isTurn == old(player.isTurn)
      ensures target != null ==>
        && target.name == old(target.name) && target.deck == old(target.deck) && target.hand == old(target.hand)
        && target.maxEnergy == old(target.maxEnergy) && target.isTurn == old(target.isTurn)
        && (target != player ==> target.energy == old(target.energy))
      ensures var hit := old(Hits(ability, player, target));
        && (hit ==> target.activeCard == Strike(old(target.activeCard).value, ability.damage))
        && (!hit && target != null ==> target.activeCard == old(target.activeCard))
        && (!hit || target != player ==> player.activeCard == old(player.activeCard))
      ensures var defeated := old(Hits(ability, player, target)) && old(target.activeCard).value.hp <= ability.damage;
        && (defeated ==> Decided(old(gameState.winner), old(gameState.gamePhase)))
        && (!defeated ==> unchanged(gameState))
        && gameState.player1 == old(gameState.player1) && gameState.player2 == old(gameState.player2)
        && gameState.currentTurn == old(gameState.currentTurn)
        && (target != null ==> target.CardCount() == old(target.CardCount()) - (if defeated then 1 else 0))
      ensures old(player.EnergyInRange()) && ability.cost >= 0 ==> player.EnergyInRange()
    {
      if player.activeCard.None? || player.energy < ability.cost
        || FirstIndex(player.activeCard.value.abilities, AbilityId, ability.id).None?
      {
        return;
      }
      player.energy := player.energy - ability.cost;
      if target != null && target.activeCard.Some? && ability.damage > 0 {
        var targetCard := target.activeCard.value;
        var newHp := Max(0, targetCard.hp - ability.damage);
        target.activeCard := Some(targetCard.(hp := newHp));
        if newHp <= 0 {
          target.activeCard := None;
          CheckForWinner();
        }
      }
    }

    /** `endTurn`: the turn counter advances and the turn flags follow its
        parity; the player whose turn begins draws the front card of the deck,
        if any, and has the energy maximum raised by one up to 10 and energy
        refilled to it. The other player is not touched. */
    method EndTurn()
      requires Valid()
      modifies gameState, gameState.player1, gameState.player2
      ensures Valid() && gameState.player1 == old(gameState.player1) && gameState.player2 == old(gameState.player2)
      ensures gameState.currentTurn == old(gameState.currentTurn) + 1
      ensures gameState.player1.isTurn == OddTurn(gameState.currentTurn)
      ensures gameState.player2.isTurn == !gameState.player1.isTurn
      ensures gameState.gamePhase == old(gameState.gamePhase) && gameState.winner == old(gameState.winner)
      ensures var active := if gameState.player1.isTurn then gameState.player1 else gameState.player2;
        && active.hand == old(active.hand) + (if old(active.deck) == [] then [] else [old(active.deck)[0]])
        && active.deck == (if old(active.deck) == [] then [] else old(active.deck)[1..])
        && active.maxEnergy == Min(old(active.maxEnergy) + 1, EnergyCap)
        && active.energy == active.maxEnergy
        && active.activeCard == old(active.activeCard) && active.name == old(active.name)
        && active.CardCount() == old(active.CardCount())
        && (old(active.EnergyInRange()) ==> active.EnergyInRange())
      ensures var idle := if gameState.player1.isTurn then gameState.player2 else gameState.player1;
        && idle.deck == old(idle.deck) && idle.hand == old(idle.hand) && idle.activeCard == old(idle.activeCard)
        && idle.energy == old(idle.energy) && idle.maxEnergy == old(idle.maxEnergy) && idle.name == old(idle.name)
    {
      var newTurn := gameState.currentTurn + 1;
      var isPlayer1Turn := OddTurn(newTurn);
      gameState.player1.isTurn := isPlayer1Turn;
      gameState.player2.isTurn := !isPlayer1Turn;
      var activePlayer := if isPlayer1Turn then gameState.player1 else gameState.player2;
      if activePlayer.deck != [] {
        var drawnCard := activePlayer.deck[0];
        activePlayer.deck := activePlayer.deck[1..];
        activePlayer.hand := activePlayer.hand + [drawnCard];
      }
      activePlayer.maxEnergy := Min(activePlayer.maxEnergy + 1, EnergyCap);
      activePlayer.energy := activePlayer.maxEnergy;
      gameState.currentTurn := newTurn;
    }

    /** `addCustomCard`: appends at the end. */
    method AddCustomCard(card: PokemonCard)
      modifies this`customCards
      ensures customCards == old(customCards) + [card]
    {
      customCards := customCards + [card];
    }

    /** `removeCustomCard`: drops every custom card with the card's id, keeping
        the others in order. */
    method RemoveCustomCard(card: PokemonCard)
      modifies this`customCards
      ensures customCards == WithoutId(old(customCards), card.id)
      ensures forall c :: c in customCards <==> c in old(customCards) && c.id != card.id
    {
      customCards := WithoutId(customCards, card.id);
    }

    /** `resetGame`: a fresh game state as at construction; custom cards stay. */
    method ResetGame()
      modifies this`gameState
      ensures Valid() && fresh(gameState) && fresh(gameState.player1) && fresh(gameState.player2)
      ensures gameState.player1.name == "" && gameState.player1.IsDefault()
      ensures gameState.player2.name == "" && gameState.player2.IsDefault()
      ensures gameState.currentTurn == 1 && gameState.gamePhase == Setup && gameState.winner.None?
    {
      var p1 := new Player("");
      var p2 := new Player("");
      gameState := new GameState(p1, p2);
    }
  }
}
