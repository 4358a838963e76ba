/** The data model of the Swift engine (Models.swift): card and ability
    initializers, the static card catalog, the `Player` and `GameState`
    reference types and the player profile. */
module Models {
  import opened Prelude
  import opened CardTypes

  /** `Ability.init`; `id` stands for the `UUID()` the struct draws when built. */
  function NewAbility(id: Id, name: string := "", description: string := "", damage: int := 0,
                      cost: int := 0, kind: AbilityType := Physical, cooldown: Option<int> := None): (a: Ability)
    ensures a.id == id && a.name == name && a.description == description && a.kind == kind
    ensures a.damage == damage && a.cost == cost && a.cooldown == cooldown
    ensures WellFormedAbility(a) <==> damage >= 0 && cost >= 0
  {
    Ability(id, name, description, damage, cost, kind, cooldown)
  }

  /** `PokemonCard.init`: a new card starts at full health, with `maxHp` fixed
      to the hp it was created with. */
  function NewCard(id: Id, name: string, kind: PokemonType, hp: int, attack: int, defense: int,
                   speed: int, abilities: seq<Ability>, rarity: CardRarity, cost: int,
                   image: Option<string> := None): (c: PokemonCard)
    ensures c.id == id && c.abilities == abilities && c.cost == cost
    ensures c.hp == hp && c.maxHp == hp
    ensures WellFormedCard(c) <==> hp >= 0 && cost >= 0 && forall i :: 0 <= i < |abilities| ==> WellFormedAbility(abilities[i])
  {
    PokemonCard(id, name, kind, hp, hp, attack, defense, speed, abilities, rarity, cost, image)
  }

  /** The UUIDs drawn once for the static `sampleCards` table. */
  datatype CatalogIds = CatalogIds(
    charizard: Id, flamethrower: Id, dragonClaw: Id,
    pikachu: Id, thunderbolt: Id, quickAttack: Id)

  /** `PokemonCard.sampleCards`: Charizard, then Pikachu. */
  function SampleCards(ids: CatalogIds): (r: seq<PokemonCard>)
    ensures |r| == 2 && AllWellFormed(r)
    ensures r[0].name == "Charizard" && r[0].hp == r[0].maxHp == 120 && r[0].cost == 3 && r[0].id == ids.charizard
    ensures r[1].name == "Pikachu" && r[1].hp == r[1].maxHp == 60 && r[1].cost == 1 && r[1].id == ids.pikachu
    ensures |r[0].abilities| == 2 && |r[1].abilities| == 2
  {
    [ NewCard(ids.charizard, "Charizard", Fire, 120, 84, 78, 100,
              [ NewAbility(ids.flamethrower, "Flamethrower", "Deal 40 fire damage", 40, 2, Special),
                NewAbility(ids.dragonClaw, "Dragon Claw", "Deal 30 physical damage", 30, 1, Physical) ],
              Legendary, 3),
      NewCard(ids.pikachu, "Pikachu", Electric, 60, 55, 40, 90,
              [ NewAbility(ids.thunderbolt, "Thunderbolt", "Deal 30 electric damage", 30, 1, Special),
                NewAbility(ids.quickAttack, "Quick Attack", "Deal 15 damage, always goes first", 15, 0, Physical) ],
              Common, 1) ]
  }

  /** `PokemonCard.starterDeck`: two copies of the Pikachu value and one
      Charizard. The copies are one struct value, so they share an id. */
  function StarterDeck(ids: CatalogIds): (r: seq<PokemonCard>)
    ensures |r| == 3 && AllWellFormed(r)
    ensures r[0] == r[1] && r[0].id == r[1].id
    ensures r[0].name == "Pikachu" && r[0].hp == 60 && r[0].cost == 1
    ensures r[2].name == "Charizard" && r[2].hp == 120 && r[2].cost == 3
  {
    var sample := SampleCards(ids);
    [sample[1], sample[1], sample[0]]
  }

  /** `class Player`: a reference type whose fields the game manager updates
      in place. */
  class Player {
    var name: string
    var deck: seq<PokemonCard>
    var hand: seq<PokemonCard>
    var activeCard: Option<PokemonCard>
    var energy: int
    var maxEnergy: int
    var isTurn: bool

    /** `Player.init`, with the same default arguments. */
    constructor (name: string, deck: seq<PokemonCard> := [], hand: seq<PokemonCard> := [],
                 activeCard: Option<PokemonCard> := None, energy: int := 0, maxEnergy: int := 0,
                 isTurn: bool := false)
      ensures this.name == name && this.deck == deck && this.hand == hand
      ensures this.activeCard == activeCard && this.energy == energy
      ensures this.maxEnergy == maxEnergy && this.isTurn == isTurn
    {
      this.name := name;
      this.deck := deck;
      this.hand := hand;
      this.activeCard := activeCard;
      this.energy := energy;
      this.maxEnergy := maxEnergy;
      this.isTurn := isTurn;
    }

    /** The state `Player(name:)` leaves everything but the name in. */
    ghost predicate IsDefault()
      reads this
    {
      deck == [] && hand == [] && activeCard.None? && energy == 0 && maxEnergy == 0 && !isTurn
    }

    /** Energy never goes below zero nor above the ratcheting maximum, which is capped. */
    ghost predicate EnergyInRange()
      reads this
    {
      0 <= energy <= maxEnergy <= EnergyCap
    }

    /** Cards the player still owns: draw pile, hand and the active card. */
    ghost function CardCount(): nat
      reads this
    {
      |deck| + |hand| + (if activeCard.Some? then 1 else 0)
    }
  }

  /** `class GameState`. */
  class GameState {
    var player1: Player
    var player2: Player
    var currentTurn: int
    var gamePhase: GamePhase
    var winner: Option<string>

    /** `GameState.init`, with the same default arguments. */
    constructor (player1: Player, player2: Player, currentTurn: int := 1,
                 gamePhase: GamePhase := Setup, winner: Option<string> := None)
      ensures this.player1 == player1 && this.player2 == player2
      ensures this.currentTurn == currentTurn && this.gamePhase == gamePhase && this.winner == winner
    {
      this.player1 := player1;
      this.player2 := player2;
      this.currentTurn := currentTurn;
      this.gamePhase := gamePhase;
      this.winner := winner;
    }

    /** `currentPlayer`: player 1 exactly on odd turns. */
    function CurrentPlayer(): (p: Player)
      reads this
      ensures OddTurn(currentTurn) ==> p == player1
      ensures !OddTurn(currentTurn) ==> p == player2
    {
      if OddTurn(currentTurn) then player1 else player2
    }

    /** `opponent`: whichever of the two is not the current player. */
    function Opponent(): (p: Player)
      reads this
      ensures OddTurn(currentTurn) ==> p == player2
      ensures !OddTurn(currentTurn) ==> p == player1
    {
      if OddTurn(currentTurn) then player2 else player1
    }

    /** For two distinct players the current player and the opponent are never
        the same, and between them they are both players. */
    lemma CurrentAndOpponentSplit()
      requires player1 != player2
      ensures CurrentPlayer() != Opponent()
      ensures {CurrentPlayer(), Opponent()} == {player1, player2}
      ensures CurrentPlayer() == player1 <==> currentTurn > 0 && currentTurn % 2 == 1
    {
      OddTurnAlternates(currentTurn);
    }
  }

  /** `class PlayerProfile`; nothing in the engine mutates it, so it is a value here. */
  datatype PlayerProfile = PlayerProfile(
    username: string,
    level: int,
    experience: int,
    avatarImage: Option<string>,
    totalBattles: int,
    wins: int,
    losses: int)
  {
    /** `experienceToNextLevel`: what is missing from `level * 100` experience. */
    function ExperienceToNextLevel(): (r: int)
      ensures r + experience == level * 100
      ensures 0 <= experience <= level * 100 ==> 0 <= r <= level * 100
    {
      level * 100 - experience
    }
  }
}
