/** The TypeScript battle engine: `gameReducer` of GameContext.tsx, a pure
    function from a state and an action to the next state, over the shapes of
    Card.ts. */
module GameContext {
  import opened Prelude
  import opened CardTypes

  /** The `Player` interface: `id` is 'player1' or 'player2'. */
  datatype Player = Player(
    id: string,
    name: string,
    deck: seq<PokemonCard>,
    hand: seq<PokemonCard>,
    activeCard: Option<PokemonCard>,
    energy: int,
    maxEnergy: int,
    isTurn: bool)

  /** The `GameState` interface. */
  datatype GameState = GameState(
    player1: Player,
    player2: Player,
    currentTurn: int,
    gamePhase: GamePhase,
    winner: Option<string>)

  /** `GameAction`. */
  datatype Action =
    | StartGame(player1Name: string, player2Name: string)
    | PlayCard(cardId: Id, playerId: string)
    | UseAbility(abilityId: Id, targetId: Option<string>)
    | EndTurn
    | DrawCard(playerId: string)
    | DamageCard(cardId: Id, damage: int)
    | SetActiveCard(cardId: Id, playerId: string)

  /** The two shuffled copies of the starter deck that `START_GAME` draws. */
  datatype Deal = Deal(deck1: seq<PokemonCard>, deck2: seq<PokemonCard>)

  /** An optional string is truthy when present and non-empty. */
  predicate Truthy(s: Option<string>)
  {
    s.Some? && s.value != ""
  }

  /** `initialGameState`: two empty players and the setup phase on turn 1. */
  function InitialGameState(): (s: GameState)
    ensures s.player1.id == "player1" && s.player2.id == "player2"
    ensures Blank(s.player1) && Blank(s.player2)
    ensures s.currentTurn == 1 && s.gamePhase == Setup && s.winner.None?
  {
    GameState(
      Player("player1", "", [], [], None, 0, 0, false),
      Player("player2", "", [], [], None, 0, 0, false),
      1, Setup, None)
  }

  predicate Blank(p: Player)
  {
    p.name == "" && p.deck == [] && p.hand == [] && p.activeCard.None?
    && p.energy == 0 && p.maxEnergy == 0 && !p.isTurn
  }

  /** `START_GAME`: names, whole decks, a 3-card hand copied from the front of
      each deck, energy and maximum 1, player 1 to move, phase main. Everything
      else, the turn counter, the winner, player 2's turn flag and the active
      cards, carries over from the prior state. */
  function StartGameStep(s: GameState, player1Name: string, player2Name: string, deal: Deal): (r: GameState)
    ensures r.player1.name == player1Name && r.player2.name == player2Name
    ensures r.player1.deck == deal.deck1 && r.player2.deck == deal.deck2
    ensures r.player1.hand == Prefix(deal.deck1, HandSize) && r.player2.hand == Prefix(deal.deck2, HandSize)
    ensures r.player1.energy == r.player1.maxEnergy == 1 && r.player2.energy == r.player2.maxEnergy == 1
    ensures r.player1.isTurn && r.player2.isTurn == s.player2.isTurn
    ensures r.gamePhase == Main && r.currentTurn == s.currentTurn && r.winner == s.winner
    ensures r.player1.activeCard == s.player1.activeCard && r.player2.activeCard == s.player2.activeCard
    ensures r.player1.id == s.player1.id && r.player2.id == s.player2.id
  {
    s.(player1 := s.player1.(name := player1Name, deck := deal.deck1, hand := Prefix(deal.deck1, HandSize),
                             isTurn := true, energy := 1, maxEnergy := 1),
       player2 := s.player2.(name := player2Name, deck := deal.deck2, hand := Prefix(deal.deck2, HandSize),
                             energy := 1, maxEnergy := 1),
       gamePhase := Main)
  }

  /** The player whose turn begins: draws the front card of the deck if there
      is one, and gets energy `min(maxEnergy + 1, 10)`; `maxEnergy` stays. */
  function Refresh(p: Player): (r: Player)
    ensures r.hand == p.hand + (if p.deck == [] then [] else [p.deck[0]])
    ensures p.deck == (if p.deck == [] then [] else [p.deck[0]]) + r.deck
    ensures |r.deck| + |r.hand| == |p.deck| + |p.hand|
    ensures r.energy == Min(p.maxEnergy + 1, EnergyCap) && r.maxEnergy == p.maxEnergy
    ensures r.activeCard == p.activeCard && r.name == p.name && r.id == p.id
  {
    var newHand := if |p.deck| > 0 then p.hand + [p.deck[0]] else p.hand;
    var newDeck := if |p.deck| > 0 then p.deck[1..] else [];
    p.(energy := Min(p.maxEnergy + 1, EnergyCap), hand := newHand, deck := newDeck)
  }

  /** `END_TURN`: the counter advances, the turn flags follow its parity, the
      player whose turn begins is refreshed and the other keeps energy, hand
      and deck. */
  function EndTurnStep(s: GameState): (r: GameState)
    ensures r.currentTurn == s.currentTurn + 1
    ensures r.player1.isTurn == OddTurn(r.currentTurn) && r.player2.isTurn == !r.player1.isTurn
    ensures r.player1.isTurn ==> r.player1 == Refresh(s.player1).(isTurn := true) && r.player2 == s.player2.(isTurn := false)
    ensures r.player2.isTurn ==> r.player2 == Refresh(s.player2).(isTurn := true) && r.player1 == s.player1.(isTurn := false)
    ensures r.player1.maxEnergy == s.player1.maxEnergy && r.player2.maxEnergy == s.player2.maxEnergy
    ensures r.gamePhase == s.gamePhase && r.winner == s.winner
  {
    var newTurn := s.currentTurn + 1;
    var isPlayer1Turn := OddTurn(newTurn);
    var activePlayer := if isPlayer1Turn then s.player1 else s.player2;
    var refreshed := Refresh(activePlayer);
    s.(currentTurn := newTurn,
       player1 := s.player1.(isTurn := isPlayer1Turn,
                             energy := if isPlayer1Turn then refreshed.energy else s.player1.energy,
                             hand := if isPlayer1Turn then refreshed.hand else s.player1.hand,
                             deck := if isPlayer1Turn then refreshed.deck else s.player1.deck),
       player2 := s.player2.(isTurn := !isPlayer1Turn,
                             energy := if !isPlayer1Turn then refreshed.energy else s.player2.energy,
                             hand := if !isPlayer1Turn then refreshed.hand else s.player2.hand,
                             deck := if !isPlayer1Turn then refreshed.deck else s.player2.deck))
  }

  /** The player `PLAY_CARD` reads: player 1 for the id 'player1', player 2 for anything else. */
  function PlayerFor(s: GameState, playerId: string): Player
  {
    if playerId == "player1" then s.player1 else s.player2
  }

  /** `PLAY_CARD`. The state is returned as it is unless the hand holds a card
      with the id and the player can pay its cost. Then every hand card with
      that id is removed, the first of them becomes the active card, replacing
      any card already in play, and its cost is paid. The result is written back
      under the key `playerId`. A key naming another state field overwrites
      that field with the player object, which the typed state cannot hold; a
      key that is neither 'player1' nor 'player2' therefore leaves the state
      as it is here. */
  function PlayCardStep(s: GameState, cardId: Id, playerId: string): (r: GameState)
    ensures var player := PlayerFor(s, playerId);
      var index := FirstIndex(player.hand, CardId, cardId);
      && (index.None? || player.energy < player.hand[index.value].cost ==> r == s)
      && (index.Some? && player.energy >= player.hand[index.value].cost ==>
            var played := player.(hand := WithoutId(player.hand, cardId),
                                  energy := player.energy - player.hand[index.value].cost,
                                  activeCard := Some(player.hand[index.value]));
            && (playerId == "player1" ==> r == s.(player1 := played))
            && (playerId == "player2" ==> r == s.(player2 := played))
            && (playerId != "player1" && playerId != "player2" ==> r == s))
    ensures r.currentTurn == s.currentTurn && r.gamePhase == s.gamePhase && r.winner == s.winner
    ensures playerId != "player1" ==> r.player1 == s.player1
    ensures playerId != "player2" ==> r.player2 == s.player2
  {
    var player := PlayerFor(s, playerId);
    match FirstIndex(player.hand, CardId, cardId)
    case None => s
    case Some(i) =>
      var card := player.hand[i];
      if player.energy < card.cost then s
      else
        var updatedPlayer := player.(hand := WithoutId(player.hand, cardId),
                                     energy := player.energy - card.cost,
                                     activeCard := Some(card));
        if playerId == "player1" then s.(player1 := updatedPlayer)
        else if playerId == "player2" then s.(player2 := updatedPlayer)
        else s
  }

  /** What `USE_ABILITY` does to the opponent: with a truthy target id and
      positive damage, the opponent's active card, if any, drops to
      `max(0, hp - damage)` hp. The card stays in play even at 0 hp. */
  function Hit(opponent: Player, targetId: Option<string>, damage: int): (r: Player)
    ensures r.activeCard.None? <==> opponent.activeCard.None?
    ensures (Truthy(targetId) && damage > 0 && opponent.activeCard.Some?) ==>
      r.activeCard == Some(opponent.activeCard.value.(hp := Max(0, opponent.activeCard.value.hp - damage)))
    ensures !(Truthy(targetId) && damage > 0) ==> r == opponent
    ensures r == opponent.(activeCard := r.activeCard)
    ensures opponent.activeCard.Some? && opponent.activeCard.value.hp >= 0 ==>
      0 <= r.activeCard.value.hp <= opponent.activeCard.value.hp
  {
    if Truthy(targetId) && damage > 0 then
      match opponent.activeCard
      case None => opponent
      case Some(targetCard) =>
        opponent.(activeCard := Some(targetCard.(hp := Max(0, targetCard.hp - damage))))
    else opponent
  }

  /** `USE_ABILITY`. The actor is player 1 when its turn flag is set and player
      2 otherwise. The state is returned as it is unless the actor has an
      active card that carries an ability with the id, and energy for it. Then
      the actor pays the cost of the first such ability and the opponent takes
      its hit; no card is removed and no winner is set. */
  function UseAbilityStep(s: GameState, abilityId: Id, targetId: Option<string>): (r: GameState)
    ensures var current := if s.player1.isTurn then s.player1 else s.player2;
      var opponent := if s.player1.isTurn then s.player2 else s.player1;
      && (current.activeCard.None? ==> r == s)
      && (current.activeCard.Some? ==>
            var abilities := current.activeCard.value.abilities;
            var index := FirstIndex(abilities, AbilityId, abilityId);
            && (index.None? || current.energy < abilities[index.value].cost ==> r == s)
            && (index.Some? && current.energy >= abilities[index.value].cost ==>
                  var acted := current.(energy := current.energy - abilities[index.value].cost);
                  var struck := Hit(opponent, targetId, abilities[index.value].damage);
                  r == if s.player1.isTurn then s.(player1 := acted, player2 := struck)
                       else s.(player1 := struck, player2 := acted)))
    ensures r.currentTurn == s.currentTurn && r.gamePhase == s.gamePhase && r.winner == s.winner
  {
    var currentPlayer := if s.player1.isTurn then s.player1 else s.player2;
    var opponent := if s.player1.isTurn then s.player2 else s.player1;
    match currentPlayer.activeCard
    case None => s
    case Some(activeCard) =>
      match FirstIndex(activeCard.abilities, AbilityId, abilityId)
      case None => s
      case Some(i) =>
        var ability := activeCard.abilities[i];
        if currentPlayer.energy < ability.cost then s
        else
          var updatedOpponent := Hit(opponent, targetId, ability.damage);
          var updatedCurrentPlayer := currentPlayer.(energy := currentPlayer.energy - ability.cost);
          s.(player1 := if s.player1.isTurn then updatedCurrentPlayer else updatedOpponent,
             player2 := if s.player1.isTurn then updatedOpponent else updatedCurrentPlayer)
  }

  /** `gameReducer`. The shuffles `START_GAME` would draw are supplied as `deal`.
      Four actions are handled by the step functions above; `DRAW_CARD`,
      `DAMAGE_CARD` and `SET_ACTIVE_CARD` are declared but fall through to the
      default case. No action renames a player's id or sets a winner, only
      `END_TURN` moves the counter, and only `START_GAME` changes the phase. */
  function Reduce(s: GameState, action: Action, deal: Deal): (r: GameState)
    ensures action.DrawCard? || action.DamageCard? || action.SetActiveCard? ==> r == s
    ensures r.player1.id == s.player1.id && r.player2.id == s.player2.id
    ensures r.winner == s.winner
    ensures r.currentTurn == if action.EndTurn? then s.currentTurn + 1 else s.currentTurn
    ensures r.gamePhase == if action.StartGame? then Main else s.gamePhase
  {
    match action
    case StartGame(player1Name, player2Name) => StartGameStep(s, player1Name, player2Name, deal)
    case EndTurn => EndTurnStep(s)
    case PlayCard(cardId, playerId) => PlayCardStep(s, cardId, playerId)
    case UseAbility(abilityId, targetId) => UseAbilityStep(s, abilityId, targetId)
    case _ => s
  }

  // ---------------------------------------------------------------------------
  // Runs of actions

  /** One dispatch: an action and the shuffles it would use. */
  datatype Step = Step(action: Action, deal: Deal)

  /** The state after dispatching `steps` in order. */
  function Run(s: GameState, steps: seq<Step>): GameState
    decreases |steps|
  {
    if |steps| == 0 then s
    else Run(Reduce(s, steps[0].action, steps[0].deal), steps[1..])
  }

  /** `n` consecutive `END_TURN`s. */
  function EndTurns(s: GameState, n: nat): GameState
  {
    if n == 0 then s else EndTurnStep(EndTurns(s, n - 1))
  }

  /** Turn alternation: after any positive number of `END_TURN`s the counter
      has advanced by that number, player 1 has the turn exactly on odd turns
      and exactly one player has it. */
  lemma {:induction false} EndTurnsAlternate(s: GameState, n: nat)
    requires n > 0
    ensures EndTurns(s, n).currentTurn == s.currentTurn + n
    ensures EndTurns(s, n).player1.isTurn == OddTurn(s.currentTurn + n)
    ensures EndTurns(s, n).player2.isTurn != EndTurns(s, n).player1.isTurn
  {
    if n > 1 {
      EndTurnsAlternate(s, n - 1);
    }
  }

  /** From turn 0 on, successive turns go to alternate players. */
  lemma {:induction false} EndTurnsFlip(s: GameState, n: nat)
    requires s.currentTurn >= 0 && n > 0
    ensures EndTurns(s, n + 1).player1.isTurn == !EndTurns(s, n).player1.isTurn
  {
    EndTurnsAlternate(s, n);
    EndTurnsAlternate(s, n + 1);
    OddTurnAlternates(s.currentTurn + n);
  }

  // ---------------------------------------------------------------------------
  // Invariants

  predicate WellFormedPlayer(p: Player)
  {
    AllWellFormed(p.deck) && AllWellFormed(p.hand) && WellFormedSlot(p.activeCard)
    && 0 <= p.energy <= EnergyCap && 0 <= p.maxEnergy
  }

  /** Every card obeys the card invariants (hp within 0..maxHp, non-negative
      costs and damage) and each player's energy lies within 0..10. */
  predicate Valid(s: GameState)
  {
    WellFormedPlayer(s.player1) && WellFormedPlayer(s.player2)
  }

  predicate WellFormedDeal(deal: Deal)
  {
    AllWellFormed(deal.deck1) && AllWellFormed(deal.deck2)
  }

  lemma PlayCardKeepsValid(s: GameState, cardId: Id, playerId: string)
    requires Valid(s)
    ensures Valid(PlayCardStep(s, cardId, playerId))
  {
    var player := PlayerFor(s, playerId);
    ElementsWellFormed(WithoutId(player.hand, cardId), player.hand);
  }

  /** Every action keeps the invariants, given well-formed shuffles. */
  lemma ReduceKeepsValid(s: GameState, action: Action, deal: Deal)
    requires Valid(s) && WellFormedDeal(deal)
    ensures Valid(Reduce(s, action, deal))
  {
    match action
    case PlayCard(cardId, playerId) => PlayCardKeepsValid(s, cardId, playerId);
    case UseAbility(abilityId, targetId) =>
    case EndTurn =>
    case StartGame(_, _) =>
    case _ =>
  }

  /** The invariants hold along every run whose shuffles are well formed. */
  lemma {:induction false} RunKeepsValid(s: GameState, steps: seq<Step>)
    requires Valid(s)
    requires forall i :: 0 <= i < |steps| ==> WellFormedDeal(steps[i].deal)
    ensures Valid(Run(s, steps))
    decreases |steps|
  {
    if |steps| > 0 {
      ReduceKeepsValid(s, steps[0].action, steps[0].deal);
      RunKeepsValid(Reduce(s, steps[0].action, steps[0].deal), steps[1..]);
    }
  }

  /** Because `END_TURN` never raises `maxEnergy`, once a game has started each
      player's maximum stays 1 and energy never exceeds 2. */
  predicate Capped(p: Player)
  {
    p.maxEnergy == 1 && p.energy <= 2
  }

  lemma ReduceKeepsCapped(s: GameState, action: Action, deal: Deal)
    requires Valid(s) && Capped(s.player1) && Capped(s.player2)
    ensures Capped(Reduce(s, action, deal).player1) && Capped(Reduce(s, action, deal).player2)
  {
    match action
    case PlayCard(cardId, playerId) =>
    case UseAbility(abilityId, targetId) =>
    case EndTurn =>
    case StartGame(_, _) =>
    case _ =>
  }

  lemma {:induction false} EnergyNeverExceedsTwo(s: GameState, steps: seq<Step>)
    requires Valid(s) && Capped(s.player1) && Capped(s.player2)
    requires forall i :: 0 <= i < |steps| ==> WellFormedDeal(steps[i].deal)
    ensures Capped(Run(s, steps).player1) && Capped(Run(s, steps).player2)
    decreases |steps|
  {
    if |steps| > 0 {
      var next := Reduce(s, steps[0].action, steps[0].deal);
      ReduceKeepsValid(s, steps[0].action, steps[0].deal);
      ReduceKeepsCapped(s, steps[0].action, steps[0].deal);
      EnergyNeverExceedsTwo(next, steps[1..]);
    }
  }

  /** Starting a game from permutations of a starter deck: each deck holds the
      starter's cards, nothing is taken from it, and the hand is a copy of its
      first three cards. A starter of three cards is dealt in full, so the hand
      equals the deck and every card is held twice. */
  lemma StartGameDealsStarter(s: GameState, player1Name: string, player2Name: string, deal: Deal, starter: seq<PokemonCard>)
    requires multiset(deal.deck1) == multiset(starter) && multiset(deal.deck2) == multiset(starter)
    ensures var r := Reduce(s, StartGame(player1Name, player2Name), deal);
      && multiset(r.player1.deck) == multiset(starter) && multiset(r.player2.deck) == multiset(starter)
      && r.player1.hand <= r.player1.deck && r.player2.hand <= r.player2.deck
      && |r.player1.hand| == Min(HandSize, |starter|) && |r.player2.hand| == Min(HandSize, |starter|)
      && (|starter| == 3 ==> r.player1.hand == r.player1.deck && r.player2.hand == r.player2.deck)
  {
    assert |deal.deck1| == |multiset(deal.deck1)|;
    assert |deal.deck2| == |multiset(deal.deck2)|;
  }

  /** Starting a game from the initial state: turn 1, player 1 to move and
      player 2 not, no active cards and no winner. */
  lemma StartFromInitialState(player1Name: string, player2Name: string, deal: Deal)
    ensures var r := Reduce(InitialGameState(), StartGame(player1Name, player2Name), deal);
      && r.currentTurn == 1 && r.player1.isTurn && !r.player2.isTurn
      && r.player1.activeCard.None? && r.player2.activeCard.None? && r.winner.None?
      && Valid(r) == WellFormedDeal(deal)
      && Capped(r.player1) && Capped(r.player2)
  {
  }
}
