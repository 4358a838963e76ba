# Pokémon card battle engine, modelled in Dafny

This project models the battle rules of a two-player collectible-card game.
Two players each hold a deck, a hand and at most one active card. They spend
energy to put a card into play and to use its abilities against the other
player's active card. Turns alternate by the parity of a turn counter. A
player with no active card and an empty hand loses.

The repository implements these rules twice, and the two versions differ in
detail. Each is modelled on its own terms:

- **The Swift engine** (`GameManager.swift`, over the types of `Models.swift`).
  It is a controller that mutates `Player` and `GameState` reference objects
  in place. Here it is the class `Manager.GameManager`, with methods over the
  classes `Models.Player` and `Models.GameState`. Each method's `ensures`
  states the whole new state in terms of the old one.
- **The TypeScript reducer** (`gameReducer` in `GameContext.tsx`, over the
  shapes of `Card.ts`). It is a pure `(state, action) -> state` function. Here
  it is the datatypes and the total function `GameContext.Reduce`, one function
  per handled action, with lemmas about single steps and about whole runs of
  actions.

Cards and abilities are values in both versions (Swift structs, TypeScript
object literals). They are shared datatypes in `CardTypes`. Identifiers are
opaque strings. The Swift `UUID()` calls become parameters (`CatalogIds`, and
the `id` argument of `NewCard`/`NewAbility`). Shuffling becomes a parameter as
well: the Swift `StartGame` takes two decks that must be permutations of the
starter deck, and the reducer takes a `Deal` of two decks.

Files: `prelude.dfy` (Option, min/max, the truncating `%`, prefixes),
`card_types.dfy` (the shared value types and id search/removal),
`models.dfy` (Models.swift), `game_manager.dfy` (GameManager.swift) and
`game_context.dfy` (GameContext.tsx).

Behaviours of the code that the model keeps on purpose:

- Dealing does not shrink the deck. The hand is a copy of the first three
  cards of the shuffled deck, and the deck keeps all of its cards. The Swift
  starter deck has exactly three cards, so the hand equals the deck and each
  starting card is held twice.
- The two Pikachu entries of `starterDeck` are copies of one struct value, so
  they share an id. Swift `playCard` removes the first card with the id
  (`RemoveAt` at `FirstIndex`). TypeScript `PLAY_CARD` removes every card
  with the id (`WithoutId`). `CardTypes.FirstRemovalKeepsTwin` shows how the
  two results differ.
- Swift `playCard` makes the *argument* card active and charges the argument's
  cost. It does not use the hand element, which matches by id only. Swift
  `useAbility` likewise charges the argument ability's cost and damage. Its
  target is any `Player?`, including the acting player, or a player that is not
  in the game state at all.
- TypeScript `END_TURN` sets `energy = min(maxEnergy + 1, 10)` and never
  raises `maxEnergy`. After `START_GAME`, the maximum therefore stays 1 and
  energy never exceeds 2 (`GameContext.EnergyNeverExceedsTwo`). Swift
  `endTurn` raises `maxEnergy` up to 10 and refills energy to it.
- Only Swift removes a defeated card and checks for a winner. TypeScript clamps
  hp at 0, leaves the card in play and never sets a winner.
- TypeScript `PLAY_CARD` does not check for a card already in play. The new
  card replaces it.
- TypeScript `USE_ABILITY` picks the actor from `player1.isTurn`, not from the
  turn counter. A `targetId` that is present but empty is falsy, so that call
  deals no damage.
- TypeScript `PLAY_CARD` reads player 2 for any `playerId` other than
  'player1'. It writes the result under the key `playerId`. A `playerId` that
  names another `GameState` field ('currentTurn', 'gamePhase' or 'winner')
  overwrites that field with the player object. The typed model cannot
  represent such a state, so it returns the state unchanged for every key
  other than 'player1' and 'player2'.
- TypeScript `START_GAME` keeps the prior turn counter, winner, player 2's turn
  flag and both active cards. Swift `startGame` builds new `Player` objects and
  resets the turn, phase and winner.
- Dealing copies cards, so a player's card count rises at the start. After
  dealing, Swift keeps deck + hand + active card constant, and a defeat lowers
  the target's count by exactly one (stated on `PlayCard`, `EndTurn` and
  `UseAbility`).
- After `endTurn` from turn 1, Swift player 2 has `energy == maxEnergy == 2`,
  while TypeScript gives player 2 energy 2 and `maxEnergy` 1.
- Both languages' `%` truncates toward zero (`Prelude.Rem2`). A turn counter of
  zero or below is therefore never player 1's turn.

## Model

| member | source | states |
|---|---|---|
| `Prelude.Rem2` | PokemonCardBattleSwiftUI/GameManager.swift:91 | the remainder of a truncating `% 2`: between -1 and 1, with the sign of the dividend, and congruent to it modulo 2 |
| `Prelude.OddTurnAlternates` | PokemonCardBattleSwiftUI/GameManager.swift:90-91 | `turn % 2 == 1` holds exactly for positive odd turns, and from turn 0 on it flips with every increment |
| `Prelude.Prefix` | PokemonCardBattleSwiftUI/GameManager.swift:39 | `prefix(3)` / `slice(0, 3)` is a prefix of length `min(3, count)`, and the whole list when it is no longer |
| `CardTypes.FirstIndex` | PokemonCardBattleSwiftUI/GameManager.swift:62-72 | `firstIndex(where:)` over hand cards (line 62) and over an active card's abilities (line 72): the first index whose element has the id; None exactly when no element has it |
| `CardTypes.RemoveAt` | PokemonCardBattleSwiftUI/GameManager.swift:63 | `remove(at:)` drops exactly that one card, shifts the later ones down by one and keeps the rest as a multiset |
| `CardTypes.WithoutId` | src/context/GameContext.tsx:119 | `filter(c => c.id !== id)` keeps exactly the cards whose id differs |
| `CardTypes.WithoutIdAppend` | PokemonCardBattleSwiftUI/GameManager.swift:129-131 | filtering distributes over concatenation, so the survivors keep their order |
| `CardTypes.WithoutIdAbsent` | PokemonCardBattleSwiftUI/GameManager.swift:129-131 | removing an id no card carries leaves the list as it is |
| `CardTypes.WithoutIdCount` | src/context/GameContext.tsx:119 | the filtered list is shorter by exactly the number of cards with the id |
| `CardTypes.ElementsWellFormed` | src/context/GameContext.tsx:119 | a list whose cards all come from a well-formed list is well formed; it covers the filtered hand here and the shuffled decks of `startGame` |
| `CardTypes.FirstRemovalKeepsTwin` | PokemonCardBattleSwiftUI/GameManager.swift:62-63 | for [twin, twin, other], removing the first match leaves [twin, other] while filtering leaves [other] |
| `Models.NewAbility` | ios/PokemonCardBattle/Models.swift:82-89 | every field is the argument given, by default empty text, no damage, no cost, physical, no cooldown; well formed iff damage and cost are non-negative |
| `Models.NewCard` | ios/PokemonCardBattle/Models.swift:107-119 | a new card has `maxHp == hp`; it is well formed iff hp, cost and its abilities' damage and costs are non-negative |
| `Models.SampleCards` | ios/PokemonCardBattle/Models.swift:304-333 | Charizard (hp 120, cost 3) then Pikachu (hp 60, cost 1), two abilities each, all with non-negative damage and cost |
| `Models.StarterDeck` | ios/PokemonCardBattle/Models.swift:335-339 | three cards: two equal Pikachu copies sharing one id (hp 60, cost 1), then Charizard (hp 120, cost 3); all well formed |
| `Models.Player.constructor` | ios/PokemonCardBattle/Models.swift:137-145 | every field is the argument given; by default empty deck and hand, no active card, energy and maximum 0, not on turn |
| `Models.GameState.constructor` | ios/PokemonCardBattle/Models.swift:191-197 | every field is the argument given; by default turn 1, setup phase, no winner |
| `Models.GameState.CurrentPlayer` | ios/PokemonCardBattle/Models.swift:199-201 | player 1 on odd turns, player 2 otherwise |
| `Models.GameState.Opponent` | ios/PokemonCardBattle/Models.swift:203-205 | player 2 on odd turns, player 1 otherwise |
| `Models.GameState.CurrentAndOpponentSplit` | ios/PokemonCardBattle/Models.swift:199-205 | with two distinct players, the current player and the opponent differ and are the two players, player 1 exactly on positive odd turns |
| `Models.PlayerProfile.ExperienceToNextLevel` | ios/PokemonCardBattle/Models.swift:233-235 | remaining experience plus experience is `level * 100`, and lies in 0..level*100 when experience does |
| `Manager.HasLost` | PokemonCardBattleSwiftUI/GameManager.swift:115-118 | a player has lost exactly when no active card and no hand remain, that is, everything they own is in the draw pile |
| `Manager.Verdict` | PokemonCardBattleSwiftUI/GameManager.swift:113-122 | a winner exists iff some player has lost; player 1's loss is checked first and names player 2 |
| `Manager.Strike` | PokemonCardBattleSwiftUI/GameManager.swift:77-85 | a hit removes the card iff its hp is at most the damage; otherwise hp falls by exactly the damage, stays positive and never rises |
| `Manager.GameManager.constructor` | PokemonCardBattleSwiftUI/GameManager.swift:10-14 | two fresh, distinct, nameless default players, turn 1, setup phase, no winner, no custom cards |
| `Manager.GameManager.StartGame` | PokemonCardBattleSwiftUI/GameManager.swift:32-57 | fresh players with the shuffled decks, hands that copy the first 3 cards while the deck keeps all 3, energy and maximum 1, player 1 on turn, turn 1, phase main, no winner |
| `Manager.GameManager.CanPlayCard` | PokemonCardBattleSwiftUI/GameManager.swift:141-143 | when it allows a card, paying the card's cost keeps energy in 0..maxEnergy, and with no card in play the player's cards are all in deck and hand |
| `Manager.GameManager.CanUseAbility` | PokemonCardBattleSwiftUI/GameManager.swift:145-147 | when it allows an ability, paying the ability's cost keeps energy in 0..maxEnergy, and the player, having a card in play, has not lost |
| `Manager.GameManager.AbilityUsableIsCanUse` | PokemonCardBattleSwiftUI/GameManager.swift:145-147 | the guard of `useAbility` is `canUseAbility` plus the active card carrying an ability with the id |
| `Manager.GameManager.PlayCard` | PokemonCardBattleSwiftUI/GameManager.swift:59-67 | nothing changes unless energy covers the cost, no card is in play, and the id is in hand; then exactly the first match leaves the hand, the card becomes active, energy drops by its cost, the card count is kept and energy stays within range |
| `Manager.GameManager.CheckForWinner` | PokemonCardBattleSwiftUI/GameManager.swift:113-122 | the winner and phase follow `Verdict` on the current players, and nothing else changes |
| `Manager.GameManager.UseAbility` | PokemonCardBattleSwiftUI/GameManager.swift:69-87 | nothing changes unless the guard holds; then energy drops by exactly the cost, a given target's active card takes `Strike` when the damage is positive, and a defeat lowers the target's card count by one and runs the winner check; otherwise the game state is unchanged |
| `Manager.GameManager.EndTurn` | PokemonCardBattleSwiftUI/GameManager.swift:89-111 | the turn advances by one and exactly one player, chosen by parity, is on turn; that player draws the front card if any, `maxEnergy` becomes `min(maxEnergy + 1, 10)` and energy equals it; the other player is untouched |
| `Manager.GameManager.AddCustomCard` | PokemonCardBattleSwiftUI/GameManager.swift:125-127 | the card is appended at the end |
| `Manager.GameManager.RemoveCustomCard` | PokemonCardBattleSwiftUI/GameManager.swift:129-131 | every custom card with the id is dropped, and the others stay in order |
| `Manager.GameManager.ResetGame` | PokemonCardBattleSwiftUI/GameManager.swift:134-139 | a fresh game state as at construction |
| `GameContext.InitialGameState` | src/context/GameContext.tsx:25-46 | two blank players with ids 'player1' and 'player2', turn 1, setup phase, no winner |
| `GameContext.StartGameStep` | src/context/GameContext.tsx:50-76 | names and whole decks set, hands the first 3 of each deck, energy and maximum 1, player 1 on turn, phase main; turn, winner, player 2's flag and active cards carried over |
| `GameContext.Refresh` | src/context/GameContext.tsx:84-105 | the newly active player moves `deck[0]` to the end of the hand if the deck is non-empty, keeps deck + hand size, gets energy `min(maxEnergy + 1, 10)` and keeps `maxEnergy` |
| `GameContext.EndTurnStep` | src/context/GameContext.tsx:79-108 | the turn advances and player 1 is on turn exactly on odd turns, player 2 on the others; only the newly active player is refreshed; no `maxEnergy` changes |
| `GameContext.PlayCardStep` | src/context/GameContext.tsx:110-131 | the same state if the card is not in hand or is unaffordable; otherwise all cards with the id leave the hand, the found card becomes active even over an existing one, energy drops by its cost, and the other player is unchanged |
| `GameContext.Hit` | src/context/GameContext.tsx:143-155 | only a truthy target id with positive damage touches the opponent: the active card's hp becomes `max(0, hp - damage)`, never rises when non-negative, and the card stays in play |
| `GameContext.UseAbilityStep` | src/context/GameContext.tsx:133-167 | the same state without an active card, the ability or the energy for it (actor chosen by `player1.isTurn`); otherwise the actor pays the ability's cost and the opponent takes `Hit`; the winner and phase never change |
| `GameContext.Reduce` | src/context/GameContext.tsx:48-171 | dispatches `START_GAME`, `END_TURN`, `PLAY_CARD` and `USE_ABILITY` to their steps; `DRAW_CARD`, `DAMAGE_CARD` and `SET_ACTIVE_CARD` return the state unchanged; no action changes a player id or the winner, only `END_TURN` advances the counter and only `START_GAME` changes the phase |
| `GameContext.EndTurnsAlternate` | src/context/GameContext.tsx:80-81 | after n > 0 `END_TURN`s the counter has advanced by n, player 1 is on turn exactly on odd turns, and exactly one player is on turn |
| `GameContext.EndTurnsFlip` | src/context/GameContext.tsx:92-102 | from turn 0 on, consecutive `END_TURN`s hand the turn to alternate players |
| `GameContext.PlayCardKeepsValid` | src/context/GameContext.tsx:110-131 | `PLAY_CARD` keeps the card and energy invariants |
| `GameContext.ReduceKeepsValid` | src/context/GameContext.tsx:48-171 | with well-formed shuffles, every action keeps hp in 0..maxHp, costs and damage non-negative, and energy in 0..10 |
| `GameContext.RunKeepsValid` | src/context/GameContext.tsx:48-171 | the invariants hold after any run of actions |
| `GameContext.ReduceKeepsCapped` | src/context/GameContext.tsx:96-103 | once both maxima are 1 and energies at most 2, every action keeps it so |
| `GameContext.EnergyNeverExceedsTwo` | src/context/GameContext.tsx:96-103 | after a game has started, no run of actions lifts `maxEnergy` above 1 or energy above 2 |
| `GameContext.StartGameDealsStarter` | src/context/GameContext.tsx:53-71 | with permutations of a starter deck, each deck holds the starter's cards, the hand is a prefix of length `min(3, size)`, and a 3-card starter is dealt in full |
| `GameContext.StartFromInitialState` | src/context/GameContext.tsx:25-76 | starting from the initial state gives turn 1, player 1 alone on turn, no active cards, no winner and capped energy |

## Left out

- The shuffles themselves (`.shuffled()` and the random-comparator sort). Any permutation is accepted, and the comparator's bias is not modelled.
- `UUID()` generation. Ids are opaque strings supplied by the caller. `Player.id` is never used by the rules and is omitted from the Swift `Player` class.
- The TypeScript `starterDeck` lives in `src/data/sampleCards`, which is not part of this model. `GameContext.StartGameDealsStarter` takes the starter deck as a parameter.
- Integer width. Swift `Int` traps on overflow and TypeScript numbers are floating point. The model uses unbounded integers.
- `Codable` encoding and decoding, colours, icons, `hpPercentage` and `winRate`: library behaviour, presentation or floating point.
- The `playerProfile` and `currencies` the Swift manager builds in `init`: mock data with no rules. `PlayerProfile` itself is modelled as a value.
- Change notification (`ObservableObject`/`@Published`), `GameProvider`, `useGame` and the `useReducer` dispatch wiring. These plumb the state to the views.
- The views and screens of all three front ends, the card-creator forms and the canvas map demo (`game.js`). These are presentation, with floating point and randomness.
- `GameContext.PlayCardStep` and `GameContext.Reduce`: a `playerId` such as 'winner', 'currentTurn' or 'gamePhase' makes `PLAY_CARD` store the player object in that field. The model returns the state unchanged instead, so `Reduce`'s promises that the winner, the turn counter and the phase do not change under `PLAY_CARD` hold for the source only when `playerId` is 'player1' or 'player2'.
- `Manager.GameManager.EndTurn` requires the manager's two players to be distinct objects. The manager always creates them distinct, but the Swift `GameState` initializer alone does not forbid passing one player twice.
