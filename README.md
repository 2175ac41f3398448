# Lane-battle card game engine in Dafny

This project models the engine of a three-lane cricket card game. Two sides,
the player and a simulated opponent, play cards into three lanes over six
turns. At the end of every turn all cards in play are revealed. A card whose
composure cannot stand its share of the opposing side's pressure is
dismissed. Each lane is scored by the runs of the cards still in it. After
the last turn the side that won more lanes wins. The model has four modules:

- `Types` (`types.dfy`): the card, lane, side and match-state records, and
  the phase and winner tags.
- `Cards` (`cards.dfy`): the catalog of ten card templates, `createCard`,
  and `createDeck`. `createDeck` shuffles twelve template ids, swaps the
  first opener into the first five slots (in place, on an array) and builds
  the cards.
- `Resolution` (`resolution.dfy`): `resolveTurn` as a pure function from a
  state to the partial update it returns, together with the merge the store
  applies.
- `Store` (`store.dfy`): the store as a class `GameStore`. Its fields are the
  match data. Its methods are `initializeGame`, `playCard` and `endTurn`, and
  each is proved to produce the state given by a specification function of
  the old state. The match invariant `ValidData` is kept by all of them.

Randomness, fresh ids and the random lane index enter as arguments:

- The random sort in `createDeck` becomes an argument `shuffled`: any
  rearrangement of the twelve deck ids (`IsShuffle`).
- Each `uuidv4()` call becomes a caller-supplied string: one per card
  (`freshIds`), plus `freshId` for the opponent's card.
- `Math.floor(Math.random() * 3)` becomes `laneIdx < 3`.

The source compares `defense >= total / max(1, n)` in floating point. The
model states it as `defense * max(1, n) >= total` over integers. `CrossMultiplication`
proves this agrees with exact division.

## Model

| member | source | states |
|---|---|---|
| Cards.BaseSetWellFormed | src/engine/cards.ts:4-109 | the catalog has ten templates with pairwise distinct template ids, and every template has non-negative cost, runs, pressure and composure |
| Cards.FindTemplate | src/engine/cards.ts:112 | the result is None exactly when no template has the id; otherwise it is a template with that id and no earlier template has it |
| Cards.CreateFrom | src/engine/cards.ts:111-123 | `createCard` over a given catalogue; its contract is stated by Cards.CreateFromSpec |
| Cards.CreateCard | src/engine/cards.ts:111-123 | `createCard` over BASE_SET; its contract is Cards.CreateFromSpec with the catalogue facts of Cards.BaseSetWellFormed, Cards.CreatedCardStats and Cards.AllCardIdsInCatalog |
| Cards.CreateFromSpec | src/engine/cards.ts:111-123 | looking an id up in a catalogue fails exactly when no template has it, with the error "Card template <id> not found"; a known id gives the first matching template instantiated with the fresh id: the template's fields, current stats equal to the base stats, and isRevealed false |
| Cards.CreatedCardStats | src/engine/cards.ts:111-123 | over a catalogue whose templates have non-negative stats, every created card has non-negative cost, runs, pressure and composure |
| Cards.AllCardIdsInCatalog | src/engine/cards.ts:159-169 | every id in the deck list names a catalog template, so building a deck never hits the error path |
| Cards.HelicopterNotDealt | src/engine/cards.ts:159-169 | the "helicopter" template is never part of the deck list |
| Cards.OpenerInShuffle | src/engine/cards.ts:159-172 | every rearrangement of the deck list contains an opener |
| Cards.OpenerCostsOne | src/engine/cards.ts:6-9 | a card built from the "opener" template always succeeds and costs 1 |
| Cards.ShuffleLength | src/engine/cards.ts:172 | a rearrangement of the deck list has twelve ids |
| Cards.CreateAll | src/engine/cards.ts:182 | a successful map yields one card per id |
| Cards.CreateAllOk | src/engine/cards.ts:182 | mapping ids to cards succeeds exactly when every single card can be created |
| Cards.CreateAllItems | src/engine/cards.ts:182 | on success the i-th card is the card created from the i-th id with the i-th fresh id |
| Cards.CreateAllFirstError | src/engine/cards.ts:182 | on failure the map stops at an id that cannot be created, every earlier id could be, and the error is that id's error (the exception `createCard` throws at src/engine/cards.ts:113) |
| Cards.ShuffleInstantiable | src/engine/cards.ts:159-182 | over a catalogue that knows every deck id, mapping any sequence of deck ids to cards succeeds |
| Cards.BaseSetCoversDeckIds | src/engine/cards.ts:159-169 | the catalog knows every id of the deck list |
| Cards.IndexOf | src/engine/cards.ts:176 | the result is -1 exactly when the element is absent; otherwise it is the index of the first occurrence |
| Cards.FixOpener | src/engine/cards.ts:174-180 | the opener fix-up keeps the length; the rest of its contract is Cards.FixOpenerProperties |
| Cards.FixOpenerProperties | src/engine/cards.ts:174-180 | the swap keeps the length and the multiset of ids and leaves the first opener at index 0 to 4; with the opener beyond 4 it exchanges index 0 and the opener's index and changes nothing else, and otherwise it changes nothing |
| Cards.PlaceOpener | src/engine/cards.ts:176-180 | in place on the array, the new contents are the old contents with the opener fix applied |
| Cards.CreateDeck | src/engine/cards.ts:125-183 | the built deck has twelve cards, its template ids are a rearrangement of the deck list, and some card among the first five is an opener costing 1 |
| Cards.CreatedCards | src/engine/cards.ts:182 | over a catalogue of non-negative templates, a successful map keeps the ids in order and gives each card its own fresh id, the fresh-card state, and a non-negative cost |
| Cards.BuiltDeck | src/engine/cards.ts:172-182 | the deck `createDeck` returns for a given shuffle has twelve cards; its contents are stated by Cards.BuiltDeckOrder, Cards.BuiltDeckPermutes and Cards.BuiltDeckOpensPlayable |
| Cards.BuiltDeckOrder | src/engine/cards.ts:172-182 | the deck's template ids are the shuffled ids after the opener fix; card i has fresh id i and is exactly the card created from its template id |
| Cards.BuiltDeckPermutes | src/engine/cards.ts:159-182 | the deck's template ids are a rearrangement of the deck list and never include "helicopter" |
| Cards.BuiltDeckOpensPlayable | src/engine/cards.ts:174-182 | whatever the shuffle, an opener costing 1 is among the first five cards |
| Cards.FixedOpenerEarly | src/engine/cards.ts:174-180 | after the fix-up the first opener is at an index from 0 to 4 |
| Cards.DeckCardAt | src/engine/cards.ts:182 | card k of a built deck is the card created from id k of the fixed-up shuffle with fresh id k |
| Cards.DeckFromFixedIds | src/engine/cards.ts:172-182 | mapping the fixed-up shuffle succeeds and gives the built deck: twelve cards, template ids a rearrangement of the deck list, and an opener costing 1 among the first five |
| Resolution.Merge | src/engine/store.ts:132-135 | the spread `{ ...prevState, ...updates }`; its laws are stated by Resolution.MergeLaws, and its effect in `endTurn` by Store.EndTurnAdvances, Store.EndTurnFinal and Store.GameStore.EndTurn |
| Resolution.MergeLaws | src/engine/store.ts:132-135 | an update holding only lanes changes only the lanes; merging the same update twice is merging it once; two merges in a row equal one merge of the combined update; a field the update leaves out keeps the state's value |
| Resolution.RevealAll | src/engine/resolution.ts:17-20 | every card of the side is kept in order, with only its revealed flag set to true |
| Resolution.RevealKeepsTotals | src/engine/resolution.ts:17-26 | revealing changes neither the total pressure nor the total runs |
| Resolution.TotalsAppend | src/engine/resolution.ts:25-26 | the pressure and run totals of a concatenation are the sums of the parts' totals |
| Resolution.CrossMultiplication | src/engine/resolution.ts:30-33 | for n >= 1 the integer test defense * n >= total holds exactly when defense >= total / n in exact division |
| Resolution.WithstandsMoreCards | src/engine/resolution.ts:29-34 | with non-negative pressure, a card that survives with n cards on its side still survives with n + 1 |
| Resolution.Survivors | src/engine/resolution.ts:29-40 | a card is in the result exactly when it is in the input and stands its share of the incoming pressure, and the result is no longer than the input |
| Resolution.SurvivorsInOrder | src/engine/resolution.ts:29-40 | the kept cards keep their original relative order |
| Resolution.SurvivorsCount | src/engine/resolution.ts:29-40 | every copy of a card that stands its share is kept and no copy of one that does not; with Resolution.SurvivorsInOrder this fixes the filtered list |
| Resolution.TotalPressure | src/engine/resolution.ts:25-26 | the pressure `reduce` with absent values read as 0; its laws are Resolution.RevealKeepsTotals and Resolution.TotalsAppend |
| Resolution.TotalRuns | src/engine/resolution.ts:43-44 | the runs `reduce` with absent values read as 0; its laws are Resolution.RevealKeepsTotals and Resolution.TotalsAppend |
| Resolution.ResolveLane | src/engine/resolution.ts:23-45 | one lane of combat on the revealed copies; its contract is stated by Resolution.ResolveLaneShape, Resolution.ResolveLaneDismissal and Resolution.ResolveLaneCounts |
| Resolution.ResolveLaneShape | src/engine/resolution.ts:10-45 | a resolved lane keeps its id, name, terrain and description; every remaining card is revealed; each side is an order-preserving selection of its revealed cards; each score is the runs of that side's survivors |
| Resolution.ResolveLaneDismissal | src/engine/resolution.ts:25-40 | a player card survives exactly when its composure times the player's pre-filter card count covers the opponent's total pressure, and the opponent's cards follow the same rule against the player's pressure |
| Resolution.ResolveLaneCounts | src/engine/resolution.ts:23-45 | on each side of a resolved lane, every copy of a revealed card that stands its share of the opposing pre-filter pressure is kept, and no copy of one that does not |
| Resolution.PlayerCardStays | src/engine/resolution.ts:29-34 | player card i stays exactly when it stands its share of the opponent's pressure |
| Resolution.ReinforcementKeepsSurvivors | src/engine/resolution.ts:29-34 | with non-negative opposing pressure, adding a card to a side never dismisses a card of that side that would have stayed, because the pressure is shared over more cards |
| Resolution.PlayerWonLanes | src/engine/resolution.ts:84-89 | the player's won-lane counter; its meaning is stated by Resolution.PlayerWonLanesCounts and its loop by Resolution.TallyWonLanes |
| Resolution.OpponentWonLanes | src/engine/resolution.ts:84-89 | the opponent's won-lane counter; its meaning is stated by Resolution.OpponentWonLanesCounts and its loop by Resolution.TallyWonLanes |
| Resolution.PlayerWonLanesCounts | src/engine/resolution.ts:84-89 | the player's lane count is the number of lanes whose score is strictly above the opponent's |
| Resolution.OpponentWonLanesCounts | src/engine/resolution.ts:84-89 | the opponent's lane count is the number of lanes whose opponent score is strictly above the player's |
| Resolution.WonLanesBounded | src/engine/resolution.ts:84-89 | the two counts together never exceed the number of lanes |
| Resolution.TallyWonLanes | src/engine/resolution.ts:84-89 | the counting loop returns both lane counts |
| Resolution.DecideWinner | src/engine/resolution.ts:91-93 | PLAYER exactly when the player won more lanes, OPPONENT exactly when the opponent did, DRAW exactly on equal counts |
| Resolution.DrawCard | src/engine/resolution.ts:69-72 | hand followed by deck is unchanged; with a non-empty deck its first card moves to the back of the hand; with an empty deck nothing changes |
| Resolution.ResolveTurn | src/engine/resolution.ts:7-97 | the partial update `resolveTurn` returns; its contract is stated by Resolution.ResolveTurnLanes, Resolution.ResolveTurnAdvances and Resolution.ResolveTurnEnds |
| Resolution.ResolveTurnLanes | src/engine/resolution.ts:10-50 | every lane is resolved in order, and each is revealed, scored and keeps its identity |
| Resolution.ResolveTurnAdvances | src/engine/resolution.ts:53-79 | before the last turn: the turn goes up by one, the phase is DEPLOY, the player's energy and maximum are min(6, turn + 1), the first deck card moves to the back of the hand when the deck is non-empty and hand and deck stay as they were when it is empty, and the opponent gets that energy with everything else unchanged |
| Resolution.ResolveTurnEnds | src/engine/resolution.ts:81-94 | on the last turn: END_MATCH, no turn or side update, and a winner decided by the lane counts of the resolved lanes |
| Resolution.ThreeLaneMajority | src/engine/resolution.ts:84-93 | with three lanes, a side that won two of them is the winner |
| Resolution.WorkedExample | src/engine/resolution.ts:25-44 | an opener and a pinch hitter facing two swing kings (pressure 8, shared over 2 cards): only the opener survives, and the player scores its 2 runs |
| Resolution.ExampleOpponentsStay | src/engine/resolution.ts:36-40 | in the worked example the player's cards bring no pressure, so both opponent cards stay, revealed, with total pressure 8 |
| Resolution.LoneCardFalls | src/engine/resolution.ts:29-34 | a player card alone in its lane must stand the whole opposing pressure: with composure below that total it is dismissed |
| Resolution.ResolveLaneNotIdempotent | src/engine/resolution.ts:29-40 | resolving an already resolved lane can dismiss more cards |
| Store.ValidData | src/engine/store.ts:16-137 | the match invariant: six turns, turn within 1..maxTurns, player energy within 0..maxEnergy..6, non-negative costs in hand and deck, phase MENU, DEPLOY or END_MATCH, no lanes exactly in MENU, three lanes otherwise, a winner exactly in END_MATCH (on the last turn); it holds initially (Store.InitialDataValid) and is kept by every action |
| Store.InitialDataValid | src/engine/store.ts:16-36 | the initial data satisfies the match invariant |
| Store.NewMatch | src/engine/store.ts:46-75 | the state `initializeGame` sets from two decks; its contract is stated by Store.NewMatchShape and Store.NewMatchProperties |
| Store.NewMatchShape | src/engine/store.ts:46-72 | a new match is valid, on turn 1 in DEPLOY with no winner, with the three named lanes empty and scored 0, the first five deck cards in hand, the rest in the deck in order, and energy 1 of 1 for the player and 1 for the opponent |
| Store.NewMatchProperties | src/engine/store.ts:54-55 | with built decks the match is valid and the opening hand holds a card of cost 1 at energy 1 |
| Store.FindCardIndex | src/engine/store.ts:82 | the result is -1 exactly when no hand card has the id; otherwise it is the first such index |
| Store.RemoveAt | src/engine/store.ts:89-90 | the one card at the index is removed, with the others kept in order |
| Store.AddToLane | src/engine/store.ts:92-97 | every lane with the given id gets the card appended to its player cards, and every other lane is unchanged |
| Store.PlayResult | src/engine/store.ts:77-107 | the state after `playCard`; its contract is stated by Store.PlayNoOpIffRefused, Store.PlaySucceeds, Store.PlayConservesCards and Store.PlayKeepsValid |
| Store.PlayNoOpIffRefused | src/engine/store.ts:80-86 | a play leaves the state unchanged exactly when the phase is not DEPLOY, the card is not in hand, or it costs more than the current energy |
| Store.PlaySucceeds | src/engine/store.ts:85-106 | an accepted play removes exactly the found card from the hand, appends it to the matching lanes, lowers energy by its cost (staying non-negative), and leaves everything else unchanged |
| Store.PlayIntoMissingLane | src/engine/store.ts:89-106 | with a lane id that matches no lane, the card is still removed and paid for but no lane receives it |
| Store.AddToLaneBoard | src/engine/store.ts:92-97 | the board gains one copy of the card per lane with the target id |
| Store.PlayConservesCards | src/engine/store.ts:89-105 | with exactly one matching lane, hand plus board is unchanged as a multiset; with no matching lane, exactly the played card is lost |
| Store.PlayKeepsValid | src/engine/store.ts:77-107 | a play keeps the match invariant |
| Store.OpponentCard | src/engine/store.ts:116-118 | the opponent's card carries the fresh id and is unrevealed |
| Store.InjectOpponentCard | src/engine/store.ts:120-123 | the chosen lane gets the card appended to its opponent cards, and every other lane is unchanged |
| Store.InjectedPressure | src/engine/store.ts:120-123 | the opponent card adds its pressure to the opposition of the lane it is placed in |
| Store.EndTurnResult | src/engine/store.ts:109-137 | the state after `endTurn` for a given lane and opponent card; its contract is stated by Store.EndTurnKeepsValid, Store.EndTurnAdvances, Store.EndTurnFinal and Store.EndTurnLanes |
| Store.EndTurnKeepsValid | src/engine/store.ts:109-137 | ending a turn keeps the match invariant |
| Store.EndTurnAdvances | src/engine/store.ts:126-135 | before the last turn: turn + 1, DEPLOY, no winner, player energy and maximum min(6, turn + 1), the first deck card drawn into the hand when there is one and hand and deck unchanged otherwise, and the opponent's energy set while its maximum, hand and deck stay |
| Store.EndTurnFinal | src/engine/store.ts:126-135 | on the last turn: END_MATCH, turn and both sides unchanged, and a winner decided by the lanes each side won |
| Store.EndMatchAbsorbing | src/engine/store.ts:126-135 | once the match is over, ending the turn again keeps END_MATCH and the turn |
| Store.EndTurnLanes | src/engine/store.ts:114-129 | the lane that received the opponent card is resolved with it, every other lane is resolved as it was, and each keeps its identity, is scored and has every card revealed |
| Store.BuiltDeckDealt | src/engine/store.ts:54 | with distinct fresh ids, a built deck has twelve cards of non-negative cost with distinct ids, and a card costing 1 among the first five |
| Store.OpeningPlay | test-logic.ts:25-63 | in a new match, any affordable hand card played into "lane-1" is accepted: the lane holds just that card, the hand has four cards, and the energy drops by the card's cost |
| Store.FirstEndTurn | test-logic.ts:65-80 | ending turn 1 gives turn 2 in DEPLOY with energy 2 of 2; the opponent's energy becomes 2 while its maximum stays 1 |
| Store.OpeningScenario | test-logic.ts:20-80 | the full opening (start, play an affordable card into lane 1, end the turn) ends on turn 2 in DEPLOY with energy 2 |
| Store.GameStore.constructor | src/engine/store.ts:38-40 | the store starts with the initial data, which is valid |
| Store.GameStore.InitializeGame | src/engine/store.ts:46-75 | whatever the previous state, the store holds the new match built from the two decks, and that match is valid |
| Store.GameStore.PlayCard | src/engine/store.ts:77-107 | the store holds the play result of its old data; a refused play changes nothing; validity is kept |
| Store.GameStore.EndTurn | src/engine/store.ts:109-137 | with lanes: the store holds the merge of the old data with the resolution of the old data after the opponent card is added, and reports ok; without lanes (before a match starts): it reports failure and changes nothing; validity is kept |

## Notes on the engine's behaviour

- `resolveTurn` sets the opponent's `energy` but not its `maxEnergy`
  (`src/engine/resolution.ts:76-79`). From turn 2 on, the opponent's energy
  is above its maximum of 1 (`Store.FirstEndTurn`). The invariant
  `ValidData` therefore bounds the energy by the maximum for the player
  only.
- Each card's share of the pressure is divided by the side's card count
  before filtering (`src/engine/resolution.ts:32`). A second resolution sees
  fewer cards, so it can dismiss cards that survived the first. Resolution
  is not idempotent (`Resolution.ResolveLaneNotIdempotent`).
- `endTurn` before `initializeGame` reads a lane at a random index of an
  empty array (`src/engine/store.ts:120`). That throws a TypeError, and the
  store is never updated. The model reports this as `ok == false` and leaves
  the state unchanged.
- `playCard` matches lanes by id (`src/engine/store.ts:92-97`). With an id
  that matches no lane, the card is still removed and its cost deducted
  (`Store.PlayIntoMissingLane`). With an id that several lanes share, every
  one of them receives the card.

## Left out

- Randomness and fresh ids: the random sort comparator, `uuidv4()` and
  `Math.random()` are replaced by arguments. The model does not capture how
  shuffles are distributed.
- The branch in `createDeck` before the correct algorithm (`src/engine/cards.ts:126-155`)
  builds arrays that are never used. Its only effect is ids consumed from
  the generator, so it is not modelled.
- `createCard`'s error path is modelled as a `Result`. It is proved
  unreachable from `createDeck`.
- `startGame` and `nextPhase` (`src/engine/store.ts:43-44`) are empty
  actions and are not modelled.
- `console.log` output, the zustand store mechanics (subscriptions,
  `get`/`set` as library calls) and the React components are not modelled.
- The card's optional `image` field is never set by the engine and is not
  modelled.
- Floating-point arithmetic: the survival test is computed exactly. No
  rounding case of IEEE division is modelled.
- Store.GameStore.EndTurn: the TypeError on a store without lanes is
  modelled as a failure flag rather than an exception.
- The opponent's simulated card is built from a fresh call to the deck
  builder. Its shuffle is an argument independent of the opponent's stored
  deck.
