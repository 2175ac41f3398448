/** Turn resolution: reveal every lane card, dismiss the cards whose
    composure cannot stand the opposing pressure, score the survivors, and
    either advance the turn or end the match and name the winner. */
module Resolution {
  import opened Types

  /** The fields `resolveTurn` returns (a `Partial<GameState>`): `lanes` is
      always present, every other field is `None` when the key is absent. */
  datatype Updates = Updates(
    lanes: seq<Lane>,
    turn: Option<int>,
    phase: Option<Phase>,
    player: Option<PlayerState>,
    opponent: Option<PlayerState>,
    winner: Option<Winner>)

  /** `{ ...state, ...updates }`: the present updates replace their fields. */
  function Merge(d: GameData, u: Updates): GameData
  {
    GameData(
      if u.turn.Some? then u.turn.value else d.turn,
      d.maxTurns,
      u.lanes,
      if u.player.Some? then u.player.value else d.player,
      if u.opponent.Some? then u.opponent.value else d.opponent,
      if u.phase.Some? then u.phase.value else d.phase,
      if u.winner.Some? then u.winner else d.winner)
  }

  /** The update that sets the lanes and nothing else. */
  function LanesOnly(lanes: seq<Lane>): Updates
  {
    Updates(lanes, None, None, None, None, None)
  }

  /** `{ ...u, ...v }`: the fields present in `v` win, the others come from `u`. */
  function Then(u: Updates, v: Updates): Updates
  {
    Updates(v.lanes,
            if v.turn.Some? then v.turn else u.turn,
            if v.phase.Some? then v.phase else u.phase,
            if v.player.Some? then v.player else u.player,
            if v.opponent.Some? then v.opponent else u.opponent,
            if v.winner.Some? then v.winner else u.winner)
  }

  /** The laws of the object spread: an update holding only the lanes
      changes only the lanes, applying an update twice is applying it once,
      two spreads in a row are one spread of the combined update, and a
      field the update leaves out keeps the state's value. */
  lemma MergeLaws(d: GameData, u: Updates, v: Updates)
    ensures Merge(d, LanesOnly(d.lanes)) == d
    ensures Merge(d, LanesOnly(u.lanes)) == d.(lanes := u.lanes)
    ensures Merge(Merge(d, u), u) == Merge(d, u)
    ensures Merge(Merge(d, u), v) == Merge(d, Then(u, v))
    ensures var r := Merge(d, u);
            && r.maxTurns == d.maxTurns
            && (u.turn.None? ==> r.turn == d.turn)
            && (u.phase.None? ==> r.phase == d.phase)
            && (u.player.None? ==> r.player == d.player)
            && (u.opponent.None? ==> r.opponent == d.opponent)
            && (u.winner.None? ==> r.winner == d.winner)
  {
  }

  // ---------------------------------------------------------------- reveal

  function RevealCard(c: Card): Card
  {
    c.(isRevealed := Some(true))
  }

  /** The reveal loop, run on the copied card list of one side of a lane. */
  function RevealAll(cards: seq<Card>): (r: seq<Card>)
    ensures |r| == |cards|
    ensures forall i :: 0 <= i < |cards| ==> r[i] == RevealCard(cards[i])
    ensures forall c :: c in r ==> IsRevealed(c)
  {
    seq(|cards|, i requires 0 <= i < |cards| => RevealCard(cards[i]))
  }

  // ----------------------------------------------------------------- sums

  /** `cards.reduce((sum, c) => sum + (c.currentPressure || 0), 0)`. */
  function TotalPressure(cards: seq<Card>): int
  {
    if cards == [] then 0 else Or0(cards[0].currentPressure) + TotalPressure(cards[1..])
  }

  /** `cards.reduce((sum, c) => sum + (c.currentRuns || 0), 0)`. */
  function TotalRuns(cards: seq<Card>): int
  {
    if cards == [] then 0 else Or0(cards[0].currentRuns) + TotalRuns(cards[1..])
  }

  /** Revealing changes no stat, so no total. */
  lemma {:induction false} RevealKeepsTotals(cards: seq<Card>)
    ensures TotalPressure(RevealAll(cards)) == TotalPressure(cards)
    ensures TotalRuns(RevealAll(cards)) == TotalRuns(cards)
  {
    if cards != [] {
      RevealKeepsTotals(cards[1..]);
      assert RevealAll(cards)[1..] == RevealAll(cards[1..]);
    }
  }

  /** Totals add up over concatenation. */
  lemma {:induction false} TotalsAppend(a: seq<Card>, b: seq<Card>)
    ensures TotalPressure(a + b) == TotalPressure(a) + TotalPressure(b)
    ensures TotalRuns(a + b) == TotalRuns(a) + TotalRuns(b)
  {
    if a != [] {
      assert (a + b)[1..] == a[1..] + b;
      TotalsAppend(a[1..], b);
    } else {
      assert a + b == b;
    }
  }

  // ------------------------------------------------------------- dismissal

  /** The survival test of `resolveTurn`: `defense >= incoming / max(1, n)`,
      with `defense` the card's composure (absent = 0), `incoming` the
      opposing side's total pressure and `n` the card's own side's card
      count before filtering; stated by cross-multiplication. */
  predicate Withstands(c: Card, incoming: int, ownCount: nat)
  {
    Or0(c.currentComposure) * Max(1, ownCount) >= incoming
  }

  /** The cross-multiplied test agrees with the division of the source. */
  lemma CrossMultiplication(defense: int, incoming: int, n: int)
    requires n >= 1
    ensures defense * n >= incoming <==> defense as real >= incoming as real / n as real
  {
    var q := incoming as real / n as real;
    assert q * n as real == incoming as real;
    if defense * n >= incoming {
      assert (defense as real - q) * n as real >= 0.0;
    } else {
      assert (defense as real - q) * n as real < 0.0;
    }
  }

  /** More cards on one's own side lower the share of pressure each of them
      has to stand against: a card that withstands with `n` cards on its
      side still does with `n + 1`. */
  lemma WithstandsMoreCards(c: Card, incoming: int, n: nat)
    requires incoming >= 0 && Withstands(c, incoming, n)
    ensures Withstands(c, incoming, n + 1)
  {
    var d := Or0(c.currentComposure);
    var m := Max(1, n);
    assert d * m >= 0;
    assert d >= 0;
    assert d * (n + 1) == d * m + d * (n + 1 - m);
  }

  /** `cards.filter(card => defense >= spreadPressure)`. */
  function Survivors(cards: seq<Card>, incoming: int, ownCount: nat): (r: seq<Card>)
    ensures |r| <= |cards|
    ensures forall c :: c in r ==> c in cards && Withstands(c, incoming, ownCount)
    ensures forall c :: c in cards && Withstands(c, incoming, ownCount) ==> c in r
  {
    if cards == [] then []
    else
      var rest := Survivors(cards[1..], incoming, ownCount);
      assert forall c :: c in cards[1..] ==> c in cards;
      assert forall c :: c in cards ==> c == cards[0] || c in cards[1..];
      if Withstands(cards[0], incoming, ownCount) then [cards[0]] + rest else rest
  }

  /** `sub` can be obtained from `s` by deleting elements. */
  ghost predicate Subsequence(sub: seq<Card>, s: seq<Card>)
    decreases |s|
  {
    if sub == [] then true
    else if s == [] then false
    else (sub[0] == s[0] && Subsequence(sub[1..], s[1..])) || Subsequence(sub, s[1..])
  }

  /** The survivors keep their original relative order. */
  lemma {:induction false} SurvivorsInOrder(cards: seq<Card>, incoming: int, ownCount: nat)
    ensures Subsequence(Survivors(cards, incoming, ownCount), cards)
  {
    if cards != [] {
      var rest := Survivors(cards[1..], incoming, ownCount);
      SurvivorsInOrder(cards[1..], incoming, ownCount);
      if Withstands(cards[0], incoming, ownCount) {
        assert ([cards[0]] + rest)[1..] == rest;
      } else if rest != [] {
        assert Subsequence(rest, cards[1..]);
      }
    }
  }

  /** The survivors keep every copy of a card that withstands and no copy
      of one that does not; with `SurvivorsInOrder` this fixes the result. */
  lemma {:induction false} SurvivorsCount(cards: seq<Card>, incoming: int, ownCount: nat)
    ensures forall c :: multiset(Survivors(cards, incoming, ownCount))[c] ==
                        (if Withstands(c, incoming, ownCount) then multiset(cards)[c] else 0)
  {
    if cards != [] {
      SurvivorsCount(cards[1..], incoming, ownCount);
      assert cards == [cards[0]] + cards[1..];
    }
  }

  // ------------------------------------------------------------------ lanes

  /** One lane of combat: both totals are taken from the revealed cards
      before either side is filtered; then each side keeps its survivors and
      scores their runs. */
  function ResolveLane(lane: Lane): Lane
  {
    var cards := RevealAll(lane.cards);
    var opponentCards := RevealAll(lane.opponentCards);
    var playerPressure := TotalPressure(cards);
    var opponentPressure := TotalPressure(opponentCards);
    var kept := Survivors(cards, opponentPressure, |cards|);
    var opponentKept := Survivors(opponentCards, playerPressure, |opponentCards|);
    lane.(cards := kept, opponentCards := opponentKept,
          score := TotalRuns(kept), opponentScore := TotalRuns(opponentKept))
  }

  /** A lane's scores are the runs of the cards it holds. */
  predicate Scored(lane: Lane)
  {
    lane.score == TotalRuns(lane.cards) && lane.opponentScore == TotalRuns(lane.opponentCards)
  }

  predicate SameLaneInfo(a: Lane, b: Lane)
  {
    a.id == b.id && a.name == b.name && a.terrain == b.terrain && a.description == b.description
  }

  /** Resolving a lane keeps its identity, reveals every remaining card,
      leaves each side an order-preserving selection of its cards (no card
      gained), and scores each side by the runs of its survivors. */
  lemma ResolveLaneShape(lane: Lane)
    ensures var r := ResolveLane(lane);
            && SameLaneInfo(r, lane)
            && Scored(r)
            && (forall c :: c in r.cards + r.opponentCards ==> IsRevealed(c))
            && |r.cards| <= |lane.cards| && |r.opponentCards| <= |lane.opponentCards|
            && Subsequence(r.cards, RevealAll(lane.cards))
            && Subsequence(r.opponentCards, RevealAll(lane.opponentCards))
  {
    var cards := RevealAll(lane.cards);
    var opponentCards := RevealAll(lane.opponentCards);
    SurvivorsInOrder(cards, TotalPressure(opponentCards), |cards|);
    SurvivorsInOrder(opponentCards, TotalPressure(cards), |opponentCards|);
  }

  /** The dismissal rule on both sides: a player card stays (revealed) iff
      its composure stands the opponent's total pressure shared over the
      player's card count before filtering, and symmetrically for the
      opponent's cards. */
  lemma ResolveLaneDismissal(lane: Lane, i: nat)
    ensures i < |lane.cards| ==>
      (RevealCard(lane.cards[i]) in ResolveLane(lane).cards <==>
       Withstands(lane.cards[i], TotalPressure(lane.opponentCards), |lane.cards|))
    ensures i < |lane.opponentCards| ==>
      (RevealCard(lane.opponentCards[i]) in ResolveLane(lane).opponentCards <==>
       Withstands(lane.opponentCards[i], TotalPressure(lane.cards), |lane.opponentCards|))
  {
    RevealKeepsTotals(lane.cards);
    RevealKeepsTotals(lane.opponentCards);
    var cards := RevealAll(lane.cards);
    var opponentCards := RevealAll(lane.opponentCards);
    if i < |lane.cards| {
      assert cards[i] == RevealCard(lane.cards[i]);
      assert cards[i] in cards;
    }
    if i < |lane.opponentCards| {
      assert opponentCards[i] == RevealCard(lane.opponentCards[i]);
      assert opponentCards[i] in opponentCards;
    }
  }

  /** Each side of a resolved lane keeps every copy of a revealed card that
      stands its share of the opposing pressure, and no copy of one that
      does not. */
  lemma ResolveLaneCounts(lane: Lane)
    ensures var r := ResolveLane(lane);
            && (forall c :: multiset(r.cards)[c] ==
                  (if Withstands(c, TotalPressure(lane.opponentCards), |lane.cards|)
                   then multiset(RevealAll(lane.cards))[c] else 0))
            && (forall c :: multiset(r.opponentCards)[c] ==
                  (if Withstands(c, TotalPressure(lane.cards), |lane.opponentCards|)
                   then multiset(RevealAll(lane.opponentCards))[c] else 0))
  {
    RevealKeepsTotals(lane.cards);
    RevealKeepsTotals(lane.opponentCards);
    var cards := RevealAll(lane.cards);
    var opponentCards := RevealAll(lane.opponentCards);
    SurvivorsCount(cards, TotalPressure(opponentCards), |cards|);
    SurvivorsCount(opponentCards, TotalPressure(cards), |opponentCards|);
  }

  // --------------------------------------------------------------- winner

  /** Number of lanes the player wins (strictly higher score). */
  function PlayerWonLanes(lanes: seq<Lane>): nat
  {
    if lanes == [] then 0
    else PlayerWonLanes(lanes[..|lanes| - 1])
         + (if lanes[|lanes| - 1].score > lanes[|lanes| - 1].opponentScore then 1 else 0)
  }

  /** Number of lanes the opponent wins (strictly higher score). */
  function OpponentWonLanes(lanes: seq<Lane>): nat
  {
    if lanes == [] then 0
    else OpponentWonLanes(lanes[..|lanes| - 1])
         + (if lanes[|lanes| - 1].opponentScore > lanes[|lanes| - 1].score then 1 else 0)
  }

  /** The player's count is the size of the set of lanes the player won. */
  lemma {:induction false} PlayerWonLanesCounts(lanes: seq<Lane>)
    ensures PlayerWonLanes(lanes) == |set i | 0 <= i < |lanes| && lanes[i].score > lanes[i].opponentScore|
  {
    if lanes != [] {
      var n := |lanes| - 1;
      var front := lanes[..n];
      PlayerWonLanesCounts(front);
      var pf := set i | 0 <= i < n && front[i].score > front[i].opponentScore;
      var pa := set i | 0 <= i < |lanes| && lanes[i].score > lanes[i].opponentScore;
      PlayerWonSetStep(lanes);
      SetStep(pf, pa, n, lanes[n].score > lanes[n].opponentScore);
    }
  }

  /** The opponent's count is the size of the set of lanes it won. */
  lemma {:induction false} OpponentWonLanesCounts(lanes: seq<Lane>)
    ensures OpponentWonLanes(lanes) == |set i | 0 <= i < |lanes| && lanes[i].opponentScore > lanes[i].score|
  {
    if lanes != [] {
      var n := |lanes| - 1;
      var front := lanes[..n];
      OpponentWonLanesCounts(front);
      var wf := set i | 0 <= i < n && front[i].opponentScore > front[i].score;
      var wa := set i | 0 <= i < |lanes| && lanes[i].opponentScore > lanes[i].score;
      OpponentWonSetStep(lanes);
      SetStep(wf, wa, n, lanes[n].opponentScore > lanes[n].score);
    }
  }

  /** The lanes the player won are those of all but the last lane, plus the
      last lane if the player won it. */
  lemma PlayerWonSetStep(lanes: seq<Lane>)
    requires lanes != []
    ensures var n := |lanes| - 1;
            (set i | 0 <= i < |lanes| && lanes[i].score > lanes[i].opponentScore) ==
            (set i | 0 <= i < n && lanes[..n][i].score > lanes[..n][i].opponentScore)
              + (if lanes[n].score > lanes[n].opponentScore then {n} else {})
  {
    var n := |lanes| - 1;
    assert forall i :: 0 <= i < n ==> lanes[..n][i] == lanes[i];
  }

  /** The same split for the lanes the opponent won. */
  lemma OpponentWonSetStep(lanes: seq<Lane>)
    requires lanes != []
    ensures var n := |lanes| - 1;
            (set i | 0 <= i < |lanes| && lanes[i].opponentScore > lanes[i].score) ==
            (set i | 0 <= i < n && lanes[..n][i].opponentScore > lanes[..n][i].score)
              + (if lanes[n].opponentScore > lanes[n].score then {n} else {})
  {
    var n := |lanes| - 1;
    assert forall i :: 0 <= i < n ==> lanes[..n][i] == lanes[i];
  }

  /** Adding index `n` (or not) to a set of indices below `n`. */
  lemma SetStep(front: set<int>, all: set<int>, n: int, won: bool)
    requires forall i :: i in front ==> i < n
    requires all == front + (if won then {n} else {})
    ensures |all| == |front| + (if won then 1 else 0)
  {
    if won {
      assert n !in front;
    }
  }

  /** No lane is won by both sides. */
  lemma {:induction false} WonLanesBounded(lanes: seq<Lane>)
    ensures PlayerWonLanes(lanes) + OpponentWonLanes(lanes) <= |lanes|
  {
    if lanes != [] {
      WonLanesBounded(lanes[..|lanes| - 1]);
    }
  }

  /** The counter loop of the final turn, with its two counters. */
  method TallyWonLanes(lanes: seq<Lane>) returns (playerWon: nat, opponentWon: nat)
    ensures playerWon == PlayerWonLanes(lanes) && opponentWon == OpponentWonLanes(lanes)
  {
    playerWon, opponentWon := 0, 0;
    for i := 0 to |lanes|
      invariant playerWon == PlayerWonLanes(lanes[..i])
      invariant opponentWon == OpponentWonLanes(lanes[..i])
    {
      assert lanes[..i + 1][..i] == lanes[..i];
      if lanes[i].score > lanes[i].opponentScore { playerWon := playerWon + 1; }
      if lanes[i].opponentScore > lanes[i].score { opponentWon := opponentWon + 1; }
    }
    assert lanes[..|lanes|] == lanes;
  }

  /** PLAYER with more won lanes, OPPONENT with fewer, DRAW on equal counts. */
  function DecideWinner(playerWon: nat, opponentWon: nat): (w: Winner)
    ensures w == PlayerWins <==> playerWon > opponentWon
    ensures w == OpponentWins <==> opponentWon > playerWon
    ensures w == Tie <==> playerWon == opponentWon
  {
    if playerWon > opponentWon then PlayerWins
    else if opponentWon > playerWon then OpponentWins
    else Tie
  }

  // ---------------------------------------------------------------- turns

  /** `deck.shift()` then `hand.push(card)` when the deck is not empty. */
  function DrawCard(p: PlayerState): (r: PlayerState)
    ensures r.hand + r.deck == p.hand + p.deck
    ensures r.discardPile == p.discardPile && r.energy == p.energy && r.maxEnergy == p.maxEnergy
    ensures |p.deck| > 0 ==> r.hand == p.hand + [p.deck[0]] && r.deck == p.deck[1..]
    ensures |p.deck| == 0 ==> r == p
  {
    if |p.deck| > 0 then
      assert p.hand + [p.deck[0]] + p.deck[1..] == p.hand + p.deck;
      p.(hand := p.hand + [p.deck[0]], deck := p.deck[1..])
    else p
  }

  const EnergyCap: int := 6

  /** `resolveTurn`: the updated lanes, then either the next turn or the end
      of the match. The input is a value and is left untouched. */
  function ResolveTurn(state: GameData): Updates
  {
    var lanes := seq(|state.lanes|, i requires 0 <= i < |state.lanes| => ResolveLane(state.lanes[i]));
    if state.turn < state.maxTurns then
      var turn := state.turn + 1;
      var energy := Min(EnergyCap, turn);
      var player := DrawCard(state.player.(energy := energy, maxEnergy := energy));
      Updates(lanes, Some(turn), Some(Deploy), Some(player), Some(state.opponent.(energy := energy)), None)
    else
      Updates(lanes, None, Some(EndMatch), None, None,
              Some(DecideWinner(PlayerWonLanes(lanes), OpponentWonLanes(lanes))))
  }

  /** Every lane is resolved in place: same count, same identities, all
      remaining cards revealed, every score equal to its survivors' runs. */
  lemma ResolveTurnLanes(state: GameData)
    ensures var u := ResolveTurn(state);
            && |u.lanes| == |state.lanes|
            && (forall i :: 0 <= i < |state.lanes| ==> u.lanes[i] == ResolveLane(state.lanes[i]))
            && (forall i :: 0 <= i < |state.lanes| ==>
                  SameLaneInfo(u.lanes[i], state.lanes[i]) && Scored(u.lanes[i]) &&
                  forall c :: c in u.lanes[i].cards + u.lanes[i].opponentCards ==> IsRevealed(c))
  {
    forall i | 0 <= i < |state.lanes|
      ensures SameLaneInfo(ResolveLane(state.lanes[i]), state.lanes[i])
      ensures Scored(ResolveLane(state.lanes[i]))
      ensures forall c :: c in ResolveLane(state.lanes[i]).cards + ResolveLane(state.lanes[i]).opponentCards
                ==> IsRevealed(c)
    {
      ResolveLaneShape(state.lanes[i]);
    }
  }

  /** Before the last turn: the turn advances, the phase is DEPLOY, the
      player's energy and maximum become min(6, turn + 1) and one card moves
      from the front of the deck to the back of the hand; the opponent's
      energy is set the same way but its maximum is left as it was. */
  lemma ResolveTurnAdvances(state: GameData)
    requires state.turn < state.maxTurns
    ensures var u := ResolveTurn(state);
            var e := Min(6, state.turn + 1);
            && u.turn == Some(state.turn + 1) && u.phase == Some(Deploy) && u.winner.None?
            && u.player.Some? && u.opponent.Some?
            && u.player.value.energy == e && u.player.value.maxEnergy == e
            && u.player.value.hand + u.player.value.deck == state.player.hand + state.player.deck
            && u.player.value.discardPile == state.player.discardPile
            && (|state.player.deck| > 0 ==>
                  && u.player.value.hand == state.player.hand + [state.player.deck[0]]
                  && u.player.value.deck == state.player.deck[1..])
            && (|state.player.deck| == 0 ==>
                  u.player.value.hand == state.player.hand && u.player.value.deck == [])
            && u.opponent.value == state.opponent.(energy := e)
  {
  }

  /** On the last turn: END_MATCH, no turn or side update, and the winner
      is decided by the number of lanes each side won. */
  lemma ResolveTurnEnds(state: GameData)
    requires state.turn >= state.maxTurns
    ensures var u := ResolveTurn(state);
            && u.phase == Some(EndMatch) && u.turn.None? && u.player.None? && u.opponent.None?
            && u.winner.Some?
            && (u.winner.value == PlayerWins <==> PlayerWonLanes(u.lanes) > OpponentWonLanes(u.lanes))
            && (u.winner.value == OpponentWins <==> OpponentWonLanes(u.lanes) > PlayerWonLanes(u.lanes))
            && (u.winner.value == Tie <==> PlayerWonLanes(u.lanes) == OpponentWonLanes(u.lanes))
  {
  }

  /** With three lanes, a side that won two of them wins the match. */
  lemma ThreeLaneMajority(state: GameData)
    requires state.turn >= state.maxTurns && |state.lanes| == 3
    ensures var u := ResolveTurn(state);
            && (PlayerWonLanes(u.lanes) >= 2 ==> u.winner == Some(PlayerWins))
            && (OpponentWonLanes(u.lanes) >= 2 ==> u.winner == Some(OpponentWins))
  {
    var u := ResolveTurn(state);
    ResolveTurnEnds(state);
    WonLanesBounded(u.lanes);
  }

  /** Playing one more card into a lane never dismisses a card of that side
      that would have stayed: the opposing pressure is shared over more
      cards. The pressure is taken to be non-negative, as every catalogue
      card's is. */
  lemma ReinforcementKeepsSurvivors(lane: Lane, extra: Card, i: nat)
    requires i < |lane.cards| && TotalPressure(lane.opponentCards) >= 0
    requires RevealCard(lane.cards[i]) in ResolveLane(lane).cards
    ensures RevealCard(lane.cards[i]) in ResolveLane(lane.(cards := lane.cards + [extra])).cards
  {
    var incoming := TotalPressure(lane.opponentCards);
    var bigger := lane.(cards := lane.cards + [extra]);
    PlayerCardStays(lane, i);
    WithstandsMoreCards(lane.cards[i], incoming, |lane.cards|);
    PlayerCardStays(bigger, i);
  }

  /** The dismissal rule for player card `i` alone. */
  lemma PlayerCardStays(lane: Lane, i: nat)
    requires i < |lane.cards|
    ensures RevealCard(lane.cards[i]) in ResolveLane(lane).cards <==>
            Withstands(lane.cards[i], TotalPressure(lane.opponentCards), |lane.cards|)
  {
    ResolveLaneDismissal(lane, i);
  }

  // ------------------------------------------------------------- examples

  /** Two player cards of composure 5 and 1 face two opponent cards of
      total pressure 8: the share is 8 / 2 = 4, so only the composure-5 card
      stays and the player's score is its runs. */
  lemma WorkedExample()
    ensures var lane := ExampleLane();
            var r := ResolveLane(lane);
            && Or0(lane.cards[0].currentComposure) == 5 && Or0(lane.cards[1].currentComposure) == 1
            && TotalPressure(lane.opponentCards) == 8
            && r.cards == [RevealCard(lane.cards[0])]
            && r.score == Or0(lane.cards[0].currentRuns) == 2
  {
    var lane := ExampleLane();
    var opener, pinch := lane.cards[0], lane.cards[1];
    var swing, swing2 := lane.opponentCards[0], lane.opponentCards[1];
    var cards := RevealAll(lane.cards);
    assert cards == [RevealCard(opener), RevealCard(pinch)];
    var opp := RevealAll(lane.opponentCards);
    assert opp == [RevealCard(swing), RevealCard(swing2)];
    PairTotals(lane.opponentCards);
    PairTotals(opp);
    assert TotalPressure(opp) == 8;
    assert cards[1..] == [RevealCard(pinch)];
    assert Survivors(cards[1..], 8, 2) == [];
    assert Survivors(cards, 8, 2) == [RevealCard(opener)];
    assert TotalRuns([RevealCard(opener)]) == 2;
  }

  /** The lane of the worked example: cards with the catalog stats of an
      opener (runs 2, composure 5) and a pinch hitter (runs 5, composure 1)
      against two swing kings (pressure 4, composure 3), not yet revealed. */
  function ExampleLane(): Lane
  {
    var opener := ExampleCard("p1", "opener", 1, 2, 0, 5);
    var pinch := ExampleCard("p2", "pinch_hitter", 2, 5, 0, 1);
    var swing := ExampleCard("o1", "swing_king", 3, 0, 4, 3);
    var swing2 := ExampleCard("o2", "swing_king", 3, 0, 4, 3);
    Lane("lane-1", "Lane 1", GreenTop, "Pitch 1", [opener, pinch], [swing, swing2], 0, 0)
  }

  /** A freshly created unit card with the given stats. */
  function ExampleCard(id: string, templateId: string, cost: int, runs: int, pressure: int, composure: int): Card
  {
    Card(id, templateId, templateId, cost, runs, pressure, composure, Unit, "",
         Some(runs), Some(pressure), Some(composure), Some(false))
  }

  lemma PairTotals(cards: seq<Card>)
    requires |cards| == 2
    ensures TotalPressure(cards) == Or0(cards[0].currentPressure) + Or0(cards[1].currentPressure)
    ensures TotalRuns(cards) == Or0(cards[0].currentRuns) + Or0(cards[1].currentRuns)
  {
    var tail := cards[1..];
    assert tail[0] == cards[1] && tail[1..] == [];
    assert TotalPressure(tail) == Or0(cards[1].currentPressure);
    assert TotalRuns(tail) == Or0(cards[1].currentRuns);
  }

  /** Resolving a lane a second time can dismiss more cards: the survivor of
      the worked example then faces the whole pressure alone. */
  lemma ResolveLaneNotIdempotent()
    ensures exists lane :: ResolveLane(ResolveLane(lane)) != ResolveLane(lane)
  {
    var lane := ExampleLane();
    WorkedExample();
    ExampleOpponentsStay();
    var once := ResolveLane(lane);
    LoneCardFalls(once);
    assert ResolveLane(once).cards != once.cards;
  }

  /** A player card alone in its lane faces the whole opposing pressure: it
      is dismissed when its composure is below that total. */
  lemma LoneCardFalls(lane: Lane)
    requires |lane.cards| == 1
    requires Or0(lane.cards[0].currentComposure) < TotalPressure(lane.opponentCards)
    ensures ResolveLane(lane).cards == []
  {
    RevealKeepsTotals(lane.opponentCards);
    var cards := RevealAll(lane.cards);
    assert cards == [RevealCard(lane.cards[0])];
    assert cards[1..] == [];
  }

  /** In the worked example no pressure reaches the opponent, so both swing
      kings stay, with their total pressure of 8. */
  lemma ExampleOpponentsStay()
    ensures var once := ResolveLane(ExampleLane());
            && once.opponentCards == RevealAll(ExampleLane().opponentCards)
            && TotalPressure(once.opponentCards) == 8
  {
    var lane := ExampleLane();
    var opp := RevealAll(lane.opponentCards);
    assert opp == [RevealCard(lane.opponentCards[0]), RevealCard(lane.opponentCards[1])];
    PairTotals(RevealAll(lane.cards));
    assert opp[1..] == [RevealCard(lane.opponentCards[1])];
    assert Survivors(opp[1..], 0, 2) == opp[1..];
    assert Survivors(opp, 0, 2) == opp;
    PairTotals(opp);
  }
}
