/** The game controller: one mutable store holding the match data, with the
    three actions that start a match, play a card into a lane and end the
    turn. */
module Store {
  import opened Types
  import opened Cards
  import opened Resolution

  const MaxTurns: int := 6

  const InitialSide: PlayerState := PlayerState([], [], [], 1, 1)

  /** `INITIAL_DATA`: turn 1 of 6, no lanes, MENU, no winner. */
  const InitialData: GameData := GameData(1, MaxTurns, [], InitialSide, InitialSide, Menu, None)

  /** The three lanes every match starts with. */
  const StartLanes: seq<Lane> := [
    Lane("lane-1", "Lane 1", GreenTop, "Pitch 1", [], [], 0, 0),
    Lane("lane-2", "Lane 2", DustBowl, "Pitch 2", [], [], 0, 0),
    Lane("lane-3", "Lane 3", FlatTrack, "Pitch 3", [], [], 0, 0)
  ]

  /** The match invariant the three actions keep. */
  predicate ValidData(d: GameData)
  {
    && d.maxTurns == MaxTurns
    && 1 <= d.turn <= d.maxTurns
    && 0 <= d.player.energy <= d.player.maxEnergy <= EnergyCap
    && 1 <= d.player.maxEnergy
    && (forall c :: c in d.player.hand ==> c.cost >= 0)
    && (forall c :: c in d.player.deck ==> c.cost >= 0)
    && (d.phase == Menu || d.phase == Deploy || d.phase == EndMatch)
    && (d.phase == Menu ==> d.lanes == [] && d.winner.None?)
    && (d.phase != Menu ==> |d.lanes| == 3)
    && (d.phase == EndMatch <==> d.winner.Some?)
    && (d.phase == EndMatch ==> d.turn == d.maxTurns)
  }

  lemma InitialDataValid()
    ensures ValidData(InitialData)
  {
  }

  // --------------------------------------------------------- initializeGame

  /** The state `initializeGame` sets from the two built decks: DEPLOY on
      turn 1, the three start lanes, the first five player cards in hand
      (`deck.splice(0, 5)`), energy 1 of 1, the opponent's deck untouched. */
  function NewMatch(playerDeck: seq<Card>, opponentDeck: seq<Card>): GameData
  {
    var n := Min(5, |playerDeck|);
    InitialData.(
      phase := Deploy,
      lanes := StartLanes,
      player := InitialData.player.(deck := playerDeck[n..], hand := playerDeck[..n], energy := 1, maxEnergy := 1),
      opponent := InitialData.opponent.(deck := opponentDeck, energy := 1))
  }

  /** A new match over a twelve-card deck of non-negative costs satisfies
      the invariant, starts on turn 1 in DEPLOY with three empty lanes and
      deals the player the first five cards, the rest staying in deck order. */
  lemma NewMatchShape(deck: seq<Card>, opponentDeck: seq<Card>)
    requires |deck| == 12 && forall i :: 0 <= i < 12 ==> deck[i].cost >= 0
    ensures var d := NewMatch(deck, opponentDeck);
            && ValidData(d)
            && d.phase == Deploy && d.turn == 1 && d.maxTurns == 6 && d.winner.None?
            && |d.lanes| == 3
            && d.lanes[0].id == "lane-1" && d.lanes[0].terrain == GreenTop
            && d.lanes[1].id == "lane-2" && d.lanes[1].terrain == DustBowl
            && d.lanes[2].id == "lane-3" && d.lanes[2].terrain == FlatTrack
            && (forall i :: 0 <= i < 3 ==>
                  d.lanes[i].cards == [] && d.lanes[i].opponentCards == [] &&
                  d.lanes[i].score == 0 && d.lanes[i].opponentScore == 0)
            && d.player.hand == deck[..5] && d.player.deck == deck[5..] && |d.player.hand| == 5
            && d.player.hand + d.player.deck == deck
            && d.player.energy == 1 && d.player.maxEnergy == 1
            && d.opponent.hand == [] && d.opponent.deck == opponentDeck && d.opponent.energy == 1
  {
    var d := NewMatch(deck, opponentDeck);
    assert d.player.hand + d.player.deck == deck;
    forall c | c in d.player.hand ensures c.cost >= 0 {
      var i :| 0 <= i < 5 && d.player.hand[i] == c;
      assert c == deck[i];
    }
    forall c | c in d.player.deck ensures c.cost >= 0 {
      var i :| 0 <= i < 7 && d.player.deck[i] == c;
      assert c == deck[i + 5];
    }
  }

  /** A match over two built decks has all of the above, and the player's
      hand holds a card that costs 1, so the player can act at energy 1. */
  lemma NewMatchProperties(ps: seq<string>, pids: seq<string>, os: seq<string>, oids: seq<string>)
    requires IsShuffle(ps) && |pids| == 12 && IsShuffle(os) && |oids| == 12
    ensures var d := NewMatch(BuiltDeck(ps, pids), BuiltDeck(os, oids));
            && ValidData(d)
            && d.player.hand == BuiltDeck(ps, pids)[..5]
            && d.player.energy == 1
            && exists i :: 0 <= i < 5 && d.player.hand[i].cost == 1
  {
    var deck := BuiltDeck(ps, pids);
    assert forall i :: 0 <= i < 12 ==> deck[i].cost >= 0 by {
      BuiltDeckOrder(ps, pids);
    }
    NewMatchShape(deck, BuiltDeck(os, oids));
    var d := NewMatch(deck, BuiltDeck(os, oids));
    BuiltDeckOpensPlayable(ps, pids);
    var k :| 0 <= k < 5 && deck[k].templateId == Opener && deck[k].cost == 1;
    assert d.player.hand[k] == deck[k];
  }

  // --------------------------------------------------------------- playCard

  /** `hand.findIndex(c => c.id === cardId)`: the first index of a card with
      that id, or -1. */
  function FindCardIndex(hand: seq<Card>, cardId: string): (r: int)
    ensures -1 <= r < |hand|
    ensures r == -1 <==> forall i :: 0 <= i < |hand| ==> hand[i].id != cardId
    ensures r >= 0 ==> hand[r].id == cardId && forall i :: 0 <= i < r ==> hand[i].id != cardId
  {
    if hand == [] then -1
    else if hand[0].id == cardId then 0
    else
      var k := FindCardIndex(hand[1..], cardId);
      if k == -1 then -1 else k + 1
  }

  /** `splice(i, 1)`: drop the element at index `i`. */
  function RemoveAt(s: seq<Card>, i: nat): (r: seq<Card>)
    requires i < |s|
    ensures |r| == |s| - 1
    ensures forall j :: 0 <= j < i ==> r[j] == s[j]
    ensures forall j :: i <= j < |r| ==> r[j] == s[j + 1]
    ensures multiset(r) + multiset{s[i]} == multiset(s)
  {
    assert s == s[..i] + [s[i]] + s[i + 1..];
    s[..i] + s[i + 1..]
  }

  /** The lanes after `card` is appended to the player cards of every lane
      whose id is `laneId`; all other lanes are the same objects. */
  function AddToLane(lanes: seq<Lane>, laneId: string, card: Card): (r: seq<Lane>)
    ensures |r| == |lanes|
    ensures forall i :: 0 <= i < |lanes| && lanes[i].id == laneId ==>
              r[i] == lanes[i].(cards := lanes[i].cards + [card])
    ensures forall i :: 0 <= i < |lanes| && lanes[i].id != laneId ==> r[i] == lanes[i]
  {
    seq(|lanes|, i requires 0 <= i < |lanes| =>
      if lanes[i].id == laneId then lanes[i].(cards := lanes[i].cards + [card]) else lanes[i])
  }

  /** Why `playCard` can do nothing: wrong phase, card not in hand, or not
      enough energy. */
  predicate PlayRefused(d: GameData, cardId: string)
  {
    var i := FindCardIndex(d.player.hand, cardId);
    d.phase != Deploy || i == -1 || d.player.hand[i].cost > d.player.energy
  }

  /** The state after `playCard(cardId, laneId)`. */
  function PlayResult(d: GameData, cardId: string, laneId: string): GameData
  {
    if d.phase != Deploy then d
    else
      var i := FindCardIndex(d.player.hand, cardId);
      if i == -1 then d
      else
        var card := d.player.hand[i];
        if card.cost > d.player.energy then d
        else
          d.(player := d.player.(hand := RemoveAt(d.player.hand, i), energy := d.player.energy - card.cost),
             lanes := AddToLane(d.lanes, laneId, card))
  }

  /** A play changes the state exactly when no guard refuses it. */
  lemma PlayNoOpIffRefused(d: GameData, cardId: string, laneId: string)
    ensures PlayResult(d, cardId, laneId) == d <==> PlayRefused(d, cardId)
  {
    if !PlayRefused(d, cardId) {
      var i := FindCardIndex(d.player.hand, cardId);
      assert |PlayResult(d, cardId, laneId).player.hand| == |d.player.hand| - 1;
    }
  }

  /** A successful play: exactly the found card leaves the hand (the others
      keep their order), it is appended to the player cards of the lanes
      with id `laneId` and to no other lane, the energy drops by its cost and
      stays non-negative, and nothing else changes. */
  lemma PlaySucceeds(d: GameData, cardId: string, laneId: string)
    requires !PlayRefused(d, cardId)
    ensures var i := FindCardIndex(d.player.hand, cardId);
            var card := d.player.hand[i];
            var r := PlayResult(d, cardId, laneId);
            && card.id == cardId
            && r.player.hand == d.player.hand[..i] + d.player.hand[i + 1..]
            && multiset(r.player.hand) + multiset{card} == multiset(d.player.hand)
            && r.player.energy == d.player.energy - card.cost >= 0
            && |r.lanes| == |d.lanes|
            && (forall j :: 0 <= j < |d.lanes| && d.lanes[j].id == laneId ==>
                  r.lanes[j].cards == d.lanes[j].cards + [card] &&
                  r.lanes[j] == d.lanes[j].(cards := r.lanes[j].cards))
            && (forall j :: 0 <= j < |d.lanes| && d.lanes[j].id != laneId ==> r.lanes[j] == d.lanes[j])
            && r.player.deck == d.player.deck && r.player.discardPile == d.player.discardPile
            && r.player.maxEnergy == d.player.maxEnergy
            && r.opponent == d.opponent && r.turn == d.turn && r.maxTurns == d.maxTurns
            && r.phase == d.phase && r.winner == d.winner
  {
    var i := FindCardIndex(d.player.hand, cardId);
    var r := PlayResult(d, cardId, laneId);
    assert r.player.hand == d.player.hand[..i] + d.player.hand[i + 1..];
  }

  /** With an id no lane has, the card still leaves the hand and is paid
      for, but no lane gains it. */
  lemma PlayIntoMissingLane(d: GameData, cardId: string, laneId: string)
    requires !PlayRefused(d, cardId)
    requires forall j :: 0 <= j < |d.lanes| ==> d.lanes[j].id != laneId
    ensures var r := PlayResult(d, cardId, laneId);
            && r.lanes == d.lanes
            && |r.player.hand| == |d.player.hand| - 1
            && r.player.energy == d.player.energy - d.player.hand[FindCardIndex(d.player.hand, cardId)].cost
  {
    var r := PlayResult(d, cardId, laneId);
    assert r.lanes == d.lanes;
  }

  /** The player's cards across all lanes. */
  function PlayerBoard(lanes: seq<Lane>): multiset<Card>
  {
    if lanes == [] then multiset{} else multiset(lanes[0].cards) + PlayerBoard(lanes[1..])
  }

  /** Number of lanes whose id is `laneId`. */
  function LanesWithId(lanes: seq<Lane>, laneId: string): nat
  {
    if lanes == [] then 0 else (if lanes[0].id == laneId then 1 else 0) + LanesWithId(lanes[1..], laneId)
  }

  function Copies(c: Card, n: nat): multiset<Card>
  {
    if n == 0 then multiset{} else multiset{c} + Copies(c, n - 1)
  }

  /** Placing a card adds one copy of it to the board per lane with the
      target id. */
  lemma {:induction false} AddToLaneBoard(lanes: seq<Lane>, laneId: string, card: Card)
    ensures PlayerBoard(AddToLane(lanes, laneId, card)) == PlayerBoard(lanes) + Copies(card, LanesWithId(lanes, laneId))
  {
    if lanes == [] {
      assert AddToLane(lanes, laneId, card) == [];
    } else {
      var head := if lanes[0].id == laneId then multiset{card} else multiset{};
      AddToLaneStep(lanes, laneId, card);
      AddToLaneBoard(lanes[1..], laneId, card);
      CopiesStep(lanes, laneId, card);
      Regroup(PlayerBoard(AddToLane(lanes, laneId, card)), multiset(lanes[0].cards), head,
              PlayerBoard(AddToLane(lanes[1..], laneId, card)), PlayerBoard(lanes[1..]),
              Copies(card, LanesWithId(lanes[1..], laneId)), Copies(card, LanesWithId(lanes, laneId)));
    }
  }

  lemma CopiesStep(lanes: seq<Lane>, laneId: string, card: Card)
    requires lanes != []
    ensures Copies(card, LanesWithId(lanes, laneId)) ==
            (if lanes[0].id == laneId then multiset{card} else multiset{}) + Copies(card, LanesWithId(lanes[1..], laneId))
  {
  }

  /** The multiset algebra of one induction step of `AddToLaneBoard`. */
  lemma Regroup(whole: multiset<Card>, m0: multiset<Card>, head: multiset<Card>, tail: multiset<Card>,
                rest: multiset<Card>, tailCopies: multiset<Card>, copies: multiset<Card>)
    requires whole == m0 + head + tail
    requires tail == rest + tailCopies
    requires copies == head + tailCopies
    ensures whole == (m0 + rest) + copies
  {
  }

  lemma AddToLaneStep(lanes: seq<Lane>, laneId: string, card: Card)
    requires lanes != []
    ensures PlayerBoard(AddToLane(lanes, laneId, card)) ==
            multiset(lanes[0].cards) + (if lanes[0].id == laneId then multiset{card} else multiset{}) +
            PlayerBoard(AddToLane(lanes[1..], laneId, card))
  {
    var r := AddToLane(lanes, laneId, card);
    assert r[1..] == AddToLane(lanes[1..], laneId, card);
    if lanes[0].id == laneId {
      assert multiset(r[0].cards) == multiset(lanes[0].cards) + multiset{card};
    }
  }

  /** Card conservation: when exactly one lane has the target id, a play
      moves a card from the hand to the board and loses none; when no lane
      has it, the card leaves the game. */
  lemma PlayConservesCards(d: GameData, cardId: string, laneId: string)
    requires !PlayRefused(d, cardId)
    ensures var r := PlayResult(d, cardId, laneId);
            var card := d.player.hand[FindCardIndex(d.player.hand, cardId)];
            && (LanesWithId(d.lanes, laneId) == 1 ==>
                  multiset(r.player.hand) + PlayerBoard(r.lanes) == multiset(d.player.hand) + PlayerBoard(d.lanes))
            && (LanesWithId(d.lanes, laneId) == 0 ==>
                  multiset(r.player.hand) + PlayerBoard(r.lanes) + multiset{card} ==
                  multiset(d.player.hand) + PlayerBoard(d.lanes))
  {
    var card := d.player.hand[FindCardIndex(d.player.hand, cardId)];
    AddToLaneBoard(d.lanes, laneId, card);
    assert Copies(card, 1) == multiset{card} by {
      assert Copies(card, 0) == multiset{};
    }
  }

  /** `playCard` keeps the match invariant. */
  lemma PlayKeepsValid(d: GameData, cardId: string, laneId: string)
    requires ValidData(d)
    ensures ValidData(PlayResult(d, cardId, laneId))
  {
    if !PlayRefused(d, cardId) {
      PlaySucceeds(d, cardId, laneId);
      var r := PlayResult(d, cardId, laneId);
      forall c | c in r.player.hand ensures c.cost >= 0 {
        assert c in multiset(r.player.hand);
        assert c in multiset(d.player.hand);
      }
    }
  }

  // ---------------------------------------------------------------- endTurn

  /** The simulated opponent card: the first card of a freshly built deck,
      given a new id and marked unrevealed. */
  function OpponentCard(shuffled: seq<string>, deckIds: seq<string>, freshId: string): (c: Card)
    requires IsShuffle(shuffled) && |deckIds| == 12
    ensures c.id == freshId && c.isRevealed == Some(false)
  {
    BuiltDeck(shuffled, deckIds)[0].(id := freshId, isRevealed := Some(false))
  }

  /** Append `card` to the opponent cards of lane `laneIdx`. */
  function InjectOpponentCard(lanes: seq<Lane>, laneIdx: nat, card: Card): (r: seq<Lane>)
    requires laneIdx < |lanes|
    ensures |r| == |lanes|
    ensures r[laneIdx].opponentCards == lanes[laneIdx].opponentCards + [card]
    ensures r[laneIdx] == lanes[laneIdx].(opponentCards := r[laneIdx].opponentCards)
    ensures forall i :: 0 <= i < |lanes| && i != laneIdx ==> r[i] == lanes[i]
  {
    lanes[laneIdx := lanes[laneIdx].(opponentCards := lanes[laneIdx].opponentCards + [card])]
  }

  /** The opponent card adds its pressure to the opposition of the lane it
      is placed in. */
  lemma InjectedPressure(lanes: seq<Lane>, laneIdx: nat, card: Card)
    requires laneIdx < |lanes|
    ensures TotalPressure(InjectOpponentCard(lanes, laneIdx, card)[laneIdx].opponentCards)
            == TotalPressure(lanes[laneIdx].opponentCards) + Or0(card.currentPressure)
  {
    var single := [card];
    assert single[1..] == [];
    TotalsAppend(lanes[laneIdx].opponentCards, single);
  }

  /** The state after `endTurn` with the opponent card placed in lane
      `laneIdx`: resolve the injected state, merge the updates. */
  function EndTurnResult(d: GameData, laneIdx: nat, card: Card): GameData
    requires laneIdx < |d.lanes|
  {
    Merge(d, ResolveTurn(d.(lanes := InjectOpponentCard(d.lanes, laneIdx, card))))
  }

  /** `endTurn` keeps the match invariant. */
  lemma EndTurnKeepsValid(d: GameData, laneIdx: nat, card: Card)
    requires ValidData(d) && laneIdx < |d.lanes|
    ensures ValidData(EndTurnResult(d, laneIdx, card))
  {
    var s := d.(lanes := InjectOpponentCard(d.lanes, laneIdx, card));
    var r := EndTurnResult(d, laneIdx, card);
    ResolveTurnLanes(s);
    if d.turn < d.maxTurns {
      ResolveTurnAdvances(s);
      var p := ResolveTurn(s).player.value;
      assert p.hand + p.deck == d.player.hand + d.player.deck;
      forall c | c in r.player.hand ensures c.cost >= 0 {
        assert c in p.hand + p.deck;
      }
      forall c | c in r.player.deck ensures c.cost >= 0 {
        assert c in p.hand + p.deck;
      }
    } else {
      ResolveTurnEnds(s);
    }
  }

  /** Before the last turn, ending it starts the next: turn + 1, DEPLOY,
      player energy and maximum min(6, turn + 1), one card drawn when the
      deck has one, the opponent's energy set but its maximum unchanged. */
  lemma EndTurnAdvances(d: GameData, laneIdx: nat, card: Card)
    requires ValidData(d) && laneIdx < |d.lanes| && d.turn < d.maxTurns
    ensures var r := EndTurnResult(d, laneIdx, card);
            var e := Min(6, d.turn + 1);
            && r.turn == d.turn + 1 && r.phase == Deploy && r.winner.None?
            && r.player.energy == e && r.player.maxEnergy == e
            && r.player.hand + r.player.deck == d.player.hand + d.player.deck
            && (|d.player.deck| > 0 ==>
                  r.player.hand == d.player.hand + [d.player.deck[0]] && r.player.deck == d.player.deck[1..])
            && (|d.player.deck| == 0 ==> r.player.hand == d.player.hand && r.player.deck == [])
            && r.opponent.energy == e && r.opponent.maxEnergy == d.opponent.maxEnergy
            && r.opponent.hand == d.opponent.hand && r.opponent.deck == d.opponent.deck
  {
    var s := d.(lanes := InjectOpponentCard(d.lanes, laneIdx, card));
    ResolveTurnAdvances(s);
  }

  /** On the last turn, and on every later call, the match is over: the
      phase is END_MATCH, the turn stays at its maximum, the sides are left
      alone and the winner is the side that won more lanes (DRAW on equal
      counts). */
  lemma EndTurnFinal(d: GameData, laneIdx: nat, card: Card)
    requires ValidData(d) && laneIdx < |d.lanes| && d.turn == d.maxTurns
    ensures var r := EndTurnResult(d, laneIdx, card);
            var p := PlayerWonLanes(r.lanes);
            var o := OpponentWonLanes(r.lanes);
            && r.phase == EndMatch && r.turn == d.turn
            && r.player == d.player && r.opponent == d.opponent
            && r.winner.Some?
            && (r.winner.value == PlayerWins <==> p > o)
            && (r.winner.value == OpponentWins <==> o > p)
            && (r.winner.value == Tie <==> p == o)
  {
    var s := d.(lanes := InjectOpponentCard(d.lanes, laneIdx, card));
    ResolveTurnEnds(s);
  }

  /** END_MATCH is absorbing: ending the turn again keeps it and the turn. */
  lemma EndMatchAbsorbing(d: GameData, laneIdx: nat, card: Card)
    requires ValidData(d) && laneIdx < |d.lanes| && d.phase == EndMatch
    ensures EndTurnResult(d, laneIdx, card).phase == EndMatch
    ensures EndTurnResult(d, laneIdx, card).turn == d.turn
  {
    EndTurnFinal(d, laneIdx, card);
  }

  /** After `endTurn` every lane holds only revealed cards, keeps its
      identity and is scored by its survivors; the lane that received the
      opponent card was resolved with it. */
  lemma EndTurnLanes(d: GameData, laneIdx: nat, card: Card)
    requires laneIdx < |d.lanes|
    ensures var r := EndTurnResult(d, laneIdx, card);
            var injected := InjectOpponentCard(d.lanes, laneIdx, card);
            && |r.lanes| == |d.lanes|
            && r.lanes[laneIdx] == ResolveLane(d.lanes[laneIdx].(opponentCards := d.lanes[laneIdx].opponentCards + [card]))
            && (forall i :: 0 <= i < |d.lanes| && i != laneIdx ==> r.lanes[i] == ResolveLane(d.lanes[i]))
            && (forall i :: 0 <= i < |d.lanes| ==>
                  SameLaneInfo(r.lanes[i], d.lanes[i]) && Scored(r.lanes[i]) &&
                  forall c :: c in r.lanes[i].cards + r.lanes[i].opponentCards ==> IsRevealed(c))
  {
    var s := d.(lanes := InjectOpponentCard(d.lanes, laneIdx, card));
    ResolveTurnLanes(s);
  }

  // -------------------------------------------------------------- scenario

  /** A dealt deck: twelve cards of non-negative cost with distinct ids. */
  predicate DealtDeck(deck: seq<Card>)
  {
    && |deck| == 12
    && (forall i :: 0 <= i < 12 ==> deck[i].cost >= 0)
    && (forall i, j :: 0 <= i < j < 12 ==> deck[i].id != deck[j].id)
  }

  /** `createDeck` deals such a deck whenever the fresh ids are distinct,
      with a card of cost 1 among the first five. */
  lemma BuiltDeckDealt(ps: seq<string>, pids: seq<string>)
    requires IsShuffle(ps) && |pids| == 12
    requires forall i, j :: 0 <= i < j < 12 ==> pids[i] != pids[j]
    ensures DealtDeck(BuiltDeck(ps, pids))
    ensures exists k :: 0 <= k < 5 && BuiltDeck(ps, pids)[k].cost == 1
  {
    var deck := BuiltDeck(ps, pids);
    assert forall i :: 0 <= i < 12 ==> deck[i].cost >= 0 && deck[i].id == pids[i] by {
      BuiltDeckOrder(ps, pids);
    }
    DealtFromIds(deck, pids);
    assert exists k :: 0 <= k < 5 && deck[k].templateId == Opener && deck[k].cost == 1 by {
      BuiltDeckOpensPlayable(ps, pids);
    }
  }

  lemma DealtFromIds(deck: seq<Card>, ids: seq<string>)
    requires |deck| == 12 && |ids| == 12
    requires forall i :: 0 <= i < 12 ==> deck[i].cost >= 0 && deck[i].id == ids[i]
    requires forall i, j :: 0 <= i < j < 12 ==> ids[i] != ids[j]
    ensures DealtDeck(deck)
  {
  }

  /** The opening play: in a new match over a dealt deck, playing any
      affordable card of the hand into "lane-1" succeeds: that card is the
      one found, it becomes lane 1's only card and the hand drops to four. */
  lemma OpeningPlay(deck: seq<Card>, opponentDeck: seq<Card>, k: nat)
    requires DealtDeck(deck) && k < 5 && deck[k].cost <= 1
    ensures var d0 := NewMatch(deck, opponentDeck);
            var played := d0.player.hand[k];
            var d1 := PlayResult(d0, played.id, "lane-1");
            && ValidData(d1) && d1.turn == 1 && d1.phase == Deploy
            && d1.lanes[0].cards == [played] && |d1.player.hand| == 4
            && d1.player.energy == 1 - played.cost
            && d1.opponent == d0.opponent
  {
    NewMatchShape(deck, opponentDeck);
    var d0 := NewMatch(deck, opponentDeck);
    var played := d0.player.hand[k];
    assert played == deck[k];
    var i := FindCardIndex(d0.player.hand, played.id);
    assert i == k;
    assert !PlayRefused(d0, played.id);
    PlaySucceeds(d0, played.id, "lane-1");
    PlayKeepsValid(d0, played.id, "lane-1");
  }

  /** Ending turn 1 when lane 1 holds at most one player card: turn 2 in
      DEPLOY with energy 2 of 2, lane 1 still holds at most one card, and the
      opponent's energy is 2 while its maximum stays 1. */
  lemma FirstEndTurn(d: GameData, laneIdx: nat, card: Card)
    requires ValidData(d) && d.turn == 1 && laneIdx < |d.lanes| && |d.lanes[0].cards| <= 1
    requires d.opponent.maxEnergy == 1
    ensures var r := EndTurnResult(d, laneIdx, card);
            && r.turn == 2 && r.phase == Deploy
            && r.player.energy == 2 && r.player.maxEnergy == 2
            && |r.lanes[0].cards| <= 1
            && r.opponent.energy == 2 && r.opponent.maxEnergy == 1
  {
    EndTurnAdvances(d, laneIdx, card);
    EndTurnLanes(d, laneIdx, card);
    var lane0 := d.lanes[0];
    var given := if laneIdx == 0 then lane0.(opponentCards := lane0.opponentCards + [card]) else lane0;
    assert EndTurnResult(d, laneIdx, card).lanes[0] == ResolveLane(given);
    ResolveLaneShape(given);
  }

  /** The opening sequence: start a match over a dealt deck, play an
      affordable card into "lane-1", end the turn. It is then turn 2 in
      DEPLOY with energy 2, and the opponent's energy (2) has passed its
      unchanged maximum (1). */
  lemma OpeningScenario(deck: seq<Card>, opponentDeck: seq<Card>, k: nat, laneIdx: nat, card: Card)
    requires DealtDeck(deck) && k < 5 && deck[k].cost <= 1
    requires laneIdx < 3
    ensures var d0 := NewMatch(deck, opponentDeck);
            var played := d0.player.hand[k];
            var d1 := PlayResult(d0, played.id, "lane-1");
            var d2 := EndTurnResult(d1, laneIdx, card);
            && d1.lanes[0].cards == [played] && |d1.player.hand| == 4
            && d2.turn == 2 && d2.phase == Deploy
            && d2.player.energy == 2 && d2.player.maxEnergy == 2
            && |d2.lanes[0].cards| <= 1
            && d2.opponent.energy == 2 && d2.opponent.maxEnergy == 1
  {
    OpeningPlay(deck, opponentDeck, k);
    var d0 := NewMatch(deck, opponentDeck);
    var d1 := PlayResult(d0, d0.player.hand[k].id, "lane-1");
    FirstEndTurn(d1, laneIdx, card);
  }

  // ------------------------------------------------------------ the store

  /** The store: the match data as fields, replaced by the three actions. */
  class GameStore {
    var turn: int
    var maxTurns: int
    var lanes: seq<Lane>
    var player: PlayerState
    var opponent: PlayerState
    var phase: Phase
    var winner: Option<Winner>

    function Data(): GameData
      reads this
    {
      GameData(turn, maxTurns, lanes, player, opponent, phase, winner)
    }

    predicate Valid()
      reads this
    {
      ValidData(Data())
    }

    /** The store as created, holding `INITIAL_DATA`. */
    constructor ()
      ensures Data() == InitialData && Valid()
    {
      turn, maxTurns, lanes := InitialData.turn, InitialData.maxTurns, InitialData.lanes;
      player, opponent := InitialData.player, InitialData.opponent;
      phase, winner := InitialData.phase, InitialData.winner;
      InitialDataValid();
    }

    /** `set(d)` replacing every data field. */
    method Assign(d: GameData)
      modifies this
      ensures Data() == d
    {
      turn, maxTurns, lanes := d.turn, d.maxTurns, d.lanes;
      player, opponent := d.player, d.opponent;
      phase, winner := d.phase, d.winner;
    }

    /** `initializeGame`, with the two shuffles and the card ids as
        arguments: a fresh match whatever the previous state was. */
    method InitializeGame(playerShuffle: seq<string>, playerIds: seq<string>,
                          opponentShuffle: seq<string>, opponentIds: seq<string>)
      requires IsShuffle(playerShuffle) && |playerIds| == 12
      requires IsShuffle(opponentShuffle) && |opponentIds| == 12
      modifies this
      ensures Valid()
      ensures Data() == NewMatch(BuiltDeck(playerShuffle, playerIds), BuiltDeck(opponentShuffle, opponentIds))
    {
      var deck := CreateDeck(playerShuffle, playerIds);
      var hand := deck[..5];
      deck := deck[5..];
      var opponentDeck := CreateDeck(opponentShuffle, opponentIds);
      Assign(InitialData.(
        phase := Deploy,
        lanes := StartLanes,
        player := InitialData.player.(deck := deck, hand := hand, energy := 1, maxEnergy := 1),
        opponent := InitialData.opponent.(deck := opponentDeck, energy := 1)));
      NewMatchProperties(playerShuffle, playerIds, opponentShuffle, opponentIds);
    }

    /** `playCard`: three guards that silently do nothing, then the move of
        the card from hand to lane and the payment of its cost. */
    method PlayCard(cardId: string, laneId: string)
      requires Valid()
      modifies this
      ensures Valid()
      ensures Data() == PlayResult(old(Data()), cardId, laneId)
      ensures PlayRefused(old(Data()), cardId) ==> Data() == old(Data())
    {
      PlayKeepsValid(Data(), cardId, laneId);
      PlayNoOpIffRefused(Data(), cardId, laneId);
      if phase != Deploy {
        return;
      }
      var cardIndex := FindCardIndex(player.hand, cardId);
      if cardIndex == -1 {
        return;
      }
      var card := player.hand[cardIndex];
      if card.cost > player.energy {
        return;
      }
      var newHand := RemoveAt(player.hand, cardIndex);
      var newLanes := AddToLane(lanes, laneId, card);
      player := player.(hand := newHand, energy := player.energy - card.cost);
      lanes := newLanes;
    }

    /** `endTurn`, with the random lane index, the opponent's deck shuffle
        and the card ids as arguments. Before `initializeGame` there are no
        lanes and the source fails at the lane lookup; that call reports
        `ok == false` and changes nothing. */
    method EndTurn(laneIdx: nat, opponentShuffle: seq<string>, deckIds: seq<string>, freshId: string)
      returns (ok: bool)
      requires Valid()
      requires laneIdx < 3 && IsShuffle(opponentShuffle) && |deckIds| == 12
      modifies this
      ensures Valid()
      ensures ok <==> laneIdx < |old(lanes)|
      ensures ok ==> Data() == EndTurnResult(old(Data()), laneIdx, OpponentCard(opponentShuffle, deckIds, freshId))
      ensures !ok ==> Data() == old(Data())
    {
      var deck := CreateDeck(opponentShuffle, deckIds);
      var mockCard := deck[0].(id := freshId, isRevealed := Some(false));
      if laneIdx >= |lanes| {
        ok := false;
        return;
      }
      var current := InjectOpponentCard(lanes, laneIdx, mockCard);
      var updates := ResolveTurn(Data().(lanes := current));
      EndTurnKeepsValid(Data(), laneIdx, mockCard);
      Assign(Merge(Data(), updates));
      ok := true;
    }
  }
}
