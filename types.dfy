/** Data shapes of the lane-battle engine: cards, lanes, each side's card
    pools and the match snapshot, with the tags used for phase, winner,
    terrain and card kind. */
module Types {

  datatype Option<+T> = None | Some(value: T)

  datatype Result<+T, +E> = Ok(value: T) | Err(error: E)

  datatype CardKind = Unit | Tactic

  datatype Terrain = GreenTop | DustBowl | FlatTrack | Normal

  /** MENU, DRAW, DEPLOY, REVEAL, RESOLUTION, END_MATCH. */
  datatype Phase = Menu | Draw | Deploy | Reveal | Resolution | EndMatch

  /** The non-null winner tags PLAYER, OPPONENT and DRAW; a match without a
      winner holds `None` in an `Option<Winner>`. */
  datatype Winner = PlayerWins | OpponentWins | Tie

  /** A runtime card. The four dynamic fields are optional, as in the
      source; the engine reads an absent number as 0 and an absent flag as
      "not revealed". The optional `image` field is never set by the engine
      and is not modelled. */
  datatype Card = Card(
    id: string,
    templateId: string,
    name: string,
    cost: int,
    runs: int,
    pressure: int,
    composure: int,
    kind: CardKind,
    description: string,
    currentRuns: Option<int>,
    currentPressure: Option<int>,
    currentComposure: Option<int>,
    isRevealed: Option<bool>)

  /** A lane keeps the player's cards and the opponent's cards as two
      separate ordered sequences, and one score per side. The source's
      field `type` is called `terrain` here. */
  datatype Lane = Lane(
    id: string,
    name: string,
    terrain: Terrain,
    description: string,
    cards: seq<Card>,
    opponentCards: seq<Card>,
    score: int,
    opponentScore: int)

  /** One side's card pools. The engine never writes `discardPile`. */
  datatype PlayerState = PlayerState(
    hand: seq<Card>,
    deck: seq<Card>,
    discardPile: seq<Card>,
    energy: int,
    maxEnergy: int)

  /** The data part of the match state (the action closures are the
      methods of `Store.GameStore`). */
  datatype GameData = GameData(
    turn: int,
    maxTurns: int,
    lanes: seq<Lane>,
    player: PlayerState,
    opponent: PlayerState,
    phase: Phase,
    winner: Option<Winner>)

  /** `x || 0` on an optional number: absent (and 0) read as 0. */
  function Or0(x: Option<int>): (r: int)
    ensures x.None? ==> r == 0
    ensures x.Some? ==> r == x.value
  {
    match x
    case None => 0
    case Some(v) => v
  }

  /** An absent revealed flag reads as "not revealed". */
  predicate IsRevealed(c: Card)
  {
    c.isRevealed == Some(true)
  }

  function Min(a: int, b: int): (r: int)
    ensures r <= a && r <= b && (r == a || r == b)
  {
    if a < b then a else b
  }

  function Max(a: int, b: int): (r: int)
    ensures r >= a && r >= b && (r == a || r == b)
  {
    if a < b then b else a
  }
}
