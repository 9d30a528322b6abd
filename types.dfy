/** The value types shared by the poker-math core (types.ts). */
module PokerTypes {

  /** Table position of the player to act. */
  datatype Position = UTG | MP | CO | BTN | SB | BB

  /** Preflop situation: raising first in, or facing a 3-bet. */
  datatype ActionType = RFI | VsThreeBet

  /** A rank as its index in the strength-ordered rank table: 0 is the Ace, 12 the Deuce. */
  type Rank = i: int | 0 <= i < 13

  /** The four suits; they have no order. */
  datatype Suit = Spades | Hearts | Diamonds | Clubs

  /** One board card. */
  datatype CardObj = CardObj(rank: Rank, suit: Suit)

  /** Category of a starting-hand class. */
  datatype HandType = Pair | Suited | Offsuit

  /** One cell of the 13x13 range chart: its label, category and play frequency. */
  datatype HandCell = HandCell(hand: string, kind: HandType, freq: real)

  /** The four numbers shown by the indifference calculator. */
  datatype SimulationResult = SimulationResult(
    potOdds: real,
    requiredEquity: real,
    optimalBluffFreq: real,
    optimalValueFreq: real)

  /** Flop texture categories. */
  datatype Texture = Dry | Wet | Dynamic | Static

  datatype BoardAnalysis = BoardAnalysis(texture: Texture, score: int, description: string)

  /** Aggregate opponent statistics, as percentages. */
  datatype PlayerStats = PlayerStats(vpip: real, pfr: real, threeBet: real)

  datatype Archetype = Nit | TAG | LAG | FishStation | Maniac

  datatype PlayerProfile = PlayerProfile(kind: Archetype, description: string, exploit: seq<string>)
}
