/** The preflop play-frequency heuristic (the rank table and getFrequency in
    utils/pokerMath.ts). Ranks are indices into the rank table, so that a
    rank name the table does not hold cannot be written down. */
module Preflop {
  import opened PokerTypes

  /** The rank table, strongest first. */
  const Ranks: seq<char> := ['A', 'K', 'Q', 'J', 'T', '9', '8', '7', '6', '5', '4', '3', '2']

  /** The first position of c in s, or -1 when s does not hold it (Array.indexOf). */
  function IndexOf(s: seq<char>, c: char): (k: int)
    ensures -1 <= k < |s|
    ensures k == -1 <==> c !in s
    ensures k >= 0 ==> s[k] == c && c !in s[..k]
  {
    if |s| == 0 then -1
    else if s[0] == c then 0
    else
      var k := IndexOf(s[1..], c);
      assert k >= 0 ==> s[..k + 1] == [s[0]] + s[1..][..k];
      if k == -1 then -1 else k + 1
  }

  /** Reads a rank's name back as its strength index (-1 for a name that is
      not a rank). */
  function RankOfName(c: char): int
  {
    match c
    case 'A' => 0 case 'K' => 1 case 'Q' => 2 case 'J' => 3 case 'T' => 4
    case '9' => 5 case '8' => 6 case '7' => 7 case '6' => 8 case '5' => 9
    case '4' => 10 case '3' => 11 case '2' => 12
    case _ => -1
  }

  lemma NameDecodes(i: Rank)
    ensures RankOfName(Ranks[i]) == i
  {
    if i < 4 {
      assert i == 0 || i == 1 || i == 2 || i == 3;
    } else if i < 8 {
      assert i == 4 || i == 5 || i == 6 || i == 7;
    } else {
      assert i == 8 || i == 9 || i == 10 || i == 11 || i == 12;
    }
  }

  /** Looking a rank's name up in the table gives back its index, so the
      rank names and the indices used below are interchangeable. */
  lemma RankTableRoundTrip(i: Rank)
    ensures IndexOf(Ranks, Ranks[i]) == i
  {
    assert Ranks[i] in Ranks;
    var k := IndexOf(Ranks, Ranks[i]);
    NameDecodes(i);
    NameDecodes(k);
  }

  /** Distinct indices name distinct ranks. */
  lemma RankNamesDistinct(a: Rank, b: Rank)
    requires a != b
    ensures Ranks[a] != Ranks[b]
  {
    RankTableRoundTrip(a);
    RankTableRoundTrip(b);
  }

  /** The rank names the heuristic compares against, as indices. */
  const Ace: Rank := 0
  const Ten: Rank := 4
  const Nine: Rank := 5
  const Six: Rank := 8
  const Deuce: Rank := 12

  lemma RankConstants()
    ensures IndexOf(Ranks, 'A') == Ace && IndexOf(Ranks, 'T') == Ten
    ensures IndexOf(Ranks, '9') == Nine && IndexOf(Ranks, '6') == Six
    ensures IndexOf(Ranks, '2') == Deuce
  {
    RankTableRoundTrip(Ace);
    RankTableRoundTrip(Ten);
    RankTableRoundTrip(Nine);
    RankTableRoundTrip(Six);
    RankTableRoundTrip(Deuce);
  }

  function Min(a: int, b: int): int { if a <= b then a else b }
  function Max(a: int, b: int): int { if a <= b then b else a }
  function Abs(a: int): int { if a < 0 then -a else a }

  /** The score does not depend on which rank is named first. */
  lemma HandScoreSymmetric(r1: Rank, r2: Rank, suited: bool)
    ensures HandScore(r1, r2, suited) == HandScore(r2, r1, suited)
  {
  }

  /** Facing a 3-bet every position that opens plays tighter than when
      opening. */
  lemma ThreeBetIsTighter(pos: Position)
    requires pos != BB
    ensures TightnessOf(VsThreeBet, pos).limit < TightnessOf(RFI, pos).limit
  {
  }

  /** The raw strength score of a hand: lower is stronger. */
  function HandScore(r1: Rank, r2: Rank, suited: bool): (s: int)
    ensures 0 <= s <= 142
    // an offsuit hand of two ranks is penalised by 20 points
    ensures !suited && r1 != r2 ==> s >= 21
  {
    Min(r1, r2) * 10 + Max(r1, r2) + (if suited || r1 == r2 then 0 else 20)
  }

  /** The tightness table: the score below which a hand is always played.
      The big blind never raises first in, whatever the hand. */
  datatype Tightness = NeverPlays | Threshold(limit: int)

  function TightnessOf(action: ActionType, pos: Position): (t: Tightness)
    ensures t.NeverPlays? <==> action == RFI && pos == BB
    ensures t.Threshold? ==> 20 <= t.limit <= 110
  {
    match action
    case RFI =>
      (match pos
       case UTG => Threshold(40)
       case MP => Threshold(55)
       case CO => Threshold(75)
       case BTN => Threshold(110)
       case SB => Threshold(90)
       case BB => NeverPlays)
    case VsThreeBet =>
      (match pos
       case UTG => Threshold(20)
       case MP => Threshold(25)
       case CO => Threshold(30)
       case BTN => Threshold(35)
       case SB => Threshold(20)
       case BB => Threshold(30))
  }

  /** The generic fallback: always below the threshold, half the time in
      the next ten points, never beyond. */
  function Band(score: int, tightness: int): (b: real)
    ensures IsPlayFrequency(b)
    ensures b == 1.0 <==> score < tightness
    ensures b == 0.0 <==> score >= tightness + 10
  {
    if score < tightness then 1.0
    else if score < tightness + 10 then 0.5
    else 0.0
  }

  predicate IsPlayFrequency(f: real)
  {
    f == 0.0 || f == 0.5 || f == 1.0
  }

  /** How often the hand (r1, r2, suited) is played from pos in the situation
      action: the tightness table, then the pair, suited-connector and
      suited-ace overrides in that order, then the generic band. */
  function GetFrequency(r1: Rank, r2: Rank, suited: bool, pos: Position, action: ActionType): (f: real)
    ensures IsPlayFrequency(f)
    ensures action == RFI && pos == BB ==> f == 0.0
  {
    var score := HandScore(r1, r2, suited);
    match TightnessOf(action, pos)
    case NeverPlays => 0.0
    case Threshold(tightness) =>
      if r1 == r2 then
        if action == RFI then
          if pos == UTG && r1 <= Six then 1.0
          else if pos == BTN then 1.0
          else if score < tightness then 1.0
          else 0.0
        else if r1 <= Nine then 1.0
        else if pos == BTN && r1 <= Deuce then 0.5
        else 0.0
      else if suited && Abs(r1 - r2) == 1 && action == RFI && pos != UTG then 1.0
      else if suited && Abs(r1 - r2) == 1 && action == VsThreeBet && pos == BTN && r1 < 8 then 0.5
      else if suited && r1 == Ace && action == RFI then
        if pos == UTG && r2 > Ten then 0.0 else 1.0
      else Band(score, tightness)
  }

  /** Pocket pairs opened first in, per position: UTG opens 66 and better,
      MP TT+, CO 88+, SB 66+, the button every pair, the big blind none. */
  lemma PairOpeningRanges(r: Rank, suited: bool, pos: Position)
    ensures GetFrequency(r, r, suited, pos, RFI) ==
      if pos == BTN then 1.0
      else if pos == BB then 0.0
      else if r <= (match pos case UTG => 8 case MP => 4 case CO => 6 case _ => 8) then 1.0
      else 0.0
  {
  }

  /** Facing a 3-bet, 99 and better continue from every position (the big
      blind included); weaker pairs continue half the time on the button
      and fold elsewhere. */
  lemma PairsVersusThreeBet(r: Rank, suited: bool, pos: Position)
    ensures GetFrequency(r, r, suited, pos, VsThreeBet) ==
      if r <= 5 then 1.0 else if pos == BTN then 0.5 else 0.0
  {
  }

  /** In every situation a stronger pocket pair is played at least as often
      as a weaker one. */
  lemma PairsMonotone(r: Rank, s: Rank, pos: Position, action: ActionType)
    requires r <= s
    ensures GetFrequency(r, r, false, pos, action) >= GetFrequency(s, s, false, pos, action)
  {
  }

  /** Suited connectors (stronger rank first) are always opened first in
      except under the gun, where the generic band applies: AKs-JTs open,
      T9s half the time, the rest fold. The big blind opens nothing. */
  lemma SuitedConnectorsOpen(r: Rank, pos: Position)
    requires r < 12
    ensures GetFrequency(r, r + 1, true, pos, RFI) ==
      if pos == BB then 0.0
      else if pos != UTG then 1.0
      else if r <= 3 then 1.0
      else if r == 4 then 0.5
      else 0.0
  {
  }

  /** On the button, a suited connector whose first rank is above the Six
      continues against a 3-bet half the time. */
  lemma SuitedConnectorsVersusThreeBet(r1: Rank, r2: Rank)
    requires Abs(r1 - r2) == 1 && r1 < 8
    ensures GetFrequency(r1, r2, true, BTN, VsThreeBet) == 0.5
  {
  }

  /** Suited aces are always opened first in, except that under the gun
      A9s and weaker fold. */
  lemma SuitedAcesOpen(kicker: Rank, pos: Position)
    requires kicker != Ace && pos != BB
    ensures GetFrequency(Ace, kicker, true, pos, RFI) ==
      if pos == UTG && kicker > 4 then 0.0 else 1.0
  {
  }

  /** Every hand that none of the overrides catch gets the generic band of
      its score against the position's threshold. */
  lemma GenericBand(r1: Rank, r2: Rank, suited: bool, pos: Position, action: ActionType)
    requires r1 != r2 && TightnessOf(action, pos).Threshold?
    requires !(suited && Abs(r1 - r2) == 1 && action == RFI && pos != UTG)
    requires !(suited && Abs(r1 - r2) == 1 && action == VsThreeBet && pos == BTN && r1 < 8)
    requires !(suited && r1 == Ace && action == RFI)
    ensures GetFrequency(r1, r2, suited, pos, action) ==
      Band(HandScore(r1, r2, suited), TightnessOf(action, pos).limit)
  {
  }

  /** The suited version of two distinct ranks is played at least as often as
      the offsuit version, with exactly two exceptions written out here:
      under the gun, A9s-A2s fold while A9o-A2o open; and on the button
      against a 3-bet, suited connectors led by a rank above the Six play
      half the time where their offsuit twins may play always. */
  lemma SuitedAtLeastOffsuit(r1: Rank, r2: Rank, pos: Position, action: ActionType)
    requires r1 != r2
    requires !(action == RFI && pos == UTG && r1 == Ace && r2 > Ten)
    requires !(action == VsThreeBet && pos == BTN && Abs(r1 - r2) == 1 && r1 < 8)
    ensures GetFrequency(r1, r2, true, pos, action) >= GetFrequency(r1, r2, false, pos, action)
  {
  }

  /** The two exceptions above do occur. */
  lemma SuitedBelowOffsuitExamples()
    ensures GetFrequency(Ace, Nine, true, UTG, RFI) == 0.0
    ensures GetFrequency(Ace, Nine, false, UTG, RFI) == 1.0
    ensures GetFrequency(Ace, 1, true, BTN, VsThreeBet) == 0.5
    ensures GetFrequency(Ace, 1, false, BTN, VsThreeBet) == 1.0
  {
  }
}
