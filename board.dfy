/** The flop texture analyser (analyzeBoard in utils/pokerMath.ts): a wetness
    score from how the suits concentrate and how the ranks connect, then a
    texture class chosen by an ordered chain of thresholds. */
module Board {
  import opened PokerTypes
  import opened Preflop

  /** How many times x occurs in xs (the length of a filter on ===). */
  function Occurrences<T(==)>(xs: seq<T>, x: T): (n: nat)
    ensures n <= |xs|
    ensures n == 0 <==> x !in xs
  {
    if |xs| == 0 then 0
    else
      assert xs == xs[..|xs| - 1] + [xs[|xs| - 1]];
      Occurrences(xs[..|xs| - 1], x) + (if xs[|xs| - 1] == x then 1 else 0)
  }

  /** How many ranks are an Ace, King, Queen or Jack (index at most 3). */
  function HighCards(ranks: seq<int>): (n: nat)
    ensures n <= |ranks|
  {
    if |ranks| == 0 then 0
    else HighCards(ranks[..|ranks| - 1]) + (if ranks[|ranks| - 1] <= 3 then 1 else 0)
  }

  function SuitsOf(cards: seq<CardObj>): seq<Suit>
  {
    seq(|cards|, k requires 0 <= k < |cards| => cards[k].suit)
  }

  function RanksOf(cards: seq<CardObj>): seq<int>
  {
    seq(|cards|, k requires 0 <= k < |cards| => cards[k].rank as int)
  }

  /** The size of the largest group of cards sharing a suit. */
  function MaxSuitCount(suits: seq<Suit>): (n: nat)
    ensures n <= |suits|
    ensures n == 0 <==> |suits| == 0
  {
    assert |suits| > 0 ==> suits[0] in suits && Occurrences(suits, suits[0]) > 0;
    assert |suits| > 0 ==> suits[0].Spades? || suits[0].Hearts? || suits[0].Diamonds? || suits[0].Clubs?;
    Max(Max(Occurrences(suits, Spades), Occurrences(suits, Hearts)),
        Max(Occurrences(suits, Diamonds), Occurrences(suits, Clubs)))
  }

  ghost predicate SortedAsc(s: seq<int>)
  {
    forall i, j :: 0 <= i < j < |s| ==> s[i] <= s[j]
  }

  /** Puts x in front of the first entry it does not exceed. */
  function Insert(x: int, s: seq<int>): (r: seq<int>)
    ensures |r| == |s| + 1
  {
    if |s| == 0 then [x]
    else if x <= s[0] then [x] + s
    else [s[0]] + Insert(x, s[1..])
  }

  /** The numeric ascending sort of the rank indices, as an insertion sort. */
  function SortAscending(s: seq<int>): (r: seq<int>)
    ensures |r| == |s|
  {
    if |s| == 0 then []
    else Insert(s[|s| - 1], SortAscending(s[..|s| - 1]))
  }

  lemma {:induction false} InsertPermutes(x: int, s: seq<int>)
    ensures multiset(Insert(x, s)) == multiset(s) + multiset{x}
  {
    if |s| > 0 && x > s[0] {
      InsertPermutes(x, s[1..]);
      assert s == [s[0]] + s[1..];
    }
  }

  lemma {:induction false} InsertSorted(x: int, s: seq<int>)
    requires SortedAsc(s)
    ensures SortedAsc(Insert(x, s))
  {
    if |s| > 0 && x > s[0] {
      var tail := Insert(x, s[1..]);
      InsertSorted(x, s[1..]);
      InsertPermutes(x, s[1..]);
      forall k | 0 <= k < |tail|
        ensures s[0] <= tail[k]
      {
        assert tail[k] in multiset(tail);
        if tail[k] != x {
          HeadIsLeast(s, tail[k]);
        }
      }
      ConsSorted(s[0], tail);
    }
  }

  lemma ConsSorted(h: int, t: seq<int>)
    requires SortedAsc(t)
    requires forall k :: 0 <= k < |t| ==> h <= t[k]
    ensures SortedAsc([h] + t)
  {
    var r := [h] + t;
    forall i, j | 0 <= i < j < |r|
      ensures r[i] <= r[j]
    {
      assert r[j] == t[j - 1];
      if i > 0 {
        assert r[i] == t[i - 1];
      }
    }
  }

  lemma HeadIsLeast(s: seq<int>, y: int)
    requires SortedAsc(s) && |s| > 0
    requires y in multiset(s[1..])
    ensures s[0] <= y
  {
    var m :| 0 <= m < |s[1..]| && s[1..][m] == y;
    assert s[m + 1] == y;
  }

  /** The sort returns the ranks it was given, each as often. */
  lemma {:induction false} SortPermutes(s: seq<int>)
    ensures multiset(SortAscending(s)) == multiset(s)
  {
    if |s| > 0 {
      var init := s[..|s| - 1];
      SortPermutes(init);
      InsertPermutes(s[|s| - 1], SortAscending(init));
      assert s == init + [s[|s| - 1]];
    }
  }

  /** The sort returns its ranks in ascending order. */
  lemma {:induction false} SortSorts(s: seq<int>)
    ensures SortedAsc(SortAscending(s))
  {
    if |s| > 0 {
      SortSorts(s[..|s| - 1]);
      InsertSorted(s[|s| - 1], SortAscending(s[..|s| - 1]));
    }
  }

  /** Differences between neighbouring entries. */
  function Gaps(s: seq<int>): (g: seq<int>)
    ensures |g| == Max(0, |s| - 1)
    ensures forall i :: 0 <= i < |g| ==> g[i] == s[i + 1] - s[i]
  {
    if |s| == 0 then [] else seq(|s| - 1, i requires 0 <= i < |s| - 1 => s[i + 1] - s[i])
  }

  /** Points for suit concentration: monotone 4, two-tone 2, rainbow 0. */
  function SuitPoints(maxSuits: int): (p: int)
    ensures p == 0 || p == 2 || p == 4
  {
    if maxSuits >= 3 then 4 else if maxSuits == 2 then 2 else 0
  }

  /** Points for connectivity, from the gaps between the sorted ranks. */
  function LinkPoints(gaps: seq<int>): (p: int)
    ensures 0 <= p <= 4
  {
    var connectedCount := Occurrences(gaps, 1);
    var gapCount := Occurrences(gaps, 2);
    if connectedCount >= 2 then 4
    else if connectedCount == 1 then 2
    else if gapCount >= 2 then 1
    else 0
  }

  function WetnessScore(cards: seq<CardObj>): (w: int)
    ensures 0 <= w <= 8
  {
    SuitPoints(MaxSuitCount(SuitsOf(cards))) + LinkPoints(Gaps(SortAscending(RanksOf(cards))))
  }

  /** The texture chain, first match wins. */
  function Classify(score: int, highCards: int): (t: Texture)
    ensures t == Wet || t == Dynamic <==> score >= 4
    ensures t == Static ==> score < 3 && highCards >= 2
  {
    if score >= 6 then Wet
    else if score >= 4 then Dynamic
    else if highCards >= 2 && score < 3 then Static
    else Dry
  }

  const WetText: string := "Board molto coordinato. Molti draw possibili. Il vantaggio del nuts cambia spesso al turn."
  const DynamicText: string := "Alcuni draw presenti. Richiede protezione ma permette bluff con equity."
  const StaticText: string := "Board disconnesso con carte alte. Difficile che le mani cambino valore. C-bet frequente."
  const DryText: string := "Board arido. Poche possibilità di scale o colori. Ottimo per bluffare con air."
  const PlaceholderText: string := "Inserisci le carte del flop"

  function Describe(t: Texture): string
  {
    match t
    case Wet => WetText
    case Dynamic => DynamicText
    case Static => StaticText
    case Dry => DryText
  }

  /** The result shown before three cards have been chosen. */
  const Placeholder: BoardAnalysis := BoardAnalysis(Dry, 0, PlaceholderText)

  /** What the analyser returns for a board. */
  function BoardOf(cards: seq<CardObj>): (r: BoardAnalysis)
    ensures 0 <= r.score <= 8
  {
    if |cards| < 3 then Placeholder
    else
      var score := WetnessScore(cards);
      var texture := Classify(score, HighCards(RanksOf(cards)));
      BoardAnalysis(texture, score, Describe(texture))
  }

  /** Counts the suits in a dictionary, takes the largest count, sorts the
      ranks, collects the gaps between neighbours and adds up the points;
      the three loops are the helper methods below. */
  method AnalyzeBoard(cards: seq<CardObj>) returns (r: BoardAnalysis)
    ensures r == BoardOf(cards)
  {
    if |cards| < 3 {
      return Placeholder;
    }
    var score := 0;
    var suits := SuitsOf(cards);
    var ranks := RanksOf(cards);

    var suitCounts := CountSuits(suits);
    var maxSuits := LargestCount(suits, suitCounts);
    if maxSuits >= 3 {
      score := score + 4;
    } else if maxSuits == 2 {
      score := score + 2;
    }
    assert score == SuitPoints(MaxSuitCount(suits));

    var sortedRanks := SortAscending(ranks);
    var gaps := NeighbourGaps(sortedRanks);
    var connectedCount := Occurrences(gaps, 1);
    var gapCount := Occurrences(gaps, 2);
    if connectedCount >= 2 {
      score := score + 4;
    } else if connectedCount == 1 {
      score := score + 2;
    } else if gapCount >= 2 {
      score := score + 1;
    }
    assert score == WetnessScore(cards);

    var highCards := HighCards(ranks);
    var texture: Texture;
    var desc: string;
    if score >= 6 {
      texture, desc := Wet, WetText;
    } else if score >= 4 {
      texture, desc := Dynamic, DynamicText;
    } else if highCards >= 2 && score < 3 {
      texture, desc := Static, StaticText;
    } else {
      texture, desc := Dry, DryText;
    }
    assert texture == Classify(score, highCards) && desc == Describe(texture);
    r := BoardAnalysis(texture, score, desc);
  }

  /** Fills the suit-count dictionary: one entry per suit present, holding
      how many cards have it. */
  method CountSuits(suits: seq<Suit>) returns (suitCounts: map<Suit, int>)
    ensures forall s :: s in suitCounts <==> s in suits
    ensures forall s :: s in suitCounts ==> suitCounts[s] == Occurrences(suits, s)
  {
    suitCounts := map[];
    var k := 0;
    while k < |suits|
      invariant 0 <= k <= |suits|
      invariant forall s :: s in suitCounts <==> s in suits[..k]
      invariant forall s :: s in suitCounts ==> suitCounts[s] == Occurrences(suits[..k], s)
    {
      var s := suits[k];
      assert suits[..k + 1][..k] == suits[..k];
      assert suits[..k + 1] == suits[..k] + [s];
      suitCounts := suitCounts[s := (if s in suitCounts then suitCounts[s] else 0) + 1];
      k := k + 1;
    }
    assert suits[..k] == suits;
  }

  /** The largest value in the suit-count dictionary (Math.max over its
      values), which is the largest group of cards sharing a suit. */
  method LargestCount(suits: seq<Suit>, suitCounts: map<Suit, int>) returns (maxSuits: int)
    requires forall s :: s in suitCounts <==> s in suits
    requires forall s :: s in suitCounts ==> suitCounts[s] == Occurrences(suits, s)
    ensures maxSuits == MaxSuitCount(suits)
  {
    maxSuits := 0;
    var unseen := suitCounts.Keys;
    while unseen != {}
      invariant unseen <= suitCounts.Keys
      invariant maxSuits >= 0
      invariant forall s :: s in suitCounts && s !in unseen ==> suitCounts[s] <= maxSuits
      invariant maxSuits == 0 || exists s :: s in suitCounts && s !in unseen && suitCounts[s] == maxSuits
      decreases unseen
    {
      var s :| s in unseen;
      maxSuits := Max(maxSuits, suitCounts[s]);
      unseen := unseen - {s};
    }
    MaxOfCounts(suits, suitCounts, maxSuits);
  }

  /** The gaps between neighbouring sorted ranks. */
  method NeighbourGaps(sortedRanks: seq<int>) returns (gaps: seq<int>)
    ensures gaps == Gaps(sortedRanks)
  {
    gaps := [];
    var i := 0;
    while i < |sortedRanks| - 1
      invariant 0 <= i <= Max(0, |sortedRanks| - 1)
      invariant |gaps| == i
      invariant forall t :: 0 <= t < i ==> gaps[t] == sortedRanks[t + 1] - sortedRanks[t]
    {
      gaps := gaps + [sortedRanks[i + 1] - sortedRanks[i]];
      i := i + 1;
    }
    GapsExtensional(sortedRanks, gaps);
  }

  lemma GapsExtensional(s: seq<int>, gaps: seq<int>)
    requires |gaps| == Max(0, |s| - 1)
    requires forall t :: 0 <= t < |gaps| ==> gaps[t] == s[t + 1] - s[t]
    ensures gaps == Gaps(s)
  {
  }

  /** The largest value of a complete suit-count dictionary is the largest
      group of cards sharing a suit. */
  lemma MaxOfCounts(suits: seq<Suit>, counts: map<Suit, int>, m: int)
    requires forall s :: s in counts <==> s in suits
    requires forall s :: s in counts ==> counts[s] == Occurrences(suits, s)
    requires m >= 0
    requires forall s :: s in counts ==> counts[s] <= m
    requires m == 0 || exists s :: s in counts && counts[s] == m
    ensures m == MaxSuitCount(suits)
  {
    forall s: Suit ensures Occurrences(suits, s) <= m {
      if s !in counts {
        assert s !in suits;
      }
    }
    if m != 0 {
      var s :| s in counts && counts[s] == m;
      assert s == Spades || s == Hearts || s == Diamonds || s == Clubs;
    }
  }

  /** The texture chain read as conditions on the score and the high cards:
      Wet from 6 points, Dynamic at 4 or 5, Static below 3 points with at
      least two high cards, Dry otherwise (so a 3-point board is never
      Static). */
  lemma TextureRules(score: int, highCards: int)
    ensures Classify(score, highCards) == Wet <==> score >= 6
    ensures Classify(score, highCards) == Dynamic <==> 4 <= score < 6
    ensures Classify(score, highCards) == Static <==> score < 3 && highCards >= 2
    ensures Classify(score, highCards) == Dry <==> score < 4 && !(score < 3 && highCards >= 2)
  {
  }

  /** Fewer than three cards give the placeholder. */
  lemma IncompleteBoard(cards: seq<CardObj>)
    requires |cards| < 3
    ensures BoardOf(cards) == BoardAnalysis(Dry, 0, PlaceholderText)
  {
  }

  function Min3(x: int, y: int, z: int): int
  {
    if x <= y && x <= z then x else if y <= z then y else z
  }

  function Max3(x: int, y: int, z: int): int
  {
    if x >= y && x >= z then x else if y >= z then y else z
  }

  /** Three ranks in ascending order, by comparisons alone: the smallest,
      the remaining one, the largest. */
  function Sort3(x: int, y: int, z: int): seq<int>
  {
    [Min3(x, y, z), x + y + z - Min3(x, y, z) - Max3(x, y, z), Max3(x, y, z)]
  }

  /** Where z goes among two sorted values a <= b. */
  function PlaceInPair(z: int, a: int, b: int): seq<int>
  {
    if z <= a then [z, a, b] else if z <= b then [a, z, b] else [a, b, z]
  }

  lemma InsertIntoSingle(y: int, x: int)
    ensures Insert(y, [x]) == if y <= x then [y, x] else [x, y]
  {
    if y > x {
      assert [x][1..] == [];
    }
  }

  lemma InsertIntoPair(z: int, a: int, b: int)
    requires a <= b
    ensures Insert(z, [a, b]) == PlaceInPair(z, a, b)
  {
    if z > a {
      assert [a, b][1..] == [b];
      InsertIntoSingle(z, b);
    }
  }

  lemma SortOne(x: int)
    ensures SortAscending([x]) == [x]
  {
    assert [x][..0] == [];
  }

  lemma SortTwo(x: int, y: int)
    ensures SortAscending([x, y]) == if y <= x then [y, x] else [x, y]
  {
    assert [x, y][..1] == [x];
    SortOne(x);
    InsertIntoSingle(y, x);
  }

  lemma PlaceInPairIsSort3(x: int, y: int, z: int)
    ensures PlaceInPair(z, if y <= x then y else x, if y <= x then x else y) == Sort3(x, y, z)
  {
    var r := PlaceInPair(z, if y <= x then y else x, if y <= x then x else y);
    var t := Sort3(x, y, z);
    assert r[0] == t[0] && r[1] == t[1] && r[2] == t[2];
  }

  /** On three ranks the insertion sort agrees with sorting by comparisons. */
  lemma SortThree(x: int, y: int, z: int)
    ensures SortAscending([x, y, z]) == Sort3(x, y, z)
  {
    assert [x, y, z][..2] == [x, y];
    SortTwo(x, y);
    var a, b := if y <= x then y else x, if y <= x then x else y;
    assert (if y <= x then [y, x] else [x, y]) == [a, b];
    InsertIntoPair(z, a, b);
    PlaceInPairIsSort3(x, y, z);
  }

  lemma Occurrences3<T>(x: T, y: T, z: T, t: T)
    ensures Occurrences([x, y, z], t) ==
      (if x == t then 1 else 0) + (if y == t then 1 else 0) + (if z == t then 1 else 0)
  {
    assert [x, y, z][..2] == [x, y];
    assert [x, y][..1] == [x];
    assert [x][..0] == [];
  }

  /** On a flop: 4 points when all three cards share a suit, 2 when exactly
      two do, none for a rainbow board. */
  lemma SuitPointsOnFlop(cards: seq<CardObj>)
    requires |cards| == 3
    ensures var x, y, z := cards[0].suit, cards[1].suit, cards[2].suit;
      SuitPoints(MaxSuitCount(SuitsOf(cards))) ==
        if x == y && y == z then 4
        else if x == y || y == z || x == z then 2
        else 0
  {
    var x, y, z := cards[0].suit, cards[1].suit, cards[2].suit;
    assert SuitsOf(cards) == [x, y, z];
    Occurrences3(x, y, z, Spades);
    Occurrences3(x, y, z, Hearts);
    Occurrences3(x, y, z, Diamonds);
    Occurrences3(x, y, z, Clubs);
  }

  /** The connectivity points of the two gaps of a flop. */
  lemma LinkPointsOfTwoGaps(g0: int, g1: int)
    ensures LinkPoints([g0, g1]) ==
      if g0 == 1 && g1 == 1 then 4
      else if g0 == 1 || g1 == 1 then 2
      else if g0 == 2 && g1 == 2 then 1
      else 0
  {
    Occurrences2(g0, g1, 1);
    Occurrences2(g0, g1, 2);
  }

  lemma Occurrences2(x: int, y: int, t: int)
    ensures Occurrences([x, y], t) == (if x == t then 1 else 0) + (if y == t then 1 else 0)
  {
    assert [x, y][..1] == [x];
    assert [x][..0] == [];
  }

  /** The ranks of a flop, in the order dealt. */
  lemma RanksOfFlop(cards: seq<CardObj>)
    requires |cards| == 3
    ensures RanksOf(cards) == [cards[0].rank as int, cards[1].rank as int, cards[2].rank as int]
  {
  }

  lemma GapsOfThree(p: int, q: int, t: int)
    ensures Gaps([p, q, t]) == [q - p, t - q]
  {
  }

  /** The gaps of three sorted ranks lo <= mid <= hi are mid - lo and hi - mid. */
  lemma SortedGaps3(a: int, b: int, c: int)
    ensures var r := Sort3(a, b, c);
      Gaps(SortAscending([a, b, c])) == [r[1] - r[0], r[2] - r[1]]
  {
    var r := Sort3(a, b, c);
    SortThree(a, b, c);
    assert r == [r[0], r[1], r[2]];
    GapsOfThree(r[0], r[1], r[2]);
  }

  /** On three ranks sorted as lo <= mid <= hi: 4 points for three ranks in a
      row, 2 when exactly one neighbouring pair is adjacent, 1 for two gaps of
      two, none otherwise. */
  lemma LinkPointsOnFlop(a: int, b: int, c: int)
    ensures var r := Sort3(a, b, c);
      LinkPoints(Gaps(SortAscending([a, b, c]))) ==
        if r[1] - r[0] == 1 && r[2] - r[1] == 1 then 4
        else if r[1] - r[0] == 1 || r[2] - r[1] == 1 then 2
        else if r[1] - r[0] == 2 && r[2] - r[1] == 2 then 1
        else 0
  {
    var r := Sort3(a, b, c);
    SortedGaps3(a, b, c);
    LinkPointsOfTwoGaps(r[1] - r[0], r[2] - r[1]);
  }

  /** Three ranks earn the full 4 connectivity points exactly when they are
      three different ranks in a row. */
  lemma RunOfThree(a: int, b: int, c: int)
    ensures LinkPoints(Gaps(SortAscending([a, b, c]))) == 4 <==>
      a != b && b != c && a != c && Max3(a, b, c) - Min3(a, b, c) == 2
  {
    LinkPointsOnFlop(a, b, c);
  }

  lemma HighCards3(a: int, b: int, c: int)
    ensures HighCards([a, b, c]) ==
      (if a <= 3 then 1 else 0) + (if b <= 3 then 1 else 0) + (if c <= 3 then 1 else 0)
  {
    assert [a][..0] == [];
    assert HighCards([a]) == (if a <= 3 then 1 else 0);
    assert [a, b][..1] == [a];
    assert HighCards([a, b]) == HighCards([a]) + (if b <= 3 then 1 else 0);
    assert [a, b, c][..2] == [a, b];
  }

  lemma Sort3Symmetric(a: int, b: int, c: int)
    ensures Sort3(a, b, c) == Sort3(b, a, c) == Sort3(a, c, b)
  {
  }

  /** The flop's wetness score does not depend on the order the cards were
      chosen in (two transpositions reach every order). */
  lemma WetnessIgnoresOrder(c1: CardObj, c2: CardObj, c3: CardObj)
    ensures WetnessScore([c1, c2, c3]) == WetnessScore([c2, c1, c3]) == WetnessScore([c1, c3, c2])
  {
    SuitPointsOnFlop([c1, c2, c3]);
    SuitPointsOnFlop([c2, c1, c3]);
    SuitPointsOnFlop([c1, c3, c2]);
    RanksOfFlop([c1, c2, c3]);
    RanksOfFlop([c2, c1, c3]);
    RanksOfFlop([c1, c3, c2]);
    LinkPointsOnFlop(c1.rank, c2.rank, c3.rank);
    LinkPointsOnFlop(c2.rank, c1.rank, c3.rank);
    LinkPointsOnFlop(c1.rank, c3.rank, c2.rank);
    Sort3Symmetric(c1.rank, c2.rank, c3.rank);
  }

  /** Neither does the analysis as a whole. */
  lemma BoardIgnoresOrder(c1: CardObj, c2: CardObj, c3: CardObj)
    ensures BoardOf([c1, c2, c3]) == BoardOf([c2, c1, c3]) == BoardOf([c1, c3, c2])
  {
    WetnessIgnoresOrder(c1, c2, c3);
    RanksOfFlop([c1, c2, c3]);
    RanksOfFlop([c2, c1, c3]);
    RanksOfFlop([c1, c3, c2]);
    HighCards3(c1.rank, c2.rank, c3.rank);
    HighCards3(c2.rank, c1.rank, c3.rank);
    HighCards3(c1.rank, c3.rank, c2.rank);
  }

  /** A-K-Q of spades: monotone and three in a row, 8 points, Wet. */
  lemma AceKingQueenSuited()
    ensures BoardOf([CardObj(0, Spades), CardObj(1, Spades), CardObj(2, Spades)])
         == BoardAnalysis(Wet, 8, WetText)
  {
    var cards := [CardObj(0, Spades), CardObj(1, Spades), CardObj(2, Spades)];
    SuitPointsOnFlop(cards);
    RanksOfFlop(cards);
    LinkPointsOnFlop(cards[0].rank, cards[1].rank, cards[2].rank);
  }

  /** 7 of clubs, 8 of diamonds, 9 of hearts: rainbow three in a row, 4
      points, Dynamic. */
  lemma SevenEightNineRainbow()
    ensures BoardOf([CardObj(7, Clubs), CardObj(6, Diamonds), CardObj(5, Hearts)])
         == BoardAnalysis(Dynamic, 4, DynamicText)
  {
    var cards := [CardObj(7, Clubs), CardObj(6, Diamonds), CardObj(5, Hearts)];
    SuitPointsOnFlop(cards);
    RanksOfFlop(cards);
    LinkPointsOnFlop(cards[0].rank, cards[1].rank, cards[2].rank);
  }

  /** A of spades, K of diamonds, 7 of clubs: one adjacent pair and two high
      cards, 2 points, Static. */
  lemma AceKingSevenRainbow()
    ensures BoardOf([CardObj(0, Spades), CardObj(1, Diamonds), CardObj(7, Clubs)])
         == BoardAnalysis(Static, 2, StaticText)
  {
    var cards := [CardObj(0, Spades), CardObj(1, Diamonds), CardObj(7, Clubs)];
    SuitPointsOnFlop(cards);
    RanksOfFlop(cards);
    LinkPointsOnFlop(0, 1, 7);
    HighCards3(0, 1, 7);
  }

  /** K of spades, 7 of diamonds, 2 of clubs: nothing connects, one high card,
      0 points, Dry. */
  lemma KingSevenDeuceRainbow()
    ensures BoardOf([CardObj(1, Spades), CardObj(7, Diamonds), CardObj(12, Clubs)])
         == BoardAnalysis(Dry, 0, DryText)
  {
    var cards := [CardObj(1, Spades), CardObj(7, Diamonds), CardObj(12, Clubs)];
    SuitPointsOnFlop(cards);
    RanksOfFlop(cards);
    LinkPointsOnFlop(1, 7, 12);
    HighCards3(1, 7, 12);
  }
}
