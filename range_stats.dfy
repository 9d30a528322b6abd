/** Combo counts of a range chart (calculateStats in utils/pokerMath.ts):
    a pair stands for 6 two-card holdings, a suited hand for 4 and an offsuit
    hand for 12; the 169 hands of a chart stand for all 1326. */
module RangeStats {
  import opened PokerTypes
  import opened Preflop
  import opened RangeGrid

  /** Number of two-card holdings in a 52-card deck. */
  const AllCombos: int := 1326

  function Weight(kind: HandType): (w: int)
    ensures w > 0 && w % 2 == 0
  {
    match kind
    case Pair => 6
    case Suited => 4
    case Offsuit => 12
  }

  /** Sum of the weights of a row's cells. */
  function RowWeight(row: seq<HandCell>): int
  {
    if |row| == 0 then 0 else RowWeight(row[..|row| - 1]) + Weight(row[|row| - 1].kind)
  }

  /** Sum of the weights of all cells. */
  function TotalWeight(grid: seq<seq<HandCell>>): int
  {
    if |grid| == 0 then 0 else TotalWeight(grid[..|grid| - 1]) + RowWeight(grid[|grid| - 1])
  }

  /** Sum over a row of weight times play frequency. */
  function RowPlayed(row: seq<HandCell>): real
  {
    if |row| == 0 then 0.0
    else RowPlayed(row[..|row| - 1]) + Weight(row[|row| - 1].kind) as real * row[|row| - 1].freq
  }

  /** Sum over the grid of weight times play frequency: the combos played,
      before rounding. */
  function PlayedSum(grid: seq<seq<HandCell>>): real
  {
    if |grid| == 0 then 0.0 else PlayedSum(grid[..|grid| - 1]) + RowPlayed(grid[|grid| - 1])
  }

  /** Math.round: the nearest integer, halves rounded up. */
  function Round(x: real): (n: int)
    ensures x - 0.5 < n as real <= x + 0.5
  {
    (x + 0.5).Floor
  }

  datatype Stats = Stats(combos: int, percentage: real)

  /** Visits every cell once, adding its weight and its weighted frequency.
      The percentage is taken from the unrounded sum. The weight total is
      accumulated as well but, as in the source, not returned. */
  method CalculateStats(grid: seq<seq<HandCell>>) returns (stats: Stats)
    ensures stats.combos == Round(PlayedSum(grid))
    ensures stats.percentage == PlayedSum(grid) / AllCombos as real * 100.0
  {
    var totalCombos := 0;
    var playedCombos := 0.0;
    var r := 0;
    while r < |grid|
      invariant 0 <= r <= |grid|
      invariant totalCombos == TotalWeight(grid[..r])
      invariant playedCombos == PlayedSum(grid[..r])
    {
      var row := grid[r];
      var c := 0;
      while c < |row|
        invariant 0 <= c <= |row|
        invariant totalCombos == TotalWeight(grid[..r]) + RowWeight(row[..c])
        invariant playedCombos == PlayedSum(grid[..r]) + RowPlayed(row[..c])
      {
        var cell := row[c];
        var combos := 0;
        if cell.kind == Pair {
          combos := 6;
        } else if cell.kind == Suited {
          combos := 4;
        } else {
          combos := 12;
        }
        assert row[..c + 1][..c] == row[..c];
        totalCombos := totalCombos + combos;
        playedCombos := playedCombos + combos as real * cell.freq;
        c := c + 1;
      }
      assert row[..c] == row;
      assert grid[..r + 1][..r] == grid[..r];
      r := r + 1;
    }
    assert grid[..r] == grid;
    stats := Stats(Round(playedCombos), (playedCombos / AllCombos as real) * 100.0);
  }

  /** Every cell carries the category its place in the 13x13 chart gives it. */
  ghost predicate WellShaped(grid: seq<seq<HandCell>>)
  {
    |grid| == 13 &&
    forall i :: 0 <= i < 13 ==>
      |grid[i]| == 13 && forall j :: 0 <= j < 13 ==> grid[i][j].kind == KindOf(i, j)
  }

  ghost predicate FrequenciesIn(grid: seq<seq<HandCell>>, lo: real, hi: real)
  {
    forall i, j :: 0 <= i < |grid| && 0 <= j < |grid[i]| ==> lo <= grid[i][j].freq <= hi
  }

  ghost predicate PlayFrequencies(grid: seq<seq<HandCell>>)
  {
    forall i, j :: 0 <= i < |grid| && 0 <= j < |grid[i]| ==> IsPlayFrequency(grid[i][j].freq)
  }

  /** Every generated chart is well shaped and uses only 0, 1/2 and 1. */
  lemma ChartShape(pos: Position, action: ActionType)
    ensures WellShaped(Chart(pos, action))
    ensures PlayFrequencies(Chart(pos, action))
  {
    forall i, j | 0 <= i < 13 && 0 <= j < 13
      ensures Chart(pos, action)[i][j] == CellAt(i, j, pos, action)
    {
      ChartCells(pos, action, i, j);
    }
  }

  /** Row i of a well-shaped chart, cut after its first n cells: n offsuit
      cells left of the diagonal, the pair, then suited cells. */
  lemma {:induction false} RowWeightPrefix(row: seq<HandCell>, i: Rank)
    requires |row| <= 13
    requires forall j :: 0 <= j < |row| ==> row[j].kind == KindOf(i, j)
    ensures RowWeight(row) ==
      12 * Min(|row|, i) + (if |row| > i then 6 else 0) + 4 * Max(0, |row| - i - 1)
  {
    if |row| > 0 {
      RowWeightPrefix(row[..|row| - 1], i);
    }
  }

  lemma {:induction false} TotalWeightPrefix(grid: seq<seq<HandCell>>)
    requires |grid| <= 13
    requires forall i :: 0 <= i < |grid| ==>
      |grid[i]| == 13 && forall j :: 0 <= j < 13 ==> grid[i][j].kind == KindOf(i, j)
    ensures TotalWeight(grid) == 54 * |grid| + 4 * |grid| * (|grid| - 1)
  {
    if |grid| > 0 {
      var n := |grid| - 1;
      TotalWeightPrefix(grid[..n]);
      RowWeightPrefix(grid[n], n);
    }
  }

  /** A well-shaped chart stands for all 1326 holdings: 13 pairs of 6,
      78 suited hands of 4 and 78 offsuit hands of 12. */
  lemma WellShapedCoversAllCombos(grid: seq<seq<HandCell>>)
    requires WellShaped(grid)
    ensures TotalWeight(grid) == AllCombos
  {
    TotalWeightPrefix(grid);
  }

  lemma {:induction false} RowPlayedBounds(row: seq<HandCell>)
    requires forall j :: 0 <= j < |row| ==> 0.0 <= row[j].freq <= 1.0
    ensures 0.0 <= RowPlayed(row) <= RowWeight(row) as real
  {
    if |row| > 0 {
      RowPlayedBounds(row[..|row| - 1]);
    }
  }

  /** With frequencies in [0, 1] the combos played lie between none and the
      total weight. */
  lemma {:induction false} PlayedSumBounds(grid: seq<seq<HandCell>>)
    requires FrequenciesIn(grid, 0.0, 1.0)
    ensures 0.0 <= PlayedSum(grid) <= TotalWeight(grid) as real
  {
    if |grid| > 0 {
      var n := |grid| - 1;
      PlayedSumBounds(grid[..n]);
      RowPlayedBounds(grid[n]);
    }
  }

  lemma {:induction false} RowAllFold(row: seq<HandCell>)
    requires forall j :: 0 <= j < |row| ==> row[j].freq == 0.0
    ensures RowPlayed(row) == 0.0
  {
    if |row| > 0 {
      RowAllFold(row[..|row| - 1]);
    }
  }

  /** A grid that folds everything plays no combos. */
  /** With any frequencies in [0, 1], the rounded combo count of a
      well-shaped chart lies between 0 and 1326. */
  lemma CombosBounds(grid: seq<seq<HandCell>>)
    requires WellShaped(grid) && FrequenciesIn(grid, 0.0, 1.0)
    ensures 0 <= Round(PlayedSum(grid)) <= AllCombos
  {
    PlayedSumBounds(grid);
    WellShapedCoversAllCombos(grid);
  }

  lemma {:induction false} AllFoldPlaysNothing(grid: seq<seq<HandCell>>)
    requires FrequenciesIn(grid, 0.0, 0.0)
    ensures PlayedSum(grid) == 0.0 && Round(PlayedSum(grid)) == 0
  {
    if |grid| > 0 {
      var n := |grid| - 1;
      AllFoldPlaysNothing(grid[..n]);
      RowAllFold(grid[n]);
    }
  }

  lemma {:induction false} RowAllPlay(row: seq<HandCell>)
    requires forall j :: 0 <= j < |row| ==> row[j].freq == 1.0
    ensures RowPlayed(row) == RowWeight(row) as real
  {
    if |row| > 0 {
      RowAllPlay(row[..|row| - 1]);
    }
  }

  /** A well-shaped grid that plays everything plays all 1326 combos. */
  lemma AllPlayPlaysEverything(grid: seq<seq<HandCell>>)
    requires WellShaped(grid) && FrequenciesIn(grid, 1.0, 1.0)
    ensures Round(PlayedSum(grid)) == AllCombos
  {
    PlayedSumEqualsWeight(grid);
    WellShapedCoversAllCombos(grid);
  }

  lemma {:induction false} PlayedSumEqualsWeight(grid: seq<seq<HandCell>>)
    requires FrequenciesIn(grid, 1.0, 1.0)
    ensures PlayedSum(grid) == TotalWeight(grid) as real
  {
    if |grid| > 0 {
      var n := |grid| - 1;
      PlayedSumEqualsWeight(grid[..n]);
      RowAllPlay(grid[n]);
    }
  }

  ghost predicate Whole(x: real)
  {
    x == x.Floor as real
  }

  lemma WholeSum(a: real, b: real)
    requires Whole(a) && Whole(b)
    ensures Whole(a + b)
  {
    assert a + b == (a.Floor + b.Floor) as real;
  }

  /** One cell at frequency 0, 1/2 or 1 stands for a whole number of combos. */
  lemma WeightedWhole(kind: HandType, f: real)
    requires IsPlayFrequency(f)
    ensures Whole(Weight(kind) as real * f)
  {
    var w := Weight(kind);
    var k := if f == 1.0 then w else if f == 0.5 then w / 2 else 0;
    assert w as real * f == k as real;
  }

  lemma {:induction false} RowPlayedWhole(row: seq<HandCell>)
    requires forall j :: 0 <= j < |row| ==> IsPlayFrequency(row[j].freq)
    ensures Whole(RowPlayed(row))
  {
    if |row| > 0 {
      var n := |row| - 1;
      RowPlayedWhole(row[..n]);
      WeightedWhole(row[n].kind, row[n].freq);
      WholeSum(RowPlayed(row[..n]), Weight(row[n].kind) as real * row[n].freq);
    }
  }

  /** The weights are all even, so frequencies of 0, 1/2 and 1 always give a
      whole number of combos: rounding then changes nothing. */
  lemma {:induction false} PlayedSumWhole(grid: seq<seq<HandCell>>)
    requires PlayFrequencies(grid)
    ensures Whole(PlayedSum(grid))
  {
    if |grid| > 0 {
      var n := |grid| - 1;
      PlayedSumWhole(grid[..n]);
      RowPlayedWhole(grid[n]);
      WholeSum(PlayedSum(grid[..n]), RowPlayed(grid[n]));
    }
  }

  /** Any well-shaped grid of play frequencies has an exact whole number of
      combos between 0 and 1326 and a percentage in [0, 100]. */
  lemma WellShapedStats(grid: seq<seq<HandCell>>)
    requires WellShaped(grid) && PlayFrequencies(grid)
    ensures 0 <= Round(PlayedSum(grid)) <= AllCombos
    ensures Round(PlayedSum(grid)) as real == PlayedSum(grid)
    ensures 0.0 <= PlayedSum(grid) / AllCombos as real * 100.0 <= 100.0
  {
    assert FrequenciesIn(grid, 0.0, 1.0);
    PlayedSumBounds(grid);
    WellShapedCoversAllCombos(grid);
    PlayedSumWhole(grid);
    var x := PlayedSum(grid);
    assert Round(x) == x.Floor;
  }

  /** For every position and situation, the chart's combo count is an exact
      whole number between 0 and 1326 and its percentage lies in [0, 100]. */
  lemma ChartStats(pos: Position, action: ActionType)
    ensures 0 <= Round(PlayedSum(Chart(pos, action))) <= AllCombos
    ensures Round(PlayedSum(Chart(pos, action))) as real == PlayedSum(Chart(pos, action))
    ensures 0.0 <= PlayedSum(Chart(pos, action)) / AllCombos as real * 100.0 <= 100.0
  {
    ChartShape(pos, action);
    WellShapedStats(Chart(pos, action));
  }

  /** The big blind's first-in chart plays no combos at all. */
  lemma BigBlindPlaysNothing()
    ensures PlayedSum(Chart(BB, RFI)) == 0.0
  {
    var g: seq<seq<HandCell>> := Chart(BB, RFI);
    forall i, j | 0 <= i < |g| && 0 <= j < |g[i]|
      ensures g[i][j].freq == 0.0
    {
      BigBlindChartEmpty(i, j);
    }
    AllFoldPlaysNothing(g);
  }
}
