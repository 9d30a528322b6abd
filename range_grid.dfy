/** The 13x13 range chart (generateRangeGrid in utils/pokerMath.ts): row i and
    column j are rank indices; the diagonal holds the pairs, the cells above it
    the suited hands and the cells below it the offsuit hands. */
module RangeGrid {
  import opened PokerTypes
  import opened Preflop

  /** The label of cell (i, j), stronger rank first: "AA", "AKs", "AKo". */
  function Label(i: Rank, j: Rank): (l: string)
    ensures |l| == (if i == j then 2 else 3)
  {
    if i == j then [Ranks[i], Ranks[j]]
    else if i < j then [Ranks[i], Ranks[j], 's']
    else [Ranks[j], Ranks[i], 'o']
  }

  function KindOf(i: Rank, j: Rank): (k: HandType)
    ensures k == Pair <==> i == j
    ensures k == Suited <==> i < j
    ensures k == Offsuit <==> i > j
  {
    if i == j then Pair else if i < j then Suited else Offsuit
  }

  /** Cell (i, j): the stronger rank is always handed to the heuristic first. */
  function CellAt(i: Rank, j: Rank, pos: Position, action: ActionType): (c: HandCell)
    ensures c.kind == KindOf(i, j)
    ensures IsPlayFrequency(c.freq)
  {
    var r1 := if i < j then i else j;
    var r2 := if i < j then j else i;
    HandCell(Label(i, j), KindOf(i, j), GetFrequency(r1, r2, i < j, pos, action))
  }

  function Row(i: Rank, pos: Position, action: ActionType): seq<HandCell>
  {
    seq(13, j requires 0 <= j < 13 => CellAt(i, j, pos, action))
  }

  /** The chart for one position and situation. */
  function Chart(pos: Position, action: ActionType): (c: seq<seq<HandCell>>)
    ensures |c| == 13
    ensures forall i :: 0 <= i < 13 ==> |c[i]| == 13
  {
    seq(13, i requires 0 <= i < 13 => Row(i, pos, action))
  }

  /** Builds the chart row by row and cell by cell. */
  method GenerateRangeGrid(pos: Position, action: ActionType) returns (grid: seq<seq<HandCell>>)
    ensures grid == Chart(pos, action)
  {
    grid := [];
    var i := 0;
    while i < |Ranks|
      invariant 0 <= i <= 13
      invariant grid == Chart(pos, action)[..i]
    {
      var row: seq<HandCell> := [];
      var j := 0;
      while j < |Ranks|
        invariant 0 <= j <= 13
        invariant row == Row(i, pos, action)[..j]
      {
        var rank1 := Ranks[i];
        var rank2 := Ranks[j];
        var handStr: string;
        var kind: HandType;
        if i == j {
          handStr, kind := [rank1, rank2], Pair;
        } else if i < j {
          handStr, kind := [rank1, rank2, 's'], Suited;
        } else {
          handStr, kind := [rank2, rank1, 'o'], Offsuit;
        }
        var r1 := if i < j then i else j;
        var r2 := if i < j then j else i;
        var isSuited := i < j;
        var freq := GetFrequency(r1, r2, isSuited, pos, action);
        assert HandCell(handStr, kind, freq) == CellAt(i, j, pos, action);
        RowStep(i, j, pos, action);
        row := row + [HandCell(handStr, kind, freq)];
        j := j + 1;
      }
      assert row == Row(i, pos, action) by {
        assert Row(i, pos, action)[..13] == Row(i, pos, action);
      }
      ChartStep(i, pos, action);
      grid := grid + [row];
      i := i + 1;
    }
    assert Chart(pos, action)[..13] == Chart(pos, action);
  }

  lemma RowStep(i: Rank, j: Rank, pos: Position, action: ActionType)
    ensures Row(i, pos, action)[..j + 1] == Row(i, pos, action)[..j] + [CellAt(i, j, pos, action)]
  {
  }

  lemma ChartStep(i: Rank, pos: Position, action: ActionType)
    ensures Chart(pos, action)[..i + 1] == Chart(pos, action)[..i] + [Row(i, pos, action)]
  {
  }

  /** The chart is 13 rows of 13 cells, cell (i, j) being CellAt(i, j). */
  lemma ChartCells(pos: Position, action: ActionType, i: Rank, j: Rank)
    ensures |Chart(pos, action)| == 13 && |Chart(pos, action)[i]| == 13
    ensures Chart(pos, action)[i][j] == CellAt(i, j, pos, action)
  {
  }

  /** The category of a cell depends only on which side of the diagonal it is. */
  lemma CellKinds(i: Rank, j: Rank, pos: Position, action: ActionType)
    ensures CellAt(i, j, pos, action).kind == Pair <==> i == j
    ensures CellAt(i, j, pos, action).kind == Suited <==> i < j
    ensures CellAt(i, j, pos, action).kind == Offsuit <==> i > j
  {
  }

  /** A label names the stronger rank, then the weaker one, then "s" for
      suited or "o" for offsuit; pairs have no suffix. */
  lemma LabelShape(i: Rank, j: Rank)
    ensures |Label(i, j)| == (if i == j then 2 else 3)
    ensures Label(i, j)[0] == Ranks[Min(i, j)] && Label(i, j)[1] == Ranks[Max(i, j)]
    ensures i < j ==> Label(i, j)[2] == 's'
    ensures i > j ==> Label(i, j)[2] == 'o'
  {
  }

  /** The 169 labels of a chart are pairwise distinct. */
  lemma LabelsDistinct(i: Rank, j: Rank, k: Rank, l: Rank)
    requires i != k || j != l
    ensures Label(i, j) != Label(k, l)
  {
    if Label(i, j) == Label(k, l) {
      LabelShape(i, j);
      LabelShape(k, l);
      assert Ranks[Min(i, j)] == Ranks[Min(k, l)] && Ranks[Max(i, j)] == Ranks[Max(k, l)];
      if Min(i, j) != Min(k, l) {
        RankNamesDistinct(Min(i, j), Min(k, l));
      } else if Max(i, j) != Max(k, l) {
        RankNamesDistinct(Max(i, j), Max(k, l));
      }
    }
  }

  /** A cell's frequency is the heuristic's value for its two ranks, stronger
      first, suited exactly above the diagonal. */
  lemma CellFrequency(i: Rank, j: Rank, pos: Position, action: ActionType)
    ensures CellAt(i, j, pos, action).freq == GetFrequency(Min(i, j), Max(i, j), i < j, pos, action)
    ensures IsPlayFrequency(CellAt(i, j, pos, action).freq)
  {
  }

  /** Cells (i, j) and (j, i) off the diagonal are the suited and offsuit
      forms of the same two ranks. */
  lemma MirrorCells(i: Rank, j: Rank, pos: Position, action: ActionType)
    requires i < j
    ensures Label(i, j)[..2] == Label(j, i)[..2]
    ensures CellAt(i, j, pos, action).freq == GetFrequency(i, j, true, pos, action)
    ensures CellAt(j, i, pos, action).freq == GetFrequency(i, j, false, pos, action)
  {
  }

  /** The big blind never raises first in: its whole chart is zero. */
  lemma BigBlindChartEmpty(i: Rank, j: Rank)
    ensures Chart(BB, RFI)[i][j].freq == 0.0
  {
  }

  /** Building the chart twice for the same spot gives the same chart. */
  method RegenerateIsIdentical(pos: Position, action: ActionType) returns (same: bool)
    ensures same
  {
    var first := GenerateRangeGrid(pos, action);
    var second := GenerateRangeGrid(pos, action);
    same := first == second;
  }
}
