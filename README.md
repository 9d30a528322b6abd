# Poker trainer maths, modelled in Dafny

This project models the computational core of a poker training web app:
`utils/pokerMath.ts` and the value types it uses from `types.ts`. The core
has six operations.

- **Indifference calculator** (`calculateGtoFrequencies`). Takes a pot and a bet. Returns the pot odds, the equity a caller needs, and the bluff/value mix that leaves the caller indifferent.
- **Preflop heuristic** (`getFrequency`). Gives how often a starting hand is played (0, 0.5 or 1) from a position. The situation is either raising first in (RFI) or facing a 3-bet.
- **Range chart** (`generateRangeGrid`). Builds the 13x13 chart of all 169 hand classes. Pairs sit on the diagonal, suited hands above it, offsuit hands below it.
- **Chart statistics** (`calculateStats`). Counts the two-card combinations a chart plays: 6 per pair, 4 per suited hand, 12 per offsuit hand. Reports them rounded, and as a share of all 1326 combinations.
- **Board texture** (`analyzeBoard`). Scores a flop's "wetness" from suit concentration and rank connectivity. Classifies it as Wet, Dynamic, Static or Dry.
- **Opponent profiler** (`analyzeOpponent`). Maps VPIP/PFR statistics to one of five archetypes. Each archetype has a fixed description and three exploits.

Modules:

| module | file | form |
|---|---|---|
| `PokerTypes` | `types.dfy` | datatypes |
| `Indifference` | `indifference.dfy` | functions |
| `Preflop` | `preflop.dfy` | functions |
| `RangeGrid` | `range_grid.dfy` | nested-loop method, proved equal to a reference function |
| `RangeStats` | `range_stats.dfy` | nested-loop method, proved equal to a reference function |
| `Board` | `board.dfy` | loop methods, proved equal to a reference function |
| `Opponent` | `opponent.dfy` | functions |

Numbers are exact reals, so there is no IEEE rounding. A rank is its index
in the rank table `A K Q J T 9 8 7 6 5 4 3 2`: 0 is the Ace, 12 is the
Deuce. `Preflop.RankTableRoundTrip` proves that the table's name of index
`i` looks up to `i` again. So indices and rank names are interchangeable.

Two behaviours of the code worth noting:

- A-K-Q of one suit scores 8 and is Wet (`Board.AceKingQueenSuited`). It gets 4 points for the suits and 4 for two adjacent gaps.
- A final pot of zero is a division by zero in the code, so the model requires it to be non-zero.

Behaviour of the code that the proofs make explicit:

- Facing a 3-bet, every pair weaker than 99 continues half the time on the button (`Preflop.PairsVersusThreeBet`). The guard `r1Idx <= indexOf('2')` at `utils/pokerMath.ts:68` holds for every rank.
- Under the gun, A9s-A2s fold, while A9o-A2o open through the generic band (`Preflop.SuitedBelowOffsuitExamples`).
- A 3-point board is never Static (`Board.TextureRules`).
- Passive or loose-but-unaggressive players fall through to TAG (`Opponent.FallbackCatchesOthers`).

## Model

| member | source | states |
|---|---|---|
| `Indifference.CalculateGtoFrequencies` | utils/pokerMath.ts:3-18 | pot odds, required equity and bluff frequency coincide; bluff and value frequencies sum to 1; the required equity times the pot after the call equals the call; defined whenever pot + 2*bet is non-zero |
| `Indifference.CallerIsIndifferent` | utils/pokerMath.ts:8-10 | facing the computed mix, calling has an expected profit of exactly zero |
| `Indifference.IndifferenceDeterminesBluff` | utils/pokerMath.ts:8-10 | any bluff frequency that makes the caller indifferent is the computed one |
| `Indifference.BluffFrequencyBounds` | utils/pokerMath.ts:8-10 | for a positive pot and bet: 0 < bluff < 1/2 < value < 1 |
| `Indifference.BluffGrowsWithBet` | utils/pokerMath.ts:4-9 | with the pot fixed, a larger bet asks for a strictly larger bluff frequency |
| `Indifference.NoBetNoEquity` | utils/pokerMath.ts:4-10 | a zero bet needs zero equity and is all value |
| `Indifference.HalfPotExample` | utils/pokerMath.ts:3-18 | a bet of 50 into 100 gives 25% / 25% / 25% / 75% |
| `Preflop.IndexOf` | utils/pokerMath.ts:34-35 | -1 exactly when the character is absent; otherwise the index of its first occurrence |
| `Preflop.RankTableRoundTrip` | utils/pokerMath.ts:30-35 | looking up the name at index i of the rank table gives i back |
| `Preflop.RankNamesDistinct` | utils/pokerMath.ts:30 | distinct indices name distinct ranks |
| `Preflop.RankConstants` | utils/pokerMath.ts:63-79 | the names 'A', 'T', '9', '6', '2' sit at indices 0, 4, 5, 8, 12 |
| `Preflop.HandScore` | utils/pokerMath.ts:38 | the strength score (lower is stronger) lies in 0..142, and an offsuit hand of two ranks scores at least 21 because of its 20-point penalty |
| `Preflop.HandScoreSymmetric` | utils/pokerMath.ts:38 | the score does not depend on which rank is named first |
| `Preflop.TightnessOf` | utils/pokerMath.ts:41-59 | the table has no threshold exactly for the big blind raising first in; every threshold lies in 20..110 |
| `Preflop.ThreeBetIsTighter` | utils/pokerMath.ts:41-59 | for every position that opens, the threshold against a 3-bet is below the opening threshold |
| `Preflop.Band` | utils/pokerMath.ts:84-86 | the generic band gives 0, 0.5 or 1; it is 1 exactly below the threshold and 0 exactly from ten points above it |
| `Preflop.GetFrequency` | utils/pokerMath.ts:33-87 | the result is always 0, 0.5 or 1, and it is 0 for the big blind raising first in |
| `Preflop.PairOpeningRanges` | utils/pokerMath.ts:38-66 | RFI pairs: the button opens all of them and the big blind none; UTG opens 66+, MP TT+, CO 88+, SB 66+ |
| `Preflop.PairsVersusThreeBet` | utils/pokerMath.ts:50-70 | vs a 3-bet: 99+ always; weaker pairs 0.5 on the button, 0 elsewhere |
| `Preflop.PairsMonotone` | utils/pokerMath.ts:61-70 | a stronger pair is never played less often than a weaker one |
| `Preflop.SuitedConnectorsOpen` | utils/pokerMath.ts:72-86 | RFI suited connectors: every position except UTG and BB opens them; UTG opens AKs-JTs, T9s half the time, the rest never; the BB opens none |
| `Preflop.SuitedConnectorsVersusThreeBet` | utils/pokerMath.ts:72-75 | on the button vs a 3-bet, a suited connector led by a rank above the Six plays half the time |
| `Preflop.SuitedAcesOpen` | utils/pokerMath.ts:77-82 | suited aces open from every position except the BB; under the gun A9s and weaker fold |
| `Preflop.GenericBand` | utils/pokerMath.ts:84-86 | a hand that no override catches gets 1 below the threshold, 0.5 in the next ten points and 0 beyond |
| `Preflop.SuitedAtLeastOffsuit` | utils/pokerMath.ts:72-86 | the suited form is played at least as often as the offsuit form, except in the two named situations |
| `Preflop.SuitedBelowOffsuitExamples` | utils/pokerMath.ts:72-86 | both exceptions occur: UTG A9s 0 vs A9o 1; BTN vs a 3-bet AKs 0.5 vs AKo 1 |
| `RangeGrid.Label` | utils/pokerMath.ts:101-110 | a label has two characters on the diagonal and three off it |
| `RangeGrid.KindOf` | utils/pokerMath.ts:101-110 | a cell's category is pair exactly on the diagonal, suited exactly above it and offsuit exactly below it |
| `RangeGrid.CellAt` | utils/pokerMath.ts:95-121 | a cell carries the category of its place and a frequency of 0, 0.5 or 1 |
| `RangeGrid.Chart` | utils/pokerMath.ts:89-126 | the reference chart the builder is proved equal to: 13 rows of 13 cells |
| `RangeGrid.GenerateRangeGrid` | utils/pokerMath.ts:89-126 | the loops build exactly the reference chart `Chart(pos, action)` |
| `RangeGrid.ChartCells` | utils/pokerMath.ts:92-123 | the chart has 13 rows of 13 cells, and cell (i, j) is the cell of ranks i and j |
| `RangeGrid.CellKinds` | utils/pokerMath.ts:101-110 | a cell is a pair exactly on the diagonal, suited exactly above it and offsuit exactly below it |
| `RangeGrid.LabelShape` | utils/pokerMath.ts:101-110 | a label is the stronger rank, then the weaker one, then "s" above the diagonal or "o" below it |
| `RangeGrid.LabelsDistinct` | utils/pokerMath.ts:101-110 | the 169 labels are pairwise distinct |
| `RangeGrid.CellFrequency` | utils/pokerMath.ts:112-115 | a cell's frequency is the heuristic's value of its ranks, stronger first, suited exactly above the diagonal; it is 0, 0.5 or 1 |
| `RangeGrid.MirrorCells` | utils/pokerMath.ts:101-115 | cells (i, j) and (j, i) are the suited and offsuit forms of the same two ranks |
| `RangeGrid.BigBlindChartEmpty` | utils/pokerMath.ts:89-126 | every cell of the big blind's RFI chart is 0 |
| `RangeGrid.RegenerateIsIdentical` | utils/pokerMath.ts:89-126 | building a chart twice gives the same chart |
| `RangeStats.Weight` | utils/pokerMath.ts:135-137 | each category stands for a positive, even number of combos (6, 4, 12) |
| `RangeStats.PlayedSum` | utils/pokerMath.ts:140 | the reference sum of weight times frequency over all cells; its bounds are stated by `PlayedSumBounds` and `CombosBounds` |
| `RangeStats.Round` | utils/pokerMath.ts:145 | the result is the integer nearest to the input, halves going up |
| `RangeStats.CalculateStats` | utils/pokerMath.ts:128-148 | combos is the rounded weighted sum of the frequencies; percentage is the unrounded sum over 1326 times 100 |
| `RangeStats.ChartShape` | utils/pokerMath.ts:89-126 | every generated chart is 13x13, each cell has the category of its place, and every frequency is 0, 0.5 or 1 |
| `RangeStats.TotalWeightPrefix` | utils/pokerMath.ts:134-139 | the first n rows of a chart weigh 54n + 4n(n-1) combinations |
| `RangeStats.WellShapedCoversAllCombos` | utils/pokerMath.ts:134-146 | the 169 cells stand for all 1326 combinations |
| `RangeStats.PlayedSumBounds` | utils/pokerMath.ts:140 | with frequencies in [0, 1], the combos played lie between 0 and the total weight |
| `RangeStats.CombosBounds` | utils/pokerMath.ts:140-145 | on a well-shaped chart with frequencies in [0, 1], the rounded combo count lies in 0..1326 |
| `RangeStats.AllFoldPlaysNothing` | utils/pokerMath.ts:140-145 | a chart that folds everything plays 0 combos |
| `RangeStats.AllPlayPlaysEverything` | utils/pokerMath.ts:140-145 | a chart that plays everything plays all 1326 combos |
| `RangeStats.PlayedSumEqualsWeight` | utils/pokerMath.ts:139-140 | with every frequency 1, the combos played equal the total weight |
| `RangeStats.PlayedSumWhole` | utils/pokerMath.ts:135-140 | with frequencies 0, 0.5 or 1, the combos played are a whole number |
| `RangeStats.WellShapedStats` | utils/pokerMath.ts:144-147 | on a well-shaped chart, the rounding is exact, combos lie in 0..1326 and the percentage in 0..100 |
| `RangeStats.ChartStats` | utils/pokerMath.ts:89-148 | the same facts for every generated chart |
| `RangeStats.BigBlindPlaysNothing` | utils/pokerMath.ts:128-148 | the big blind's RFI chart plays 0 combos |
| `Board.Occurrences` | utils/pokerMath.ts:174-175 | the count is at most the length, and 0 exactly when the value is absent |
| `Board.HighCards` | utils/pokerMath.ts:182 | the count of Aces to Jacks is at most the number of cards |
| `Board.SuitPoints` | utils/pokerMath.ts:164-165 | suit points are 0, 2 or 4 |
| `Board.LinkPoints` | utils/pokerMath.ts:174-179 | connectivity points lie between 0 and 4 |
| `Board.MaxSuitCount` | utils/pokerMath.ts:162 | the largest suit group is at most the number of cards, and 0 exactly when there are no cards |
| `Board.Insert` | utils/pokerMath.ts:168 | one step of the sort: inserting makes the sequence one longer (its sortedness and permutation are `InsertSorted` and `InsertPermutes`) |
| `Board.SortAscending` | utils/pokerMath.ts:168 | the numeric ascending sort keeps the length (its sortedness and permutation are `SortSorts` and `SortPermutes`) |
| `Board.Gaps` | utils/pokerMath.ts:169-172 | one gap fewer than entries (none for an empty board), gap i being entry i+1 minus entry i |
| `Board.WetnessScore` | utils/pokerMath.ts:155-179 | suit points plus connectivity points, between 0 and 8 |
| `Board.Classify` | utils/pokerMath.ts:188-200 | Wet or Dynamic exactly from 4 points; Static only below 3 points with at least two high cards |
| `Board.BoardOf` | utils/pokerMath.ts:152-203 | the wetness score lies between 0 and 8 |
| `Board.AnalyzeBoard` | utils/pokerMath.ts:152-203 | the method returns exactly the reference analysis `BoardOf(cards)` |
| `Board.CountSuits` | utils/pokerMath.ts:160-161 | the dictionary has exactly the suits present as keys, each holding how many cards have it |
| `Board.LargestCount` | utils/pokerMath.ts:162 | the largest dictionary value is the size of the largest suit group |
| `Board.NeighbourGaps` | utils/pokerMath.ts:169-172 | the loop produces exactly the differences between neighbouring sorted ranks |
| `Board.MaxOfCounts` | utils/pokerMath.ts:160-162 | the maximum of a complete suit-count dictionary is the largest suit group |
| `Board.InsertPermutes` | utils/pokerMath.ts:168 | inserting adds exactly one occurrence of the new rank |
| `Board.InsertSorted` | utils/pokerMath.ts:168 | inserting into an ascending sequence keeps it ascending |
| `Board.SortPermutes` | utils/pokerMath.ts:168 | the sort returns the ranks it was given, each as often |
| `Board.SortSorts` | utils/pokerMath.ts:168 | the sort returns its ranks in ascending order |
| `Board.SortThree` | utils/pokerMath.ts:168 | on three ranks the sort gives minimum, middle, maximum |
| `Board.TextureRules` | utils/pokerMath.ts:188-200 | Wet iff score >= 6; Dynamic iff 4 <= score < 6; Static iff score < 3 with two or more high cards; Dry otherwise |
| `Board.IncompleteBoard` | utils/pokerMath.ts:153 | fewer than three cards give the placeholder (Dry, 0, prompt text) |
| `Board.SuitPointsOnFlop` | utils/pokerMath.ts:160-165 | a flop earns 4 suit points when monotone, 2 when two-tone and 0 when rainbow |
| `Board.LinkPointsOfTwoGaps` | utils/pokerMath.ts:174-179 | the points of two gaps: 4 for two 1-gaps, 2 for one, 1 for two 2-gaps, else 0 |
| `Board.LinkPointsOnFlop` | utils/pokerMath.ts:168-179 | the connectivity points of three ranks, in terms of their sorted differences |
| `Board.RunOfThree` | utils/pokerMath.ts:168-177 | three ranks earn 4 connectivity points iff they are distinct and span exactly 2 |
| `Board.WetnessIgnoresOrder` | utils/pokerMath.ts:155-179 | a flop's score does not depend on the order of its cards |
| `Board.BoardIgnoresOrder` | utils/pokerMath.ts:152-203 | neither does the whole analysis |
| `Board.AceKingQueenSuited` | utils/pokerMath.ts:152-203 | AKQ of one suit: Wet, 8 points |
| `Board.SevenEightNineRainbow` | utils/pokerMath.ts:152-203 | rainbow 9-8-7: Dynamic, 4 points |
| `Board.AceKingSevenRainbow` | utils/pokerMath.ts:152-203 | rainbow A-K-7: Static, 2 points |
| `Board.KingSevenDeuceRainbow` | utils/pokerMath.ts:152-203 | rainbow K-7-2: Dry, 0 points |
| `Opponent.ProfileOf` | utils/pokerMath.ts:210-243 | each archetype's card carries that archetype and three exploits |
| `Opponent.AnalyzeOpponent` | utils/pokerMath.ts:207-245 | the profile is the fixed card of its archetype, with three exploits |
| `Opponent.GuardsDisjoint` | utils/pokerMath.ts:210-236 | no two of the four rules match the same statistics |
| `Opponent.ArchetypeRules` | utils/pokerMath.ts:207-245 | each archetype is chosen iff its own rule holds; TAG iff none does |
| `Opponent.ThreeBetIgnored` | utils/pokerMath.ts:207-208 | the 3-bet percentage never changes the profile |
| `Opponent.DescriptionsDistinct` | utils/pokerMath.ts:212-241 | different archetypes have different descriptions |
| `Opponent.ProfileExamples` | utils/pokerMath.ts:207-245 | 45/10 is Fish/Station, 40/30 Maniac, 10/8 Nit, 28/22 LAG, 22/18 TAG |
| `Opponent.FallbackCatchesOthers` | utils/pokerMath.ts:238-244 | 20/5 and 38/20 match no rule and are TAG |

## Left out

- `formatPercent` and `formatCurrency` (`utils/pokerMath.ts:20-26`) produce display strings only. They use locale-dependent formatting, so they are not part of this model.
- IEEE floating point is not modelled. Money and frequencies are exact reals, so the rounding errors of sums such as `playedCombos` do not arise.
- `Indifference.CalculateGtoFrequencies`: a final pot of zero is excluded by the precondition. JavaScript would return NaN or an infinity there.
- The React components, `App.tsx`, and the navigation types (`SectionId`, `NavItem`) are UI. They are not part of this model.
- Card and rank names are strings in the source. The model uses rank indices and a suit datatype. A rank name missing from the table (`indexOf` returning -1) therefore cannot be written, since the UI only offers table ranks.
- `Array.prototype.sort` with a numeric comparator is modelled as an insertion sort (`Board.SortAscending`). Its sortedness and permutation are proved.
- The three loops of `analyzeBoard` are separate helper methods: `CountSuits`, `LargestCount` and `NeighbourGaps`. `Math.max(...Object.values(...))` is a loop over the dictionary's keys. That loop starts from 0, which is safe because every count is at least 1.
- `calculateStats` accumulates `totalCombos` but never returns it. The method keeps the accumulator, and its value is stated by `RangeStats.WellShapedCoversAllCombos`.
- The general board properties (score bounds, texture rules) hold for any number of cards. The finer ones, order independence included, are proved for flops of exactly three cards. Turn and river boards run the same code but are not characterised separately.
- The description and exploit texts are copied verbatim as constants. Their wording is not analysed beyond the archetypes being told apart.
