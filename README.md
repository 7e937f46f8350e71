# Championship counts over all schedule permutations

FantacalcioPython answers a what-if question about a fantasy-football season. Take
every permutation of the team list, simulate the season for each one, and count,
for each team, the permutations in which it ends up champion. This model covers
how `esporta_classifiche.py` aggregates those counts:

- for each permutation it builds an indicator dictionary: every team starts at 0
  (`dict(zip(squadre, [0] * NUM_SQUADRE))`) and each champion of that season is
  set to 1;
- it folds the indicators into one count dictionary, in one of two ways:
  - sequentially, merging each indicator into a running dictionary
    (`calcola_classifiche_singolo_processo`);
  - map-reduce style, mapping each season to its indicator
    (`calcola_classifica_distribuito_map`) and reducing the list with
    `functools.reduce` over the Counter-sum merge
    (`calcola_classifica_distribuito_reduce`).

The merge is `dict(Counter(a) + Counter(b))`, which keeps a key only when its
summed count is positive. Dictionaries are therefore compared in two ways:
as raw maps (`==`), and as totals where a missing key reads as 0
(`WinCounts.Get`, `WinCounts.Equivalent`).

Modules:

- `WinCounts` (`win_counts.dfy`): count dictionaries, `Merge` and its algebra.
- `SeasonIndicators` (`indicators.dfy`): the zero dictionary and the
  per-season indicator, as a function and as the loop that builds it.
- `Aggregation` (`aggregation.dfy`): the sequential loop, the map step, the
  reduce, and the dispatch between them. It proves that both paths count, for
  each team, the seasons it won.
- `Totals` (`totals.dfy`): the sum of all counts.

The simulation that picks a season's champions comes from `Calendario`, which is
not part of this model. It enters as a parameter
`champions: Permutation -> seq<Team>`. The configured team count
`Costanti.NUM_SQUADRE` and process count `Costanti.NUM_PROCESSES` are parameters
`n` and `processes`.

Results proved about the model:

- Read as totals, both paths give every team its number of winning seasons.
- With two or more seasons, the two paths return equal raw dictionaries: the
  same keys with the same counts, which is equality under Python's `==`.
- With exactly one season, `functools.reduce` returns that season's indicator
  unchanged. It keeps the 0 entries the sequential merge would drop, so the
  two paths then agree only as totals (`Aggregation.SequentialAgreesWithMapReduce`).
- A team that never wins is absent from the final dictionary of the
  sequential path whenever there is at least one season, and from the
  map-reduce result whenever there are at least two seasons. With a single
  season the map-reduce result keeps that season's 0 entries.

## Model

| member | source | states |
|---|---|---|
| `WinCounts.Merge` | esporta_classifiche.py:85-87 | the merged dictionary never keeps a key whose count is 0 or less |
| `WinCounts.MergeClipsSum` | esporta_classifiche.py:85-87 | for any integer counts, the merged count of a team (missing = 0) is the sum of its two counts clipped at 0 |
| `WinCounts.MergeIsPointwiseSum` | esporta_classifiche.py:85-87 | on non-negative counts the merge is a pointwise sum; a team is a key of the result exactly when that sum is positive; the result is non-negative |
| `WinCounts.MergeCommutes` | esporta_classifiche.py:87 | merging is commutative as raw dictionaries |
| `WinCounts.PositiveEquivalentEqual` | esporta_classifiche.py:87 | two dictionaries without zero entries that agree as totals are the same dictionary |
| `WinCounts.MergeAssociates` | esporta_classifiche.py:85-87 | merging non-negative counts is associative as raw dictionaries |
| `WinCounts.MergeZeroIsIdentity` | esporta_classifiche.py:61-70 | merging an all-zero dictionary on either side yields `x` without its zero entries; the result equals `x` as totals, and equals `x` exactly when `x` has no zero entry |
| `WinCounts.MergeNeverDecreases` | esporta_classifiche.py:70 | merging in non-negative counts never lowers any team's count, whatever the counts of the other side |
| `WinCounts.Strip` | esporta_classifiche.py:87 | dropping zero entries leaves no zero entry and, for non-negative counts, changes no total |
| `SeasonIndicators.ZipLength` | esporta_classifiche.py:61 | `zip(keys, [0] * n)` yields as many pairs as the shorter of the two lists |
| `SeasonIndicators.ZeroMap` | esporta_classifiche.py:67 | the zero dictionary stores only 0, its keys come from the key list, and they are the whole key list when `n` is at least its length |
| `SeasonIndicators.Indicator` | esporta_classifiche.py:67-69 | the per-season dictionary (also built at lines 78-81) is non-negative, has every champion as a key, and holds a positive count exactly for the champions; IndicatorMarksChampions states that those counts are 1 and every other team's is 0 |
| `SeasonIndicators.IndicatorMarksChampions` | esporta_classifiche.py:67-69 | the indicator gives each champion 1 and every other team 0 (missing = 0); its keys are the key list plus the champions when `n` covers the key list |
| `SeasonIndicators.IndicatorKeysIrrelevant` | esporta_classifiche.py:78-81 | as totals the indicator is the same whatever key list and team count are zipped, so the map step's calendar teams and the loop's team list agree |
| `SeasonIndicators.IndicatorIgnoresRepeats` | esporta_classifiche.py:68-69 | a champion listed twice still gets 1: the indicator depends only on the set of champions |
| `SeasonIndicators.IndicatorOfNoChampions` | esporta_classifiche.py:67-69 | a season with no champions yields exactly the zero dictionary |
| `SeasonIndicators.BuildIndicator` | esporta_classifiche.py:67-69 | the loop that stores 1 for each champion builds exactly the indicator |
| `Aggregation.Wins` | esporta_classifiche.py:63-70 | a team's win count is at most the number of seasons |
| `Aggregation.WinsCountsWinningSeasons` | esporta_classifiche.py:63-70 | a team's win count is the number of season positions whose champions include it |
| `Aggregation.WinsAppend` | esporta_classifiche.py:63-70 | counting over two season lists in a row adds the two counts |
| `Aggregation.WinsNeverDecrease` | esporta_classifiche.py:63-70 | the number of wins over the first `i` seasons is at most that over the first `j >= i` seasons |
| `Aggregation.WinsOrderIndependent` | esporta_classifiche.py:63 | reordering the seasons does not change any team's win count |
| `Aggregation.SequentialFold` | esporta_classifiche.py:61-70 | the running dictionary is never negative; with no seasons every team reads 0; after at least one season no key holds 0. SequentialFoldCountsWins states that each count is the team's number of wins |
| `Aggregation.SequentialFoldNeverDecreases` | esporta_classifiche.py:63-70 | the running dictionary never lowers a team's count: after `j` seasons each team has at least its count after `i <= j` seasons |
| `Aggregation.SequentialFoldCountsWins` | esporta_classifiche.py:61-70 | after the sequential loop each team's count (missing = 0) is its number of wins; all counts are non-negative; after at least one season no key holds 0 |
| `Aggregation.SequentialFoldOrderIndependent` | esporta_classifiche.py:61-70 | reordering the seasons leaves the sequential result unchanged as a raw dictionary |
| `Aggregation.EmptySeasonChangesNothing` | esporta_classifiche.py:67-70 | a season with no champions changes no count; it only drops zero entries from the running dictionary |
| `Aggregation.SequentialCounts` | esporta_classifiche.py:59-70 | the loop computes the sequential fold; each team's count is its number of wins; with no seasons the result is the zero dictionary, otherwise it has no zero entry |
| `Aggregation.Indicators` | esporta_classifiche.py:50 | the map step yields one indicator per season |
| `Aggregation.MapIndicators` | esporta_classifiche.py:75-82 | mapping the seasons yields, at each position, that season's indicator, which gives its champions 1 and every other team 0 |
| `Aggregation.Fold` | esporta_classifiche.py:52 | the left fold of the merge yields no zero entry once it merges two or more dictionaries, and stays non-negative on non-negative inputs; FoldSums states that it adds the counts team by team |
| `Aggregation.Reduce` | esporta_classifiche.py:52 | `functools.reduce` with no initial value fails (TypeError) exactly on an empty list, returns a single dictionary unchanged, and otherwise yields a dictionary without zero entries; ReduceCountsWins states the counts it yields |
| `Aggregation.FoldSums` | esporta_classifiche.py:52 | the left fold of the merge over non-negative dictionaries adds their counts team by team; with two or more dictionaries the result has no zero entry |
| `Aggregation.IndicatorsNonNegative` | esporta_classifiche.py:75-82 | no indicator the map step produces holds a negative count |
| `Aggregation.IndicatorsSumToWins` | esporta_classifiche.py:75-82 | the mapped indicators add up to each team's number of wins |
| `Aggregation.ReduceCountsWins` | esporta_classifiche.py:50-52 | the reduce fails exactly when there are no seasons; otherwise each team's count (missing = 0) is its number of wins |
| `Aggregation.FoldOfBatches` | esporta_classifiche.py:50-52 | folding two batches separately and merging the partial results gives the same dictionary as folding everything at once |
| `Aggregation.SequentialAgreesWithMapReduce` | esporta_classifiche.py:50-70 | with at least one season the sequential and map-reduce results agree as totals; with at least two they are the same dictionary |
| `Aggregation.DistributedCounts` | esporta_classifiche.py:40-52 | map then reduce; fails exactly when there are no seasons; otherwise each team's count is its number of wins |
| `Aggregation.CountChampionships` | esporta_classifiche.py:34-37 | with more than one process the result is exactly the map-reduce result (`Reduce` of the mapped indicators), otherwise exactly the sequential fold's dictionary; only map-reduce with no seasons fails; otherwise each team's count is its number of wins |
| `Totals.HitsCountsChampions` | esporta_classifiche.py:68-69 | over distinct teams, the number of them among the champions is the size of the intersection of the champion set with them |
| `Totals.SumWinsIsChampionSlots` | esporta_classifiche.py:63-70 | when the teams are distinct and include every champion, their wins add up to the number of distinct champions summed over the seasons |
| `Totals.TotalWins` | esporta_classifiche.py:63-70 | the final counts, summed over the distinct teams, equal the number of distinct champions summed over the seasons, so a tie gives a win to every tied team |

## Left out

- `main` (esporta_classifiche.py:14-37) reads an Excel workbook with `openpyxl`, catches and prints load errors, and takes the file name from `sys.argv`. All of this is I/O. Only its dispatch between the two paths is modelled (`Aggregation.CountChampionships`).
- Timing (`time.time()`) and progress printing throughout are side effects with no effect on the counts.
- `multiprocessing.Pool` is concurrency. `pool.map` returns its results in input order, so it is modelled as a sequential map (`Aggregation.MapIndicators`).
- `itertools.permutations` is a library call. The list of permutations is an input; nothing is proved about its enumeration. The counts are per list position, which equals per permutation because the team names are distinct, so the enumerated permutations are too (`itertools.permutations` treats equal names as different positions).
- `Calendario` (standings and champion selection) and `Giornata` (per-matchday points) are not part of this model. The champions of a season are the parameter `champions`. `calendario.get_squadre()` is taken to be the calendar's own permutation. By `SeasonIndicators.IndicatorKeysIrrelevant`, this choice affects only which zero entries are stored.
- `Costanti` is not part of this model. `NUM_SQUADRE` is the parameter `n` (a `nat`) and `NUM_PROCESSES` is the parameter `processes`.
- `utils.esporta_classifica_csv`, `utils.get_squadre_calendario` and `utils.set_giornate_calendario` are spreadsheet and CSV adapters and are not part of this model. The model returns the dictionary those calls would receive.
- Fail-fast checks on team count or empty matchday data are not in the code, so they are not modelled. The code does not enforce `NUM_SQUADRE == len(squadre)`. The model keeps `zip`'s truncation instead (`SeasonIndicators.ZipLength`).
- Relabelling result streams by permutation is not modelled. That happens inside `Calendario`, which this model does not cover.
- Dictionary insertion order is not modelled, because Dafny maps are unordered. The sequential result lists the first season's champions in team-list order and later first-time champions after them. The map-reduce result follows the first permutation's order, because `Counter.__add__` iterates its left operand first. `utils.esporta_classifica_csv` writes rows in that order, so the two paths can write the same counts in a different row order.
- The merge's identity law holds only up to missing keys: `dict(Counter(z) + Counter(x))` drops the zero entries of `x`. `WinCounts.MergeZeroIsIdentity` states exactly that, rather than `Merge(Zero, x) == x`.
