/**
  Counting championships over all simulated seasons.

  Each season is one permutation of the teams. The simulation that ranks a
  season and names its champions is not part of this model: it is the
  parameter `champions`, a function from a permutation to the list of teams
  that season crowns. The counts are folded either sequentially, into one
  running dictionary, or map-reduce style, one indicator per season merged by
  a left fold.
 */
module Aggregation {
  import opened WinCounts
  import opened SeasonIndicators

  datatype Option<T> = None | Some(value: T)

  /** One ordering of the team list; it identifies one simulated season. */
  type Permutation = seq<Team>

  /** The number of entries of `perms` whose champions include `t`. */
  function Wins(perms: seq<Permutation>, champions: Permutation -> seq<Team>, t: Team): (k: nat)
    ensures k <= |perms|
  {
    if perms == [] then 0
    else Wins(perms[..|perms| - 1], champions, t) + (if t in champions(perms[|perms| - 1]) then 1 else 0)
  }

  /** The seasons, by position in `perms`, in which `t` is a champion. */
  function WinningSeasons(perms: seq<Permutation>, champions: Permutation -> seq<Team>, t: Team): set<nat>
  {
    set i: nat | i < |perms| && t in champions(perms[i])
  }

  /** `Wins` counts exactly the seasons in which the team is a champion. */
  lemma {:induction false} WinsCountsWinningSeasons(perms: seq<Permutation>, champions: Permutation -> seq<Team>, t: Team)
    ensures Wins(perms, champions, t) == |WinningSeasons(perms, champions, t)|
  {
    if perms != [] {
      var k := |perms| - 1;
      var prefix := perms[..k];
      WinsCountsWinningSeasons(prefix, champions, t);
      var before := WinningSeasons(prefix, champions, t);
      assert k !in before;
      if t in champions(perms[k]) {
        assert WinningSeasons(perms, champions, t) == before + {k};
      } else {
        assert WinningSeasons(perms, champions, t) == before;
      }
    }
  }

  /** Counting over two lists one after the other adds their counts. */
  lemma {:induction false} WinsAppend(a: seq<Permutation>, b: seq<Permutation>, champions: Permutation -> seq<Team>, t: Team)
    ensures Wins(a + b, champions, t) == Wins(a, champions, t) + Wins(b, champions, t)
    decreases |b|
  {
    if b != [] {
      var b' := b[..|b| - 1];
      assert (a + b)[..|a + b| - 1] == a + b';
      WinsAppend(a, b', champions, t);
    } else {
      assert a + b == a;
    }
  }

  /** A count over a longer prefix of the seasons is never smaller. */
  lemma {:induction false} WinsNeverDecrease(perms: seq<Permutation>, champions: Permutation -> seq<Team>, t: Team, i: nat, j: nat)
    requires i <= j <= |perms|
    ensures Wins(perms[..i], champions, t) <= Wins(perms[..j], champions, t)
  {
    assert perms[..j] == perms[..i] + perms[i..j];
    WinsAppend(perms[..i], perms[i..j], champions, t);
  }

  /** The count does not depend on the order in which the seasons are listed. */
  lemma {:induction false} WinsOrderIndependent(ps: seq<Permutation>, qs: seq<Permutation>, champions: Permutation -> seq<Team>, t: Team)
    requires multiset(ps) == multiset(qs)
    ensures Wins(ps, champions, t) == Wins(qs, champions, t)
    decreases |ps|
  {
    if ps == [] {
      assert |qs| == |multiset(qs)| == 0;
    } else {
      var x := ps[|ps| - 1];
      var ps' := ps[..|ps| - 1];
      assert ps == ps' + [x];
      assert x in multiset(qs);
      var j :| 0 <= j < |qs| && qs[j] == x;
      var qs' := qs[..j] + qs[j + 1..];
      assert qs == qs[..j] + [x] + qs[j + 1..];
      assert multiset(ps') == multiset(ps) - multiset{x} == multiset(qs');
      WinsOrderIndependent(ps', qs', champions, t);
      WinsAppend(qs[..j], [x], champions, t);
      WinsAppend(qs[..j] + [x], qs[j + 1..], champions, t);
      WinsAppend(qs[..j], qs[j + 1..], champions, t);
      assert [x][..0] == [];
    }
  }

  // ---------------------------------------------------------------------------
  // Sequential fold: calcola_classifiche_singolo_processo

  /**
    The running dictionary after the seasons of `perms`: it starts as the zero
    dictionary over `teams`, and each season merges in its indicator.
   */
  function SequentialFold(teams: seq<Team>, n: nat, perms: seq<Permutation>, champions: Permutation -> seq<Team>): (r: WinCount)
    ensures NonNegative(r)
    ensures perms == [] ==> forall t :: Get(r, t) == 0
    ensures perms != [] ==> Positive(r)
  {
    if perms == [] then ZeroMap(teams, n)
    else Merge(SequentialFold(teams, n, perms[..|perms| - 1], champions),
               Indicator(teams, n, champions(perms[|perms| - 1])))
  }

  /**
    After the sequential fold every team's count, missing keys as 0, is the
    number of seasons it won; no count is negative; after at least one season
    no team is kept with count 0.
   */
  lemma {:induction false} SequentialFoldCountsWins(teams: seq<Team>, n: nat, perms: seq<Permutation>, champions: Permutation -> seq<Team>)
    ensures NonNegative(SequentialFold(teams, n, perms, champions))
    ensures forall t :: Get(SequentialFold(teams, n, perms, champions), t) == Wins(perms, champions, t)
    ensures perms != [] ==> Positive(SequentialFold(teams, n, perms, champions))
  {
    if perms != [] {
      var prefix := perms[..|perms| - 1];
      var last := champions(perms[|perms| - 1]);
      SequentialFoldCountsWins(teams, n, prefix, champions);
      IndicatorMarksChampions(teams, n, last);
      MergeIsPointwiseSum(SequentialFold(teams, n, prefix, champions), Indicator(teams, n, last));
    }
  }

  /**
    The running dictionary never lowers a team's count: after `j` seasons every
    team has at least the count it had after `i <= j` seasons.
   */
  lemma SequentialFoldNeverDecreases(teams: seq<Team>, n: nat, perms: seq<Permutation>, champions: Permutation -> seq<Team>, t: Team, i: nat, j: nat)
    requires i <= j <= |perms|
    ensures Get(SequentialFold(teams, n, perms[..i], champions), t) <= Get(SequentialFold(teams, n, perms[..j], champions), t)
  {
    SequentialFoldCountsWins(teams, n, perms[..i], champions);
    SequentialFoldCountsWins(teams, n, perms[..j], champions);
    WinsNeverDecrease(perms, champions, t, i, j);
  }

  /**
    Reordering the seasons leaves the sequential result unchanged, as a raw
    dictionary: with no seasons it is the zero dictionary, otherwise it holds
    exactly the teams with a positive count.
   */
  lemma SequentialFoldOrderIndependent(teams: seq<Team>, n: nat, ps: seq<Permutation>, qs: seq<Permutation>, champions: Permutation -> seq<Team>)
    requires multiset(ps) == multiset(qs)
    ensures SequentialFold(teams, n, ps, champions) == SequentialFold(teams, n, qs, champions)
  {
    assert |ps| == |multiset(ps)| == |multiset(qs)| == |qs|;
    SequentialFoldCountsWins(teams, n, ps, champions);
    SequentialFoldCountsWins(teams, n, qs, champions);
    forall t ensures Wins(ps, champions, t) == Wins(qs, champions, t) {
      WinsOrderIndependent(ps, qs, champions, t);
    }
    if ps != [] {
      PositiveEquivalentEqual(SequentialFold(teams, n, ps, champions), SequentialFold(teams, n, qs, champions));
    }
  }

  /**
    A season with no champions leaves every count as it was; the only change
    to the raw dictionary is that entries at 0 are dropped.
   */
  lemma EmptySeasonChangesNothing(teams: seq<Team>, n: nat, perms: seq<Permutation>, p: Permutation, champions: Permutation -> seq<Team>)
    requires champions(p) == []
    ensures SequentialFold(teams, n, perms + [p], champions) == Strip(SequentialFold(teams, n, perms, champions))
    ensures Equivalent(SequentialFold(teams, n, perms + [p], champions), SequentialFold(teams, n, perms, champions))
  {
    assert (perms + [p])[..|perms|] == perms;
    IndicatorOfNoChampions(teams, n);
    SequentialFoldCountsWins(teams, n, perms, champions);
    MergeZeroIsIdentity(ZeroMap(teams, n), SequentialFold(teams, n, perms, champions));
  }

  /**
    The loop of `calcola_classifiche_singolo_processo`: for each season, build
    its indicator and merge it into the running dictionary.
   */
  method SequentialCounts(teams: seq<Team>, n: nat, perms: seq<Permutation>, champions: Permutation -> seq<Team>)
    returns (counts: WinCount)
    ensures counts == SequentialFold(teams, n, perms, champions)
    ensures forall t :: Get(counts, t) == Wins(perms, champions, t)
    ensures perms == [] ==> counts == ZeroMap(teams, n)
    ensures perms != [] ==> Positive(counts)
  {
    counts := ZeroMap(teams, n);
    for i := 0 to |perms|
      invariant counts == SequentialFold(teams, n, perms[..i], champions)
    {
      var current := BuildIndicator(teams, n, champions(perms[i]));
      assert perms[..i + 1][..i] == perms[..i];
      counts := Merge(counts, current);
    }
    assert perms[..|perms|] == perms;
    SequentialFoldCountsWins(teams, n, perms, champions);
  }

  // ---------------------------------------------------------------------------
  // Map-reduce: calcola_classifica_distribuito_map / _reduce and functools.reduce

  /** The indicators the map step produces, one per season, in season order. */
  function Indicators(perms: seq<Permutation>, n: nat, champions: Permutation -> seq<Team>): (xs: seq<WinCount>)
    ensures |xs| == |perms|
  {
    seq(|perms|, i requires 0 <= i < |perms| => Indicator(perms[i], n, champions(perms[i])))
  }

  /**
    `pool.map(calcola_classifica_distribuito_map, calendari)`: the indicator of
    each season, keyed by that season's own team list.
   */
  method MapIndicators(perms: seq<Permutation>, n: nat, champions: Permutation -> seq<Team>)
    returns (xs: seq<WinCount>)
    ensures xs == Indicators(perms, n, champions)
    ensures forall i :: 0 <= i < |xs| ==> forall t :: Get(xs[i], t) == if t in champions(perms[i]) then 1 else 0
  {
    xs := [];
    for i := 0 to |perms|
      invariant |xs| == i
      invariant forall j :: 0 <= j < i ==> xs[j] == Indicator(perms[j], n, champions(perms[j]))
    {
      var x := BuildIndicator(perms[i], n, champions(perms[i]));
      xs := xs + [x];
    }
    forall i | 0 <= i < |xs|
      ensures forall t :: Get(xs[i], t) == if t in champions(perms[i]) then 1 else 0
    {
      IndicatorMarksChampions(perms[i], n, champions(perms[i]));
    }
  }

  predicate AllNonNegative(xs: seq<WinCount>)
  {
    forall i :: 0 <= i < |xs| ==> NonNegative(xs[i])
  }

  /** The sum of the counts the dictionaries of `xs` give `t`. */
  function SumAt(xs: seq<WinCount>, t: Team): int
  {
    if xs == [] then 0 else SumAt(xs[..|xs| - 1], t) + Get(xs[|xs| - 1], t)
  }

  lemma {:induction false} SumAtAppend(xs: seq<WinCount>, ys: seq<WinCount>, t: Team)
    ensures SumAt(xs + ys, t) == SumAt(xs, t) + SumAt(ys, t)
    decreases |ys|
  {
    if ys == [] {
      assert xs + ys == xs;
    } else {
      assert (xs + ys)[..|xs + ys| - 1] == xs + ys[..|ys| - 1];
      SumAtAppend(xs, ys[..|ys| - 1], t);
    }
  }

  /** The left fold of `calcola_classifica_distribuito_reduce` over a non-empty list. */
  function Fold(xs: seq<WinCount>): (r: WinCount)
    requires xs != []
    ensures |xs| >= 2 ==> Positive(r)
    ensures AllNonNegative(xs) ==> NonNegative(r)
  {
    if |xs| == 1 then xs[0] else Merge(Fold(xs[..|xs| - 1]), xs[|xs| - 1])
  }

  /**
    `functools.reduce(calcola_classifica_distribuito_reduce, xs)` with no
    initial value: an empty list raises `TypeError` (here `None`), a single
    dictionary is returned as it is.
   */
  function Reduce(xs: seq<WinCount>): (r: Option<WinCount>)
    ensures r.None? <==> xs == []
    ensures |xs| == 1 ==> r == Some(xs[0])
    ensures |xs| >= 2 ==> r.Some? && Positive(r.value)
  {
    if xs == [] then None else Some(Fold(xs))
  }

  /** Folding non-negative dictionaries adds their counts team by team. */
  lemma {:induction false} FoldSums(xs: seq<WinCount>)
    requires xs != [] && AllNonNegative(xs)
    ensures NonNegative(Fold(xs))
    ensures forall t :: Get(Fold(xs), t) == SumAt(xs, t)
    ensures |xs| >= 2 ==> Positive(Fold(xs))
  {
    if |xs| == 1 {
      assert xs[..0] == [];
    } else {
      var init := xs[..|xs| - 1];
      FoldSums(init);
      MergeIsPointwiseSum(Fold(init), xs[|xs| - 1]);
    }
  }

  /** No mapped indicator holds a negative count. */
  lemma IndicatorsNonNegative(perms: seq<Permutation>, n: nat, champions: Permutation -> seq<Team>)
    ensures AllNonNegative(Indicators(perms, n, champions))
  {
    var xs := Indicators(perms, n, champions);
    forall i | 0 <= i < |xs| ensures NonNegative(xs[i]) {
      IndicatorMarksChampions(perms[i], n, champions(perms[i]));
    }
  }

  /** The indicators of the seasons add up to each team's number of wins. */
  lemma {:induction false} IndicatorsSumToWins(perms: seq<Permutation>, n: nat, champions: Permutation -> seq<Team>, t: Team)
    ensures SumAt(Indicators(perms, n, champions), t) == Wins(perms, champions, t)
  {
    IndicatorsNonNegative(perms, n, champions);
    if perms != [] {
      var k := |perms| - 1;
      assert Indicators(perms, n, champions)[..k] == Indicators(perms[..k], n, champions);
      IndicatorsSumToWins(perms[..k], n, champions, t);
      IndicatorMarksChampions(perms[k], n, champions(perms[k]));
    }
  }

  /**
    Reducing the mapped indicators fails exactly when there are no seasons;
    otherwise each team's count, missing keys as 0, is its number of wins.
   */
  lemma ReduceCountsWins(perms: seq<Permutation>, n: nat, champions: Permutation -> seq<Team>)
    ensures Reduce(Indicators(perms, n, champions)).None? <==> perms == []
    ensures perms != [] ==> forall t :: Get(Reduce(Indicators(perms, n, champions)).value, t) == Wins(perms, champions, t)
  {
    if perms != [] {
      forall t ensures Get(Fold(Indicators(perms, n, champions)), t) == Wins(perms, champions, t) {
        IndicatorsNonNegative(perms, n, champions);
        IndicatorsSumToWins(perms, n, champions, t);
        FoldSums(Indicators(perms, n, champions));
      }
    }
  }

  /**
    Splitting the indicators into two batches, folding each batch and merging
    the two partial results gives the same dictionary as one fold over all.
   */
  lemma FoldOfBatches(xs: seq<WinCount>, ys: seq<WinCount>)
    requires xs != [] && ys != []
    requires AllNonNegative(xs) && AllNonNegative(ys)
    ensures Fold(xs + ys) == Merge(Fold(xs), Fold(ys))
  {
    assert AllNonNegative(xs + ys) by {
      forall i | 0 <= i < |xs + ys| ensures NonNegative((xs + ys)[i]) {
        if i >= |xs| {
          assert (xs + ys)[i] == ys[i - |xs|];
        }
      }
    }
    FoldSums(xs);
    FoldSums(ys);
    FoldSums(xs + ys);
    MergeIsPointwiseSum(Fold(xs), Fold(ys));
    forall t ensures Get(Fold(xs + ys), t) == Get(Merge(Fold(xs), Fold(ys)), t) {
      SumAtAppend(xs, ys, t);
    }
    PositiveEquivalentEqual(Fold(xs + ys), Merge(Fold(xs), Fold(ys)));
  }

  /**
    The sequential loop and the map-reduce agree: with at least one season the
    counts are the same once missing keys read as 0, and with at least two
    seasons the two dictionaries are identical. With one season the reduce
    returns that season's indicator unchanged, zero entries included.
   */
  lemma SequentialAgreesWithMapReduce(teams: seq<Team>, n: nat, perms: seq<Permutation>, champions: Permutation -> seq<Team>)
    requires perms != []
    ensures Reduce(Indicators(perms, n, champions)).Some?
    ensures Equivalent(SequentialFold(teams, n, perms, champions), Reduce(Indicators(perms, n, champions)).value)
    ensures |perms| >= 2 ==> SequentialFold(teams, n, perms, champions) == Reduce(Indicators(perms, n, champions)).value
  {
    SequentialFoldCountsWins(teams, n, perms, champions);
    ReduceCountsWins(perms, n, champions);
    if |perms| >= 2 {
      IndicatorsNonNegative(perms, n, champions);
      FoldSums(Indicators(perms, n, champions));
      PositiveEquivalentEqual(SequentialFold(teams, n, perms, champions), Fold(Indicators(perms, n, champions)));
    }
  }

  /**
    `calcola_classifiche_distribuito` without its timing and output: map every
    season to its indicator, then reduce. No seasons means the reduce fails.
   */
  method DistributedCounts(n: nat, perms: seq<Permutation>, champions: Permutation -> seq<Team>)
    returns (result: Option<WinCount>)
    ensures result == Reduce(Indicators(perms, n, champions))
    ensures result.None? <==> perms == []
    ensures result.Some? ==> forall t :: Get(result.value, t) == Wins(perms, champions, t)
  {
    var xs := MapIndicators(perms, n, champions);
    result := Reduce(xs);
    ReduceCountsWins(perms, n, champions);
  }

  /**
    The dispatch in `main`: more than one process selects the map-reduce
    result, otherwise the sequential loop's result is returned. Either way each team's count, missing
    keys as 0, is its number of wins; only the map-reduce fails, and only
    when there are no seasons.
   */
  method CountChampionships(teams: seq<Team>, n: nat, processes: int, perms: seq<Permutation>, champions: Permutation -> seq<Team>)
    returns (result: Option<WinCount>)
    ensures result.None? <==> processes > 1 && perms == []
    ensures processes > 1 ==> result == Reduce(Indicators(perms, n, champions))
    ensures processes <= 1 ==> result == Some(SequentialFold(teams, n, perms, champions))
    ensures result.Some? ==> forall t :: Get(result.value, t) == Wins(perms, champions, t)
  {
    if processes > 1 {
      result := DistributedCounts(n, perms, champions);
    } else {
      var counts := SequentialCounts(teams, n, perms, champions);
      result := Some(counts);
    }
  }
}
