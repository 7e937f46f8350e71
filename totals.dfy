/**
  The grand total of the counts: summed over all teams, the championship
  counts equal the number of distinct champions summed over the seasons, so a
  season with a tie adds one win for each team in the tie.
 */
module Totals {
  import opened WinCounts
  import opened Aggregation

  /** The number of distinct champions of each season, summed over the seasons. */
  function ChampionSlots(perms: seq<Permutation>, champions: Permutation -> seq<Team>): nat
  {
    if perms == [] then 0
    else ChampionSlots(perms[..|perms| - 1], champions) + |Elems(champions(perms[|perms| - 1]))|
  }

  /** How many teams of `ks` are among the champions `c`. */
  function Hits(ks: seq<Team>, c: seq<Team>): nat
  {
    if ks == [] then 0 else Hits(ks[..|ks| - 1], c) + (if ks[|ks| - 1] in c then 1 else 0)
  }

  /** The wins of the teams of `ks`, added up. */
  function SumWins(ks: seq<Team>, perms: seq<Permutation>, champions: Permutation -> seq<Team>): int
  {
    if ks == [] then 0 else SumWins(ks[..|ks| - 1], perms, champions) + Wins(perms, champions, ks[|ks| - 1])
  }

  /** Over a list of distinct teams, `Hits` counts the champions that are in the list. */
  lemma {:induction false} HitsCountsChampions(ks: seq<Team>, c: seq<Team>)
    requires Distinct(ks)
    ensures Hits(ks, c) == |Elems(c) * Elems(ks)|
  {
    if ks == [] {
      assert Elems(c) * Elems(ks) == {};
    } else {
      var pre := ks[..|ks| - 1];
      var x := ks[|ks| - 1];
      assert ks == pre + [x];
      assert Elems(ks) == Elems(pre) + {x};
      assert x !in Elems(pre);
      HitsCountsChampions(pre, c);
      if x in c {
        assert Elems(c) * Elems(ks) == Elems(c) * Elems(pre) + {x};
      } else {
        assert Elems(c) * Elems(ks) == Elems(c) * Elems(pre);
      }
    }
  }

  /** Adding one season to the list adds, over `ks`, the teams of `ks` that season crowned. */
  lemma {:induction false} SumWinsStep(ks: seq<Team>, perms: seq<Permutation>, champions: Permutation -> seq<Team>)
    requires perms != []
    ensures SumWins(ks, perms, champions)
         == SumWins(ks, perms[..|perms| - 1], champions) + Hits(ks, champions(perms[|perms| - 1]))
  {
    if ks != [] {
      SumWinsStep(ks[..|ks| - 1], perms, champions);
    }
  }

  /**
    When `ks` lists distinct teams and includes every champion, the wins over
    `ks` add up to the distinct champions summed over the seasons.
   */
  lemma {:induction false} SumWinsIsChampionSlots(ks: seq<Team>, perms: seq<Permutation>, champions: Permutation -> seq<Team>)
    requires Distinct(ks)
    requires forall i :: 0 <= i < |perms| ==> Elems(champions(perms[i])) <= Elems(ks)
    ensures SumWins(ks, perms, champions) == ChampionSlots(perms, champions)
  {
    if perms == [] {
      if ks != [] {
        SumWinsIsChampionSlots(ks[..|ks| - 1], perms, champions);
      }
    } else {
      var k := |perms| - 1;
      var c := champions(perms[k]);
      SumWinsStep(ks, perms, champions);
      SumWinsIsChampionSlots(ks, perms[..k], champions);
      HitsCountsChampions(ks, c);
      assert Elems(c) * Elems(ks) == Elems(c);
    }
  }

  /** A dictionary whose counts are the wins sums, over `ks`, to the wins of `ks`. */
  lemma {:induction false} SumOverCountsWins(m: WinCount, ks: seq<Team>, perms: seq<Permutation>, champions: Permutation -> seq<Team>)
    requires forall t :: Get(m, t) == Wins(perms, champions, t)
    ensures SumOver(m, ks) == SumWins(ks, perms, champions)
  {
    if ks != [] {
      SumOverCountsWins(m, ks[..|ks| - 1], perms, champions);
    }
  }

  /**
    The final counts, summed over the distinct teams (which include every
    champion), equal the number of distinct champions summed over the seasons.
    The sequential and the map-reduce results both meet the third requirement.
   */
  lemma TotalWins(m: WinCount, ks: seq<Team>, perms: seq<Permutation>, champions: Permutation -> seq<Team>)
    requires Distinct(ks)
    requires forall i :: 0 <= i < |perms| ==> Elems(champions(perms[i])) <= Elems(ks)
    requires forall t :: Get(m, t) == Wins(perms, champions, t)
    ensures SumOver(m, ks) == ChampionSlots(perms, champions)
  {
    SumOverCountsWins(m, ks, perms, champions);
    SumWinsIsChampionSlots(ks, perms, champions);
  }
}
