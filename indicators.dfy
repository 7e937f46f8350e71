/**
  The 0/1 indicator dictionary built for one simulated season: every team of
  the key list starts at 0 and every champion of that season is set to 1.
 */
module SeasonIndicators {
  import opened WinCounts

  /** How many entries `zip(keys, [0] * n)` yields: `zip` stops at the shorter list. */
  function ZipLength(keys: seq<Team>, n: nat): (k: nat)
    ensures k <= |keys| && k <= n
    ensures k == |keys| || k == n
  {
    if n < |keys| then n else |keys|
  }

  /** `dict(zip(keys, [0] * n))`, with `n` the configured number of teams. */
  function ZeroMap(keys: seq<Team>, n: nat): (z: WinCount)
    ensures forall t :: t in z ==> z[t] == 0
    ensures z.Keys <= Elems(keys)
    ensures n >= |keys| ==> z.Keys == Elems(keys)
  {
    map t | t in keys[..ZipLength(keys, n)] :: 0
  }

  /**
    The indicator of one season: the zero dictionary over the key list, with
    every champion written as 1. A champion outside the key list becomes a new key.
   */
  function Indicator(keys: seq<Team>, n: nat, champions: seq<Team>): (r: WinCount)
    ensures NonNegative(r)
    ensures Elems(champions) <= r.Keys
    ensures forall t :: t in r && r[t] > 0 <==> t in champions
  {
    map t | t in ZeroMap(keys, n).Keys + Elems(champions) :: if t in champions then 1 else 0
  }

  /**
    The indicator gives 1 to each champion and 0 to every other team, whatever
    the key list and the configured team count; its keys are the zipped teams
    and the champions.
   */
  lemma IndicatorMarksChampions(keys: seq<Team>, n: nat, champions: seq<Team>)
    ensures NonNegative(Indicator(keys, n, champions))
    ensures forall t :: Get(Indicator(keys, n, champions), t) == if t in champions then 1 else 0
    ensures n >= |keys| ==> Indicator(keys, n, champions).Keys == Elems(keys) + Elems(champions)
  {
  }

  /**
    A champion listed twice still counts once: the indicator depends only on
    the set of champions, because the dictionary entry is assigned, not incremented.
   */
  lemma IndicatorIgnoresRepeats(keys: seq<Team>, n: nat, c1: seq<Team>, c2: seq<Team>)
    requires Elems(c1) == Elems(c2)
    ensures Indicator(keys, n, c1) == Indicator(keys, n, c2)
  {
    assert forall t :: t in c1 <==> t in Elems(c1);
    assert forall t :: t in c2 <==> t in Elems(c2);
  }

  /**
    Read as counts, the indicator does not depend on the key list or on the
    configured team count: those only decide which teams are stored as 0.
   */
  lemma {:induction false} IndicatorKeysIrrelevant(k1: seq<Team>, n1: nat, k2: seq<Team>, n2: nat, champions: seq<Team>)
    ensures Equivalent(Indicator(k1, n1, champions), Indicator(k2, n2, champions))
  {
    IndicatorMarksChampions(k1, n1, champions);
    IndicatorMarksChampions(k2, n2, champions);
  }

  /** A season without champions gives the all-zero dictionary over the zipped teams. */
  lemma IndicatorOfNoChampions(keys: seq<Team>, n: nat)
    ensures Indicator(keys, n, []) == ZeroMap(keys, n)
  {
    assert Elems([]) == {};
  }

  /**
    `classifica_attuale`, built as `calcola_classifiche_singolo_processo` and
    `calcola_classifica_distribuito_map` build it: start from the zero
    dictionary and, champion by champion, store 1.
   */
  method BuildIndicator(keys: seq<Team>, n: nat, champions: seq<Team>) returns (r: WinCount)
    ensures r == Indicator(keys, n, champions)
  {
    r := ZeroMap(keys, n);
    for j := 0 to |champions|
      invariant r.Keys == ZeroMap(keys, n).Keys + Elems(champions[..j])
      invariant forall t :: t in r ==> r[t] == if t in champions[..j] then 1 else 0
    {
      assert champions[..j + 1] == champions[..j] + [champions[j]];
      r := r[champions[j] := 1];
    }
    assert champions[..|champions|] == champions;
  }
}
