/**
  Championship-count dictionaries and their merge.

  A count dictionary maps a team name to the number of simulated seasons the
  team won. Reading a team that is not a key gives 0, as `dict.get(t, 0)`
  does; two dictionaries are "equivalent" when they agree under that reading.
  `Merge` is the dictionary produced by `dict(Counter(a) + Counter(b))`.
 */
module WinCounts {

  /** A team is identified by its name. */
  type Team = string

  /** A count dictionary: team name to count. */
  type WinCount = map<Team, int>

  /** The count of `t`, where a missing key reads as 0. */
  function Get(m: WinCount, t: Team): int
  {
    if t in m then m[t] else 0
  }

  function Max0(x: int): int
  {
    if x > 0 then x else 0
  }

  /** Every stored count is at least 0. */
  predicate NonNegative(m: WinCount)
  {
    forall t :: t in m ==> m[t] >= 0
  }

  /** Every stored count is strictly positive: no key holds a 0. */
  predicate Positive(m: WinCount)
  {
    forall t :: t in m ==> m[t] > 0
  }

  /** The two dictionaries give every team the same count once missing keys read as 0. */
  ghost predicate Equivalent(a: WinCount, b: WinCount)
  {
    forall t :: Get(a, t) == Get(b, t)
  }

  /** The entries of `m` with a positive count. */
  function Strip(m: WinCount): (r: WinCount)
    ensures Positive(r)
    ensures NonNegative(m) ==> Equivalent(r, m)
  {
    map t | t in m && m[t] > 0 :: m[t]
  }

  /**
    `dict(Counter(a) + Counter(b))`: a key of either side is kept when the sum
    of its two counts is positive, with that sum as its count.
   */
  function Merge(a: WinCount, b: WinCount): (r: WinCount)
    ensures Positive(r)
  {
    map t | t in a.Keys + b.Keys && Get(a, t) + Get(b, t) > 0 :: Get(a, t) + Get(b, t)
  }

  /**
    Read as totals, the merge adds the two counts and clips at 0; a key that is
    absent from both sides reads as 0 on both sides and in the result.
   */
  lemma MergeClipsSum(a: WinCount, b: WinCount)
    ensures forall t :: Get(Merge(a, b), t) == Max0(Get(a, t) + Get(b, t))
  {
  }

  /** On non-negative counts the merge is a pointwise sum, and only positive sums stay keys. */
  lemma MergeIsPointwiseSum(a: WinCount, b: WinCount)
    requires NonNegative(a) && NonNegative(b)
    ensures NonNegative(Merge(a, b))
    ensures forall t :: Get(Merge(a, b), t) == Get(a, t) + Get(b, t)
    ensures forall t :: t in Merge(a, b) <==> Get(a, t) + Get(b, t) > 0
  {
    MergeClipsSum(a, b);
  }

  /** Merging is commutative, for any integer counts and as raw dictionaries. */
  lemma MergeCommutes(a: WinCount, b: WinCount)
    ensures Merge(a, b) == Merge(b, a)
  {
  }

  /** A dictionary without zero entries is determined by the totals it gives. */
  lemma {:induction false} PositiveEquivalentEqual(a: WinCount, b: WinCount)
    requires Positive(a) && Positive(b) && Equivalent(a, b)
    ensures a == b
  {
    forall t | t in a
      ensures t in b && a[t] == b[t]
    {
      assert Get(a, t) == Get(b, t);
    }
    forall t | t in b
      ensures t in a
    {
      assert Get(a, t) == Get(b, t);
    }
  }

  /** Merging non-negative counts is associative, as raw dictionaries. */
  lemma {:induction false} MergeAssociates(a: WinCount, b: WinCount, c: WinCount)
    requires NonNegative(a) && NonNegative(b) && NonNegative(c)
    ensures Merge(Merge(a, b), c) == Merge(a, Merge(b, c))
  {
    MergeIsPointwiseSum(a, b);
    MergeIsPointwiseSum(b, c);
    MergeIsPointwiseSum(Merge(a, b), c);
    MergeIsPointwiseSum(a, Merge(b, c));
    PositiveEquivalentEqual(Merge(Merge(a, b), c), Merge(a, Merge(b, c)));
  }

  /**
    An all-zero dictionary is an identity of the merge up to missing keys: the
    merge keeps the counts of `x` and drops its zero entries.
   */
  lemma {:induction false} MergeZeroIsIdentity(z: WinCount, x: WinCount)
    requires forall t :: t in z ==> z[t] == 0
    requires NonNegative(x)
    ensures Merge(z, x) == Strip(x) && Merge(x, z) == Strip(x)
    ensures Equivalent(Merge(z, x), x)
    ensures Positive(x) ==> Merge(z, x) == x
  {
    MergeIsPointwiseSum(z, x);
    PositiveEquivalentEqual(Merge(z, x), Strip(x));
    MergeCommutes(z, x);
    if Positive(x) {
      PositiveEquivalentEqual(Merge(z, x), x);
    }
  }

  /** Merging in non-negative counts never lowers a team's count. */
  lemma MergeNeverDecreases(a: WinCount, b: WinCount)
    requires NonNegative(b)
    ensures forall t :: Get(a, t) <= Get(Merge(a, b), t)
  {
    MergeClipsSum(a, b);
  }

  /** The sum of the counts that `m` gives the teams of `ks`, missing keys as 0. */
  function SumOver(m: WinCount, ks: seq<Team>): int
  {
    if ks == [] then 0 else SumOver(m, ks[..|ks| - 1]) + Get(m, ks[|ks| - 1])
  }

  /** No team occurs twice in `ks`. */
  predicate Distinct(ks: seq<Team>)
  {
    forall i, j :: 0 <= i < j < |ks| ==> ks[i] != ks[j]
  }

  /** The elements of a sequence of teams. */
  function Elems(s: seq<Team>): set<Team>
  {
    set t | t in s
  }
}
