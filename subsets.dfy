/** The subset search of the duration resolver: every way of writing a tick
    length as a sum of distinct table entries, in the order of the parser's
    recursive include-first search. */
module SubsetSearch {

  predicate StrictlyIncreasing(xs: seq<int>) {
    forall i, j :: 0 <= i < j < |xs| ==> xs[i] < xs[j]
  }

  function Sum(xs: seq<int>): int
  {
    if xs == [] then 0 else Sum(xs[..|xs| - 1]) + xs[|xs| - 1]
  }

  /** `u` picks table entries at most once each (in ascending order) and they add up to `sum`. */
  predicate IsSubsetSum(xs: seq<int>, sum: int, u: seq<int>)
  {
    StrictlyIncreasing(u) && (forall k :: 0 <= k < |u| ==> u[k] in xs) && Sum(u) == sum
  }

  /** What `fork(i, s, t)` pushes, in push order: `t` is the picked prefix and `s` its sum. */
  function ForkResults(xs: seq<int>, sum: int, i: nat, s: int, t: seq<int>): seq<seq<int>>
    requires i <= |xs|
    decreases |xs| - i
  {
    if s == sum then [t]
    else if i == |xs| then []
    else
      (if s + xs[i] <= sum then ForkResults(xs, sum, i + 1, s + xs[i], t + [xs[i]]) else []) +
      ForkResults(xs, sum, i + 1, s, t)
  }

  /** `getSubsets(xs, sum)`. With nothing to reach, the one answer is the empty pick. */
  function Subsets(xs: seq<int>, sum: int): (r: seq<seq<int>>)
    ensures sum == 0 ==> r == [[]]
  {
    ForkResults(xs, sum, 0, 0, [])
  }

  /** `fork(i, s, t)`: the recursive search; returns the picks it pushes onto the result, in order. */
  method Fork(xs: seq<int>, sum: int, i: nat, s: int, t: seq<int>) returns (pushed: seq<seq<int>>)
    requires i <= |xs|
    ensures pushed == ForkResults(xs, sum, i, s, t)
    decreases |xs| - i
  {
    if s == sum {
      pushed := [t];
    } else if i == |xs| {
      pushed := [];
    } else {
      var withEntry := [];
      if s + xs[i] <= sum {
        withEntry := Fork(xs, sum, i + 1, s + xs[i], t + [xs[i]]);
      }
      var withoutEntry := Fork(xs, sum, i + 1, s, t);
      pushed := withEntry + withoutEntry;
    }
  }

  method GetSubsets(xs: seq<int>, sum: int) returns (result: seq<seq<int>>)
    ensures result == Subsets(xs, sum)
  {
    result := Fork(xs, sum, 0, 0, []);
  }

  /** One step of the search: the picks with entry `i` come before the picks without it. */
  lemma ForkSplit(xs: seq<int>, sum: int, i: nat, s: int, t: seq<int>)
    requires i < |xs| && s != sum
    ensures ForkResults(xs, sum, i, s, t) ==
            (if s + xs[i] <= sum then ForkResults(xs, sum, i + 1, s + xs[i], t + [xs[i]]) else []) +
            ForkResults(xs, sum, i + 1, s, t)
  {
  }

  /** `u` is a subsequence of `xs[i..]`. */
  predicate Picks(xs: seq<int>, i: nat, u: seq<int>)
    requires i <= |xs|
    decreases |xs| - i
  {
    if u == [] then true
    else if i == |xs| then false
    else (u[0] == xs[i] && Picks(xs, i + 1, u[1..])) || Picks(xs, i + 1, u)
  }

  lemma {:induction false} SumCons(x: int, v: seq<int>)
    ensures Sum([x] + v) == x + Sum(v)
    decreases |v|
  {
    if v == [] {
      assert [x] + v == [x];
      assert [x][..0] == [];
    } else {
      assert ([x] + v)[..|[x] + v| - 1] == [x] + v[..|v| - 1];
      SumCons(x, v[..|v| - 1]);
    }
  }

  lemma {:induction false} SumPositive(v: seq<int>)
    requires forall k :: 0 <= k < |v| ==> v[k] > 0
    ensures v != [] ==> Sum(v) > 0
    ensures Sum(v) >= 0
    decreases |v|
  {
    if v != [] {
      SumPositive(v[..|v| - 1]);
    }
  }

  /** Every pick the search pushes is a subset sum of the table. */
  lemma {:induction false} ForkSound(xs: seq<int>, sum: int, i: nat, s: int, t: seq<int>)
    requires i <= |xs| && StrictlyIncreasing(xs)
    requires Sum(t) == s && StrictlyIncreasing(t) && forall k :: 0 <= k < |t| ==> t[k] in xs
    requires t != [] && i < |xs| ==> t[|t| - 1] < xs[i]
    ensures forall r :: r in ForkResults(xs, sum, i, s, t) ==> IsSubsetSum(xs, sum, r)
    decreases |xs| - i
  {
    if s != sum && i < |xs| {
      var t' := t + [xs[i]];
      assert t'[..|t'| - 1] == t;
      if s + xs[i] <= sum {
        ForkSound(xs, sum, i + 1, s + xs[i], t');
      }
      ForkSound(xs, sum, i + 1, s, t);
    }
  }

  /** Every subsequence of the remaining entries that completes the sum is pushed after the picked prefix. */
  lemma {:induction false} ForkComplete(xs: seq<int>, sum: int, i: nat, s: int, t: seq<int>, u: seq<int>)
    requires i <= |xs| && Picks(xs, i, u) && s + Sum(u) == sum
    requires forall k :: 0 <= k < |u| ==> u[k] > 0
    ensures t + u in ForkResults(xs, sum, i, s, t)
    decreases |xs| - i, 1
  {
    if u == [] {
      assert t + u == t;
    } else {
      assert i < |xs| && s != sum by {
        SumPositive(u);
      }
      if u[0] == xs[i] && Picks(xs, i + 1, u[1..]) {
        CompleteWith(xs, sum, i, s, t, u);
      } else {
        CompleteWithout(xs, sum, i, s, t, u);
      }
    }
  }

  /** The case where the pick takes entry `i`: it is found in the first half of the search. */
  lemma {:induction false} CompleteWith(xs: seq<int>, sum: int, i: nat, s: int, t: seq<int>, u: seq<int>)
    requires i < |xs| && s != sum && u != [] && u[0] == xs[i] && Picks(xs, i + 1, u[1..])
    requires s + Sum(u) == sum && forall k :: 0 <= k < |u| ==> u[k] > 0
    ensures t + u in ForkResults(xs, sum, i, s, t)
    decreases |xs| - i, 0
  {
    assert s + xs[i] + Sum(u[1..]) == sum && s + xs[i] <= sum by {
      SumCons(u[0], u[1..]);
      assert [u[0]] + u[1..] == u;
      SumPositive(u[1..]);
    }
    assert forall k :: 0 <= k < |u[1..]| ==> u[1..][k] > 0 by {
      forall k | 0 <= k < |u[1..]| ensures u[1..][k] > 0 {
        assert u[1..][k] == u[k + 1];
      }
    }
    var t' := t + [xs[i]];
    ForkComplete(xs, sum, i + 1, s + xs[i], t', u[1..]);
    MoveHead(t, u);
    PushedWith(xs, sum, i, s, t, t + u);
  }

  /** The case where the pick skips entry `i`: it is found in the second half of the search. */
  lemma {:induction false} CompleteWithout(xs: seq<int>, sum: int, i: nat, s: int, t: seq<int>, u: seq<int>)
    requires i < |xs| && s != sum && Picks(xs, i + 1, u)
    requires s + Sum(u) == sum && forall k :: 0 <= k < |u| ==> u[k] > 0
    ensures t + u in ForkResults(xs, sum, i, s, t)
    decreases |xs| - i, 0
  {
    ForkComplete(xs, sum, i + 1, s, t, u);
    PushedWithout(xs, sum, i, s, t, t + u);
  }

  lemma MoveHead(t: seq<int>, u: seq<int>)
    requires u != []
    ensures (t + [u[0]]) + u[1..] == t + u
  {
    assert [u[0]] + u[1..] == u;
    assert (t + [u[0]]) + u[1..] == t + ([u[0]] + u[1..]);
  }

  lemma PushedWith(xs: seq<int>, sum: int, i: nat, s: int, t: seq<int>, v: seq<int>)
    requires i < |xs| && s != sum && s + xs[i] <= sum
    requires v in ForkResults(xs, sum, i + 1, s + xs[i], t + [xs[i]])
    ensures v in ForkResults(xs, sum, i, s, t)
  {
    ForkSplit(xs, sum, i, s, t);
  }

  lemma PushedWithout(xs: seq<int>, sum: int, i: nat, s: int, t: seq<int>, v: seq<int>)
    requires i < |xs| && s != sum
    requires v in ForkResults(xs, sum, i + 1, s, t)
    ensures v in ForkResults(xs, sum, i, s, t)
  {
    ForkSplit(xs, sum, i, s, t);
  }

  /** An ascending list of entries of an ascending table is a subsequence of it. */
  lemma {:induction false} AscendingPicks(xs: seq<int>, i: nat, u: seq<int>)
    requires i <= |xs| && StrictlyIncreasing(xs) && StrictlyIncreasing(u)
    requires forall k :: 0 <= k < |u| ==> u[k] in xs[i..]
    ensures Picks(xs, i, u)
    decreases |xs| - i
  {
    if u != [] {
      assert u[0] in xs[i..];
      if u[0] == xs[i] {
        TailAfter(xs, i, u);
        AscendingPicks(xs, i + 1, u[1..]);
      } else {
        SkipFirst(xs, i, u);
        AscendingPicks(xs, i + 1, u);
      }
    }
  }

  /** If an ascending pick starts with entry `i`, the rest of it lies after entry `i`. */
  lemma TailAfter(xs: seq<int>, i: nat, u: seq<int>)
    requires i < |xs| && StrictlyIncreasing(xs) && StrictlyIncreasing(u) && u != [] && u[0] == xs[i]
    requires forall k :: 0 <= k < |u| ==> u[k] in xs[i..]
    ensures forall k :: 0 <= k < |u[1..]| ==> u[1..][k] in xs[i + 1..]
  {
    forall k | 0 <= k < |u[1..]| ensures u[1..][k] in xs[i + 1..] {
      assert u[1..][k] == u[k + 1] && u[0] < u[k + 1];
      var j :| 0 <= j < |xs[i..]| && xs[i..][j] == u[k + 1];
      assert xs[i + j] == u[k + 1];
      assert j != 0;
      assert xs[i + 1..][j - 1] == u[k + 1];
    }
  }

  /** If an ascending pick does not start with entry `i`, all of it lies after entry `i`. */
  lemma SkipFirst(xs: seq<int>, i: nat, u: seq<int>)
    requires i < |xs| && StrictlyIncreasing(xs) && StrictlyIncreasing(u) && u != [] && u[0] != xs[i]
    requires forall k :: 0 <= k < |u| ==> u[k] in xs[i..]
    ensures forall k :: 0 <= k < |u| ==> u[k] in xs[i + 1..]
  {
    var j0 :| 0 <= j0 < |xs[i..]| && xs[i..][j0] == u[0];
    assert xs[i + j0] == u[0] && j0 != 0;
    forall k | 0 <= k < |u| ensures u[k] in xs[i + 1..] {
      var j :| 0 <= j < |xs[i..]| && xs[i..][j] == u[k];
      assert xs[i + j] == u[k];
      assert j != 0;
      assert xs[i + 1..][j - 1] == u[k];
    }
  }

  /** The search finds exactly the subset sums of the table: a pick is returned
      if and only if it uses each entry at most once and adds up to `sum`. */
  lemma SubsetsExact(xs: seq<int>, sum: int, u: seq<int>)
    requires StrictlyIncreasing(xs) && forall k :: 0 <= k < |xs| ==> xs[k] > 0
    ensures u in Subsets(xs, sum) <==> IsSubsetSum(xs, sum, u)
  {
    ForkSound(xs, sum, 0, 0, []);
    if IsSubsetSum(xs, sum, u) {
      assert xs[0..] == xs;
      AscendingPicks(xs, 0, u);
      ForkComplete(xs, sum, 0, 0, [], u);
      assert [] + u == u;
    }
  }
}
