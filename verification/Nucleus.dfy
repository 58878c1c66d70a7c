/** Nucleus sampling (src/sampler.cpp:18-83) in exact arithmetic.  The exponential, the partial sort and the random
    number are parameters. */
module Nucleus {

  /** What the sampler needs of the exponential; it may reach zero far below, as a rounded one does. */
  ghost predicate IsExponential(exp: real -> real) {
    exp(0.0) == 1.0 && (forall x :: exp(x) >= 0.0) && forall x, y :: x <= y ==> exp(x) <= exp(y)
  }

  /** What `nth_element` promises: a permutation with nothing in front of place `n` below anything from there on. */
  ghost predicate PartitionedAt(logits: seq<real>, before: seq<nat>, n: nat, after: seq<nat>)
    requires Tokens(logits, before)
  {
    && multiset(after) == multiset(before) && |after| == |before| && Tokens(logits, after)
    && forall i, j :: 0 <= i < n <= j < |after| ==> logits[after[i]] >= logits[after[j]]
  }

  /** What `sort` promises: a permutation in descending order. */
  ghost predicate SortedFrom(logits: seq<real>, before: seq<nat>, after: seq<nat>)
    requires Tokens(logits, before)
  {
    && multiset(after) == multiset(before) && |after| == |before| && Tokens(logits, after)
    && forall i, j :: 0 <= i < j < |after| ==> logits[after[i]] >= logits[after[j]]
  }

  ghost predicate Tokens(logits: seq<real>, index: seq<nat>) {
    forall i :: 0 <= i < |index| ==> index[i] < |logits|
  }

  /** The two library calls; either may leave equal logits in any order. */
  datatype Library = Library(nthElement: (seq<nat>, nat) -> seq<nat>, sort: seq<nat> -> seq<nat>)
  {
    ghost predicate Keeps(logits: seq<real>) {
      && (forall s, n: nat :: Tokens(logits, s) && n <= |s| ==> PartitionedAt(logits, s, n, nthElement(s, n)))
      && (forall s :: Tokens(logits, s) ==> SortedFrom(logits, s, sort(s)))
    }
  }

  /** A permutation of the tokens, the first `k` descending, and none of the others above one of those. */
  ghost predicate Selected(logits: seq<real>, index: seq<nat>, k: nat) {
    && |index| == |logits| && k <= |index|
    && (forall i :: 0 <= i < |index| ==> index[i] < |logits|)
    && (forall i, j :: 0 <= i < j < |index| ==> index[i] != index[j])
    && (forall i, j :: 0 <= i < j < k ==> logits[index[i]] >= logits[index[j]])
    && (forall i, j :: 0 <= i < k <= j < |index| ==> logits[index[i]] >= logits[index[j]])
  }

  function Clamp(x: real, low: real, high: real): real {
    if x < low then low else if x > high then high else x
  }

  /** How many tokens are kept: all of them for 0, for a negative number (which wraps around) or for too many. */
  function TopK(k: int, size: nat): (r: nat)
    ensures r <= size && (size > 0 ==> r > 0)
  {
    if k <= 0 || k >= size then size else k
  }

  /** The first of the largest logits (`max_element`). */
  method Argmax(logits: seq<real>) returns (best: nat)
    requires logits != []
    ensures best < |logits| && forall i :: 0 <= i < |logits| ==> logits[i] <= logits[best]
    ensures forall i :: 0 <= i < best ==> logits[i] < logits[best]
  {
    best := 0;
    for i := 1 to |logits|
      invariant best < i && forall j :: 0 <= j < i ==> logits[j] <= logits[best]
      invariant forall j :: 0 <= j < best ==> logits[j] < logits[best]
    {
      if logits[best] < logits[i] { best := i; }
    }
  }

  /** All tokens, the best `k` selected and sorted (lines 29-41). */
  method Arrange(library: Library, logits: seq<real>, k: nat) returns (index: seq<nat>)
    requires library.Keeps(logits) && k <= |logits|
    ensures Selected(logits, index, k)
  {
    index := [];
    for i := 0 to |logits|
      invariant |index| == i && forall j :: 0 <= j < i ==> index[j] == j
    {
      index := index + [i];
    }
    hide PartitionedAt, SortedFrom, Library.Keeps, Selected;
    ghost var all := index;
    Partitions(library, logits, all, k);
    if k != |logits| { index := library.nthElement(index, k); }
    ghost var part := index;
    Sorts(library, logits, all, part, k);
    var best := library.sort(index[..k]);
    index := best + index[k..];
    assert index[..k] == best && index[k..] == part[k..];
    SortedSelects(logits, all, part, index, k);
  }

  lemma Partitions(library: Library, logits: seq<real>, all: seq<nat>, k: nat)
    requires library.Keeps(logits) && k <= |all| && Tokens(logits, all)
    ensures PartitionedAt(logits, all, k, library.nthElement(all, k)) && PartitionedAt(logits, all, |all|, all)
  {
  }

  lemma Sorts(library: Library, logits: seq<real>, all: seq<nat>, part: seq<nat>, k: nat)
    requires library.Keeps(logits) && Tokens(logits, all) && PartitionedAt(logits, all, k, part) && k <= |part|
    ensures |part| == |all| && Tokens(logits, part[..k])
    ensures |library.sort(part[..k])| == k && SortedFrom(logits, part[..k], library.sort(part[..k]))
  {
    assert Tokens(logits, part[..k]);
  }

  lemma SplitAt(s: seq<nat>, k: nat)
    requires k <= |s|
    ensures s[..k] + s[k..] == s && multiset(s) == multiset(s[..k]) + multiset(s[k..])
  {
    assert s[..k] + s[k..] == s;
  }

  lemma SortedSelects(logits: seq<real>, all: seq<nat>, part: seq<nat>, index: seq<nat>, k: nat)
    requires |all| == |logits| && k <= |part| && forall j :: 0 <= j < |all| ==> all[j] == j
    requires PartitionedAt(logits, all, k, part)
    requires |index| == |part| && index[k..] == part[k..] && SortedFrom(logits, part[..k], index[..k])
    ensures Selected(logits, index, k)
  {
    SplitAt(part, k);
    SplitAt(index, k);
    assert multiset(index) == multiset(all);
    AllDifferent(all, index);
    assert forall i :: 0 <= i < |index| ==> index[i] < |logits| by {
      forall i | 0 <= i < |index| ensures index[i] < |logits| { FromBoth(index, part, k, i); }
    }
    forall i, j | 0 <= i < k <= j < |index| ensures logits[index[i]] >= logits[index[j]] {
      assert index[..k][i] in multiset(part[..k]);
      var n :| 0 <= n < k && part[n] == index[i];
      assert index[k..][j - k] == part[k..][j - k];
    }
    forall i, j | 0 <= i < j < k ensures logits[index[i]] >= logits[index[j]] {
      assert index[..k][i] == index[i] && index[..k][j] == index[j];
    }
  }

  lemma FromBoth(index: seq<nat>, part: seq<nat>, k: nat, i: nat)
    requires |index| == |part| && k <= |part| && index[k..] == part[k..] && i < |index|
    requires multiset(index[..k]) == multiset(part[..k])
    ensures index[i] in part
  {
    if i < k {
      assert index[..k][i] in multiset(part[..k]);
    } else {
      assert index[k..][i - k] == part[k..][i - k];
    }
  }

  /** A permutation repeats nothing that was not repeated. */
  lemma AllDifferent(all: seq<nat>, index: seq<nat>)
    requires multiset(index) == multiset(all) && forall j :: 0 <= j < |all| ==> all[j] == j
    ensures forall i, j :: 0 <= i < j < |index| ==> index[i] != index[j]
  {
    forall i, j | 0 <= i < j < |index| ensures index[i] != index[j] {
      if index[i] == index[j] {
        Twice(index, i, j);
        assert index[i] in multiset(all);
        OneOfEach(all, index[i]);
      }
    }
  }

  lemma Twice(s: seq<nat>, i: nat, j: nat)
    requires i < j < |s| && s[i] == s[j]
    ensures multiset(s)[s[i]] >= 2
  {
    SplitAt(s, j);
    assert s[..j][i] == s[i] && s[j..][0] == s[i];
  }

  lemma OneOfEach(all: seq<nat>, x: nat)
    requires x < |all| && forall j :: 0 <= j < |all| ==> all[j] == j
    ensures multiset(all)[x] == 1
  {
    SplitAt(all, x);
    SplitAt(all[x..], 1);
    assert all[x..][..1] == [x];
    assert x !in all[..x] && x !in all[x..][1..];
  }

  /** The tokens in the order the library calls leave them in, at a temperature. */
  datatype Ranking = Ranking(exp: real -> real, logits: seq<real>, index: seq<nat>, t: real) {

    ghost predicate Proper() {
      && IsExponential(exp) && t > 0.0 && index != []
      && forall i :: 0 <= i < |index| ==> index[i] < |logits|
    }

    /** The weight of the `i`-th best token, relative to the best. */
    ghost function Weight(i: nat): real
      requires Proper() && i < |index|
    {
      exp((logits[index[i]] - logits[index[0]]) / t)
    }

    /** The weight of the best `n` tokens together. */
    ghost function Mass(n: nat): real
      requires Proper() && n <= |index|
    {
      if n == 0 then 0.0 else Mass(n - 1) + Weight(n - 1)
    }

    lemma {:induction false} MassGrows(m: nat, n: nat)
      requires Proper() && m <= n <= |index|
      ensures 0.0 <= Mass(m) <= Mass(n)
      ensures m > 0 ==> Mass(m) >= 1.0
      decreases n, m
    {
      if m < n {
        MassGrows(m, n - 1);
      } else if m > 1 {
        MassGrows(m - 1, n - 1);
      }
    }

    /** The prefix kept: the shortest whose mass reaches `p` of that of the best `k`, or all `k`. */
    ghost predicate IsNucleus(k: nat, p: real, len: nat)
      requires Proper() && k <= |index|
    {
      && 0 < len <= k
      && (len < k ==> Mass(len) >= p * Mass(k))
      && forall n :: 0 < n < len ==> Mass(n) < p * Mass(k)
    }

    /** Inverse transform sampling: the first token at which the mass reaches the fraction `u` of the prefix's. */
    ghost predicate IsDraw(len: nat, u: real, j: nat)
      requires Proper() && len <= |index|
    {
      && j < len && Mass(j + 1) >= u * Mass(len)
      && forall n :: 0 < n <= j ==> Mass(n) < u * Mass(len)
    }

    /** A token of weight zero is never drawn. */
    lemma DrawnHasWeight(len: nat, u: real, j: nat)
      requires Proper() && len <= |index| && IsDraw(len, u, j)
      ensures Weight(j) > 0.0
    {
      if j > 0 { assert Mass(j) < u * Mass(len); }
    }

    /** Lines 48-53. */
    method Softmax(k: nat, probs: array<real>) returns (sum: real)
      requires Proper() && 0 < k == probs.Length <= |index|
      modifies probs
      ensures sum == Mass(k) && sum >= 1.0
      ensures forall i :: 0 <= i < k ==> probs[i] == Weight(i)
    {
      sum := 0.0;
      for i := 0 to k
        invariant sum == Mass(i)
        invariant forall j :: 0 <= j < i ==> probs[j] == Weight(j)
      {
        probs[i] := exp((logits[index[i]] - logits[index[0]]) / t);
        sum := sum + probs[i];
      }
      MassGrows(k, k);
    }

    /** Normalise up to the end of the nucleus (lines 55-64). */
    method Cut(k: nat, p: real, sum: real, probs: array<real>) returns (len: nat, cumsum: real)
      requires Proper() && 0 < k == probs.Length <= |index| && sum == Mass(k) && sum > 0.0
      requires forall i :: 0 <= i < k ==> probs[i] == Weight(i)
      modifies probs
      ensures IsNucleus(k, p, len) && cumsum == Over(Mass(len), sum)
      ensures forall i :: 0 <= i < len ==> probs[i] == Over(Weight(i), sum)
    {
      hide Mass, Weight, Proper, Over;
      len, cumsum := k, 0.0;
      MassNone(sum);
      for i := 0 to k
        invariant cumsum == Over(Mass(i), sum)
        invariant forall j :: 0 <= j < i ==> probs[j] == Over(Weight(j), sum)
        invariant forall j :: i <= j < k ==> probs[j] == Weight(j)
        invariant forall n :: 0 < n <= i ==> Mass(n) < p * sum
      {
        probs[i] := Over(probs[i], sum);
        MassStep(i, sum, p);
        cumsum := cumsum + probs[i];
        if cumsum >= p {
          len := i + 1;
          return;
        }
      }
    }

    lemma MassNone(sum: real)
      requires Proper() && sum > 0.0
      ensures Mass(0) == 0.0 == Over(Mass(0), sum)
    {
    }

    lemma MassStep(i: nat, sum: real, p: real)
      requires Proper() && i < |index| && sum > 0.0
      ensures Over(Mass(i), sum) + Over(Weight(i), sum) == Over(Mass(i + 1), sum)
      ensures Over(Mass(i + 1), sum) >= p <==> Mass(i + 1) >= p * sum
    {
      hide Proper, Weight;
      Fractions(Mass(i), Weight(i), sum, p);
    }

    /** Lines 66-82. */
    method Choose(k: nat, len: nat, mass: real, sum: real, u: real, probs: array<real>) returns (j: nat)
      requires Proper() && 0 < len <= k == probs.Length <= |index| && 0.0 <= u <= 1.0
      requires sum > 0.0 && mass == Over(Mass(len), sum)
      requires forall i :: 0 <= i < len ==> probs[i] == Over(Weight(i), sum)
      ensures IsDraw(len, u, j)
    {
      hide Mass, Weight, Proper, Over, IsDraw;
      var random := mass * u;
      var cumsum := 0.0;
      ghost var target := NotPastTheEnd(len, u);
      MassNone(sum);
      j := 0;
      for i := 0 to len
        invariant j == 0 && cumsum == Over(Mass(i), sum)
        invariant forall n :: 0 < n <= i ==> Mass(n) < target
      {
        MassStep(i, sum, 0.0);
        cumsum := cumsum + probs[i];
        Reaches(Mass(i + 1), Mass(len), sum, u, random, target);
        if cumsum >= random {
          j := i;
          break;
        }
      }
      FirstToReach(len, u, j, target);
    }

    lemma FirstToReach(len: nat, u: real, j: nat, target: real)
      requires Proper() && j < len <= |index| && target == u * Mass(len)
      requires Mass(j + 1) >= target && forall n :: 0 < n <= j ==> Mass(n) < target
      ensures IsDraw(len, u, j)
    {
    }

    lemma NotPastTheEnd(len: nat, u: real) returns (target: real)
      requires Proper() && len <= |index| && 0.0 <= u <= 1.0
      ensures target == u * Mass(len) <= Mass(len)
    {
      target := u * Mass(len);
      MassGrows(len, len);
      LessThanItself(Mass(len), u);
    }
  }

  function Over(x: real, s: real): real
    requires s != 0.0
  {
    x / s
  }

  lemma Fractions(a: real, b: real, s: real, p: real)
    requires s > 0.0
    ensures a / s + b / s == (a + b) / s
    ensures (a + b) / s >= p <==> a + b >= p * s
  {
  }

  lemma Reaches(a: real, whole: real, s: real, u: real, random: real, target: real)
    requires s > 0.0 && random == Over(whole, s) * u && target == u * whole
    ensures Over(a, s) >= random <==> a >= target
  {
    assert random * s == target;
    assert (a / s) * s == a;
  }

  lemma LessThanItself(whole: real, u: real)
    requires whole >= 0.0 && 0.0 <= u <= 1.0
    ensures !(whole < u * whole)
  {
  }

  /** The tokens with larger logits. */
  function Above(logits: seq<real>, token: nat): set<nat>
    requires token < |logits|
  {
    set i: nat | i < |logits| && logits[i] > logits[token]
  }

  /** Whatever is drawn from the best `k` has fewer than `k` tokens above it. */
  lemma FewAbove(logits: seq<real>, index: seq<nat>, k: nat, rank: nat)
    requires Selected(logits, index, k) && rank < k
    ensures |Above(logits, index[rank])| <= rank
  {
    EveryToken(logits, index, k);
    var front := set m: nat | m < rank :: index[m];
    AtMost(index, rank, front);
    forall i | i in Above(logits, index[rank]) ensures i in front {
      assert i in index;
      var m :| 0 <= m < |index| && index[m] == i;
      if m >= rank { NotAbove(logits, index, k, rank, m); }
    }
    SmallerSet(Above(logits, index[rank]), front);
  }

  lemma NotAbove(logits: seq<real>, index: seq<nat>, k: nat, rank: nat, m: nat)
    requires Selected(logits, index, k) && rank < k && rank <= m < |index|
    ensures logits[index[m]] <= logits[index[rank]]
  {
  }

  lemma SmallerSet(a: set<nat>, b: set<nat>)
    requires a <= b
    ensures |a| <= |b|
  {
    assert b == a + (b - a);
  }

  lemma {:induction false} AtMost(index: seq<nat>, n: nat, front: set<nat>)
    requires n <= |index| && front == set m: nat | m < n :: index[m]
    ensures |front| <= n
  {
    if n > 0 {
      var fewer := set m: nat | m < n - 1 :: index[m];
      AtMost(index, n - 1, fewer);
      assert front == fewer + {index[n - 1]};
    }
  }

  /** A permutation leaves nothing out. */
  lemma EveryToken(logits: seq<real>, index: seq<nat>, k: nat)
    requires Selected(logits, index, k)
    ensures forall i :: 0 <= i < |logits| ==> i in index
  {
    var all, there := Numbers(|logits|), set m: nat | m < |index| :: index[m];
    AsMany(index, |index|, there);
    assert all == there + (all - there);
    assert |all - there| == 0;
    forall i: nat | i < |logits| ensures i in index { assert i in all && i in there; }
  }

  function Numbers(n: nat): (all: set<nat>)
    ensures |all| == n && forall i: nat :: i in all <==> i < n
  {
    if n == 0 then {} else Numbers(n - 1) + {n - 1}
  }

  lemma {:induction false} AsMany(index: seq<nat>, n: nat, there: set<nat>)
    requires n <= |index| && there == set m: nat | m < n :: index[m]
    requires forall i, j :: 0 <= i < j < |index| ==> index[i] != index[j]
    ensures |there| == n
  {
    if n > 0 {
      var fewer := set m: nat | m < n - 1 :: index[m];
      AsMany(index, n - 1, fewer);
      assert there == fewer + {index[n - 1]} && index[n - 1] !in fewer;
    }
  }

  /** The whole of src/sampler.cpp:18-83; `u` is the uniform number. */
  method Sample(exp: real -> real, logits: seq<real>, temperature: real, topK: int, topP: real,
                library: Library, u: real)
    returns (token: nat, ghost index: seq<nat>, ghost len: nat, ghost rank: nat)
    requires logits != [] && IsExponential(exp) && 0.0 <= u <= 1.0 && library.Keeps(logits)
    ensures token < |logits|
    // asked for some number of candidates, fewer tokens than that are better than the one returned
    ensures 1 <= topK <= |logits| ==> |Above(logits, token)| < topK
    // one candidate or no mass asked for: the first of the best
    ensures topK == 1 || |logits| == 1 || -0.0001 < topP < 0.0001 ==>
      (forall i :: 0 <= i < |logits| ==> logits[i] <= logits[token]) &&
      forall i :: 0 <= i < token ==> logits[i] < logits[token]
    // otherwise the draw from the nucleus of the candidates, at the temperature given or the nearest in range
    ensures topK != 1 && |logits| != 1 && !(-0.0001 < topP < 0.0001) ==>
      var k := if 1 <= topK <= |logits| then topK else |logits|;
      var t := if temperature < 0.1 then 0.1 else if temperature > 5.0 then 5.0 else temperature;
      var ranking := Ranking(exp, logits, index, t);
      && Selected(logits, index, k) && ranking.Proper()
      && ranking.IsNucleus(k, topP, len) && ranking.IsDraw(len, u, rank)
      && token == ranking.index[rank] && ranking.Weight(rank) > 0.0
  {
    var t := Clamp(temperature, 0.1, 5.0);
    var k := TopK(topK, |logits|);
    index, len, rank := [], 1, 0;
    if Greedy(topK, topP, |logits|) {
      token := Argmax(logits);
      assert Above(logits, token) == {};
      return;
    }
    var order := Arrange(library, logits, k);
    index := order;
    var ranking := Ranking(exp, logits, order, t);
    var probs := new real[k];
    var sum := ranking.Softmax(k, probs);
    var kept, cumsum := ranking.Cut(k, topP, sum, probs);
    var j := ranking.Choose(k, kept, cumsum, sum, u, probs);
    len, rank, token := kept, j, ranking.index[j];
    ranking.DrawnHasWeight(len, u, rank);
    FewAbove(logits, index, k, rank);
  }

  /** One candidate, or no mass asked for: the sampler returns the best token (lines 26-27). */
  predicate Greedy(topK: int, topP: real, size: nat) {
    TopK(topK, size) == 1 || -0.0001 < topP < 0.0001
  }
}
