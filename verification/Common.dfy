/** Small helpers shared by the models. */
module Common {

  datatype Option<+T> = None | Some(value: T)

  /** No element occurs twice. */
  ghost predicate Distinct<T>(xs: seq<T>) {
    forall i, j :: 0 <= i < j < |xs| ==> xs[i] != xs[j]
  }

  /** Two sequences list the same elements with the same multiplicities. */
  ghost predicate Permutation<T>(xs: seq<T>, ys: seq<T>) {
    multiset(xs) == multiset(ys)
  }

  lemma PermutationMember<T>(xs: seq<T>, ys: seq<T>, x: T)
    requires Permutation(xs, ys) && x in xs
    ensures x in ys
  {
    assert x in multiset(xs);
  }

  lemma PermutationLength<T>(xs: seq<T>, ys: seq<T>)
    requires Permutation(xs, ys)
    ensures |xs| == |ys|
  {
    assert |multiset(xs)| == |xs| && |multiset(ys)| == |ys|;
  }

  /** Taking the same element out of two permutations leaves permutations. */
  lemma PermutationRemove<T>(xs: seq<T>, x: T, ys: seq<T>, j: nat)
    requires j < |ys| && ys[j] == x
    requires Permutation(xs + [x], ys)
    ensures Permutation(xs, ys[..j] + ys[j + 1..])
  {
    assert ys == ys[..j] + [x] + ys[j + 1..];
    assert multiset(ys) == multiset(ys[..j]) + multiset{x} + multiset(ys[j + 1..]);
    assert multiset(xs + [x]) == multiset(xs) + multiset{x};
    assert multiset(xs) == multiset(xs + [x]) - multiset{x};
    assert multiset(ys[..j] + ys[j + 1..]) == multiset(ys) - multiset{x};
  }

  lemma PermutationTail<T>(xs: seq<T>, ys: seq<T>)
    requires Permutation(xs, ys) && xs != [] && ys != [] && xs[0] == ys[0]
    ensures Permutation(xs[1..], ys[1..])
  {
    assert xs == [xs[0]] + xs[1..] && ys == [ys[0]] + ys[1..];
    assert multiset(xs[1..]) == multiset(xs) - multiset{xs[0]};
    assert multiset(ys[1..]) == multiset(ys) - multiset{ys[0]};
  }

  lemma DistinctCount<T>(xs: seq<T>, x: T)
    requires Distinct(xs)
    ensures multiset(xs)[x] <= 1
  {
    if x in xs {
      var k :| 0 <= k < |xs| && xs[k] == x;
      assert xs == xs[..k] + [x] + xs[k + 1..];
      assert x !in xs[..k] && x !in xs[k + 1..];
    }
  }

  lemma RepeatedCount<T>(xs: seq<T>, i: nat, j: nat)
    requires i < j < |xs| && xs[i] == xs[j]
    ensures multiset(xs)[xs[i]] >= 2
  {
    assert xs == xs[..i] + [xs[i]] + xs[i + 1..];
    assert xs[j] in xs[i + 1..];
  }

  lemma PermutationDistinct<T>(xs: seq<T>, ys: seq<T>)
    requires Permutation(xs, ys) && Distinct(xs)
    ensures Distinct(ys)
  {
    forall i, j | 0 <= i < j < |ys|
      ensures ys[i] != ys[j]
    {
      DistinctCount(xs, ys[i]);
      if ys[i] == ys[j] {
        RepeatedCount(ys, i, j);
      }
    }
  }

  lemma PermutationInsert<T>(xs: seq<T>, a: seq<T>, m: seq<T>, b: seq<T>)
    requires Permutation(xs, a + b)
    ensures Permutation(xs + m, a + m + b)
  {
  }
}
