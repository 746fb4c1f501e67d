// Lists that are permutations of each other, one element taken out at a time.

module Permutations {
  function Without<T>(items: seq<T>, i: nat): seq<T>
    requires i < |items|
  {
    items[..i] + items[i + 1..]
  }

  lemma WithoutLast<T>(items: seq<T>, i: nat)
    requires i < |items| - 1
    ensures var rest := Without(items, i);
      && rest[|rest| - 1] == items[|items| - 1]
      && rest[..|rest| - 1] == Without(items[..|items| - 1], i)
  {
  }

  lemma TakenOut<T>(items: seq<T>, i: nat)
    requires i < |items|
    ensures multiset(items) == multiset(Without(items, i)) + multiset{items[i]}
  {
    assert items == items[..i] + ([items[i]] + items[i + 1..]);
  }

  lemma SameLess<T>(a: multiset<T>, b: multiset<T>, x: T)
    requires a + multiset{x} == b + multiset{x}
    ensures a == b
  {
    assert a == (a + multiset{x}) - multiset{x};
  }

  lemma PermutedWithout<T>(a: seq<T>, b: seq<T>, i: nat)
    requires a != [] && i < |b| && multiset(a) == multiset(b) && b[i] == a[|a| - 1]
    ensures multiset(a[..|a| - 1]) == multiset(Without(b, i))
  {
    TakenOut(a, |a| - 1);
    TakenOut(b, i);
    assert Without(a, |a| - 1) == a[..|a| - 1];
    SameLess(multiset(a[..|a| - 1]), multiset(Without(b, i)), b[i]);
  }

  /** Where the last element of one permutation stands in the other. */
  lemma LastIsThere<T>(a: seq<T>, b: seq<T>) returns (i: nat)
    requires a != [] && multiset(a) == multiset(b)
    ensures i < |b| && b[i] == a[|a| - 1] && |a| == |b|
    ensures multiset(a[..|a| - 1]) == multiset(Without(b, i))
  {
    assert |a| == |multiset(a)| == |multiset(b)| == |b|;
    assert a[|a| - 1] in multiset(a);
    assert a[|a| - 1] in b;
    i :| 0 <= i < |b| && b[i] == a[|a| - 1];
    PermutedWithout(a, b, i);
  }
}
