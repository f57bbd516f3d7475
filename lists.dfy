/** Sequence operations behind list comprehensions and `for … : if …: append` loops. */
module Lists {

  /** `[x for x in s if keep(x)]`: the elements that pass, in their order, duplicates kept. */
  function Filter<T(!new)>(s: seq<T>, keep: T -> bool): (r: seq<T>)
    ensures |r| <= |s|
    ensures forall x :: x in r <==> x in s && keep(x)
  {
    if s == [] then []
    else
      assert s == [s[0]] + s[1..];
      (if keep(s[0]) then [s[0]] else []) + Filter(s[1..], keep)
  }

  /** Filtering distributes over concatenation, so it keeps the order of the input. */
  lemma {:induction false} FilterAppend<T(!new)>(s: seq<T>, t: seq<T>, keep: T -> bool)
    ensures Filter(s + t, keep) == Filter(s, keep) + Filter(t, keep)
  {
    if s == [] {
      assert s + t == t;
    } else {
      assert (s + t)[1..] == s[1..] + t;
      FilterAppend(s[1..], t, keep);
    }
  }

  /** Each element that passes keeps its multiplicity, each other element is gone. */
  lemma {:induction false} FilterMultiset<T(!new)>(s: seq<T>, keep: T -> bool, x: T)
    ensures multiset(Filter(s, keep))[x] == if keep(x) then multiset(s)[x] else 0
  {
    if s != [] {
      assert s == [s[0]] + s[1..];
      FilterMultiset(s[1..], keep, x);
    }
  }

  /** Filtering two orderings of the same elements gives two orderings of the same result. */
  lemma FilterPermutation<T(!new)>(s: seq<T>, t: seq<T>, keep: T -> bool)
    requires multiset(s) == multiset(t)
    ensures multiset(Filter(s, keep)) == multiset(Filter(t, keep))
  {
    forall x
      ensures multiset(Filter(s, keep))[x] == multiset(Filter(t, keep))[x]
    {
      FilterMultiset(s, keep, x);
      FilterMultiset(t, keep, x);
    }
  }

  /** `[f(x) for x in s]`. */
  function Map<A, B>(s: seq<A>, f: A -> B): (r: seq<B>)
    ensures |r| == |s|
    ensures forall i :: 0 <= i < |s| ==> r[i] == f(s[i])
  {
    if s == [] then [] else [f(s[0])] + Map(s[1..], f)
  }

  lemma MapAppend<A, B>(s: seq<A>, t: seq<A>, f: A -> B)
    ensures Map(s + t, f) == Map(s, f) + Map(t, f)
  {
  }

  /** Removing the element at `k` removes one occurrence from the multiset. */
  lemma MultisetRemove<A>(t: seq<A>, k: nat)
    requires k < |t|
    ensures multiset(t[..k] + t[k + 1..]) == multiset(t) - multiset{t[k]}
  {
    SplitAt(t, k);
    MultisetMiddle(t[..k], t[k], t[k + 1..]);
  }

  /** A sequence is its part before `k`, its `k`th element and its part after `k`. */
  lemma SplitAt<A>(t: seq<A>, k: nat)
    requires k < |t|
    ensures t == t[..k] + [t[k]] + t[k + 1..]
  {
  }

  /** The image of a sequence split at `k` is the split of its image. */
  lemma MapSplit<A, B>(t: seq<A>, k: nat, f: A -> B)
    requires k < |t|
    ensures Map(t, f) == Map(t[..k], f) + [f(t[k])] + Map(t[k + 1..], f)
  {
    SplitAt(t, k);
    MapAppend(t[..k] + [t[k]], t[k + 1..], f);
    MapAppend(t[..k], [t[k]], f);
  }

  lemma MultisetMiddle<B>(a: seq<B>, y: B, b: seq<B>)
    ensures multiset(a + [y] + b) == multiset(a + b) + multiset{y}
  {
  }

  /** The image of `t` is the image of `t` without its `k`th element, plus that element's image. */
  lemma MapRemove<A, B>(t: seq<A>, k: nat, f: A -> B)
    requires k < |t|
    ensures multiset(Map(t, f)) == multiset(Map(t[..k] + t[k + 1..], f)) + multiset{f(t[k])}
  {
    MapSplit(t, k, f);
    MapAppend(t[..k], t[k + 1..], f);
    MultisetMiddle(Map(t[..k], f), f(t[k]), Map(t[k + 1..], f));
  }

  /** Taking the same element out of two orderings of one multiset leaves two orderings of one multiset. */
  lemma RemoveMatching<A>(s: seq<A>, t: seq<A>, k: nat)
    requires multiset(s) == multiset(t) && s != [] && k < |t| && t[k] == s[0]
    ensures multiset(s[1..]) == multiset(t[..k] + t[k + 1..])
  {
    MultisetRemove(t, k);
    assert s == [s[0]] + s[1..];
  }

  /** The image of a non-empty sequence is its head's image plus the image of the rest. */
  lemma MapCons<A, B>(s: seq<A>, f: A -> B)
    requires s != []
    ensures multiset(Map(s, f)) == multiset(Map(s[1..], f)) + multiset{f(s[0])}
  {
    assert Map(s, f) == [f(s[0])] + Map(s[1..], f);
  }

  /** Mapping two orderings of the same elements gives two orderings of the same images. */
  lemma {:induction false} MapPermutation<A, B>(s: seq<A>, t: seq<A>, f: A -> B)
    requires multiset(s) == multiset(t)
    ensures multiset(Map(s, f)) == multiset(Map(t, f))
    decreases |s|
  {
    if s == [] {
      assert |multiset(t)| == 0;
      assert t == [];
    } else {
      assert s[0] in multiset(t);
      var k :| 0 <= k < |t| && t[k] == s[0];
      RemoveMatching(s, t, k);
      MapPermutation(s[1..], t[..k] + t[k + 1..], f);
      MapRemove(t, k, f);
      MapCons(s, f);
    }
  }
}
