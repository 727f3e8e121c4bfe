/*
 * The parent population between and during generations: resizing it,
 * counting and grouping the individuals environmental selection marked, and
 * truncating the grouped pool back to mu survivors.
 */
module Population {
  import opened Base

  /** std::vector::resize: existing slots are kept, new slots get `filler`. */
  function Resize<T>(s: seq<T>, n: nat, filler: T): (r: seq<T>)
    ensures |r| == n
    ensures forall i :: 0 <= i < n ==> r[i] == if i < |s| then s[i] else filler
  {
    if n <= |s| then s[..n] else s + seq(n - |s|, _ => filler)
  }

  /** The best-point archive entry for every individual, in order. */
  function Mirror(parents: seq<Individual>): seq<BestPoint>
  {
    seq(|parents|, i requires 0 <= i < |parents| =>
      BestPoint(parents[i].point, parents[i].unpenalizedFitness))
  }

  /** The loop that copies each parent's point and unpenalized fitness into the archive. */
  method MirrorInto(parents: seq<Individual>, best: seq<BestPoint>) returns (r: seq<BestPoint>)
    requires |best| == |parents|
    ensures r == Mirror(parents)
  {
    r := best;
    var i := 0;
    while i < |parents|
      invariant 0 <= i <= |parents|
      invariant |r| == |parents|
      invariant forall j :: 0 <= j < i ==>
        r[j] == BestPoint(parents[j].point, parents[j].unpenalizedFitness)
    {
      r := r[i := BestPoint(parents[i].point, parents[i].unpenalizedFitness)];
      i := i + 1;
    }
  }

  /** The pool after selection: individual i is selected iff i is in `chosen`. */
  function Mark(pool: seq<Individual>, chosen: set<nat>): (r: seq<Individual>)
    ensures |r| == |pool|
    ensures forall i :: 0 <= i < |r| ==>
      r[i] == pool[i].(selected := r[i].selected) && (r[i].selected <==> i in chosen)
  {
    seq(|pool|, i requires 0 <= i < |pool| => pool[i].(selected := i in chosen))
  }

  /** How many individuals of `s` are marked selected. */
  function SelectedCount(s: seq<Individual>): (c: nat)
    ensures c <= |s|
  {
    if s == [] then 0 else (if s[0].selected then 1 else 0) + SelectedCount(s[1..])
  }

  lemma {:induction false} SelectedCountAppend(a: seq<Individual>, b: seq<Individual>)
    ensures SelectedCount(a + b) == SelectedCount(a) + SelectedCount(b)
  {
    if a == [] {
      assert a + b == b;
    } else {
      assert (a + b)[0] == a[0];
      assert (a + b)[1..] == a[1..] + b;
      SelectedCountAppend(a[1..], b);
    }
  }

  /** Removing position j from `t` removes its contribution to the count. */
  lemma SelectedCountRemove(t: seq<Individual>, j: nat)
    requires j < |t|
    ensures SelectedCount(t) == (if t[j].selected then 1 else 0) + SelectedCount(t[..j] + t[j + 1..])
  {
    assert t == t[..j] + ([t[j]] + t[j + 1..]);
    SelectedCountAppend(t[..j], [t[j]] + t[j + 1..]);
    SelectedCountAppend([t[j]], t[j + 1..]);
    SelectedCountAppend(t[..j], t[j + 1..]);
    assert [t[j]][1..] == [];
  }

  /** The selected count depends only on the multiset of individuals. */
  lemma {:induction false} SelectedCountPermutation(s: seq<Individual>, t: seq<Individual>)
    requires multiset(s) == multiset(t)
    ensures SelectedCount(s) == SelectedCount(t)
    decreases |s|
  {
    if s == [] {
      assert |t| == |multiset(t)| == 0;
    } else {
      var x := s[0];
      assert x in multiset(s);
      assert x in t;
      var j :| 0 <= j < |t| && t[j] == x;
      var rest := t[..j] + t[j + 1..];
      assert multiset(rest) == multiset(s[1..]) by {
        assert t == t[..j] + [x] + t[j + 1..];
        assert multiset(t) == multiset(t[..j]) + multiset{x} + multiset(t[j + 1..]);
        assert multiset(rest) == multiset(t[..j]) + multiset(t[j + 1..]);
        assert s == [x] + s[1..];
        assert multiset(s) == multiset{x} + multiset(s[1..]);
        forall y
          ensures multiset(rest)[y] == multiset(s[1..])[y]
        {
          assert multiset(t)[y] == multiset(s)[y];
        }
      }
      SelectedCountPermutation(s[1..], rest);
      SelectedCountRemove(t, j);
    }
  }

  /** A sequence that is all selected, or all unselected, is counted as such. */
  lemma {:induction false} UniformCount(s: seq<Individual>)
    ensures (forall i :: 0 <= i < |s| ==> s[i].selected) ==> SelectedCount(s) == |s|
    ensures (forall i :: 0 <= i < |s| ==> !s[i].selected) ==> SelectedCount(s) == 0
  {
    if s != [] {
      UniformCount(s[1..]);
    }
  }

  /** `t` is grouped at `k`: the first k are selected, the rest are not. */
  predicate GroupedAt(t: seq<Individual>, k: nat)
  {
    k <= |t| &&
    (forall m :: 0 <= m < k ==> t[m].selected) &&
    (forall m :: k <= m < |t| ==> !t[m].selected)
  }

  /** std::iter_swap on two positions of the pool. */
  method Swap(a: array<Individual>, i: nat, j: nat)
    requires i < a.Length && j < a.Length
    modifies a
    ensures a[i] == old(a[j]) && a[j] == old(a[i])
    ensures forall m :: 0 <= m < a.Length && m != i && m != j ==> a[m] == old(a[m])
    ensures multiset(a[..]) == old(multiset(a[..]))
  {
    a[i], a[j] := a[j], a[i];
  }

  /**
   * std::partition over the pool by the selected flag, as the two-ended swap
   * loop of a bidirectional-iterator partition. Returns the partition point.
   */
  method Partition(a: array<Individual>) returns (k: nat)
    modifies a
    ensures GroupedAt(a[..], k)
    ensures multiset(a[..]) == old(multiset(a[..]))
  {
    var i, j := 0, a.Length;
    while i < j
      invariant 0 <= i <= j <= a.Length
      invariant forall m :: 0 <= m < i ==> a[m].selected
      invariant forall m :: j <= m < a.Length ==> !a[m].selected
      invariant multiset(a[..]) == old(multiset(a[..]))
    {
      if a[i].selected {
        i := i + 1;
      } else if !a[j - 1].selected {
        j := j - 1;
      } else {
        Swap(a, i, j - 1);
        i, j := i + 1, j - 1;
      }
    }
    k := i;
    assert GroupedAt(a[..], k);
  }

  /**
   * What erasing everything from begin()+mu leaves of a pool grouped at k:
   * k is the selected count; when k <= mu every copy of every selected
   * individual survives; when k >= mu every survivor is selected.
   */
  lemma TruncationFacts(t: seq<Individual>, k: nat, mu: nat)
    requires GroupedAt(t, k) && mu <= |t|
    ensures SelectedCount(t) == k
    ensures multiset(t[..mu]) <= multiset(t)
    ensures k <= mu ==> forall x :: x in t && x.selected ==> multiset(t[..mu])[x] == multiset(t)[x]
    ensures k >= mu ==> forall i :: 0 <= i < mu ==> t[i].selected
  {
    GroupedCount(t, k);
    SplitMultiset(t, mu);
    if k <= mu {
      forall x | x in t && x.selected
        ensures multiset(t[..mu])[x] == multiset(t)[x]
      {
        assert x !in t[mu..];
      }
    }
  }

  lemma GroupedCount(t: seq<Individual>, k: nat)
    requires GroupedAt(t, k)
    ensures SelectedCount(t) == k
  {
    assert t == t[..k] + t[k..];
    SelectedCountAppend(t[..k], t[k..]);
    UniformCount(t[..k]);
    UniformCount(t[k..]);
  }

  lemma SplitMultiset(t: seq<Individual>, mu: nat)
    requires mu <= |t|
    ensures multiset(t) == multiset(t[..mu]) + multiset(t[mu..])
  {
    assert t == t[..mu] + t[mu..];
  }

  /**
   * The survivors of one generation, drawn from a marked pool: exactly mu of
   * them, taken from the pool, selected ones first; if at most mu were
   * selected, all copies of every selected individual survive, and if at
   * least mu were selected, only selected ones survive.
   */
  ghost predicate Survivors(pool: seq<Individual>, s: seq<Individual>, mu: nat)
  {
    |s| == mu &&
    multiset(s) <= multiset(pool) &&
    (forall i, j :: 0 <= i < j < |s| && s[j].selected ==> s[i].selected) &&
    (SelectedCount(pool) <= mu ==>
      forall x :: x in pool && x.selected ==> multiset(s)[x] == multiset(pool)[x]) &&
    (SelectedCount(pool) >= mu ==> forall x :: x in s ==> x.selected)
  }

  /** Partition the marked pool in place and keep its first mu members. */
  method PartitionTruncate(pool: seq<Individual>, mu: nat) returns (survivors: seq<Individual>)
    requires mu <= |pool|
    ensures Survivors(pool, survivors, mu)
  {
    var a := new Individual[|pool|](i requires 0 <= i < |pool| => pool[i]);
    assert a[..] == pool;
    var k := Partition(a);
    var t := a[..];
    survivors := t[..mu];
    TruncationFacts(t, k, mu);
    SelectedCountPermutation(pool, t);
    forall x | x in pool
      ensures x in t
    {
      assert x in multiset(pool);
    }
  }
}
