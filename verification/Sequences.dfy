/** Folds over sequences that grow at the end, shared by every component. */
module Sequences {

  datatype Option<+T> = None | Some(value: T)

  /** The elements of s that satisfy p, in their original order. */
  function Filter<T>(p: T -> bool, s: seq<T>): (r: seq<T>)
  {
    if s == [] then []
    else
      var rest := Filter(p, s[..|s| - 1]);
      if p(s[|s| - 1]) then rest + [s[|s| - 1]] else rest
  }

  lemma FilterAppend<T>(p: T -> bool, s: seq<T>, x: T)
    ensures Filter(p, s + [x]) == if p(x) then Filter(p, s) + [x] else Filter(p, s)
  {
    assert (s + [x])[..|s|] == s;
  }

  lemma {:induction false} FilterConcat<T>(p: T -> bool, a: seq<T>, b: seq<T>)
    ensures Filter(p, a + b) == Filter(p, a) + Filter(p, b)
  {
    if b == [] {
      assert a + b == a;
    } else {
      var front, x := b[..|b| - 1], b[|b| - 1];
      FilterConcat(p, a, front);
      FilterAppend(p, a + front, x);
      assert a + b == a + front + [x];
    }
  }

  lemma {:induction false} FilterMembers<T>(p: T -> bool, s: seq<T>, x: T)
    ensures x in Filter(p, s) <==> x in s && p(x)
  {
    if s == [] {
    } else {
      FilterMembers(p, s[..|s| - 1], x);
      assert s == s[..|s| - 1] + [s[|s| - 1]];
    }
  }

  /** Filtering keeps each chosen element's multiplicity. */
  lemma {:induction false} FilterMultiplicity<T>(p: T -> bool, s: seq<T>, x: T)
    ensures multiset(Filter(p, s))[x] == if p(x) then multiset(s)[x] else 0
  {
    if s == [] {
    } else {
      FilterMultiplicity(p, s[..|s| - 1], x);
      assert s == s[..|s| - 1] + [s[|s| - 1]];
    }
  }

  lemma SameMultiplicities<T(!new)>(a: multiset<T>, b: multiset<T>)
    requires forall x: T :: a[x] == b[x]
    ensures a == b
  {
  }

  /** Rearranging a sequence does not change how many elements satisfy p. */
  lemma FilterOfPermutation<T(!new)>(p: T -> bool, a: seq<T>, b: seq<T>)
    requires multiset(a) == multiset(b)
    ensures |Filter(p, a)| == |Filter(p, b)|
  {
    var chosenA, chosenB := multiset(Filter(p, a)), multiset(Filter(p, b));
    forall x: T ensures chosenA[x] == chosenB[x] {
      FilterMultiplicity(p, a, x);
      FilterMultiplicity(p, b, x);
    }
    SameMultiplicities(chosenA, chosenB);
    assert |chosenA| == |Filter(p, a)| && |chosenB| == |Filter(p, b)|;
  }

  lemma {:induction false} FilterAll<T>(p: T -> bool, s: seq<T>)
    requires forall x :: x in s ==> p(x)
    ensures Filter(p, s) == s
  {
    if s == [] {
    } else {
      FilterAll(p, s[..|s| - 1]);
      assert s == s[..|s| - 1] + [s[|s| - 1]];
    }
  }

  lemma {:induction false} FilterNone<T>(p: T -> bool, s: seq<T>)
    requires forall x :: x in s ==> !p(x)
    ensures Filter(p, s) == []
  {
    if s == [] {
    } else {
      FilterNone(p, s[..|s| - 1]);
      assert s[|s| - 1] in s;
    }
  }

  /** The sum of f over s. */
  function Total<T>(f: T -> nat, s: seq<T>): nat
  {
    if s == [] then 0 else Total(f, s[..|s| - 1]) + f(s[|s| - 1])
  }

  lemma TotalAppend<T>(f: T -> nat, s: seq<T>, x: T)
    ensures Total(f, s + [x]) == Total(f, s) + f(x)
  {
    assert (s + [x])[..|s|] == s;
  }

  lemma {:induction false} TotalUpdate<T>(f: T -> nat, s: seq<T>, i: nat, x: T)
    requires i < |s|
    ensures Total(f, s[i := x]) + f(s[i]) == Total(f, s) + f(x)
  {
    var n := |s| - 1;
    if i == n {
      assert s[i := x][..n] == s[..n];
    } else {
      TotalUpdate(f, s[..n], i, x);
      assert s[i := x][..n] == s[..n][i := x];
    }
  }

  lemma {:induction false} TotalZero<T>(f: T -> nat, s: seq<T>)
    ensures Total(f, s) == 0 <==> forall i :: 0 <= i < |s| ==> f(s[i]) == 0
  {
    if s == [] {
    } else {
      var front := s[..|s| - 1];
      TotalZero(f, front);
      assert forall i :: 0 <= i < |front| ==> front[i] == s[i];
    }
  }

  /** The multiset union of f over s. */
  function Gather<T, U>(f: T -> multiset<U>, s: seq<T>): multiset<U>
  {
    if s == [] then multiset{} else Gather(f, s[..|s| - 1]) + f(s[|s| - 1])
  }

  lemma GatherAppend<T, U>(f: T -> multiset<U>, s: seq<T>, x: T)
    ensures Gather(f, s + [x]) == Gather(f, s) + f(x)
  {
    assert (s + [x])[..|s|] == s;
  }

  lemma {:induction false} GatherUpdate<T, U(!new)>(f: T -> multiset<U>, s: seq<T>, i: nat, x: T)
    requires i < |s|
    ensures Gather(f, s[i := x]) + f(s[i]) == Gather(f, s) + f(x)
  {
    var n := |s| - 1;
    if i == n {
      assert s[i := x][..n] == s[..n];
    } else {
      GatherUpdate(f, s[..n], i, x);
      assert s[i := x][..n] == s[..n][i := x];
      assert s[..n][i] == s[i];
      var before, after := Gather(f, s[..n]), Gather(f, s[..n][i := x]);
      forall u: U
        ensures (after + f(s[n]) + f(s[i]))[u] == (before + f(s[n]) + f(x))[u]
      {
        assert (after + f(s[i]))[u] == (before + f(x))[u];
      }
      SameMultiplicities(after + f(s[n]) + f(s[i]), before + f(s[n]) + f(x));
    }
  }

  /** When f gives at most one element, gathering gives at most one per element of s. */
  lemma {:induction false} GatherSize<T, U>(f: T -> multiset<U>, s: seq<T>)
    requires forall x :: |f(x)| <= 1
    ensures |Gather(f, s)| <= |s|
  {
    if s == [] {
    } else {
      var front, last := Gather(f, s[..|s| - 1]), f(s[|s| - 1]);
      GatherSize(f, s[..|s| - 1]);
      assert |front + last| == |front| + |last|;
    }
  }

  lemma {:induction false} GatherEmpty<T, U>(f: T -> multiset<U>, s: seq<T>)
    requires forall x :: x in s ==> f(x) == multiset{}
    ensures Gather(f, s) == multiset{}
  {
    if s == [] {
    } else {
      GatherEmpty(f, s[..|s| - 1]);
      assert s[|s| - 1] in s;
    }
  }

  /** The concatenation of f over s. */
  function FlatMap<T, U>(f: T -> seq<U>, s: seq<T>): seq<U>
  {
    if s == [] then [] else FlatMap(f, s[..|s| - 1]) + f(s[|s| - 1])
  }

  lemma Associative<T>(a: seq<T>, b: seq<T>, c: seq<T>)
    ensures (a + b) + c == a + (b + c)
  {
  }

  lemma FlatMapAppend<T, U>(f: T -> seq<U>, s: seq<T>, x: T)
    ensures FlatMap(f, s + [x]) == FlatMap(f, s) + f(x)
  {
    assert (s + [x])[..|s|] == s;
  }

  lemma {:induction false} FlatMapConcat<T, U>(f: T -> seq<U>, a: seq<T>, b: seq<T>)
    ensures FlatMap(f, a + b) == FlatMap(f, a) + FlatMap(f, b)
  {
    if b == [] {
      assert a + b == a;
    } else {
      var front, x := b[..|b| - 1], b[|b| - 1];
      FlatMapConcat(f, a, front);
      assert a + b == (a + front) + [x];
      FlatMapAppend(f, a + front, x);
      Associative(FlatMap(f, a), FlatMap(f, front), f(x));
    }
  }

  lemma FlatMapFirst<T, U>(f: T -> seq<U>, s: seq<T>)
    requires s != []
    ensures FlatMap(f, s) == f(s[0]) + FlatMap(f, s[1..])
  {
    FlatMapConcat(f, s[..1], s[1..]);
    assert s == s[..1] + s[1..];
    assert s[..1][..0] == [];
  }

  /** Two accounts stay balanced when one entry changes and both sides grow to match. */
  lemma Rebalance<T(!new)>(total: multiset<T>, open: multiset<T>, settled: multiset<T>,
                           open': multiset<T>, was: multiset<T>, becomes: multiset<T>,
                           more: multiset<T>, moreSettled: multiset<T>)
    requires total == open + settled
    requires open' + was == open + becomes
    requires more + was == becomes + moreSettled
    ensures total + more == open' + (settled + moreSettled)
  {
    forall x: T ensures (total + more)[x] == (open' + (settled + moreSettled))[x] {
      assert (open' + was)[x] == (open + becomes)[x];
      assert (more + was)[x] == (becomes + moreSettled)[x];
    }
    SameMultiplicities(total + more, open' + (settled + moreSettled));
  }

  /** The different elements of s, in order of first occurrence. */
  function Distinct<T(==)>(s: seq<T>): seq<T>
  {
    if s == [] then []
    else
      var front := Distinct(s[..|s| - 1]);
      if s[|s| - 1] in front then front else front + [s[|s| - 1]]
  }

  lemma DistinctAppend<T>(s: seq<T>, x: T)
    ensures Distinct(s + [x]) == if x in Distinct(s) then Distinct(s) else Distinct(s) + [x]
  {
    assert (s + [x])[..|s|] == s;
  }

  lemma {:induction false} DistinctElements<T>(s: seq<T>)
    ensures forall x :: x in Distinct(s) <==> x in s
    ensures forall i, j :: 0 <= i < j < |Distinct(s)| ==> Distinct(s)[i] != Distinct(s)[j]
  {
    if s == [] {
    } else {
      DistinctElements(s[..|s| - 1]);
      assert s == s[..|s| - 1] + [s[|s| - 1]];
    }
  }

  lemma DistinctMember<T>(s: seq<T>, i: nat)
    requires i < |Distinct(s)|
    ensures Distinct(s)[i] in s
  {
    var d := Distinct(s);
    DistinctElements(s);
    assert d[i] in d;
  }

  /** Of two different elements the one that occurs first comes first. */
  lemma {:induction false} DistinctOrder<T>(s: seq<T>, i: nat, j: nat) returns (k: nat)
    requires i < j < |Distinct(s)|
    ensures k < |s| && s[k] == Distinct(s)[i]
    ensures forall l :: 0 <= l <= k ==> s[l] != Distinct(s)[j]
  {
    var front, x := s[..|s| - 1], s[|s| - 1];
    assert s == front + [x];
    if j < |Distinct(front)| {
      k := DistinctOrder(front, i, j);
    } else {
      DistinctMember(front, i);
      DistinctElements(front);
      k :| 0 <= k < |front| && front[k] == Distinct(front)[i];
      forall l | 0 <= l <= k ensures s[l] != x {
        assert front[l] in front;
      }
    }
  }

  lemma {:induction false} DistinctUnchanged<T>(s: seq<T>)
    requires forall i, j :: 0 <= i < j < |s| ==> s[i] != s[j]
    ensures Distinct(s) == s
  {
    if s == [] {
    } else {
      DistinctUnchanged(s[..|s| - 1]);
      assert s == s[..|s| - 1] + [s[|s| - 1]];
    }
  }

  /** Removing repetitions commutes with filtering. */
  lemma {:induction false} DistinctFilter<T>(p: T -> bool, s: seq<T>)
    ensures Distinct(Filter(p, s)) == Filter(p, Distinct(s))
  {
    if s == [] {
    } else {
      var front, x := s[..|s| - 1], s[|s| - 1];
      DistinctFilter(p, front);
      FilterAppend(p, Distinct(front), x);
      FilterMembers(p, Distinct(front), x);
      if p(x) {
        DistinctAppend(Filter(p, front), x);
      }
    }
  }
}
