/** Small generic building blocks shared by the three parts of the plotter:
    optional values, error results, order-preserving filters and subsequences. */
module Base {

  /** Python's `None` or a value. */
  datatype Option<+T> = None | Some(value: T)

  /** A value, or the error the source raises instead of returning one. */
  datatype Result<+T, +E> = Success(value: T) | Failure(error: E)

  /** `a` is obtained from `b` by deleting elements and keeping the rest in order.
      Matches the last elements greedily, which is complete for subsequences. */
  predicate IsSubsequence<T(==)>(a: seq<T>, b: seq<T>)
    decreases |b|
  {
    if a == [] then true
    else if b == [] then false
    else if a[|a| - 1] == b[|b| - 1] then IsSubsequence(a[..|a| - 1], b[..|b| - 1])
    else IsSubsequence(a, b[..|b| - 1])
  }

  /** A subsequence is no longer than the sequence and takes its elements from it. */
  lemma {:induction false} SubsequenceBounds<T>(a: seq<T>, b: seq<T>)
    requires IsSubsequence(a, b)
    ensures |a| <= |b|
    ensures forall x :: x in a ==> x in b
    decreases |b|
  {
    if a != [] {
      assert b != [];
      var b' := b[..|b| - 1];
      if a[|a| - 1] == b[|b| - 1] {
        var a' := a[..|a| - 1];
        SubsequenceBounds(a', b');
        assert a == a' + [a[|a| - 1]];
        assert b == b' + [b[|b| - 1]];
      } else {
        SubsequenceBounds(a, b');
        assert b == b' + [b[|b| - 1]];
      }
    }
  }

  /** Dropping the last element of a subsequence keeps it a subsequence. */
  lemma {:induction false} SubsequenceDropLast<T>(a: seq<T>, b: seq<T>)
    requires a != [] && IsSubsequence(a, b)
    ensures IsSubsequence(a[..|a| - 1], b)
    decreases |b|, 0
  {
    var a' := a[..|a| - 1];
    var b' := b[..|b| - 1];
    if a' != [] {
      if a[|a| - 1] == b[|b| - 1] {
        SubsequenceAppend(a', b', b[|b| - 1]);
        assert b' + [b[|b| - 1]] == b;
      } else {
        SubsequenceDropLast(a, b');
        SubsequenceAppend(a', b', b[|b| - 1]);
        assert b' + [b[|b| - 1]] == b;
      }
    }
  }

  /** Appending an element to the longer sequence keeps the relation. */
  lemma {:induction false} SubsequenceAppend<T>(a: seq<T>, b: seq<T>, x: T)
    requires IsSubsequence(a, b)
    ensures IsSubsequence(a, b + [x])
    decreases |b|, 1
  {
    var bx := b + [x];
    assert bx[..|bx| - 1] == b;
    if a != [] && a[|a| - 1] == x {
      SubsequenceDropLast(a, b);
    }
  }

  /** Both sequences extended by the same element. */
  lemma SubsequenceExtendBoth<T>(a: seq<T>, b: seq<T>, x: T)
    requires IsSubsequence(a, b)
    ensures IsSubsequence(a + [x], b + [x])
  {
    assert (a + [x])[..|a|] == a;
    assert (b + [x])[..|b|] == b;
  }

  /** Every sequence is a subsequence of itself. */
  lemma {:induction false} SubsequenceReflexive<T>(s: seq<T>)
    ensures IsSubsequence(s, s)
  {
    if s != [] {
      SubsequenceReflexive(s[..|s| - 1]);
    }
  }

  /** A subsequence of a subsequence is a subsequence. */
  lemma {:induction false} SubsequenceTransitive<T>(a: seq<T>, b: seq<T>, c: seq<T>)
    requires IsSubsequence(a, b) && IsSubsequence(b, c)
    ensures IsSubsequence(a, c)
    decreases |c|
  {
    if a != [] {
      assert b != [] && c != [];
      var c' := c[..|c| - 1];
      if b[|b| - 1] == c[|c| - 1] {
        var b' := b[..|b| - 1];
        if a[|a| - 1] == b[|b| - 1] {
          SubsequenceTransitive(a[..|a| - 1], b', c');
        } else {
          SubsequenceTransitive(a, b', c');
          if a[|a| - 1] == c[|c| - 1] {
            SubsequenceDropLast(a, c');
          }
        }
      } else {
        SubsequenceTransitive(a, b, c');
        if a[|a| - 1] == c[|c| - 1] {
          SubsequenceDropLast(a, c');
        }
      }
    }
  }

  /** The elements of `s` that satisfy `keep`, in their original order
      (a pandas boolean mask or a Python list comprehension with a condition). */
  function Filter<T(!new)>(s: seq<T>, keep: T -> bool): (r: seq<T>)
    ensures |r| <= |s|
    ensures forall x :: x in r <==> x in s && keep(x)
    ensures IsSubsequence(r, s)
  {
    if s == [] then []
    else
      var init := Filter(s[..|s| - 1], keep);
      assert s == s[..|s| - 1] + [s[|s| - 1]];
      if keep(s[|s| - 1]) then
        SubsequenceExtendBoth(init, s[..|s| - 1], s[|s| - 1]);
        init + [s[|s| - 1]]
      else
        SubsequenceAppend(init, s[..|s| - 1], s[|s| - 1]);
        init
  }

  /** Filtering keeps every copy of a passing element and no copy of a failing one. */
  lemma {:induction false} FilterCounts<T(!new)>(s: seq<T>, keep: T -> bool)
    ensures forall x :: multiset(Filter(s, keep))[x] == if keep(x) then multiset(s)[x] else 0
  {
    if s != [] {
      var init := s[..|s| - 1];
      FilterCounts(init, keep);
      assert s == init + [s[|s| - 1]];
      assert multiset(s) == multiset(init) + multiset{s[|s| - 1]};
    }
  }

  /** Filtering a sequence whose elements all pass leaves it unchanged. */
  lemma {:induction false} FilterKeepsAll<T(!new)>(s: seq<T>, keep: T -> bool)
    requires forall x :: x in s ==> keep(x)
    ensures Filter(s, keep) == s
  {
    if s != [] {
      var init := s[..|s| - 1];
      FilterKeepsAll(init, keep);
      assert s == init + [s[|s| - 1]];
      assert Filter(s, keep) == Filter(init, keep) + [s[|s| - 1]];
    }
  }

  /** Filtering removes exactly one element when exactly one position fails the test. */
  lemma {:induction false} FilterDropsOne<T(!new)>(s: seq<T>, keep: T -> bool, k: nat)
    requires k < |s| && !keep(s[k])
    requires forall i :: 0 <= i < |s| && i != k ==> keep(s[i])
    ensures |Filter(s, keep)| == |s| - 1
  {
    var init := s[..|s| - 1];
    if k == |s| - 1 {
      FilterKeepsAll(init, keep);
    } else {
      FilterDropsOne(init, keep, k);
    }
  }

  /** The present values of a list that may hold `None`, in order
      (`[p for p in plots if p is not None]`). */
  function Somes<T(!new)>(s: seq<Option<T>>): (r: seq<T>)
    ensures |r| <= |s|
    ensures forall x :: x in r <==> Some(x) in s
  {
    if s == [] then []
    else
      var init := Somes(s[..|s| - 1]);
      assert s == s[..|s| - 1] + [s[|s| - 1]];
      if s[|s| - 1].Some? then init + [s[|s| - 1].value] else init
  }

  /** Wrapped back as present values, the values `Somes` keeps are exactly the
      present entries as `Filter` keeps them: same order, same number of copies. */
  lemma {:induction false} SomesKeepsOrder<T(!new)>(s: seq<Option<T>>)
    ensures Lift(Somes(s)) == Filter(s, Present)
    ensures IsSubsequence(Lift(Somes(s)), s)
    ensures forall x :: multiset(Lift(Somes(s)))[Some(x)] == multiset(s)[Some(x)]
  {
    FilterCounts(s, Present);
    if s != [] {
      var rest, last := s[..|s| - 1], s[|s| - 1];
      SomesKeepsOrder(rest);
      assert s == rest + [last];
      PresentStep(rest, last);
    }
  }

  /** Appending an entry appends its value when present. */
  lemma SomesSnoc<T(!new)>(s: seq<Option<T>>, o: Option<T>)
    ensures Somes(s + [o]) == if o.Some? then Somes(s) + [o.value] else Somes(s)
  {
    assert (s + [o])[..|s|] == s;
  }

  /** One more entry: a present one adds its value, an absent one nothing. */
  lemma PresentStep<T(!new)>(rest: seq<Option<T>>, last: Option<T>)
    requires Lift(Somes(rest)) == Filter(rest, Present)
    ensures Lift(Somes(rest + [last])) == Filter(rest + [last], Present)
  {
    var s := rest + [last];
    assert s[..|s| - 1] == rest;
    SomesSnoc(rest, last);
    if last.Some? {
      assert Lift(Somes(rest) + [last.value]) == Lift(Somes(rest)) + [last];
    }
  }

  /** `p is not None` */
  predicate Present<T>(o: Option<T>) { o.Some? }

  /** `[Some(x) for x in s]`: the values, each wrapped as present. */
  function Lift<T(!new)>(s: seq<T>): (r: seq<Option<T>>)
    ensures |r| == |s| && forall i :: 0 <= i < |s| ==> r[i] == Some(s[i])
  {
    seq(|s|, i requires 0 <= i < |s| => Some(s[i]))
  }

  /** Python's `list.index`: the first position holding `x`. */
  function IndexOf<T(==)>(s: seq<T>, x: T): (k: nat)
    requires x in s
    ensures k < |s| && s[k] == x
    ensures forall j :: 0 <= j < k ==> s[j] != x
  {
    if s[0] == x then 0 else 1 + IndexOf(s[1..], x)
  }

  /** Looking a value up in a longer list finds it where it was. */
  lemma IndexOfAppend<T>(s: seq<T>, y: T, x: T)
    requires x in s
    ensures IndexOf(s + [y], x) == IndexOf(s, x)
  {
    var j := IndexOf(s, x);
    assert (s + [y])[j] == x;
  }

  /** A value not in a list is found at the position appended after it. */
  lemma IndexOfLast<T>(s: seq<T>, x: T)
    requires x !in s
    ensures IndexOf(s + [x], x) == |s|
  {
  }
}
