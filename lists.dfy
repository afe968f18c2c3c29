/**
 * The array operations the components build their state updates from:
 * `filter`, removal of every occurrence of a value, and the add-or-remove
 * toggle written out in Onboarding, WeekPlanWorkflow and NewRecipeWorkflow.
 */
module Lists {

  /** `s.filter(keep)`: the elements that satisfy `keep`, in their original order. */
  function Filter<T(!new)>(s: seq<T>, keep: T -> bool): (r: seq<T>)
    ensures |r| <= |s|
    ensures forall x :: x in r <==> x in s && keep(x)
  {
    if s == [] then [] else (if keep(s[0]) then [s[0]] else []) + Filter(s[1..], keep)
  }

  /** Filtering distributes over concatenation, which is what "keeps the order" means. */
  lemma {:induction false} FilterConcat<T(!new)>(a: seq<T>, b: seq<T>, keep: T -> bool)
    ensures Filter(a + b, keep) == Filter(a, keep) + Filter(b, keep)
  {
    if a == [] {
      assert a + b == b;
    } else {
      var head := if keep(a[0]) then [a[0]] else [];
      FilterConcat(a[1..], b, keep);
      assert (a + b)[0] == a[0];
      assert (a + b)[1..] == a[1..] + b;
      assert Filter(a + b, keep) == head + Filter(a[1..] + b, keep);
      assert Filter(a, keep) == head + Filter(a[1..], keep);
    }
  }

  /** When every element is kept, filtering changes nothing. */
  lemma {:induction false} FilterKeepsAll<T(!new)>(s: seq<T>, keep: T -> bool)
    requires forall x :: x in s ==> keep(x)
    ensures Filter(s, keep) == s
  {
    if s != [] {
      FilterKeepsAll(s[1..], keep);
      assert s == [s[0]] + s[1..];
    }
  }

  /**
   * Filtering with a predicate and with its negation splits the list in two:
   * together the two results hold every element exactly as often as `s` does.
   */
  lemma {:induction false} FilterPartition<T(!new)>(s: seq<T>, keep: T -> bool, drop: T -> bool)
    requires forall x :: drop(x) == !keep(x)
    ensures multiset(Filter(s, keep)) + multiset(Filter(s, drop)) == multiset(s)
    ensures |Filter(s, keep)| + |Filter(s, drop)| == |s|
  {
    if s != [] {
      FilterPartition(s[1..], keep, drop);
      var h := s[0];
      assert Filter(s, keep) == (if keep(h) then [h] else []) + Filter(s[1..], keep);
      assert Filter(s, drop) == (if keep(h) then [] else [h]) + Filter(s[1..], drop);
      assert s == [h] + s[1..];
      assert multiset(s) == multiset{h} + multiset(s[1..]);
    }
  }

  /** No value occurs twice. */
  predicate NoDups<T(==)>(s: seq<T>) {
    forall i, j :: 0 <= i < j < |s| ==> s[i] != s[j]
  }

  /** Filtering a duplicate-free list leaves it duplicate-free. */
  lemma {:induction false} FilterNoDups<T(!new)>(s: seq<T>, keep: T -> bool)
    requires NoDups(s)
    ensures NoDups(Filter(s, keep))
  {
    if s != [] {
      FilterNoDups(s[1..], keep);
      assert s[0] !in s[1..];
    }
  }

  /** Filtering keeps every value it keeps exactly as often as the list holds it. */
  lemma {:induction false} FilterCount<T(!new)>(s: seq<T>, keep: T -> bool, y: T)
    requires keep(y)
    ensures multiset(Filter(s, keep))[y] == multiset(s)[y]
  {
    if s != [] {
      FilterCount(s[1..], keep, y);
      assert s == [s[0]] + s[1..];
      assert Filter(s, keep) == (if keep(s[0]) then [s[0]] else []) + Filter(s[1..], keep);
    }
  }

  /** `s.filter(y => y !== x)`: every other value stays, as often as it was there. */
  function RemoveAll<T(==,!new)>(s: seq<T>, x: T): (r: seq<T>)
    ensures x !in r
    ensures forall y :: y != x ==> multiset(r)[y] == multiset(s)[y]
    ensures forall y :: y != x ==> (y in r <==> y in s)
  {
    var r := Filter(s, y => y != x);
    assert forall y :: y != x ==> multiset(r)[y] == multiset(s)[y] by {
      forall y | y != x ensures multiset(r)[y] == multiset(s)[y] {
        FilterCount(s, y => y != x, y);
      }
    }
    r
  }

  /** Removal keeps the order of the other values: it distributes over concatenation. */
  lemma RemoveAllConcat<T(!new)>(a: seq<T>, b: seq<T>, x: T)
    ensures RemoveAll(a + b, x) == RemoveAll(a, x) + RemoveAll(b, x)
    ensures RemoveAll([x], x) == []
  {
    FilterConcat(a, b, y => y != x);
  }

  /**
   * `s.includes(x) ? s.filter(y => y !== x) : [...s, x]`: the value leaves
   * the list if it was there and joins it at the end otherwise.
   */
  function Toggle<T(==,!new)>(s: seq<T>, x: T): (r: seq<T>)
    ensures x in r <==> x !in s
    ensures forall y :: y != x ==> (y in r <==> y in s)
    ensures x !in s ==> r == s + [x]
  {
    if x in s then RemoveAll(s, x) else s + [x]
  }

  /** Toggling an absent value twice restores the list exactly. */
  lemma ToggleTwiceAbsent<T(!new)>(s: seq<T>, x: T)
    requires x !in s
    ensures Toggle(Toggle(s, x), x) == s
  {
    var keep := y => y != x;
    FilterConcat(s, [x], keep);
    FilterKeepsAll(s, keep);
    assert Filter([x], keep) == [];
  }

  /** Toggling keeps a duplicate-free list duplicate-free. */
  lemma ToggleNoDups<T(!new)>(s: seq<T>, x: T)
    requires NoDups(s)
    ensures NoDups(Toggle(s, x))
  {
    if x in s {
      FilterNoDups(s, y => y != x);
    }
  }
}
