/** Grouping dated elements by the calendar fields of their dates, and the
    nullable sum and average of an array of numbers. The calendar that turns
    a date into its fields is a parameter. */
module GroupByDate {
  import opened Wrappers
  import opened Host
  import opened Cadence

  /** `reduce(acc, +)`: the left fold of addition. */
  function FoldAdd(acc: real, xs: seq<real>): real
    decreases xs
  {
    if |xs| == 0 then acc else FoldAdd(acc + xs[0], xs[1..])
  }

  /** The arithmetic sum, as a reference. */
  function SeqSum(xs: seq<real>): real {
    if |xs| == 0 then 0.0 else xs[0] + SeqSum(xs[1..])
  }

  /** The left fold adds the whole sequence to its start value. */
  lemma {:induction false} FoldAddIsSum(acc: real, xs: seq<real>)
    ensures FoldAdd(acc, xs) == acc + SeqSum(xs)
    decreases xs
  {
    if |xs| > 0 {
      FoldAddIsSum(acc + xs[0], xs[1..]);
    }
  }

  /** The sum of an array: nil exactly for the empty array, otherwise the
      left fold of addition from 0. */
  function Sum(xs: seq<real>): (r: Option<real>)
    ensures r.None? <==> |xs| == 0
    ensures r.Some? ==> r.value == SeqSum(xs)
  {
    if |xs| == 0 then None
    else
      FoldAddIsSum(0.0, xs);
      Some(FoldAdd(0.0, xs))
  }

  /** The average of an array: nil exactly for the empty array, otherwise the
      sum divided by the count. */
  function Average(xs: seq<real>): (r: Option<real>)
    ensures r.None? <==> |xs| == 0
    ensures r.Some? ==> r.value * |xs| as real == SeqSum(xs)
  {
    match Sum(xs)
    case None => None
    case Some(s) => Some(s / |xs| as real)
  }

  /** A sum of n terms each within [lo, hi] lies within [n * lo, n * hi]. */
  lemma {:induction false} SumBounds(xs: seq<real>, lo: real, hi: real)
    requires forall i :: 0 <= i < |xs| ==> lo <= xs[i] <= hi
    ensures |xs| as real * lo <= SeqSum(xs) <= |xs| as real * hi
  {
    if |xs| > 0 {
      SumBounds(xs[1..], lo, hi);
    }
  }

  /** The average lies between any lower and upper bound of the elements. */
  lemma AverageWithinBounds(xs: seq<real>, lo: real, hi: real)
    requires |xs| > 0
    requires forall i :: 0 <= i < |xs| ==> lo <= xs[i] <= hi
    ensures lo <= Average(xs).value <= hi
  {
    SumBounds(xs, lo, hi);
    var n := |xs| as real;
    var a := Average(xs).value;
    assert a * n == SeqSum(xs);
    assert n * lo <= a * n <= n * hi;
  }

  /** How an element is keyed: the calendar fields to extract, the element's
      date, and the calendar that extracts the fields from a date. */
  datatype Keying<!T, K> = Keying(
    components: set<CalendarComponent>,
    date: T -> Date,
    calendar: (set<CalendarComponent>, Date) -> K)
  {
    /** The date components of the element's date. */
    function Key(x: T): K {
      calendar(components, date(x))
    }
  }

  /** The elements with key k, in input order: the reference for a group. */
  function Filter<T, K(==)>(xs: seq<T>, kf: Keying<T, K>, k: K): seq<T> {
    if |xs| == 0 then []
    else (if kf.Key(xs[0]) == k then [xs[0]] else []) + Filter(xs[1..], kf, k)
  }

  /** An element is in the filtered sequence exactly when it is in the input
      with that key. */
  lemma {:induction false} FilterMembers<T, K>(xs: seq<T>, kf: Keying<T, K>, k: K, x: T)
    ensures x in Filter(xs, kf, k) <==> x in xs && kf.Key(x) == k
  {
    if |xs| > 0 {
      FilterMembers(xs[1..], kf, k, x);
      assert xs == [xs[0]] + xs[1..];
    }
  }

  /** `Dictionary(grouping:by:)`: one group per distinct key, each holding
      the elements with that key in input order. */
  function GroupBy<T, K(==)>(xs: seq<T>, kf: Keying<T, K>): (g: map<K, seq<T>>)
    ensures g.Keys == set i | 0 <= i < |xs| :: kf.Key(xs[i])
    ensures forall k | k in g :: g[k] == Filter(xs, kf, k)
  {
    if |xs| == 0 then map[]
    else
      var rest := GroupBy(xs[1..], kf);
      var k := kf.Key(xs[0]);
      assert forall i :: 1 <= i < |xs| ==> xs[1..][i - 1] == xs[i];
      assert forall i :: 0 <= i < |xs| - 1 ==> xs[1..][i] == xs[i + 1];
      if k in rest then
        rest[k := [xs[0]] + rest[k]]
      else
        FilterNoneWithKey(xs[1..], kf, k);
        rest[k := [xs[0]]]
  }

  /** No element has key k, so nothing passes the filter. */
  lemma {:induction false} FilterNoneWithKey<T, K>(xs: seq<T>, kf: Keying<T, K>, k: K)
    requires forall i :: 0 <= i < |xs| ==> kf.Key(xs[i]) != k
    ensures Filter(xs, kf, k) == []
  {
    if |xs| > 0 {
      FilterNoneWithKey(xs[1..], kf, k);
    }
  }

  /** Every element lands in the group of its own key. */
  lemma EachElementInItsGroup<T, K>(xs: seq<T>, kf: Keying<T, K>, i: nat)
    requires i < |xs|
    ensures var g := GroupBy(xs, kf); kf.Key(xs[i]) in g && xs[i] in g[kf.Key(xs[i])]
  {
    FilterMembers(xs, kf, kf.Key(xs[i]), xs[i]);
  }

  /** Every group holds only elements of the input that have its key. */
  lemma GroupsHoldOnlyTheirKey<T, K>(xs: seq<T>, kf: Keying<T, K>, k: K, x: T)
    requires var g := GroupBy(xs, kf); k in g && x in g[k]
    ensures x in xs && kf.Key(x) == k
  {
    FilterMembers(xs, kf, k, x);
  }

  /** The total number of elements over all groups. */
  ghost function TotalSize<K, T>(g: map<K, seq<T>>): nat
    decreases |g.Keys|
  {
    if g == map[] then 0
    else
      var k :| k in g;
      assert (g - {k}).Keys == g.Keys - {k};
      |g[k]| + TotalSize(g - {k})
  }

  /** The total can be counted starting from any group. */
  lemma {:induction false} TotalSizeFrom<K, T>(g: map<K, seq<T>>, k: K)
    requires k in g
    ensures TotalSize(g) == |g[k]| + TotalSize(g - {k})
    decreases |g.Keys|
  {
    var k' :| k' in g && TotalSize(g) == |g[k']| + TotalSize(g - {k'});
    if k' != k {
      assert (g - {k'}).Keys == g.Keys - {k'};
      assert (g - {k}).Keys == g.Keys - {k};
      TotalSizeFrom(g - {k'}, k);
      TotalSizeFrom(g - {k}, k');
      assert g - {k'} - {k} == g - {k} - {k'};
    }
  }

  /** Replacing or adding one group changes the total by the size difference. */
  lemma TotalSizeUpdate<K, T>(g: map<K, seq<T>>, k: K, s: seq<T>)
    ensures TotalSize(g[k := s]) == TotalSize(g) - (if k in g then |g[k]| else 0) + |s|
  {
    TotalSizeFrom(g[k := s], k);
    assert g[k := s] - {k} == g - {k};
    if k in g {
      TotalSizeFrom(g, k);
    } else {
      assert g - {k} == g;
    }
  }

  /** The group sizes add up to the input length: grouping neither loses nor
      duplicates an element. */
  lemma {:induction false} GroupSizesAddUp<T, K>(xs: seq<T>, kf: Keying<T, K>)
    ensures TotalSize(GroupBy(xs, kf)) == |xs|
  {
    if |xs| > 0 {
      GroupSizesAddUp(xs[1..], kf);
      var rest := GroupBy(xs[1..], kf);
      var k := kf.Key(xs[0]);
      if k in rest {
        TotalSizeUpdate(rest, k, [xs[0]] + rest[k]);
      } else {
        TotalSizeUpdate(rest, k, [xs[0]]);
      }
    }
  }
}
