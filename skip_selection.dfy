/**
 * The skip-selection page: the filter predicate, the five sort modes, the
 * filter-then-sort pipeline, and the single-slot selection.
 *
 * Every sort mode is modelled as a stable sort by an integer key (ascending):
 * descending modes negate the key, and "popular" ranks size-4 skips 0 and
 * every other skip 1, so that it sorts into a stable partition.
 */
module SkipSelection {

  import opened Wrappers
  import opened Schema
  import opened FilterSidebar
  import opened Seqs

  /** The page's initial filters, which "clear filters" restores. */
  const DefaultFilters: FilterState := FilterState([], 2000, [], SizeAsc)

  // ---------------------------------------------------------------------------
  // Filtering
  // ---------------------------------------------------------------------------

  /** `size <= 6 ? 'small' : size <= 12 ? 'medium' : 'large'`. */
  function SizeCategoryOf(size: int): SizeCategory
  {
    if size <= 6 then Small else if size <= 12 then Medium else Large
  }

  predicate SizeMatch(s: Skip, f: FilterState)
  {
    |f.sizeCategories| == 0 || SizeCategoryOf(s.size) in f.sizeCategories
  }

  predicate PriceMatch(s: Skip, f: FilterState)
  {
    s.priceBeforeVat <= f.maxPrice
  }

  predicate RoadAllowedMatch(s: Skip, f: FilterState)
  {
    RoadAllowed !in f.properties || s.allowedOnRoad
  }

  predicate HeavyWasteMatch(s: Skip, f: FilterState)
  {
    HeavyWaste !in f.properties || s.allowsHeavyWaste
  }

  /** The four-part filter predicate. */
  predicate Passes(s: Skip, f: FilterState)
  {
    SizeMatch(s, f) && PriceMatch(s, f) && RoadAllowedMatch(s, f) && HeavyWasteMatch(s, f)
  }

  /** `skips.filter(skip => Passes(skip, filters))`: a new list, in input order. */
  function FilterSkips(skips: seq<Skip>, f: FilterState): (r: seq<Skip>)
    ensures forall x :: x in r ==> x in skips && Passes(x, f)
    ensures forall x :: x in skips && Passes(x, f) ==> x in r
  {
    if skips == [] then []
    else
      assert skips == [skips[0]] + skips[1..];
      (if Passes(skips[0], f) then [skips[0]] else []) + FilterSkips(skips[1..], f)
  }

  /** Each passing skip is kept as often as it occurs; every other is dropped. */
  lemma {:induction false} FilterMultiset(skips: seq<Skip>, f: FilterState)
    ensures forall x :: multiset(FilterSkips(skips, f))[x] == if Passes(x, f) then multiset(skips)[x] else 0
  {
    if skips != [] {
      FilterMultiset(skips[1..], f);
      assert skips == [skips[0]] + skips[1..];
    }
  }

  /** Every size falls in exactly one category, on the thresholds 6 and 12. */
  lemma SizeCategoryRanges(size: int)
    ensures SizeCategoryOf(size) == Small <==> size <= 6
    ensures SizeCategoryOf(size) == Medium <==> 7 <= size <= 12
    ensures SizeCategoryOf(size) == Large <==> 13 <= size
  {
  }

  lemma SizeCategoryBoundaries()
    ensures SizeCategoryOf(6) == Small && SizeCategoryOf(7) == Medium
    ensures SizeCategoryOf(12) == Medium && SizeCategoryOf(13) == Large
  {
  }

  /** No size category selected admits every size. */
  lemma EmptySizeCategoriesAdmitAll(s: Skip, f: FilterState)
    requires f.sizeCategories == []
    ensures SizeMatch(s, f)
  {
  }

  /** The price cap is inclusive. */
  lemma PriceCapInclusive(s: Skip, f: FilterState)
    ensures PriceMatch(s, f) <==> s.priceBeforeVat <= f.maxPrice
    ensures s.priceBeforeVat == f.maxPrice ==> PriceMatch(s, f)
  {
  }

  /**
   * The default cap is the slider's top position, so "clear filters" puts the
   * slider back at its right end, and a skip shown under any slider position
   * passes the price check of the defaults.
   */
  lemma DefaultCapIsSliderTop(s: Skip, f: FilterState)
    ensures IsSliderValue(DefaultFilters.maxPrice) && DefaultFilters.maxPrice == SliderMax
    ensures IsSliderValue(f.maxPrice) && PriceMatch(s, f) ==> PriceMatch(s, DefaultFilters)
  {
  }

  /** The property filters restrict only when their tag is selected. */
  lemma PropertyFiltersOptIn(s: Skip, f: FilterState, b: bool)
    ensures RoadAllowed !in f.properties ==> (Passes(s, f) <==> Passes(s.(allowedOnRoad := b), f))
    ensures RoadAllowed in f.properties && Passes(s, f) ==> s.allowedOnRoad
    ensures HeavyWaste !in f.properties ==> (Passes(s, f) <==> Passes(s.(allowsHeavyWaste := b), f))
    ensures HeavyWaste in f.properties && Passes(s, f) ==> s.allowsHeavyWaste
  {
  }

  /** The filter keeps the input order: its result is a subsequence of the input. */
  lemma {:induction false} FilterIsSubsequence(skips: seq<Skip>, f: FilterState)
    ensures IsSubsequence(FilterSkips(skips, f), skips)
  {
    if skips != [] {
      FilterIsSubsequence(skips[1..], f);
      assert skips == [skips[0]] + skips[1..];
      SubsequenceCons(FilterSkips(skips[1..], f), skips[1..], skips[0], Passes(skips[0], f));
    }
  }

  /** A list whose every element passes comes through the filter unchanged. */
  lemma {:induction false} FilterAllPass(skips: seq<Skip>, f: FilterState)
    requires forall x :: x in skips ==> Passes(x, f)
    ensures FilterSkips(skips, f) == skips
  {
    if skips != [] {
      FilterAllPass(skips[1..], f);
      assert skips == [skips[0]] + skips[1..];
    }
  }

  /** A list none of whose elements passes filters to nothing. */
  lemma {:induction false} FilterNonePass(skips: seq<Skip>, f: FilterState)
    requires forall x :: x in skips ==> !Passes(x, f)
    ensures FilterSkips(skips, f) == []
  {
    if skips != [] {
      FilterNonePass(skips[1..], f);
    }
  }

  /** When exactly the first `n` skips pass, the filter returns those `n`. */
  lemma {:induction false} FilterPassingPrefix(skips: seq<Skip>, f: FilterState, n: nat)
    requires n <= |skips|
    requires forall i :: 0 <= i < n ==> Passes(skips[i], f)
    requires forall i :: n <= i < |skips| ==> !Passes(skips[i], f)
    ensures FilterSkips(skips, f) == skips[..n]
  {
    if n == 0 {
      forall x | x in skips ensures !Passes(x, f) {
        var i :| 0 <= i < |skips| && skips[i] == x;
      }
      FilterNonePass(skips, f);
    } else {
      FilterPassingPrefix(skips[1..], f, n - 1);
      assert skips[..n] == [skips[0]] + skips[1..][..n - 1];
    }
  }

  // ---------------------------------------------------------------------------
  // Sorting
  // ---------------------------------------------------------------------------

  /** The comparators of the `switch (filters.sortBy)`, as written. */
  function Compare(mode: SortMode, a: Skip, b: Skip): int
  {
    match mode
    case SizeAsc => a.size - b.size
    case SizeDesc => b.size - a.size
    case PriceAsc => a.priceBeforeVat - b.priceBeforeVat
    case PriceDesc => b.priceBeforeVat - a.priceBeforeVat
    case Popular => if a.size == 4 then -1 else 1
  }

  /** The integer key the sort model orders by, ascending. */
  function SortKey(mode: SortMode, s: Skip): int
  {
    match mode
    case SizeAsc => s.size
    case SizeDesc => -s.size
    case PriceAsc => s.priceBeforeVat
    case PriceDesc => -s.priceBeforeVat
    case Popular => if s.size == 4 then 0 else 1
  }

  /**
   * For the four consistent comparators the key's order is the comparator's
   * order. For "popular" the comparator is consistent only on a size-4 skip
   * against another size, and there the key agrees with it.
   */
  lemma KeyAgreesWithComparator(mode: SortMode, a: Skip, b: Skip)
    ensures mode != Popular ==> (Compare(mode, a, b) < 0 <==> SortKey(mode, a) < SortKey(mode, b))
    ensures mode != Popular ==> (Compare(mode, a, b) == 0 <==> SortKey(mode, a) == SortKey(mode, b))
    ensures mode == Popular && a.size == 4 && b.size != 4 ==>
              Compare(mode, a, b) < 0 && Compare(mode, b, a) > 0 && SortKey(mode, a) < SortKey(mode, b)
  {
  }

  predicate SortedByKey(mode: SortMode, s: seq<Skip>)
  {
    forall i, j :: 0 <= i < j < |s| ==> SortKey(mode, s[i]) <= SortKey(mode, s[j])
  }

  /** The elements of `s` whose key is `k`, in order. */
  function WithKey(mode: SortMode, s: seq<Skip>, k: int): (r: seq<Skip>)
  {
    if s == [] then []
    else (if SortKey(mode, s[0]) == k then [s[0]] else []) + WithKey(mode, s[1..], k)
  }

  /**
   * Inserts `x` into the sorted `t` after every element whose key is not
   * greater than `x`'s: the step of a stable insertion sort, scanning from
   * the right.
   */
  function Insert(mode: SortMode, t: seq<Skip>, x: Skip): (r: seq<Skip>)
  {
    if t == [] then [x]
    else if SortKey(mode, t[|t| - 1]) <= SortKey(mode, x) then t + [x]
    else Insert(mode, t[..|t| - 1], x) + [t[|t| - 1]]
  }

  /** The stable sort of `s` by its key: insertion of each element, left to right. */
  function SortBy(mode: SortMode, s: seq<Skip>): (r: seq<Skip>)
  {
    if s == [] then [] else Insert(mode, SortBy(mode, s[..|s| - 1]), s[|s| - 1])
  }

  /** The pipeline: filter, then sort the fresh filtered list by the selected mode. */
  function Apply(skips: seq<Skip>, f: FilterState): seq<Skip>
  {
    SortBy(f.sortBy, FilterSkips(skips, f))
  }

  lemma {:induction false} WithKeyAppend(mode: SortMode, a: seq<Skip>, b: seq<Skip>, k: int)
    ensures WithKey(mode, a + b, k) == WithKey(mode, a, k) + WithKey(mode, b, k)
  {
    if a == [] {
      assert a + b == b;
    } else {
      var ab := a + b;
      assert ab[0] == a[0] && ab[1..] == a[1..] + b;
      WithKeyAppend(mode, a[1..], b, k);
      var head := if SortKey(mode, a[0]) == k then [a[0]] else [];
      assert WithKey(mode, ab, k) == head + (WithKey(mode, a[1..], k) + WithKey(mode, b, k));
      assert WithKey(mode, a, k) == head + WithKey(mode, a[1..], k);
    }
  }

  lemma {:induction false} InsertMultiset(mode: SortMode, t: seq<Skip>, x: Skip)
    ensures multiset(Insert(mode, t, x)) == multiset(t) + multiset{x}
  {
    if t != [] && SortKey(mode, t[|t| - 1]) > SortKey(mode, x) {
      InsertMultiset(mode, t[..|t| - 1], x);
      assert t == t[..|t| - 1] + [t[|t| - 1]];
    }
  }

  /** The inserted list holds `x` and the elements of `t`, and nothing else. */
  lemma {:induction false} InsertElements(mode: SortMode, t: seq<Skip>, x: Skip)
    ensures forall y :: y in Insert(mode, t, x) <==> y == x || y in t
  {
    if t != [] && SortKey(mode, t[|t| - 1]) > SortKey(mode, x) {
      InsertElements(mode, t[..|t| - 1], x);
      assert t == t[..|t| - 1] + [t[|t| - 1]];
    }
  }

  lemma {:induction false} InsertSorted(mode: SortMode, t: seq<Skip>, x: Skip)
    requires SortedByKey(mode, t)
    ensures SortedByKey(mode, Insert(mode, t, x))
  {
    if t != [] && SortKey(mode, t[|t| - 1]) > SortKey(mode, x) {
      var t', last := t[..|t| - 1], t[|t| - 1];
      InsertSorted(mode, t', x);
      InsertElements(mode, t', x);
      var u := Insert(mode, t', x);
      forall y | y in u ensures SortKey(mode, y) <= SortKey(mode, last) {
        if y != x {
          var i :| 0 <= i < |t'| && t'[i] == y;
          assert t[i] == y;
        }
      }
      SortedSnoc(mode, u, last);
    }
  }

  /** Appending an element no smaller than every key of a sorted list keeps it sorted. */
  lemma SortedSnoc(mode: SortMode, u: seq<Skip>, last: Skip)
    requires SortedByKey(mode, u)
    requires forall y :: y in u ==> SortKey(mode, y) <= SortKey(mode, last)
    ensures SortedByKey(mode, u + [last])
  {
    forall i, j | 0 <= i < j < |u + [last]|
      ensures SortKey(mode, (u + [last])[i]) <= SortKey(mode, (u + [last])[j])
    {
      assert (u + [last])[i] == u[i];
      if j == |u| {
        assert u[i] in u;
      } else {
        assert (u + [last])[j] == u[j];
      }
    }
  }

  lemma WithKeySingleton(mode: SortMode, x: Skip, k: int)
    ensures WithKey(mode, [x], k) == if SortKey(mode, x) == k then [x] else []
  {
    assert WithKey(mode, [x], k) == (if SortKey(mode, x) == k then [x] else []) + WithKey(mode, [], k);
  }

  lemma {:induction false} InsertStable(mode: SortMode, t: seq<Skip>, x: Skip, k: int)
    requires SortedByKey(mode, t)
    ensures WithKey(mode, Insert(mode, t, x), k) ==
            WithKey(mode, t, k) + (if SortKey(mode, x) == k then [x] else [])
  {
    WithKeySingleton(mode, x, k);
    if t == [] {
      assert Insert(mode, t, x) == [x];
    } else if SortKey(mode, t[|t| - 1]) <= SortKey(mode, x) {
      assert Insert(mode, t, x) == t + [x];
      WithKeyAppend(mode, t, [x], k);
    } else {
      var t' := t[..|t| - 1];
      assert SortedByKey(mode, t');
      InsertStable(mode, t', x, k);
      InsertStableShift(mode, t, x, k);
    }
  }

  /** The case of `InsertStable` where `x` moves left past the last element. */
  lemma {:induction false} InsertStableShift(mode: SortMode, t: seq<Skip>, x: Skip, k: int)
    requires t != [] && SortKey(mode, t[|t| - 1]) > SortKey(mode, x)
    requires WithKey(mode, Insert(mode, t[..|t| - 1], x), k) ==
             WithKey(mode, t[..|t| - 1], k) + (if SortKey(mode, x) == k then [x] else [])
    ensures WithKey(mode, Insert(mode, t, x), k) ==
            WithKey(mode, t, k) + (if SortKey(mode, x) == k then [x] else [])
  {
    var t', last := t[..|t| - 1], t[|t| - 1];
    assert t == t' + [last];
    assert Insert(mode, t, x) == Insert(mode, t', x) + [last];
    MovePastLarger(mode, Insert(mode, t', x), t', x, last, k);
  }

  /**
   * Appending an element whose key exceeds `x`'s to both sides keeps `x`
   * behind the rest of its key group.
   */
  lemma MovePastLarger(mode: SortMode, u: seq<Skip>, p: seq<Skip>, x: Skip, last: Skip, k: int)
    requires SortKey(mode, last) > SortKey(mode, x)
    requires WithKey(mode, u, k) == WithKey(mode, p, k) + (if SortKey(mode, x) == k then [x] else [])
    ensures WithKey(mode, u + [last], k) ==
            WithKey(mode, p + [last], k) + (if SortKey(mode, x) == k then [x] else [])
  {
    var X := if SortKey(mode, x) == k then [x] else [];
    var L := if SortKey(mode, last) == k then [last] else [];
    WithKeySingleton(mode, last, k);
    WithKeyAppend(mode, u, [last], k);
    WithKeyAppend(mode, p, [last], k);
    assert X == [] || L == [];
    assert (WithKey(mode, p, k) + X) + L == (WithKey(mode, p, k) + L) + X;
  }

  /**
   * The sort's result is ordered by the key, is a permutation of its input,
   * and keeps the input order among elements with equal keys.
   */
  lemma {:induction false} SortBySpec(mode: SortMode, s: seq<Skip>)
    ensures SortedByKey(mode, SortBy(mode, s))
    ensures multiset(SortBy(mode, s)) == multiset(s)
    ensures forall k :: WithKey(mode, SortBy(mode, s), k) == WithKey(mode, s, k)
  {
    if s != [] {
      var s', x := s[..|s| - 1], s[|s| - 1];
      assert s == s' + [x];
      SortBySpec(mode, s');
      InsertSorted(mode, SortBy(mode, s'), x);
      InsertMultiset(mode, SortBy(mode, s'), x);
      forall k ensures WithKey(mode, SortBy(mode, s), k) == WithKey(mode, s, k) {
        InsertStable(mode, SortBy(mode, s'), x, k);
        WithKeyAppend(mode, s', [x], k);
        assert WithKey(mode, [x], k) == (if SortKey(mode, x) == k then [x] else []) + WithKey(mode, [], k);
      }
    }
  }

  /** Sorting a list that is already in key order changes nothing. */
  lemma {:induction false} SortBySortedIsIdentity(mode: SortMode, s: seq<Skip>)
    requires SortedByKey(mode, s)
    ensures SortBy(mode, s) == s
  {
    if s != [] {
      var s' := s[..|s| - 1];
      assert SortedByKey(mode, s');
      SortBySortedIsIdentity(mode, s');
      assert s == s' + [s[|s| - 1]];
    }
  }

  // ---------------------------------------------------------------------------
  // Properties of the pipeline
  // ---------------------------------------------------------------------------

  /**
   * The displayed list holds exactly the input skips that pass the filter,
   * each as often as in the input, ordered by the mode's key, with ties in
   * input order.
   */
  lemma ApplySpec(skips: seq<Skip>, f: FilterState)
    ensures forall x :: x in Apply(skips, f) <==> x in skips && Passes(x, f)
    ensures forall x :: multiset(Apply(skips, f))[x] == if Passes(x, f) then multiset(skips)[x] else 0
    ensures |Apply(skips, f)| <= |skips|
    ensures SortedByKey(f.sortBy, Apply(skips, f))
    ensures forall k :: WithKey(f.sortBy, Apply(skips, f), k) == WithKey(f.sortBy, FilterSkips(skips, f), k)
  {
    var filtered := FilterSkips(skips, f);
    FilterMultiset(skips, f);
    SortBySpec(f.sortBy, filtered);
    forall x ensures x in Apply(skips, f) <==> x in filtered {
      assert x in Apply(skips, f) <==> x in multiset(Apply(skips, f));
    }
    FilterIsSubsequence(skips, f);
    SubsequenceLength(filtered, skips);
  }


  /** For the four keyed modes, the displayed list is ordered by that field. */
  lemma ApplyOrdered(skips: seq<Skip>, f: FilterState)
    ensures var r := Apply(skips, f);
      forall i, j :: 0 <= i < j < |r| ==>
        && (f.sortBy == SizeAsc ==> r[i].size <= r[j].size)
        && (f.sortBy == SizeDesc ==> r[i].size >= r[j].size)
        && (f.sortBy == PriceAsc ==> r[i].priceBeforeVat <= r[j].priceBeforeVat)
        && (f.sortBy == PriceDesc ==> r[i].priceBeforeVat >= r[j].priceBeforeVat)
  {
    ApplySpec(skips, f);
  }

  /** "Most popular" puts every size-4 skip before every other skip. */
  lemma ApplyPopularPartition(skips: seq<Skip>, f: FilterState)
    requires f.sortBy == Popular
    ensures var r := Apply(skips, f);
      forall i, j :: 0 <= i < j < |r| && r[j].size == 4 ==> r[i].size == 4
  {
    ApplySpec(skips, f);
  }

  /** Running the pipeline on its own output with the same filters returns that output. */
  lemma ApplyIdempotent(skips: seq<Skip>, f: FilterState)
    ensures Apply(Apply(skips, f), f) == Apply(skips, f)
  {
    var r := Apply(skips, f);
    ApplySpec(skips, f);
    FilterAllPass(r, f);
    SortBySortedIsIdentity(f.sortBy, r);
  }

  /** Empty input gives empty output. */
  lemma ApplyEmpty(f: FilterState)
    ensures Apply([], f) == []
  {
  }

  // ---------------------------------------------------------------------------
  // The imperative pipeline: filter into a fresh array, then sort it in place
  // ---------------------------------------------------------------------------

  /** `a.sort(cmp)` for the mode's comparator: a stable insertion sort in place. */
  method SortInPlace(a: array<Skip>, mode: SortMode)
    modifies a
    ensures a[..] == SortBy(mode, old(a[..]))
  {
    ghost var A := a[..];
    var i := 0;
    while i < a.Length
      invariant 0 <= i <= a.Length
      invariant a[..i] == SortBy(mode, A[..i])
      invariant a[i..] == A[i..]
    {
      assert a[i] == A[i];
      InsertAt(a, i, mode);
      SortByStep(mode, A, i);
      assert a[i + 1..] == A[i + 1..];
      i := i + 1;
    }
    assert A[..a.Length] == A;
  }

  /** The pass of the sort that moves `a[i]` left into the sorted prefix `a[..i]`. */
  method InsertAt(a: array<Skip>, i: int, mode: SortMode)
    requires 0 <= i < a.Length
    modifies a
    ensures a[..i + 1] == Insert(mode, old(a[..i]), old(a[i]))
    ensures a[i + 1..] == old(a[i + 1..])
  {
    ghost var P := a[..i];
    var x := a[i];
    var j := ShiftGreater(a, i, x, mode);
    InsertPosition(mode, P, x, j);
    a[j] := x;
    Spliced(a[..i + 1], P, x, j);
  }

  /**
   * Moves each element of `a[..i]` whose key exceeds `x`'s one place up,
   * scanning from the right, and returns the index of the gap left behind.
   */
  method ShiftGreater(a: array<Skip>, i: int, x: Skip, mode: SortMode) returns (j: int)
    requires 0 <= i < a.Length
    modifies a
    ensures 0 <= j <= i
    ensures forall m :: 0 <= m < j ==> a[m] == old(a[m])
    ensures forall m :: j < m <= i ==> a[m] == old(a[m - 1])
    ensures forall m :: i < m < a.Length ==> a[m] == old(a[m])
    ensures forall m :: j <= m < i ==> SortKey(mode, old(a[m])) > SortKey(mode, x)
    ensures j == 0 || SortKey(mode, old(a[j - 1])) <= SortKey(mode, x)
  {
    j := i;
    while j > 0 && SortKey(mode, a[j - 1]) > SortKey(mode, x)
      invariant 0 <= j <= i
      invariant forall m :: 0 <= m < j ==> a[m] == old(a[m])
      invariant forall m :: j < m <= i ==> a[m] == old(a[m - 1])
      invariant forall m :: i < m < a.Length ==> a[m] == old(a[m])
      invariant forall m :: j <= m < i ==> SortKey(mode, old(a[m])) > SortKey(mode, x)
    {
      a[j] := a[j - 1];
      j := j - 1;
    }
  }

  /** A list that agrees with `P` before `j`, holds `x` at `j` and `P` shifted by one after it. */
  lemma Spliced(A: seq<Skip>, P: seq<Skip>, x: Skip, j: int)
    requires 0 <= j <= |P| && |A| == |P| + 1
    requires forall m :: 0 <= m < j ==> A[m] == P[m]
    requires A[j] == x
    requires forall m :: j < m < |A| ==> A[m] == P[m - 1]
    ensures A == P[..j] + [x] + P[j..]
  {
    var B := P[..j] + [x] + P[j..];
    assert forall m :: 0 <= m < |A| ==> A[m] == B[m];
  }

  /**
   * `Insert` puts `x` directly after the rightmost element whose key is not
   * greater than `x`'s.
   */
  lemma {:induction false} InsertPosition(mode: SortMode, P: seq<Skip>, x: Skip, j: int)
    requires 0 <= j <= |P|
    requires j == 0 || SortKey(mode, P[j - 1]) <= SortKey(mode, x)
    requires forall m :: j <= m < |P| ==> SortKey(mode, P[m]) > SortKey(mode, x)
    ensures Insert(mode, P, x) == P[..j] + [x] + P[j..]
    decreases |P|
  {
    if |P| == j {
      if j > 0 {
        assert P[..j] == P;
      }
    } else {
      var P', last := P[..|P| - 1], P[|P| - 1];
      assert P == P' + [last];
      assert SortKey(mode, last) > SortKey(mode, x);
      assert Insert(mode, P, x) == Insert(mode, P', x) + [last];
      InsertPosition(mode, P', x, j);
      assert P'[..j] == P[..j];
      assert P'[j..] + [last] == P[j..];
      assert (P[..j] + [x] + P'[j..]) + [last] == P[..j] + [x] + (P'[j..] + [last]);
    }
  }

  /** Sorting one more element of the input is inserting it into the sorted prefix. */
  lemma SortByStep(mode: SortMode, A: seq<Skip>, i: int)
    requires 0 <= i < |A|
    ensures SortBy(mode, A[..i + 1]) == Insert(mode, SortBy(mode, A[..i]), A[i])
  {
    assert A[..i + 1][..i] == A[..i];
  }

  /** `filteredAndSortedSkips`: never touches `skips`; sorts a fresh copy of the filtered list. */
  method FilteredAndSorted(skips: seq<Skip>, f: FilterState) returns (r: seq<Skip>)
    ensures r == Apply(skips, f)
  {
    var filtered := FilterSkips(skips, f);
    var a := new Skip[|filtered|](k requires 0 <= k < |filtered| => filtered[k]);
    assert a[..] == filtered;
    SortInPlace(a, f.sortBy);
    r := a[..];
  }

  // ---------------------------------------------------------------------------
  // Page state: the fetched list, the filters and the selection slot
  // ---------------------------------------------------------------------------

  class SkipSelectionPage {
    /** The list the retrieval hook currently supplies. */
    var skips: seq<Skip>
    var filters: FilterState
    var selectedSkip: Option<Skip>

    constructor (fetched: seq<Skip>)
      ensures skips == fetched && filters == DefaultFilters && selectedSkip == None
    {
      skips := fetched;
      filters := DefaultFilters;
      selectedSkip := None;
    }

    /** What the grid shows. */
    function Displayed(): seq<Skip>
      reads this
    {
      Apply(skips, filters)
    }

    /** `isSelected={selectedSkip?.id === skip.id}` for one card. */
    function IsSelected(skip: Skip): (b: bool)
      reads this
      ensures b <==> selectedSkip.Some? && selectedSkip.value.id == skip.id
    {
      match selectedSkip
      case None => false
      case Some(s) => s.id == skip.id
    }

    /** `handleSkipSelect`: replaces any earlier selection. */
    method SelectSkip(skip: Skip)
      modifies this
      ensures selectedSkip == Some(skip)
      ensures skips == old(skips) && filters == old(filters)
    {
      selectedSkip := Some(skip);
    }

    /** `handleClearSelection`. */
    method ClearSelection()
      modifies this
      ensures selectedSkip == None
      ensures skips == old(skips) && filters == old(filters)
    {
      selectedSkip := None;
    }

    /**
     * `handleContinue`: hands the selection to the permit-check stage only when
     * one exists; otherwise does nothing. The page state is not changed.
     */
    method Continue() returns (handoff: Option<Skip>)
      ensures handoff.Some? <==> selectedSkip.Some?
      ensures handoff.Some? ==> handoff.value == selectedSkip.value
    {
      if selectedSkip.Some? {
        handoff := Some(selectedSkip.value);
      } else {
        handoff := None;
      }
    }

    /** `handleClearFilters`: back to exactly the initial filters. */
    method ClearFilters()
      modifies this
      ensures filters == DefaultFilters
      ensures skips == old(skips) && selectedSkip == old(selectedSkip)
    {
      filters := FilterState([], 2000, [], SizeAsc);
    }

    /** `onFiltersChange={setFilters}`: the sidebar's new configuration. */
    method SetFilters(f: FilterState)
      modifies this
      ensures filters == f
      ensures skips == old(skips) && selectedSkip == old(selectedSkip)
    {
      filters := f;
    }

    /** A new retrieval result: the selection is kept, even if it is no longer listed. */
    method ReceiveSkips(fetched: seq<Skip>)
      modifies this
      ensures skips == fetched
      ensures selectedSkip == old(selectedSkip) && filters == old(filters)
    {
      skips := fetched;
    }
  }
}
