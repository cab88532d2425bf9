/**
 * The filter configuration and the sidebar's edits to it. Every edit builds
 * a new configuration (an object spread); nothing is mutated in place.
 */
module FilterSidebar {

  import opened Seqs

  /** The three size checkboxes. */
  datatype SizeCategory = Small | Medium | Large

  /** The two property checkboxes, `road-allowed` and `heavy-waste`. */
  datatype Property = RoadAllowed | HeavyWaste

  /** The five entries of the "Sort by" select. */
  datatype SortMode = SizeAsc | SizeDesc | PriceAsc | PriceDesc | Popular

  datatype FilterState = FilterState(
    sizeCategories: seq<SizeCategory>,
    maxPrice: int,
    properties: seq<Property>,
    sortBy: SortMode)

  /** One `updateFilter(key, value)` call: the key together with a value of that key's type. */
  datatype FilterUpdate =
    | SetSizeCategories(categories: seq<SizeCategory>)
    | SetMaxPrice(price: int)
    | SetProperties(props: seq<Property>)
    | SetSortBy(mode: SortMode)

  const SliderMin: int := 200
  const SliderMax: int := 2000
  const SliderStep: int := 50

  /** The values the price slider can produce. */
  predicate IsSliderValue(v: int)
  {
    SliderMin <= v <= SliderMax && (v - SliderMin) % SliderStep == 0
  }

  /** `{ ...filters, [key]: value }`: the named field replaced, every other kept. */
  function UpdateFilter(f: FilterState, u: FilterUpdate): (r: FilterState)
    ensures u.SetSizeCategories? ==> r == FilterState(u.categories, f.maxPrice, f.properties, f.sortBy)
    ensures u.SetMaxPrice? ==> r == FilterState(f.sizeCategories, u.price, f.properties, f.sortBy)
    ensures u.SetProperties? ==> r == FilterState(f.sizeCategories, f.maxPrice, u.props, f.sortBy)
    ensures u.SetSortBy? ==> r == FilterState(f.sizeCategories, f.maxPrice, f.properties, u.mode)
  {
    match u
    case SetSizeCategories(c) => f.(sizeCategories := c)
    case SetMaxPrice(p) => f.(maxPrice := p)
    case SetProperties(p) => f.(properties := p)
    case SetSortBy(m) => f.(sortBy := m)
  }

  /** `xs.filter(c => c !== v)`. */
  function Without<T(==)>(xs: seq<T>, v: T): (r: seq<T>)
    ensures |r| <= |xs|
  {
    if xs == [] then []
    else (if xs[0] == v then [] else [xs[0]]) + Without(xs[1..], v)
  }

  /** `xs.includes(v) ? xs.filter(c => c !== v) : [...xs, v]`. */
  function Toggle<T(==)>(xs: seq<T>, v: T): (r: seq<T>)
  {
    if v in xs then Without(xs, v) else xs + [v]
  }

  /** A size-category checkbox: flips that category's membership and touches nothing else. */
  function ToggleSizeCategory(f: FilterState, c: SizeCategory): (r: FilterState)
    ensures c in r.sizeCategories <==> c !in f.sizeCategories
    ensures forall x :: x != c ==> (x in r.sizeCategories <==> x in f.sizeCategories)
    ensures r.maxPrice == f.maxPrice && r.properties == f.properties && r.sortBy == f.sortBy
  {
    ToggleMembership(f.sizeCategories, c);
    UpdateFilter(f, SetSizeCategories(Toggle(f.sizeCategories, c)))
  }

  /** A property checkbox: flips that property's membership and touches nothing else. */
  function ToggleProperty(f: FilterState, p: Property): (r: FilterState)
    ensures p in r.properties <==> p !in f.properties
    ensures forall x :: x != p ==> (x in r.properties <==> x in f.properties)
    ensures r.sizeCategories == f.sizeCategories && r.maxPrice == f.maxPrice && r.sortBy == f.sortBy
  {
    ToggleMembership(f.properties, p);
    UpdateFilter(f, SetProperties(Toggle(f.properties, p)))
  }

  /** Toggling flips the membership of `v` and keeps that of every other value. */
  lemma ToggleMembership<T>(xs: seq<T>, v: T)
    ensures v in Toggle(xs, v) <==> v !in xs
    ensures forall x :: x != v ==> (x in Toggle(xs, v) <==> x in xs)
  {
    WithoutSpec(xs, v);
  }

  /** Removing `v` removes every occurrence, keeps every other element, and keeps their order. */
  lemma {:induction false} WithoutSpec<T>(xs: seq<T>, v: T)
    ensures v !in Without(xs, v)
    ensures forall x :: x in Without(xs, v) <==> x in xs && x != v
    ensures forall x :: x != v ==> multiset(Without(xs, v))[x] == multiset(xs)[x]
    ensures IsSubsequence(Without(xs, v), xs)
  {
    if xs != [] {
      WithoutSpec(xs[1..], v);
      assert xs == [xs[0]] + xs[1..];
      SubsequenceCons(Without(xs[1..], v), xs[1..], xs[0], xs[0] != v);
    }
  }

  /** Toggling a value the list lacks appends it and keeps the existing prefix. */
  lemma ToggleAbsent<T>(xs: seq<T>, v: T)
    requires v !in xs
    ensures Toggle(xs, v) == xs + [v]
    ensures Toggle(xs, v)[..|xs|] == xs && Toggle(xs, v)[|xs|] == v
  {
  }

  /** Toggling a value the list holds removes every occurrence and keeps the rest in order. */
  lemma TogglePresent<T>(xs: seq<T>, v: T)
    requires v in xs
    ensures v !in Toggle(xs, v)
    ensures forall x :: x in Toggle(xs, v) <==> x in xs && x != v
    ensures IsSubsequence(Toggle(xs, v), xs)
  {
    WithoutSpec(xs, v);
  }

  /** Removing a value that is not there changes nothing. */
  lemma {:induction false} WithoutAbsent<T>(xs: seq<T>, v: T)
    requires v !in xs
    ensures Without(xs, v) == xs
  {
    if xs != [] {
      WithoutAbsent(xs[1..], v);
      assert xs == [xs[0]] + xs[1..];
    }
  }

  /** Removing a value from the end of a list. */
  lemma {:induction false} WithoutAppend<T>(xs: seq<T>, ys: seq<T>, v: T)
    ensures Without(xs + ys, v) == Without(xs, v) + Without(ys, v)
  {
    if xs == [] {
      assert xs + ys == ys;
    } else {
      assert (xs + ys)[1..] == xs[1..] + ys;
      WithoutAppend(xs[1..], ys, v);
    }
  }

  /** Toggling the same value twice, starting from a list that lacks it, restores the list. */
  lemma ToggleTwice<T>(xs: seq<T>, v: T)
    requires v !in xs
    ensures Toggle(Toggle(xs, v), v) == xs
  {
    assert v in xs + [v];
    WithoutAppend(xs, [v], v);
    WithoutAbsent(xs, v);
    assert Without([v], v) == [];
  }

  /** Toggling keeps a duplicate-free list duplicate-free. */
  lemma {:induction false} ToggleKeepsNoDuplicates<T>(xs: seq<T>, v: T)
    requires NoDuplicates(xs)
    ensures NoDuplicates(Toggle(xs, v))
  {
    if v in xs {
      WithoutKeepsNoDuplicates(xs, v);
    }
  }

  lemma {:induction false} WithoutKeepsNoDuplicates<T>(xs: seq<T>, v: T)
    requires NoDuplicates(xs)
    ensures NoDuplicates(Without(xs, v))
  {
    if xs != [] {
      WithoutKeepsNoDuplicates(xs[1..], v);
      WithoutSpec(xs[1..], v);
      assert xs[0] !in xs[1..];
    }
  }

  /** Toggling a size category touches no other field of the configuration. */
  lemma ToggleSizeCategoryFrame(f: FilterState, c: SizeCategory)
    ensures ToggleSizeCategory(f, c).properties == f.properties
    ensures ToggleSizeCategory(f, c).maxPrice == f.maxPrice
    ensures ToggleSizeCategory(f, c).sortBy == f.sortBy
    ensures NoDuplicates(f.sizeCategories) ==> NoDuplicates(ToggleSizeCategory(f, c).sizeCategories)
  {
    if NoDuplicates(f.sizeCategories) {
      ToggleKeepsNoDuplicates(f.sizeCategories, c);
    }
  }

  /** Toggling a property touches no other field of the configuration. */
  lemma TogglePropertyFrame(f: FilterState, p: Property)
    ensures ToggleProperty(f, p).sizeCategories == f.sizeCategories
    ensures ToggleProperty(f, p).maxPrice == f.maxPrice
    ensures ToggleProperty(f, p).sortBy == f.sortBy
    ensures NoDuplicates(f.properties) ==> NoDuplicates(ToggleProperty(f, p).properties)
  {
    if NoDuplicates(f.properties) {
      ToggleKeepsNoDuplicates(f.properties, p);
    }
  }
}
