/**
 * End-to-end facts about the seeded store, the skip-selection pipeline, the
 * fallback route and the hand-off to the permit check.
 */
module Scenarios {

  import opened Wrappers
  import opened Schema
  import opened FilterSidebar
  import opened SkipSelection
  import opened Storage
  import opened Routes
  import opened PermitCheck

  /** The seeded store's skips in insertion order. */
  function Seeded(clock: nat -> string): (r: seq<Skip>)
    ensures |r| == 6 && forall i :: 0 <= i < 6 ==> r[i] == SeededSkip(clock, i)
  {
    [SeededSkip(clock, 0), SeededSkip(clock, 1), SeededSkip(clock, 2),
     SeededSkip(clock, 3), SeededSkip(clock, 4), SeededSkip(clock, 5)]
  }

  /** The demo data: sizes 4 to 14 in steps of 2, rising prices, road placement only for the two smallest. */
  lemma SeededFacts(clock: nat -> string, i: nat)
    requires i < 6
    ensures Seeded(clock)[i].id == i + 1
    ensures Seeded(clock)[i].size == 4 + 2 * i
    ensures Seeded(clock)[i].priceBeforeVat == [278, 320, 385, 435, 485, 535][i]
    ensures Seeded(clock)[i].postcode == "NR32" && Seeded(clock)[i].area == "Lowestoft"
    ensures Seeded(clock)[i].allowedOnRoad <==> i < 2
    ensures Seeded(clock)[i].allowsHeavyWaste
  {
    assert Seeded(clock)[i].Fields() == DemoSkips[i];
  }

  /** The seeded list is in ascending size order, and so in ascending price order too. */
  lemma SeededSorted(clock: nat -> string)
    ensures SortedByKey(SizeAsc, Seeded(clock))
    ensures SortedByKey(PriceAsc, Seeded(clock))
  {
    forall i | 0 <= i < 6 {
      SeededFacts(clock, i);
    }
  }

  /** A prefix of a sorted list is sorted. */
  lemma SortedPrefix(mode: SortMode, s: seq<Skip>, n: nat)
    requires SortedByKey(mode, s) && n <= |s|
    ensures SortedByKey(mode, s[..n])
  {
  }

  /** With the default filters the page shows the seeded skips as stored. */
  lemma DefaultViewIsSeededOrder(clock: nat -> string)
    ensures Apply(Seeded(clock), DefaultFilters) == Seeded(clock)
  {
    var s := Seeded(clock);
    forall x | x in s ensures Passes(x, DefaultFilters) {
      var i :| 0 <= i < 6 && s[i] == x;
      SeededFacts(clock, i);
    }
    FilterAllPass(s, DefaultFilters);
    SeededSorted(clock);
    SortBySortedIsIdentity(SizeAsc, s);
  }

  /** Keeps the first `n` skips and drops the rest, when that is what the filter decides. */
  lemma FilterKeepsPrefix(s: seq<Skip>, f: FilterState, n: nat)
    requires n <= |s|
    requires forall i :: 0 <= i < n ==> Passes(s[i], f)
    requires forall i :: n <= i < |s| ==> !Passes(s[i], f)
    requires SortedByKey(f.sortBy, s)
    ensures Apply(s, f) == s[..n]
  {
    FilterPassingPrefix(s, f, n);
    SortedPrefix(f.sortBy, s, n);
    SortBySortedIsIdentity(f.sortBy, s[..n]);
  }

  /** "Road allowed" leaves the 4- and 6-yard skips. */
  lemma RoadAllowedView(clock: nat -> string)
    ensures Apply(Seeded(clock), DefaultFilters.(properties := [RoadAllowed])) == Seeded(clock)[..2]
  {
    var f := DefaultFilters.(properties := [RoadAllowed]);
    forall i | 0 <= i < 6 ensures Passes(Seeded(clock)[i], f) <==> i < 2 {
      SeededFacts(clock, i);
    }
    SeededSorted(clock);
    FilterKeepsPrefix(Seeded(clock), f, 2);
  }

  /** A price cap of 400 leaves the 4-, 6- and 8-yard skips. */
  lemma PriceCapView(clock: nat -> string)
    ensures Apply(Seeded(clock), DefaultFilters.(maxPrice := 400)) == Seeded(clock)[..3]
  {
    var f := DefaultFilters.(maxPrice := 400);
    forall i | 0 <= i < 6 ensures Passes(Seeded(clock)[i], f) <==> i < 3 {
      SeededFacts(clock, i);
    }
    SeededSorted(clock);
    FilterKeepsPrefix(Seeded(clock), f, 3);
  }

  /** Every seeded skip matches a lookup of postcode "NR32" in area "Lowestoft". */
  lemma SeededLocationLookup(clock: nat -> string)
    ensures LocationLookup(Seeded(clock), Str("NR32"), Str("Lowestoft")) == Found(Seeded(clock))
  {
    var s := Seeded(clock);
    forall x | x in s ensures MatchesLocation(x, "NR32", Some("Lowestoft")) {
      var i :| 0 <= i < 6 && s[i] == x;
      SeededFacts(clock, i);
      OwnLocationMatches(x);
    }
    FilterByLocationAllMatch(s, "NR32", Some("Lowestoft"));
    StringQueryIsStoreFilter(s, "NR32", Str("Lowestoft"));
  }

  /** A fresh store lists the seeded skips in insertion order. */
  method FreshStore(clock: nat -> string) returns (store: MemStorage)
    ensures store.Valid() && store.AllSkips() == Seeded(clock)
  {
    store := new MemStorage(clock);
    SeededValues(clock, store.skipOrder, store.skips);
  }

  /** The seeded map read in the seeded key order. */
  lemma SeededValues(clock: nat -> string, order: seq<int>, m: map<int, Skip>)
    requires |order| == 6 && forall i :: 0 <= i < 6 ==> order[i] == i + 1
    requires forall k :: k in m <==> 1 <= k <= 6
    requires forall i :: 0 <= i < 6 ==> m[i + 1] == SeededSkip(clock, i)
    ensures ValuesInOrder(order, m) == Seeded(clock)
  {
    var r := ValuesInOrder(order, m);
    assert forall i :: 0 <= i < 6 ==> r[i] == Seeded(clock)[i];
  }

  /**
   * The fallback path end to end: with the provider unreachable, a string
   * query against a fresh store answers with the seeded skips it matches,
   * in insertion order. For "NR32" in "Lowestoft" that is all six
   * (`SeededLocationLookup`).
   */
  method FallbackServesSeededSkips(clock: nat -> string, postcode: string, area: QueryValue)
    returns (resp: Response)
    requires postcode != "" && !area.NonString?
    ensures resp == Response(200, StoreSkips(FilterByLocation(Seeded(clock), postcode, AreaArgument(area))))
  {
    var store := FreshStore(clock);
    var query := Query(Str(postcode), area);
    assert Truthy(query.postcode) && UpstreamAnswer(Throws).None?;
    StringQueryIsStoreFilter(Seeded(clock), postcode, area);
    var expected := FilterByLocation(Seeded(clock), postcode, AreaArgument(area));
    assert LocationLookup(store.AllSkips(), query.postcode, query.area) == Found(expected);
    resp := GetSkipsByLocationRoute(query, Throws, store);
  }

  /**
   * A selection hidden by a later filter change is still handed on: the
   * 14-yard skip is chosen, the price cap then hides it, Continue passes it to
   * the permit check, and there a public placement is refused because it may
   * not stand on the road.
   */
  method HiddenSelectionIsHandedOn(clock: nat -> string)
    returns (shown: bool, handoff: Option<Skip>, warning: bool, canContinue: bool)
    ensures !shown && handoff == Some(Seeded(clock)[5])
    ensures warning && !canContinue
  {
    var s := Seeded(clock);
    var page := new SkipSelectionPage(s);
    page.SelectSkip(s[5]);
    page.SetFilters(DefaultFilters.(maxPrice := 400));
    PriceCapView(clock);
    SeededFacts(clock, 5);
    forall i | 0 <= i < 3 ensures s[i] != s[5] {
      SeededFacts(clock, i);
    }
    shown := s[5] in page.Displayed();
    handoff := page.Continue();
    var permit := new PermitCheckPage(handoff);
    permit.SelectPlacement(Public);
    warning := permit.RoadWarning();
    canContinue := permit.CanContinue();
  }
}
