/**
 * The in-memory record store: two maps keyed by id and two id counters.
 * A JavaScript `Map` iterates in insertion order, so each map is paired with
 * the sequence of its keys in the order they were inserted.
 */
module Storage {

  import opened Wrappers
  import opened Schema
  import opened Text
  import opened Seqs

  /**
   * `order` lists the keys of a map in insertion order: strictly increasing,
   * every key at least 1 and below the next id to be handed out, and exactly
   * the map's keys.
   */
  ghost predicate KeyOrder(order: seq<int>, keys: set<int>, next: int)
  {
    && (forall i, j :: 0 <= i < j < |order| ==> order[i] < order[j])
    && (forall i :: 0 <= i < |order| ==> 1 <= order[i] < next)
    && (forall k :: k in keys <==> k in order)
  }

  /** `Array.from(map.values())`. */
  function ValuesInOrder<V>(order: seq<int>, m: map<int, V>): (r: seq<V>)
    requires forall i :: 0 <= i < |order| ==> order[i] in m
    ensures |r| == |order|
    ensures forall i :: 0 <= i < |order| ==> r[i] == m[order[i]]
  {
    if order == [] then [] else [m[order[0]]] + ValuesInOrder(order[1..], m)
  }

  /** When `order` lists every key, every value stored under a key is in the list. */
  lemma ValuesInOrderCovers<V>(order: seq<int>, m: map<int, V>)
    requires forall i :: 0 <= i < |order| ==> order[i] in m
    requires forall k :: k in m ==> k in order
    ensures forall k :: k in m ==> m[k] in ValuesInOrder(order, m)
  {
    var r := ValuesInOrder(order, m);
    forall k | k in m ensures m[k] in r {
      var i :| 0 <= i < |order| && order[i] == k;
      assert r[i] == m[k];
    }
  }

  /**
   * The location test: the stored postcode contains the query postcode, and
   * the area is absent or empty or the stored area contains it, both ignoring
   * letter case.
   */
  predicate MatchesLocation(s: Skip, postcode: string, area: Option<string>)
  {
    && ContainsIgnoringCase(s.postcode, postcode)
    && (area.None? || area.value == "" || ContainsIgnoringCase(s.area, area.value))
  }

  /** `allSkips.filter(skip => MatchesLocation(skip, postcode, area))`. */
  function FilterByLocation(skips: seq<Skip>, postcode: string, area: Option<string>): (r: seq<Skip>)
    ensures forall s :: s in r <==> s in skips && MatchesLocation(s, postcode, area)
  {
    if skips == [] then []
    else
      (if MatchesLocation(skips[0], postcode, area) then [skips[0]] else [])
      + FilterByLocation(skips[1..], postcode, area)
  }

  lemma {:induction false} FilterByLocationIsSubsequence(skips: seq<Skip>, postcode: string, area: Option<string>)
    ensures IsSubsequence(FilterByLocation(skips, postcode, area), skips)
  {
    if skips != [] {
      FilterByLocationIsSubsequence(skips[1..], postcode, area);
      assert skips == [skips[0]] + skips[1..];
      SubsequenceCons(FilterByLocation(skips[1..], postcode, area), skips[1..], skips[0],
                      MatchesLocation(skips[0], postcode, area));
    }
  }

  /** One seeding step: the `i`-th demo skip stored under id `i + 1`, appended to the order. */
  lemma SeedStep(clock: nat -> string, i: nat, order: seq<int>, m: map<int, Skip>, s: Skip)
    requires i < |DemoSkips|
    requires |order| == i && forall j :: 0 <= j < i ==> order[j] == j + 1
    requires forall k :: k in m <==> 1 <= k <= i
    requires forall j :: 0 <= j < i ==> m[j + 1] == SeededSkip(clock, j)
    requires s == DemoSkips[i].Stamp(i + 1, clock(2 * i), clock(2 * i + 1))
    ensures var order', m' := order + [s.id], m[s.id := s];
      && |order'| == i + 1 && (forall j :: 0 <= j < i + 1 ==> order'[j] == j + 1)
      && (forall k :: k in m' <==> 1 <= k <= i + 1)
      && (forall j :: 0 <= j < i + 1 ==> m'[j + 1] == SeededSkip(clock, j))
  {
    assert s == SeededSkip(clock, i);
  }

  /** A skip matches a lookup by its own postcode and area. */
  lemma OwnLocationMatches(s: Skip)
    ensures MatchesLocation(s, s.postcode, Some(s.area))
  {
    IncludesSelf(ToLower(s.postcode));
    IncludesSelf(ToLower(s.area));
  }

  /** When every skip matches, the location filter returns the whole list. */
  lemma {:induction false} FilterByLocationAllMatch(skips: seq<Skip>, postcode: string, area: Option<string>)
    requires forall s :: s in skips ==> MatchesLocation(s, postcode, area)
    ensures FilterByLocation(skips, postcode, area) == skips
  {
    if skips != [] {
      assert skips == [skips[0]] + skips[1..];
      FilterByLocationAllMatch(skips[1..], postcode, area);
    }
  }

  /** The six demo skips inserted by the constructor, all at NR32 / Lowestoft. */
  const DemoSkips: seq<InsertSkip> := [
    InsertSkip(4, 14, None, None, 278, 20, "NR32", "Lowestoft", false, true, true),
    InsertSkip(6, 14, None, None, 320, 20, "NR32", "Lowestoft", false, true, true),
    InsertSkip(8, 14, None, None, 385, 20, "NR32", "Lowestoft", false, false, true),
    InsertSkip(10, 14, None, None, 435, 20, "NR32", "Lowestoft", false, false, true),
    InsertSkip(12, 14, None, None, 485, 20, "NR32", "Lowestoft", false, false, true),
    InsertSkip(14, 14, None, None, 535, 20, "NR32", "Lowestoft", false, false, true)
  ]

  /**
   * The store after seeding, where `clock(n)` is the n-th reading of the
   * clock: each `createSkip` reads it twice, for `created_at` and `updated_at`.
   */
  function SeededSkip(clock: nat -> string, i: nat): (s: Skip)
    requires i < |DemoSkips|
    ensures s.id == i + 1 && s.Fields() == DemoSkips[i]
  {
    DemoSkips[i].Stamp(i + 1, clock(2 * i), clock(2 * i + 1))
  }

  class MemStorage {
    var users: map<int, User>
    var userOrder: seq<int>
    var skips: map<int, Skip>
    var skipOrder: seq<int>
    var currentUserId: int
    var currentSkipId: int

    ghost predicate Valid()
      reads this
    {
      && 1 <= currentUserId && 1 <= currentSkipId
      && KeyOrder(userOrder, users.Keys, currentUserId)
      && KeyOrder(skipOrder, skips.Keys, currentSkipId)
      && (forall k :: k in users ==> users[k].id == k)
      && (forall k :: k in skips ==> skips[k].id == k)
    }

    /** The stored skips in insertion order. */
    function AllSkips(): seq<Skip>
      reads this
      requires Valid()
    {
      ValuesInOrder(skipOrder, skips)
    }

    function AllUsers(): seq<User>
      reads this
      requires Valid()
    {
      ValuesInOrder(userOrder, users)
    }

    /** Both counters start at 1; seeding then inserts the six demo skips with ids 1..6. */
    constructor (clock: nat -> string)
      ensures Valid()
      ensures users == map[] && userOrder == [] && currentUserId == 1
      ensures |skipOrder| == 6 && (forall i :: 0 <= i < 6 ==> skipOrder[i] == i + 1) && currentSkipId == 7
      ensures forall k :: k in skips <==> 1 <= k <= 6
      ensures forall i :: 0 <= i < 6 ==> skips[i + 1] == SeededSkip(clock, i)
    {
      users := map[];
      userOrder := [];
      skips := map[];
      skipOrder := [];
      currentUserId := 1;
      currentSkipId := 1;
      new;
      SeedDemoData(clock);
    }

    /** `demoSkips.forEach(skipData => this.createSkip(skipData))`. */
    method SeedDemoData(clock: nat -> string)
      requires Valid() && skips == map[] && skipOrder == [] && currentSkipId == 1
      modifies this
      ensures Valid()
      ensures users == old(users) && userOrder == old(userOrder) && currentUserId == old(currentUserId)
      ensures |skipOrder| == 6 && (forall i :: 0 <= i < 6 ==> skipOrder[i] == i + 1) && currentSkipId == 7
      ensures forall k :: k in skips <==> 1 <= k <= 6
      ensures forall i :: 0 <= i < 6 ==> skips[i + 1] == SeededSkip(clock, i)
    {
      for i := 0 to |DemoSkips|
        invariant Valid()
        invariant users == old(users) && userOrder == old(userOrder) && currentUserId == old(currentUserId)
        invariant currentSkipId == i + 1 && |skipOrder| == i
        invariant forall m :: 0 <= m < i ==> skipOrder[m] == m + 1
        invariant forall k :: k in skips <==> 1 <= k <= i
        invariant forall m :: 0 <= m < i ==> skips[m + 1] == SeededSkip(clock, m)
      {
        ghost var before, beforeOrder := skips, skipOrder;
        var s := CreateSkip(DemoSkips[i], clock(2 * i), clock(2 * i + 1));
        SeedStep(clock, i, beforeOrder, before, s);
      }
    }

    /** `getUser(id)`: the entry stored under `id`, if any. */
    method GetUser(id: int) returns (u: Option<User>)
      requires Valid()
      ensures u.Some? <==> id in users
      ensures u.Some? ==> u.value == users[id] && u.value.id == id
    {
      if id in users {
        u := Some(users[id]);
      } else {
        u := None;
      }
    }

    /** `getUserByUsername`: the first user, in insertion order, with that username. */
    method GetUserByUsername(username: string) returns (u: Option<User>)
      requires Valid()
      ensures u.None? <==> forall i :: 0 <= i < |AllUsers()| ==> AllUsers()[i].username != username
      ensures u.Some? ==> exists i :: 0 <= i < |AllUsers()| && AllUsers()[i] == u.value &&
                            u.value.username == username &&
                            forall j :: 0 <= j < i ==> AllUsers()[j].username != username
    {
      var all := ValuesInOrder(userOrder, users);
      var i := 0;
      while i < |all|
        invariant 0 <= i <= |all|
        invariant forall j :: 0 <= j < i ==> all[j].username != username
      {
        if all[i].username == username {
          assert all == AllUsers();
          return Some(all[i]);
        }
        i := i + 1;
      }
      assert all == AllUsers();
      return None;
    }

    /** `createUser`: the user gets the current counter as id; the counter advances by one. */
    method CreateUser(insertUser: InsertUser) returns (u: User)
      requires Valid()
      modifies this
      ensures Valid()
      ensures u == insertUser.WithId(old(currentUserId))
      ensures old(currentUserId) !in old(users)
      ensures currentUserId == old(currentUserId) + 1
      ensures users == old(users)[u.id := u] && userOrder == old(userOrder) + [u.id]
      ensures skips == old(skips) && skipOrder == old(skipOrder) && currentSkipId == old(currentSkipId)
    {
      var id := currentUserId;
      currentUserId := currentUserId + 1;
      u := insertUser.WithId(id);
      assert id !in userOrder;
      users := users[id := u];
      userOrder := userOrder + [id];
    }

    /** `getSkips`: every stored skip, in insertion order. */
    method GetSkips() returns (r: seq<Skip>)
      requires Valid()
      ensures |r| == |skipOrder|
      ensures forall i :: 0 <= i < |r| ==> r[i] == skips[skipOrder[i]]
      ensures forall k :: k in skips ==> skips[k] in r
    {
      r := ValuesInOrder(skipOrder, skips);
      ValuesInOrderCovers(skipOrder, skips);
    }

    /**
     * `getSkipsByLocation`: the stored skips that match, in insertion order.
     * The query must lie inside the stored value, not the other way round.
     */
    method GetSkipsByLocation(postcode: string, area: Option<string>) returns (r: seq<Skip>)
      requires Valid()
      ensures forall k :: k in skips ==> (skips[k] in r <==> MatchesLocation(skips[k], postcode, area))
      ensures forall s :: s in r ==> MatchesLocation(s, postcode, area)
      ensures IsSubsequence(r, AllSkips())
      ensures r == FilterByLocation(AllSkips(), postcode, area)
    {
      var all := GetSkips();
      assert all == AllSkips();
      r := FilterByLocation(all, postcode, area);
      FilterByLocationIsSubsequence(all, postcode, area);
    }

    /** `createSkip`: the fields plus a fresh id and the two timestamps, stored under that id. */
    method CreateSkip(insertSkip: InsertSkip, createdAt: string, updatedAt: string) returns (s: Skip)
      requires Valid()
      modifies this
      ensures Valid()
      ensures s == insertSkip.Stamp(old(currentSkipId), createdAt, updatedAt)
      ensures old(currentSkipId) !in old(skips)
      ensures currentSkipId == old(currentSkipId) + 1
      ensures skips == old(skips)[s.id := s] && skipOrder == old(skipOrder) + [s.id]
      ensures users == old(users) && userOrder == old(userOrder) && currentUserId == old(currentUserId)
    {
      var id := currentSkipId;
      currentSkipId := currentSkipId + 1;
      s := insertSkip.Stamp(id, createdAt, updatedAt);
      assert id !in skipOrder;
      skips := skips[id := s];
      skipOrder := skipOrder + [id];
    }
  }

  /** Query-inside-value: "nr3" finds "NR32", but "NR32EXTRA" does not. */
  lemma MatchDirection(s: Skip)
    requires s.postcode == "NR32"
    ensures MatchesLocation(s, "nr3", None)
    ensures !MatchesLocation(s, "NR32EXTRA", None)
  {
    assert ToLower("NR32") == "nr32";
    assert ToLower("nr3") == "nr3";
    assert "nr32"[..3] == "nr3";
    IncludesNotLonger(ToLower("NR32"), ToLower("NR32EXTRA"));
  }

  /** An empty postcode query and an absent or empty area match every skip. */
  lemma EmptyQueryMatchesAll(s: Skip, area: Option<string>)
    requires area.None? || area == Some("")
    ensures MatchesLocation(s, "", area)
  {
    assert ToLower("") == "";
    IncludesEmpty(ToLower(s.postcode));
  }
}
