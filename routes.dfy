/**
 * The two HTTP handlers, with the transport left out: a request is its
 * query parameters, the upstream provider's answer is a value, and a
 * response is a status with a body.
 */
module Routes {

  import opened Wrappers
  import opened Schema
  import opened Storage

  /**
   * A query-string parameter as the web framework hands it over: absent, a
   * string, or something else (an array for a repeated parameter, an object
   * for a bracketed one).
   */
  datatype QueryValue = Absent | Str(s: string) | NonString

  datatype Query = Query(postcode: QueryValue, area: QueryValue)

  /** JavaScript truthiness of a parameter: a non-empty string or any array or object. */
  predicate Truthy(q: QueryValue)
  {
    q.NonString? || (q.Str? && q.s != "")
  }

  /** `area as string` when it is a string or absent (a cast, not a conversion). */
  function AreaArgument(q: QueryValue): Option<string>
  {
    if q.Str? then Some(q.s) else None
  }

  /** A loosely typed upstream record: any field may be missing. */
  datatype RawSkip = RawSkip(
    id: Option<int>,
    size: Option<int>,
    hirePeriodDays: Option<int>,
    transportCost: Option<int>,
    perTonneCost: Option<int>,
    priceBeforeVat: Option<int>,
    vat: Option<int>,
    postcode: Option<string>,
    area: Option<string>,
    forbidden: Option<bool>,
    allowedOnRoad: Option<bool>,
    allowsHeavyWaste: Option<bool>,
    createdAt: Option<string>,
    updatedAt: Option<string>)

  /** A normalised record: the four defaulted fields always present. */
  datatype WireSkip = WireSkip(
    id: Option<int>,
    size: Option<int>,
    hirePeriodDays: Option<int>,
    transportCost: Option<int>,
    perTonneCost: Option<int>,
    priceBeforeVat: Option<int>,
    vat: Option<int>,
    postcode: Option<string>,
    area: string,
    forbidden: bool,
    allowedOnRoad: bool,
    allowsHeavyWaste: bool,
    createdAt: Option<string>,
    updatedAt: Option<string>)

  /**
   * One element of the upstream array. Reading a property of a `null` element
   * throws; any other non-object element reads as a record whose fields are
   * all missing.
   */
  datatype Item = NullItem | Record(raw: RawSkip)

  /** What `response.json()` yields. */
  datatype Body = Unparseable | NotArray | Items(items: seq<Item>)

  /** The upstream call: it throws (network failure), or it answers with a status. */
  datatype Upstream = Throws | Replied(ok: bool, body: Body)

  datatype ResponseBody =
    | UpstreamSkips(normalised: seq<WireSkip>)
    | StoreSkips(skips: seq<Skip>)
    | ErrorBody(error: string, message: Option<string>)

  datatype Response = Response(status: int, body: ResponseBody)

  /** The store lookup either returns its list or throws with a message. */
  datatype Lookup = Found(skips: seq<Skip>) | Threw(message: string)

  const PostcodeRequired: Response := Response(400, ErrorBody("Postcode is required", None))
  const FetchFailed: string := "Failed to fetch skips"

  /** The messages a JavaScript engine gives when `toLowerCase` is called on a non-string. */
  const PostcodeTypeError: string := "postcode.toLowerCase is not a function"
  const AreaTypeError: string := "area.toLowerCase is not a function"

  /**
   * The per-record transform: every field copied, except that a falsy area
   * becomes empty, a falsy `forbidden` becomes false, and the two
   * permissions are granted unless the upstream value is exactly `false`.
   */
  function Normalize(raw: RawSkip): (w: WireSkip)
    ensures w.area == (if raw.area.Some? then raw.area.value else "")
    ensures w.forbidden == (raw.forbidden.Some? && raw.forbidden.value)
    ensures w.allowedOnRoad == (raw.allowedOnRoad.None? || raw.allowedOnRoad.value)
    ensures w.allowsHeavyWaste == (raw.allowsHeavyWaste.None? || raw.allowsHeavyWaste.value)
    ensures && w.id == raw.id && w.size == raw.size && w.hirePeriodDays == raw.hirePeriodDays
            && w.transportCost == raw.transportCost && w.perTonneCost == raw.perTonneCost
            && w.priceBeforeVat == raw.priceBeforeVat && w.vat == raw.vat
            && w.postcode == raw.postcode
            && w.createdAt == raw.createdAt && w.updatedAt == raw.updatedAt
  {
    WireSkip(
      raw.id, raw.size, raw.hirePeriodDays, raw.transportCost, raw.perTonneCost,
      raw.priceBeforeVat, raw.vat, raw.postcode,
      // skip.area || ''
      if raw.area.Some? && raw.area.value != "" then raw.area.value else "",
      // skip.forbidden || false
      if raw.forbidden == Some(true) then true else false,
      // skip.allowed_on_road !== false
      raw.allowedOnRoad != Some(false),
      raw.allowsHeavyWaste != Some(false),
      raw.createdAt, raw.updatedAt)
  }

  /** `data.map(transform)`: absent when some element is `null`, since the transform throws on it. */
  function NormalizeAll(items: seq<Item>): (r: Option<seq<WireSkip>>)
    ensures r.None? <==> NullItem in items
    ensures r.Some? ==> |r.value| == |items| &&
                        forall i :: 0 <= i < |items| ==> r.value[i] == Normalize(items[i].raw)
  {
    if items == [] then Some([])
    else if items[0].NullItem? then None
    else
      var rest := NormalizeAll(items[1..]);
      assert items == [items[0]] + items[1..];
      if rest.None? then None else Some([Normalize(items[0].raw)] + rest.value)
  }

  /**
   * The answer the upstream path sends, or absent when control falls through
   * to the store: a throw, a status that is not OK, a body that does not
   * parse, or a `null` element.
   */
  function UpstreamAnswer(upstream: Upstream): Option<seq<WireSkip>>
  {
    match upstream
    case Throws => None
    case Replied(ok, body) =>
      if !ok then None
      else match body
        case Unparseable => None
        case NotArray => Some([])
        case Items(items) => NormalizeAll(items)
  }

  /**
   * What `storage.getSkipsByLocation(postcode as string, area as string)`
   * does on the stored list `all`: a non-string parameter throws as soon as
   * the filter callback runs, that is, when the store is not empty.
   */
  function LocationLookup(all: seq<Skip>, postcode: QueryValue, area: QueryValue): Lookup
  {
    if all != [] && postcode.NonString? then Threw(PostcodeTypeError)
    else if all != [] && area.NonString? then Threw(AreaTypeError)
    else Found(FilterByLocation(all, if postcode.Str? then postcode.s else "", AreaArgument(area)))
  }

  /** The store call behind both handlers. */
  method StoreLookup(store: MemStorage, postcode: QueryValue, area: QueryValue) returns (r: Lookup)
    requires store.Valid()
    ensures r == LocationLookup(store.AllSkips(), postcode, area)
  {
    var nonEmpty := |store.skipOrder| > 0;
    if nonEmpty && postcode.NonString? {
      return Threw(PostcodeTypeError);
    }
    if nonEmpty && area.NonString? {
      return Threw(AreaTypeError);
    }
    var found := store.GetSkipsByLocation(if postcode.Str? then postcode.s else "", AreaArgument(area));
    r := Found(found);
  }

  /** `GET /api/skips/by-location`. */
  method GetSkipsByLocationRoute(query: Query, upstream: Upstream, store: MemStorage) returns (resp: Response)
    requires store.Valid()
    ensures !Truthy(query.postcode) ==> resp == PostcodeRequired
    ensures Truthy(query.postcode) && UpstreamAnswer(upstream).Some? ==>
              resp == Response(200, UpstreamSkips(UpstreamAnswer(upstream).value))
    ensures Truthy(query.postcode) && UpstreamAnswer(upstream).None? ==>
              match LocationLookup(store.AllSkips(), query.postcode, query.area)
              case Found(s) => resp == Response(200, StoreSkips(s))
              case Threw(m) => resp == Response(500, ErrorBody(FetchFailed, Some(m)))
  {
    if !Truthy(query.postcode) {
      return PostcodeRequired;
    }
    var answer := UpstreamAnswer(upstream);
    if answer.Some? {
      return Response(200, UpstreamSkips(answer.value));
    }
    var local := StoreLookup(store, query.postcode, query.area);
    match local
    case Found(s) => resp := Response(200, StoreSkips(s));
    case Threw(m) => resp := Response(500, ErrorBody(FetchFailed, Some(m)));
  }

  /** `GET /api/skips`: the store only, by location when a postcode is given. */
  method GetSkipsRoute(query: Query, store: MemStorage) returns (resp: Response)
    requires store.Valid()
    ensures !Truthy(query.postcode) ==> resp == Response(200, StoreSkips(store.AllSkips()))
    ensures Truthy(query.postcode) ==>
              match LocationLookup(store.AllSkips(), query.postcode, query.area)
              case Found(s) => resp == Response(200, StoreSkips(s))
              case Threw(_) => resp == Response(500, ErrorBody(FetchFailed, None))
  {
    if Truthy(query.postcode) {
      var local := StoreLookup(store, query.postcode, query.area);
      match local
      case Found(s) => resp := Response(200, StoreSkips(s));
      case Threw(_) => resp := Response(500, ErrorBody(FetchFailed, None));
    } else {
      var all := store.GetSkips();
      assert all == store.AllSkips();
      resp := Response(200, StoreSkips(all));
    }
  }

  /** An OK reply with an array: one normalised record per element, same length and order. */
  lemma UpstreamArrayKeepsShape(items: seq<Item>)
    requires NullItem !in items
    ensures var a := UpstreamAnswer(Replied(true, Items(items)));
      a.Some? && |a.value| == |items| &&
      forall i :: 0 <= i < |items| ==> a.value[i] == Normalize(items[i].raw)
  {
  }

  /** An OK reply whose body is not an array answers with the empty list. */
  lemma UpstreamNonArrayIsEmpty()
    ensures UpstreamAnswer(Replied(true, NotArray)) == Some([])
  {
  }

  /** Every upstream failure falls through to the store. */
  lemma UpstreamFailuresFallBack(body: Body, items: seq<Item>)
    ensures UpstreamAnswer(Throws).None?
    ensures UpstreamAnswer(Replied(false, body)).None?
    ensures UpstreamAnswer(Replied(true, Unparseable)).None?
    ensures NullItem in items ==> UpstreamAnswer(Replied(true, Items(items))).None?
  {
  }

  /** With string parameters the store cannot throw, and the lookup is the store's location filter. */
  lemma StringQueryIsStoreFilter(all: seq<Skip>, postcode: string, area: QueryValue)
    requires !area.NonString?
    ensures LocationLookup(all, Str(postcode), area) == Found(FilterByLocation(all, postcode, AreaArgument(area)))
  {
  }

  /** The lookup throws exactly when a parameter is not a string and the store holds a skip. */
  lemma LookupThrowsIff(all: seq<Skip>, postcode: QueryValue, area: QueryValue)
    ensures LocationLookup(all, postcode, area).Threw? <==>
            all != [] && (postcode.NonString? || area.NonString?)
  {
  }
}
