/** The browser's client for the FastAPI market (apps/web/src/api/market.ts): the types it
    exchanges and the query string `getMarketWithBounds` sends with `GET /market`. */
module MarketApi {
  import opened Wrappers

  /** A GeoJSON point; `coordinates` is `[lng, lat]` when the document is well formed. */
  datatype GeoPoint = GeoPoint(coordinates: seq<real>)

  /** A listing as the market endpoints return it. */
  datatype MarketListing = MarketListing(
    id: string,
    business_id: string,
    business_name: string,
    title: string,
    price_cents: int,
    qty_available: int,
    pickup_start: Option<string>,
    pickup_end: Option<string>,
    status: string,
    address: Option<string>,
    location: Option<GeoPoint>,
    created_at: Option<string>)

  /** A rectangle on the map: south-west and north-east corners, in degrees. */
  datatype Bounds = Bounds(sw_lat: real, sw_lng: real, ne_lat: real, ne_lng: real)

  /** Optional market filters; an absent field is `None`. */
  datatype MarketFilters = MarketFilters(
    open_now: Option<bool>,
    min_price_cents: Option<int>,
    max_price_cents: Option<int>,
    category: Option<string>)

  /** A query-string value. */
  datatype ParamValue = PNum(r: real) | PInt(i: int) | PBool(b: bool) | PStr(s: string)

  const BoundsKeys: set<string> := {"sw_lat", "sw_lng", "ne_lat", "ne_lng"}
  const QueryKeys: set<string> := BoundsKeys + {"open_now", "min_price_cents", "max_price_cents", "category"}

  /** The query parameters of `GET /market`: the four corners when bounds are given, then
      each filter that is set (`open_now` only when true, a category only when non-empty,
      a price bound whenever it is present, zero included). */
  method GetMarketWithBounds(bounds: Option<Bounds>, filters: Option<MarketFilters>)
    returns (params: map<string, ParamValue>)
    ensures params.Keys <= QueryKeys
    ensures forall k :: k in BoundsKeys ==> (k in params <==> bounds.Some?)
    ensures bounds.Some? ==>
      && params["sw_lat"] == PNum(bounds.value.sw_lat)
      && params["sw_lng"] == PNum(bounds.value.sw_lng)
      && params["ne_lat"] == PNum(bounds.value.ne_lat)
      && params["ne_lng"] == PNum(bounds.value.ne_lng)
    ensures "open_now" in params <==> filters.Some? && filters.value.open_now == Some(true)
    ensures "open_now" in params ==> params["open_now"] == PBool(true)
    ensures "min_price_cents" in params <==> filters.Some? && filters.value.min_price_cents.Some?
    ensures "min_price_cents" in params ==> params["min_price_cents"] == PInt(filters.value.min_price_cents.value)
    ensures "max_price_cents" in params <==> filters.Some? && filters.value.max_price_cents.Some?
    ensures "max_price_cents" in params ==> params["max_price_cents"] == PInt(filters.value.max_price_cents.value)
    ensures "category" in params <==> filters.Some? && filters.value.category.Some? && filters.value.category.value != ""
    ensures "category" in params ==> params["category"] == PStr(filters.value.category.value)
  {
    if bounds.Some? {
      var b := bounds.value;
      params := map["sw_lat" := PNum(b.sw_lat), "sw_lng" := PNum(b.sw_lng),
                    "ne_lat" := PNum(b.ne_lat), "ne_lng" := PNum(b.ne_lng)];
    } else {
      params := map[];
    }
    if filters.Some? {
      var f := filters.value;
      if f.open_now == Some(true) {
        params := params["open_now" := PBool(true)];
      }
      if f.min_price_cents.Some? {
        params := params["min_price_cents" := PInt(f.min_price_cents.value)];
      }
      if f.max_price_cents.Some? {
        params := params["max_price_cents" := PInt(f.max_price_cents.value)];
      }
      if f.category.Some? && f.category.value != "" {
        params := params["category" := PStr(f.category.value)];
      }
    }
  }
}
