/** The buyer's marketplace page (apps/web/src/pages/buyer/MarketplaceMap.tsx): the filter
    form turned into market filters, the rectangle the map reports, and the loading, error
    and listings state around each fetch. */
module MarketplaceMap {
  import opened Wrappers
  import Text
  import opened MarketApi

  /** The rectangle shown before the map has reported one. */
  const BostonDefaultBounds: Bounds := Bounds(42.2279, -71.1912, 42.3996, -70.986)

  /** The debounce the page asks the map for, in milliseconds. */
  const DebounceMs: int := 400

  lemma DefaultBoundsProper()
    ensures BostonDefaultBounds.sw_lat < BostonDefaultBounds.ne_lat
    ensures BostonDefaultBounds.sw_lng < BostonDefaultBounds.ne_lng
  {
  }

  /** `Math.round(x)`: the nearest integer, halves rounded up. */
  function JsRound(x: real): (n: int)
    ensures n as real - 0.5 <= x < n as real + 0.5
  {
    (x + 0.5).Floor
  }

  /** A price box turned into cents: `Math.round(parseFloat(text) * 100) || undefined` for a
      non-empty box. `parse` is `parseFloat`, absent for NaN; 0 cents and NaN are dropped. */
  function PriceCents(text: string, parse: string -> Option<real>): (r: Option<int>)
    ensures text == "" ==> r.None?
    ensures r.Some? ==> (r.value != 0 && parse(text).Some?
      && r.value as real - 0.5 <= parse(text).value * 100.0 < r.value as real + 0.5)
    ensures text != "" && parse(text).Some? && JsRound(parse(text).value * 100.0) != 0 ==> r.Some?
  {
    if text == "" then None
    else
      match parse(text)
      case None => None
      case Some(d) =>
        var cents := JsRound(d * 100.0);
        if cents == 0 then None else Some(cents)
  }

  /** The filters derived from the form: `open_now` only when checked, prices in cents,
      and the category trimmed and left out when blank. */
  function DeriveFilters(openNow: bool, minPrice: string, maxPrice: string, category: string,
                         parse: string -> Option<real>): (f: MarketFilters)
    ensures f.open_now == (if openNow then Some(true) else None)
    ensures f.min_price_cents == PriceCents(minPrice, parse) && f.max_price_cents == PriceCents(maxPrice, parse)
    ensures f.category.Some? <==> Text.JsTrim(category) != []
    ensures f.category.Some? ==> (f.category.value == Text.JsTrim(category)
      && !Text.IsJsSpace(f.category.value[0]) && !Text.IsJsSpace(f.category.value[|f.category.value| - 1]))
  {
    Text.TrimHasNoEdgeSpace(category, Text.IsJsSpace);
    var trimmed := Text.JsTrim(category);
    MarketFilters(
      if openNow then Some(true) else None,
      PriceCents(minPrice, parse),
      PriceCents(maxPrice, parse),
      if trimmed != [] then Some(trimmed) else None)
  }

  /** How a fetch ended: the listings, or an error (with its message when it is an `Error`). */
  datatype FetchOutcome = Loaded(data: seq<MarketListing>) | Failed(message: Option<string>)

  class MarketplaceMapPage {
    var listings: seq<MarketListing>
    var loading: bool
    var error: Option<string>
    var bounds: Option<Bounds>

    /** The page starts loading, with no listings, no error and the default rectangle. */
    constructor()
      ensures listings == [] && loading && error == None && bounds == Some(BostonDefaultBounds)
    {
      listings := [];
      loading := true;
      error := None;
      bounds := Some(BostonDefaultBounds);
    }

    /** `handleBoundsChange`: the reported rectangle replaces the current one. */
    method HandleBoundsChange(b: Bounds)
      modifies this
      ensures bounds == Some(b)
      ensures listings == old(listings) && loading == old(loading) && error == old(error)
    {
      bounds := Some(b);
    }

    /** `fetchListings`: loading and no error while the request runs; afterwards the
        listings, or no listings and the error message ("Failed to load" when the error
        carries none); loading is off either way. */
    method FetchListings(outcome: FetchOutcome)
      modifies this
      ensures !loading && bounds == old(bounds)
      ensures outcome.Loaded? ==> listings == outcome.data && error == None
      ensures outcome.Failed? ==> listings == [] && error == Some(outcome.message.GetOr("Failed to load"))
    {
      loading := true;
      error := None;
      match outcome {
        case Loaded(data) =>
          listings := data;
        case Failed(message) =>
          error := Some(message.GetOr("Failed to load"));
          listings := [];
      }
      loading := false;
    }

    /** The effect that runs whenever the rectangle or a form field changes: derive the
        filters, send them with the rectangle, and take in the outcome. Returns the query
        parameters of the request. */
    method Refresh(openNow: bool, minPrice: string, maxPrice: string, category: string,
                   parse: string -> Option<real>, outcome: FetchOutcome)
      returns (params: map<string, ParamValue>)
      modifies this
      ensures params.Keys <= QueryKeys
      ensures forall k :: k in BoundsKeys ==> (k in params <==> old(bounds).Some?)
      ensures old(bounds).Some? ==>
        && params["sw_lat"] == PNum(old(bounds).value.sw_lat)
        && params["sw_lng"] == PNum(old(bounds).value.sw_lng)
        && params["ne_lat"] == PNum(old(bounds).value.ne_lat)
        && params["ne_lng"] == PNum(old(bounds).value.ne_lng)
      ensures "open_now" in params <==> openNow
      ensures "open_now" in params ==> params["open_now"] == PBool(true)
      ensures "min_price_cents" in params <==> PriceCents(minPrice, parse).Some?
      ensures "min_price_cents" in params ==> params["min_price_cents"] == PInt(PriceCents(minPrice, parse).value)
      ensures "max_price_cents" in params <==> PriceCents(maxPrice, parse).Some?
      ensures "max_price_cents" in params ==> params["max_price_cents"] == PInt(PriceCents(maxPrice, parse).value)
      ensures "category" in params <==> Text.JsTrim(category) != []
      ensures "category" in params ==> params["category"] == PStr(Text.JsTrim(category))
      ensures !loading && bounds == old(bounds)
      ensures outcome.Loaded? ==> listings == outcome.data && error == None
      ensures outcome.Failed? ==> listings == [] && error == Some(outcome.message.GetOr("Failed to load"))
    {
      var f := DeriveFilters(openNow, minPrice, maxPrice, category, parse);
      params := GetMarketWithBounds(bounds, Some(f));
      assert forall k :: k in BoundsKeys ==> (k in params <==> old(bounds).Some?);
      FetchListings(outcome);
    }
  }
}
