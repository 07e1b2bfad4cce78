/** The public listings endpoints (apps/api/routers/listings.py): the market feed and the
    Mongo filter it builds from the map rectangle and the search filters, the shape a stored
    listing is returned in, and listing creation with its choice of location. */
module ListingsRouter {
  import opened Wrappers
  import opened Bson
  import opened Schemas
  import opened MongoStore

  /** A list of numbers as stored. */
  function RealList(xs: seq<real>): (v: Value)
    ensures v.VList? && |v.items| == |xs| && forall i :: 0 <= i < |xs| ==> v.items[i] == VReal(xs[i])
  {
    VList(seq(|xs|, i requires 0 <= i < |xs| => VReal(xs[i])))
  }

  /** A GeoJSON point with the given coordinates. */
  function PointValue(coordinates: Value): Value {
    VObj(map["type" := VStr("Point"), "coordinates" := coordinates])
  }

  /** A stored location that is set must be an object with coordinates; the response
      builder reads them without a check. */
  predicate LocationShaped(doc: Doc) {
    "location" in doc && Truthy(doc["location"]) ==>
      doc["location"].VObj? && "coordinates" in doc["location"].fields
  }

  /** `_listing_to_response`: the document with `_id` (given as `id`) turned into the string
      field "id", and a set location rewritten as a GeoJSON point with the same coordinates. */
  function ListingToResponse(id: ObjectId, doc: Doc): (r: Doc)
    requires LocationShaped(doc)
    ensures r.Keys == doc.Keys - {"_id"} + {"id"}
    ensures r["id"] == VStr(IdString(id))
    ensures forall k :: k in doc && k != "_id" && k != "id" && k != "location" ==> r[k] == doc[k]
    ensures "location" in doc && !Truthy(doc["location"]) ==> r["location"] == doc["location"]
    ensures "location" in doc && Truthy(doc["location"]) ==>
      r["location"] == PointValue(doc["location"].fields["coordinates"])
  {
    var d := (doc - {"_id"})["id" := VStr(IdString(id))];
    if "location" in doc && Truthy(doc["location"]) then
      d["location" := PointValue(doc["location"].fields["coordinates"])]
    else d
  }

  /** A listing stored with a GeoJSON point and without an "id" field is recovered from its
      response: dropping "id" gives back the stored fields. */
  lemma ResponseKeepsStoredFields(id: ObjectId, doc: Doc, coordinates: Value)
    requires "_id" !in doc && "id" !in doc
    requires "location" in doc && doc["location"] == PointValue(coordinates)
    ensures ListingToResponse(id, doc) - {"id"} == doc
  {
    var r := ListingToResponse(id, doc);
    assert Truthy(doc["location"]);
    assert (r - {"id"}).Keys == doc.Keys;
  }

  /** The query parameters of the market feed; each may be omitted. */
  datatype MarketQuery = MarketQuery(
    swLat: Option<real>, swLng: Option<real>, neLat: Option<real>, neLng: Option<real>,
    openNow: Option<bool>, minPriceCents: Option<int>, maxPriceCents: Option<int>,
    category: Option<string>)

  predicate HasAllBounds(q: MarketQuery) {
    q.swLat.Some? && q.swLng.Some? && q.neLat.Some? && q.neLng.Some?
  }

  /** The polygon ring of a rectangle: positions `(lng, lat)`, from the south-west corner
      through south-east, north-east and north-west back to the south-west corner. */
  function Ring(swLat: real, swLng: real, neLat: real, neLng: real): seq<(real, real)> {
    [(swLng, swLat), (neLng, swLat), (neLng, neLat), (swLng, neLat), (swLng, swLat)]
  }

  /** The ring is closed: five positions, the last equal to the first (section 3.1.6 of
      RFC 7946), each a corner of the rectangle written longitude first (section 3.1.1), and
      every corner is visited. */
  lemma RingIsClosedRectangle(swLat: real, swLng: real, neLat: real, neLng: real)
    ensures var ring := Ring(swLat, swLng, neLat, neLng);
      && |ring| == 5 && ring[0] == ring[4]
      && (forall i :: 0 <= i < 5 ==> (ring[i].0 == swLng || ring[i].0 == neLng) && (ring[i].1 == swLat || ring[i].1 == neLat))
      && (swLng, swLat) in ring && (neLng, swLat) in ring && (neLng, neLat) in ring && (swLng, neLat) in ring
  {
    var ring := Ring(swLat, swLng, neLat, neLng);
    assert ring[0] == (swLng, swLat) && ring[1] == (neLng, swLat);
    assert ring[2] == (neLng, neLat) && ring[3] == (swLng, neLat);
  }

  /** Twice the signed area of a closed ring (the shoelace sum over consecutive positions). */
  function SignedArea2(ring: seq<(real, real)>): real
    decreases |ring|
  {
    if |ring| < 2 then 0.0
    else ring[0].0 * ring[1].1 - ring[1].0 * ring[0].1 + SignedArea2(ring[1..])
  }

  /** For a proper rectangle the ring runs counter-clockwise, as section 3.1.6 of RFC 7946
      asks of an exterior ring: its signed area is the rectangle's area, which is positive. */
  lemma RingCounterClockwise(swLat: real, swLng: real, neLat: real, neLng: real)
    requires swLat < neLat && swLng < neLng
    ensures SignedArea2(Ring(swLat, swLng, neLat, neLng)) == 2.0 * (neLng - swLng) * (neLat - swLat)
    ensures SignedArea2(Ring(swLat, swLng, neLat, neLng)) > 0.0
  {
    var ring := Ring(swLat, swLng, neLat, neLng);
    assert ring[4..][1..] == [];
    assert SignedArea2(ring[4..]) == 0.0;
    assert SignedArea2(ring[3..]) == swLng * swLat - swLng * neLat;
    assert SignedArea2(ring[2..]) == neLng * neLat - swLng * neLat + swLng * swLat - swLng * neLat;
    assert SignedArea2(ring[1..]) == neLng * neLat - neLng * swLat + neLng * neLat - swLng * neLat + swLng * swLat - swLng * neLat;
    assert SignedArea2(ring) == 2.0 * (neLng - swLng) * (neLat - swLat);
    var w := neLng - swLng;
    var h := neLat - swLat;
    assert w * h > 0.0;
  }

  /** A position as stored: `[lng, lat]`. */
  function PositionValue(p: (real, real)): Value {
    VList([VReal(p.0), VReal(p.1)])
  }

  /** The `$geoWithin` condition for a ring. */
  function WithinRing(ring: seq<(real, real)>): Value {
    var positions := seq(|ring|, i requires 0 <= i < |ring| => PositionValue(ring[i]));
    VObj(map["$geoWithin" := VObj(map["$geometry" := VObj(map[
      "type" := VStr("Polygon"),
      "coordinates" := VList([VList(positions)])])])])
  }

  /** The two `open_now` conditions: pickup has started and has not ended at `now`. */
  function OpenNowClauses(now: string): seq<Value> {
    [VObj(map["pickup_start" := VObj(map["$lte" := VStr(now)])]),
     VObj(map["pickup_end" := VObj(map["$gte" := VStr(now)])])]
  }

  const MarketFilterKeys: set<string> := {"status", "location", "$and", "price_cents", "category"}

  /** The filter of the market feed. `now` is the current UTC time as an ISO string. Open
      listings only; the rectangle when all four corners are given; the pickup window when
      `open_now` is true; a price range with each end only when given (0 included); the
      category when non-empty. */
  method BuildMarketFilter(q: MarketQuery, now: string) returns (filter: Doc)
    ensures filter.Keys <= MarketFilterKeys
    ensures "status" in filter && filter["status"] == VStr("open")
    ensures "location" in filter <==> HasAllBounds(q)
    ensures HasAllBounds(q) ==>
      filter["location"] == WithinRing(Ring(q.swLat.value, q.swLng.value, q.neLat.value, q.neLng.value))
    ensures "$and" in filter <==> q.openNow == Some(true)
    ensures "$and" in filter ==> filter["$and"] == VList(OpenNowClauses(now))
    ensures "price_cents" in filter <==> q.minPriceCents.Some? || q.maxPriceCents.Some?
    ensures "price_cents" in filter ==>
      && filter["price_cents"].VObj?
      && filter["price_cents"].fields.Keys <= {"$gte", "$lte"}
      && ("$gte" in filter["price_cents"].fields <==> q.minPriceCents.Some?)
      && ("$lte" in filter["price_cents"].fields <==> q.maxPriceCents.Some?)
      && (q.minPriceCents.Some? ==> filter["price_cents"].fields["$gte"] == VInt(q.minPriceCents.value))
      && (q.maxPriceCents.Some? ==> filter["price_cents"].fields["$lte"] == VInt(q.maxPriceCents.value))
    ensures "category" in filter <==> q.category.Some? && q.category.value != ""
    ensures "category" in filter ==> filter["category"] == VStr(q.category.value)
  {
    filter := map["status" := VStr("open")];
    if HasAllBounds(q) {
      var ring := Ring(q.swLat.value, q.swLng.value, q.neLat.value, q.neLng.value);
      filter := filter["location" := WithinRing(ring)];
    }
    if q.openNow == Some(true) {
      // no earlier condition has added "$and", so the list starts empty
      var clauses: seq<Value> := [];
      clauses := clauses + [OpenNowClauses(now)[0]];
      clauses := clauses + [OpenNowClauses(now)[1]];
      filter := filter["$and" := VList(clauses)];
    }
    if q.minPriceCents.Some? || q.maxPriceCents.Some? {
      var p: map<string, Value> := map[];
      if q.minPriceCents.Some? {
        p := p["$gte" := VInt(q.minPriceCents.value)];
      }
      if q.maxPriceCents.Some? {
        p := p["$lte" := VInt(q.maxPriceCents.value)];
      }
      filter := filter["price_cents" := VObj(p)];
    }
    if q.category.Some? && q.category.value != "" {
      filter := filter["category" := VStr(q.category.value)];
    }
  }

  /** `get_market`: the filter `BuildMarketFilter` describes, and each listing the database
      returns for it (`found`, its order kept) in response form. */
  method GetMarket(q: MarketQuery, now: string, found: seq<(ObjectId, Doc)>)
    returns (filter: Doc, out: seq<Doc>)
    requires forall i :: 0 <= i < |found| ==> LocationShaped(found[i].1)
    ensures filter.Keys <= MarketFilterKeys
    ensures "status" in filter && filter["status"] == VStr("open")
    ensures "location" in filter <==> HasAllBounds(q)
    ensures HasAllBounds(q) ==>
      filter["location"] == WithinRing(Ring(q.swLat.value, q.swLng.value, q.neLat.value, q.neLng.value))
    ensures "$and" in filter <==> q.openNow == Some(true)
    ensures "$and" in filter ==> filter["$and"] == VList(OpenNowClauses(now))
    ensures "price_cents" in filter <==> q.minPriceCents.Some? || q.maxPriceCents.Some?
    ensures "price_cents" in filter ==>
      && filter["price_cents"].VObj?
      && filter["price_cents"].fields.Keys <= {"$gte", "$lte"}
      && ("$gte" in filter["price_cents"].fields <==> q.minPriceCents.Some?)
      && ("$lte" in filter["price_cents"].fields <==> q.maxPriceCents.Some?)
      && (q.minPriceCents.Some? ==> filter["price_cents"].fields["$gte"] == VInt(q.minPriceCents.value))
      && (q.maxPriceCents.Some? ==> filter["price_cents"].fields["$lte"] == VInt(q.maxPriceCents.value))
    ensures "category" in filter <==> q.category.Some? && q.category.value != ""
    ensures "category" in filter ==> filter["category"] == VStr(q.category.value)
    ensures |out| == |found|
    ensures forall i :: 0 <= i < |found| ==> out[i] == ListingToResponse(found[i].0, found[i].1)
  {
    filter := BuildMarketFilter(q, now);
    out := [];
    var i := 0;
    while i < |found|
      invariant 0 <= i <= |found| && |out| == i
      invariant forall j :: 0 <= j < i ==> out[j] == ListingToResponse(found[j].0, found[j].1)
    {
      out := out + [ListingToResponse(found[i].0, found[i].1)];
      i := i + 1;
    }
  }

  /** Where a new listing is placed: an explicit location wins; otherwise a non-empty
      address is geocoded (`geocoded` is what the geocoder answers, `(lng, lat)` or nothing);
      otherwise the listing has no location. */
  function ChooseLocation(location: Option<GeoPoint>, address: Option<string>, geocoded: Option<(real, real)>)
    : (r: Option<seq<real>>)
    ensures location.Some? ==> r == Some(location.value.coordinates)
    ensures location.None? && (address.None? || address.value == "") ==> r.None?
    ensures location.None? && address.Some? && address.value != "" ==>
      (r.Some? <==> geocoded.Some?) && (r.Some? ==> r.value == [geocoded.value.0, geocoded.value.1])
  {
    if location.Some? then Some(location.value.coordinates)
    else if address.Some? && address.value != "" then
      match geocoded
      case Some(c) => Some([c.0, c.1])
      case None => None
    else None
  }

  /** The fields every new listing is stored with. */
  function NewListingDoc(businessId: Value, body: ListingCreate, createdAt: string, location: Option<seq<real>>)
    : (doc: Doc)
    ensures "status" in doc && doc["status"] == VStr("open")
    ensures "business_id" in doc && doc["business_id"] == businessId
    ensures "qty_available" in doc && doc["qty_available"] == VInt(body.qtyAvailable)
    ensures "price_cents" in doc && doc["price_cents"] == VInt(body.priceCents)
    ensures "location" in doc <==> location.Some?
    ensures location.Some? ==> doc["location"] == PointValue(RealList(location.value))
    ensures LocationShaped(doc) && "_id" !in doc && "id" !in doc
  {
    var base := map[
      "business_id" := businessId,
      "business_name" := VStr(body.businessName),
      "title" := VStr(body.title),
      "price_cents" := VInt(body.priceCents),
      "qty_available" := VInt(body.qtyAvailable),
      "pickup_start" := StrValue(body.pickupStart),
      "pickup_end" := StrValue(body.pickupEnd),
      "status" := VStr("open"),
      "address" := StrValue(body.address),
      "category" := StrValue(body.category),
      "created_at" := VStr(createdAt)];
    match location
    case Some(c) => base["location" := PointValue(RealList(c))]
    case None => base
  }

  /** `create_listing`: the listing is stored under the fresh id `newId`, always open, placed
      as `ChooseLocation` says, and returned in response form. */
  method CreateListing(db: Db, body: ListingCreate, geocoded: Option<(real, real)>, createdAt: string, newId: ObjectId)
    returns (r: Doc)
    requires newId !in db.listings
    modifies db
    ensures var doc := NewListingDoc(StrValue(body.businessId), body, createdAt, ChooseLocation(body.location, body.address, geocoded));
      && db.listings == old(db.listings)[newId := doc]
      && r == ListingToResponse(newId, doc)
    ensures db.orders == old(db.orders) && db.donations == old(db.donations)
    ensures db.foodBanks == old(db.foodBanks) && db.businesses == old(db.businesses)
  {
    var location := ChooseLocation(body.location, body.address, geocoded);
    var doc := NewListingDoc(StrValue(body.businessId), body, createdAt, location);
    db.listings := db.listings[newId := doc];
    r := ListingToResponse(newId, doc);
  }

  /** `get_listing`: 400 for an id that is not 24 hex digits, 404 for an unknown one. */
  method GetListing(db: Db, listingId: string) returns (r: Reply<Doc>)
    requires forall id :: id in db.listings ==> LocationShaped(db.listings[id])
    ensures ParseObjectId(listingId).None? ==> r == Fail(400, "Invalid listing id")
    ensures ParseObjectId(listingId).Some? && ParseObjectId(listingId).value !in db.listings ==>
      r == Fail(404, "Listing not found")
    ensures ParseObjectId(listingId).Some? && ParseObjectId(listingId).value in db.listings ==>
      r == Ok(ListingToResponse(ParseObjectId(listingId).value, db.listings[ParseObjectId(listingId).value]))
  {
    var oid := ParseObjectId(listingId);
    if oid.None? {
      return Fail(400, "Invalid listing id");
    }
    if oid.value !in db.listings {
      return Fail(404, "Listing not found");
    }
    r := Ok(ListingToResponse(oid.value, db.listings[oid.value]));
  }
}
