/** The business side of the API (apps/api/routers/business.py): the mock login by
    business code, the caller's identity from the `X-Business-Id` header, and the listings
    and orders of that business. Creating a listing with a donation share routes that share
    to nearby food banks at once; a listing whose share cannot be placed is not kept. */
module BusinessRouter {
  import opened Wrappers
  import opened Bson
  import Text
  import opened Schemas
  import opened MongoStore
  import opened DonationRouting
  import opened ListingsRouter
  import opened DonationsRouter
  import opened OrdersRouter

  /** The routing limits this router uses. */
  const OsrmMaxMinutes: real := 20.0
  const OsrmTopK: int := 5

  /** `get_business_id`: a missing or blank header is refused with 401; otherwise the
      stripped value identifies the business. */
  function BusinessIdOf(header: Option<string>): (r: Reply<string>)
    ensures r.Fail? <==> header.None? || Text.PyStrip(header.value) == ""
    ensures r.Fail? ==> r == Fail(401, "X-Business-Id required")
    ensures r.Ok? ==> r.body == Text.PyStrip(header.value) && r.body != ""
  {
    if header.None? || header.value == "" || Text.PyStrip(header.value) == "" then Fail(401, "X-Business-Id required")
    else Ok(Text.PyStrip(header.value))
  }

  /** The answer to a business-code lookup. */
  datatype BusinessLookupResponse = BusinessLookupResponse(businessId: string, name: Value)

  /** `business_lookup`, given what `find_one` answers for the stripped code (`hit`):
      404 for an unknown code, else the business id and its name ("" when it has none). */
  method BusinessLookup(businesses: map<ObjectId, Doc>, code: string, hit: Option<ObjectId>)
    returns (r: Reply<BusinessLookupResponse>)
    requires hit.None? <==> forall id :: id in businesses ==> Get(businesses[id], "business_code") != VStr(Text.PyStrip(code))
    requires hit.Some? ==> hit.value in businesses && Get(businesses[hit.value], "business_code") == VStr(Text.PyStrip(code))
    ensures r.Fail? <==> forall id :: id in businesses ==> Get(businesses[id], "business_code") != VStr(Text.PyStrip(code))
    ensures r.Fail? ==> r == Fail(404, "Unknown business code")
    ensures r.Ok? ==> exists id :: (id in businesses && Get(businesses[id], "business_code") == VStr(Text.PyStrip(code))
      && r.body == BusinessLookupResponse(IdString(id), GetOr(businesses[id], "name", VStr(""))))
  {
    if hit.None? {
      return Fail(404, "Unknown business code");
    }
    var biz := businesses[hit.value];
    r := Ok(BusinessLookupResponse(IdString(hit.value), GetOr(biz, "name", VStr(""))));
  }

  /** Every listing of an answer in response form, in the answer's order. */
  method RespondListings(found: seq<(ObjectId, Doc)>) returns (out: seq<Doc>)
    requires forall i :: 0 <= i < |found| ==> LocationShaped(found[i].1)
    ensures |out| == |found|
    ensures forall i :: 0 <= i < |found| ==> out[i] == ListingToResponse(found[i].0, found[i].1)
  {
    out := [];
    var i := 0;
    while i < |found|
      invariant 0 <= i <= |found| && |out| == i
      invariant forall j :: 0 <= j < i ==> out[j] == ListingToResponse(found[j].0, found[j].1)
    {
      out := out + [ListingToResponse(found[i].0, found[i].1)];
      i := i + 1;
    }
  }

  /** A document matching a one-field filter holds that field with that value. */
  lemma MatchesOne(doc: Doc, key: string, v: Value)
    requires Matches(doc, map[key := v])
    ensures key in doc && doc[key] == v
  {
    assert key in map[key := v];
  }

  /** A listing's response names the business the listing is stored under. */
  lemma ResponseOwner(id: ObjectId, doc: Doc, businessId: string)
    requires LocationShaped(doc) && "business_id" in doc && doc["business_id"] == VStr(businessId)
    ensures var r := ListingToResponse(id, doc);
      "business_id" in r && r["business_id"] == VStr(businessId)
  {
    assert |"business_id"| == 11;
  }

  /** `business_list_listings`: the listings the database answers for the business
      (`found`), each in response form; all of them are the business's own. */
  method ListBusinessListings(listings: map<ObjectId, Doc>, businessId: string, found: seq<(ObjectId, Doc)>)
    returns (out: seq<Doc>)
    requires Answers(listings, map["business_id" := VStr(businessId)], found)
    requires forall id :: id in listings ==> LocationShaped(listings[id])
    ensures |out| == |found|
    ensures forall i :: 0 <= i < |out| ==> LocationShaped(found[i].1) && out[i] == ListingToResponse(found[i].0, found[i].1)
    ensures forall i :: 0 <= i < |out| ==> "business_id" in out[i] && out[i]["business_id"] == VStr(businessId)
  {
    forall i | 0 <= i < |found| ensures LocationShaped(found[i].1) {
      assert found[i].0 in listings;
    }
    out := RespondListings(found);
    forall i | 0 <= i < |out|
      ensures "business_id" in out[i] && out[i]["business_id"] == VStr(businessId)
    {
      MatchesOne(found[i].1, "business_id", VStr(businessId));
      ResponseOwner(found[i].0, found[i].1, businessId);
    }
  }

  /** The refusal of a new listing's donation share before it is stored. */
  const NeedsLocation: string := "Address (or location) is required when donate_percent > 0 so we can find nearby food banks"

  /** A donation share was asked for. */
  predicate DonationAsked(percent: Option<real>) {
    percent.Some? && percent.value > 0.0
  }

  /** How `business_create_listing` ends: refused before the listing is stored, withdrawn
      (stored, then deleted) when the share cannot be placed, kept as stored, or kept with
      the donation planned. */
  datatype CreateDecision =
    | Rejected(status: int, detail: string)
    | Withdrawn(status: int, detail: string)
    | Kept
    | Donated(total: int, donationQty: int, percent: real, plan: RoutingPlan)

  /** The refusals after routing, in order: no candidates (503 when routing was used, else
      404), then nothing allocated (422). */
  function BusinessRefusal(p: RoutingPlan): (r: Option<(int, string)>)
    ensures r.None? <==> p.candidates != [] && p.allocations != []
    ensures r.Some? && r.value.0 == 503 <==> p.candidates == [] && p.routingUsed
    ensures r.Some? && r.value.0 == 404 <==> p.candidates == [] && !p.routingUsed
    ensures r.Some? && r.value.0 == 422 <==> p.candidates != [] && p.allocations == []
  {
    if p.candidates == [] && p.routingUsed then
      Some((503, "No reachable food banks found within the time constraint. Try again or create without donation %."))
    else if p.candidates == [] then Some((404, "No active food banks found near this address"))
    else if p.allocations == [] then Some((422, "Could not allocate units to any food bank"))
    else None
  }

  /** The donation step for a stored listing of `total` units: nothing to donate below one
      unit; otherwise the plan, or its withdrawal when it places nothing. A plan allocates at
      least one unit and at most the units donated. */
  function DecideDonation(total: int, percent: real, answer: RoutingAnswer): (d: CreateDecision)
    requires WellFormedAnswer(answer)
    ensures !d.Rejected?
    ensures d == Kept <==> DonationQty(total as real, percent) < 1
    ensures d.Withdrawn? ==> BusinessRefusal(Plan(answer, DonationQty(total as real, percent), OsrmTopK, OsrmMaxMinutes)) == Some((d.status, d.detail))
    ensures d.Donated? ==> d.donationQty >= 1
    ensures d.Donated? ==>
      && d == Donated(total, DonationQty(total as real, percent), percent, Plan(answer, DonationQty(total as real, percent), OsrmTopK, OsrmMaxMinutes))
      && BusinessRefusal(d.plan).None?
      && 0 < TotalQty(d.plan.allocations) <= d.donationQty
  {
    var q := DonationQty(total as real, percent);
    if q < 1 then Kept
    else
      var p := Plan(answer, q, OsrmTopK, OsrmMaxMinutes);
      match BusinessRefusal(p)
      case Some((status, detail)) => Withdrawn(status, detail)
      case None =>
        PositiveTotal(p.allocations);
        Donated(total, q, percent, p)
  }

  /** What `business_create_listing` decides for the new listing `doc`: a donation share
      without a GeoJSON point is refused before anything is stored; a share on a located
      listing is routed; without a share the listing is simply kept. */
  function DecideCreate(doc: Doc, percent: Option<real>, answer: RoutingAnswer): (d: CreateDecision)
    requires WellFormedAnswer(answer)
    ensures d.Rejected? <==> DonationAsked(percent) && !IsPointLocation(Get(doc, "location"))
    ensures d.Rejected? ==> d == Rejected(422, NeedsLocation)
    ensures !DonationAsked(percent) ==> d == Kept
    ensures d.Donated? ==> d.total == IntField(doc, "qty_available", 0) && d.percent == percent.value
    ensures d.Donated? ==> d.donationQty == DonationQty(d.total as real, d.percent) >= 1
  {
    if DonationAsked(percent) && !IsPointLocation(Get(doc, "location")) then Rejected(422, NeedsLocation)
    else if DonationAsked(percent) && Truthy(Get(doc, "location")) then
      DecideDonation(IntField(doc, "qty_available", 0), percent.value, answer)
    else Kept
  }

  /** The fields a planned donation sets on the new listing: the plan, and the units left
      on sale, with status "sold_out" when none is left. */
  function DonatedFields(total: int, donationQty: int, allocations: seq<Allocation>, percent: real): (f: Doc)
    ensures f.Keys == {"donation_mode", "donation_plan", "donate_percent", "qty_available"} + (if total - donationQty <= 0 then {"status"} else {})
    ensures f["donation_mode"] == VStr("planned") && f["donate_percent"] == VReal(percent)
    ensures f["qty_available"] == VInt(total - donationQty)
    ensures "status" in f ==> f["status"] == VStr("sold_out")
  {
    var payload := PlanFields("planned", allocations, percent)["qty_available" := VInt(total - donationQty)];
    if total - donationQty <= 0 then payload["status" := VStr("sold_out")] else payload
  }

  /** The new listing once its donation is planned: the donated fields set over it; its
      location is untouched. */
  function DonatedListing(doc: Doc, total: int, donationQty: int, allocations: seq<Allocation>, percent: real): (r: Doc)
    ensures r.Keys == doc.Keys + DonatedFields(total, donationQty, allocations, percent).Keys
    ensures LocationShaped(doc) ==> LocationShaped(r)
  {
    var f := DonatedFields(total, donationQty, allocations, percent);
    assert "location" !in f;
    doc + f
  }

  /** The listing a new listing is stored as, with the location `ChooseLocation` picks. */
  function NewBusinessListing(businessId: string, body: ListingCreate, createdAt: string, geocoded: Option<(real, real)>)
    : (doc: Doc)
    ensures LocationShaped(doc) && "_id" !in doc && "id" !in doc
    ensures "location" in doc ==> IsPointLocation(doc["location"])
    ensures "business_id" in doc && doc["business_id"] == VStr(businessId)
    ensures IntField(doc, "qty_available", 0) == body.qtyAvailable
  {
    var doc := NewListingDoc(VStr(businessId), body, createdAt, ChooseLocation(body.location, body.address, geocoded));
    assert "location" in doc ==> "type" in doc["location"].fields;
    doc
  }

  /** The listings once the decision is carried out: nothing stored for a refusal or a
      withdrawal; otherwise the new listing, with the donated fields when a donation was
      planned. No other listing changes. */
  function ListingsAfterCreate(listings: map<ObjectId, Doc>, newId: ObjectId, doc: Doc, d: CreateDecision)
    : (r: map<ObjectId, Doc>)
    ensures d.Rejected? || d.Withdrawn? ==> r == listings
    ensures d.Kept? ==> r == listings[newId := doc]
    ensures d.Donated? ==> r == listings[newId := DonatedListing(doc, d.total, d.donationQty, d.plan.allocations, d.percent)]
    ensures forall id :: id in listings && id != newId ==> id in r && r[id] == listings[id]
  {
    match d
    case Rejected(_, _) => listings
    case Withdrawn(_, _) => listings
    case Kept => listings[newId := doc]
    case Donated(total, q, percent, plan) => listings[newId := DonatedListing(doc, total, q, plan.allocations, percent)]
  }

  /** The donation records written: one "planned" record per allocation of a planned
      donation, none otherwise. */
  function CreateRecords(newId: ObjectId, d: CreateDecision, now: string): (r: seq<Doc>)
    ensures !d.Donated? ==> r == []
    ensures d.Donated? ==> r == DonationDocs(IdString(newId), d.plan.allocations, now)
  {
    match d
    case Donated(_, _, _, plan) => DonationDocs(IdString(newId), plan.allocations, now)
    case _ => []
  }

  /** The answer to a new listing: the listing as stored, and the planned allocations. */
  datatype CreatedListing = CreatedListing(listing: Doc, allocations: seq<AllocationItem>)

  function CreateReply(newId: ObjectId, doc: Doc, d: CreateDecision): (r: Reply<CreatedListing>)
    requires LocationShaped(doc)
    ensures r.Fail? <==> d.Rejected? || d.Withdrawn?
    ensures d.Rejected? || d.Withdrawn? ==> r.status == d.status
    ensures d.Kept? ==> r == Ok(CreatedListing(ListingToResponse(newId, doc), []))
    ensures d.Donated? ==> |r.body.allocations| == |d.plan.allocations|
  {
    match d
    case Rejected(status, detail) => Fail(status, detail)
    case Withdrawn(status, detail) => Fail(status, detail)
    case Kept => Ok(CreatedListing(ListingToResponse(newId, doc), []))
    case Donated(total, q, percent, plan) =>
      Ok(CreatedListing(ListingToResponse(newId, DonatedListing(doc, total, q, plan.allocations, percent)), Items(plan.allocations)))
  }

  /** A listing that is stored and then deleted leaves the listings as they were. */
  lemma InsertThenDelete(listings: map<ObjectId, Doc>, newId: ObjectId, doc: Doc)
    requires newId !in listings
    ensures listings[newId := doc] - {newId} == listings
  {
    assert (listings[newId := doc] - {newId}).Keys == listings.Keys;
  }

  /** The routing step for a stored listing with a donation share. */
  method RouteNewListing(total: int, percent: real, answer: RoutingAnswer) returns (d: CreateDecision)
    requires WellFormedAnswer(answer)
    ensures d == DecideDonation(total, percent, answer)
  {
    var q := DonationQty(total as real, percent);
    if q < 1 {
      return Kept;
    }
    var candidates, routingUsed, allocations := RunPlan(answer, q, OsrmTopK, OsrmMaxMinutes);
    var plan := RoutingPlan(candidates, routingUsed, allocations);
    var refusal := BusinessRefusal(plan);
    if refusal.Some? {
      d := Withdrawn(refusal.value.0, refusal.value.1);
    } else {
      d := Donated(total, q, percent, plan);
    }
  }

  /** The writes after the new listing `doc` was stored under `newId`: a withdrawal deletes
      it; a planned donation inserts its records and sets the donated fields. */
  method FinishCreate(db: Db, ghost before: map<ObjectId, Doc>, newId: ObjectId, doc: Doc, d: CreateDecision, now: string)
    returns (r: Reply<CreatedListing>)
    requires !d.Rejected? && newId !in before && db.listings == before[newId := doc] && LocationShaped(doc)
    modifies db`listings, db`donations
    ensures r == CreateReply(newId, doc, d)
    ensures db.listings == ListingsAfterCreate(before, newId, doc, d)
    ensures db.donations == old(db.donations) + CreateRecords(newId, d, now)
  {
    match d
    case Withdrawn(status, detail) =>
      db.listings := db.listings - {newId};
      InsertThenDelete(before, newId, doc);
      r := Fail(status, detail);
    case Kept =>
      r := Ok(CreatedListing(ListingToResponse(newId, doc), []));
    case Donated(total, q, percent, plan) =>
      db.donations := db.donations + DonationDocs(IdString(newId), plan.allocations, now);
      var listing := DonatedListing(doc, total, q, plan.allocations, percent);
      db.listings := db.listings[newId := listing];
      assert db.listings == before[newId := listing];
      r := Ok(CreatedListing(ListingToResponse(newId, listing), Items(plan.allocations)));
  }

  /** `business_create_listing` for the business `businessId`, with what the geocoder
      answers (`geocoded`), what routing answers (`answer`), the creation and planning
      times, and the fresh id `newId` the listing is stored under. */
  method BusinessCreateListing(db: Db, businessId: string, body: ListingCreate, geocoded: Option<(real, real)>,
                               answer: RoutingAnswer, createdAt: string, now: string, newId: ObjectId)
    returns (r: Reply<CreatedListing>)
    requires newId !in db.listings && WellFormedAnswer(answer)
    modifies db`listings, db`donations
    ensures var doc := NewBusinessListing(businessId, body, createdAt, geocoded);
      var d := DecideCreate(doc, body.donatePercent, answer);
      && r == CreateReply(newId, doc, d)
      && db.listings == ListingsAfterCreate(old(db.listings), newId, doc, d)
      && db.donations == old(db.donations) + CreateRecords(newId, d, now)
  {
    var doc := NewBusinessListing(businessId, body, createdAt, geocoded);
    var asked := body.donatePercent.Some? && body.donatePercent.value > 0.0;
    if asked && !IsPointLocation(Get(doc, "location")) {
      return Fail(422, NeedsLocation);
    }
    ghost var before := db.listings;
    db.listings := db.listings[newId := doc];
    var d := Kept;
    if asked && Truthy(Get(doc, "location")) {
      d := RouteNewListing(IntField(doc, "qty_available", 0), body.donatePercent.value, answer);
    }
    r := FinishCreate(db, before, newId, doc, d, now);
  }

  /** A share of nothing is nothing. */
  lemma ShareOfNothing(qty: int, percent: real)
    requires percent > 0.0
    ensures qty <= 0 ==> DonationQty(qty as real, percent) <= 0
  {
    if qty <= 0 {
      assert qty as real * percent <= 0.0 * percent;
    }
  }

  /** The arithmetic of a planned donation: with a share in (0, 1], at least one unit and
      at most the listing's quantity is donated, the rest stays on sale, and the listing is
      "sold_out" exactly when the whole quantity is donated. */
  lemma DonationSplit(doc: Doc, percent: Option<real>, answer: RoutingAnswer)
    requires WellFormedAnswer(answer) && ValidDonatePercent(percent)
    requires DecideCreate(doc, percent, answer).Donated?
    ensures var d := DecideCreate(doc, percent, answer);
      var f := DonatedFields(d.total, d.donationQty, d.plan.allocations, d.percent);
      && d.total == IntField(doc, "qty_available", 0)
      && 1 <= d.donationQty <= d.total
      && f["qty_available"] == VInt(d.total - d.donationQty) && d.total - d.donationQty >= 0
      && ("status" in f <==> d.donationQty == d.total)
  {
    var d := DecideCreate(doc, percent, answer);
    ShareOfNothing(d.total, d.percent);
    DonationWithinQuantity(d.total as real, d.percent);
  }

  /** The listing a request names, when it belongs to the business: 400 for an id that
      does not parse, 404 for a listing that is not stored or belongs to another business. */
  function OwnedListing(listings: map<ObjectId, Doc>, listingId: string, businessId: string): (r: Reply<ObjectId>)
    ensures ParseObjectId(listingId).None? ==> r == Fail(400, "Invalid listing id")
    ensures r.Ok? <==> ParseObjectId(listingId).Some? && ParseObjectId(listingId).value in listings
                        && Get(listings[ParseObjectId(listingId).value], "business_id") == VStr(businessId)
    ensures r.Ok? ==> Some(r.body) == ParseObjectId(listingId)
    ensures r.Fail? && ParseObjectId(listingId).Some? ==> r == Fail(404, "Listing not found")
  {
    match ParseObjectId(listingId)
    case None => Fail(400, "Invalid listing id")
    case Some(oid) =>
      if oid in listings && Get(listings[oid], "business_id") == VStr(businessId) then Ok(oid)
      else Fail(404, "Listing not found")
  }

  /** The fields a business may change on a listing. */
  const Updatable: set<string> := {"title", "price_cents", "qty_available", "pickup_start", "pickup_end", "address", "category"}

  /** The part of an update body that is applied: the allowed keys, with their values. */
  function AllowedUpdate(body: Doc): (u: Doc)
    ensures u.Keys == body.Keys * Updatable
    ensures forall k :: k in u ==> u[k] == body[k]
  {
    map k | k in body && k in Updatable :: body[k]
  }

  /** A listing after an update: every allowed key of the body takes the body's value;
      every other field, and every key outside the allowed set, is left as it was. */
  function UpdatedListing(listing: Doc, body: Doc): (r: Doc)
    ensures r.Keys == listing.Keys + body.Keys * Updatable
    ensures forall k :: k in body && k in Updatable ==> r[k] == body[k]
    ensures forall k :: k in listing && (k !in body || k !in Updatable) ==> r[k] == listing[k]
    ensures LocationShaped(listing) ==> LocationShaped(r)
  {
    assert "location" !in Updatable;
    listing + AllowedUpdate(body)
  }

  /** An update that names no allowed key changes nothing, and applying the same update
      twice is the same as once. */
  lemma UpdateLaws(listing: Doc, body: Doc)
    ensures AllowedUpdate(body) == map[] ==> UpdatedListing(listing, body) == listing
    ensures UpdatedListing(UpdatedListing(listing, body), body) == UpdatedListing(listing, body)
  {
    if AllowedUpdate(body) == map[] {
      assert UpdatedListing(listing, body).Keys == listing.Keys;
    }
    var once := UpdatedListing(listing, body);
    assert UpdatedListing(once, body).Keys == once.Keys;
  }

  /** `business_update_listing`: a listing the business does not own is refused and
      nothing changes; otherwise the allowed fields of `body` are applied (an update with
      none of them writes nothing) and the listing is returned. */
  method BusinessUpdateListing(db: Db, businessId: string, listingId: string, body: Doc) returns (r: Reply<Doc>)
    requires forall id :: id in db.listings ==> LocationShaped(db.listings[id])
    modifies db`listings
    ensures OwnedListing(old(db.listings), listingId, businessId).Fail? ==>
      var f := OwnedListing(old(db.listings), listingId, businessId);
      r == Fail(f.status, f.detail) && db.listings == old(db.listings)
    ensures OwnedListing(old(db.listings), listingId, businessId).Ok? ==>
      var oid := OwnedListing(old(db.listings), listingId, businessId).body;
      && db.listings == old(db.listings)[oid := UpdatedListing(old(db.listings)[oid], body)]
      && r == Ok(ListingToResponse(oid, UpdatedListing(old(db.listings)[oid], body)))
  {
    var target := OwnedListing(db.listings, listingId, businessId);
    if target.Fail? {
      return Fail(target.status, target.detail);
    }
    var oid := target.body;
    var listing := db.listings[oid];
    var update := AllowedUpdate(body);
    if update == map[] {
      UpdateLaws(listing, body);
      assert db.listings[oid := listing] == db.listings;
      return Ok(ListingToResponse(oid, listing));
    }
    db.listings := db.listings[oid := listing + update];
    r := Ok(ListingToResponse(oid, listing + update));
  }

  /** `business_delete_listing`: a listing the business does not own is refused and
      nothing changes; otherwise it is deleted. */
  method BusinessDeleteListing(db: Db, businessId: string, listingId: string) returns (r: Reply<()>)
    modifies db`listings
    ensures OwnedListing(old(db.listings), listingId, businessId).Fail? ==>
      var f := OwnedListing(old(db.listings), listingId, businessId);
      r == Fail(f.status, f.detail) && db.listings == old(db.listings)
    ensures OwnedListing(old(db.listings), listingId, businessId).Ok? ==>
      r == Ok(()) && db.listings == old(db.listings) - {OwnedListing(old(db.listings), listingId, businessId).body}
  {
    var target := OwnedListing(db.listings, listingId, businessId);
    if target.Fail? {
      return Fail(target.status, target.detail);
    }
    db.listings := db.listings - {target.body};
    r := Ok(());
  }

  /** The orders of one listing in response form; every one is for that listing. */
  method ListingOrders(orders: map<ObjectId, Doc>, listingId: string, found: seq<(ObjectId, Doc)>)
    returns (out: seq<Doc>)
    requires Answers(orders, map["listing_id" := VStr(listingId)], found)
    ensures |out| == |found|
    ensures forall i :: 0 <= i < |out| ==> out[i] == OrderToResponse(found[i].0, found[i].1)
    ensures forall i :: 0 <= i < |out| ==> "listing_id" in out[i] && out[i]["listing_id"] == VStr(listingId)
  {
    out := RespondOrders(found);
    ResponsesMatch(orders, map["listing_id" := VStr(listingId)], found, out);
    forall i | 0 <= i < |out|
      ensures "listing_id" in out[i] && out[i]["listing_id"] == VStr(listingId)
    {
      MatchesOne(out[i], "listing_id", VStr(listingId));
    }
  }

  /** `business_listing_orders`: for a listing the business owns, the orders the database
      answers for that listing id (`found`), each in response form; all of them are for
      that listing. */
  method BusinessListingOrders(listings: map<ObjectId, Doc>, orders: map<ObjectId, Doc>, businessId: string,
                               listingId: string, found: seq<(ObjectId, Doc)>)
    returns (r: Reply<seq<Doc>>)
    requires Answers(orders, map["listing_id" := VStr(listingId)], found)
    ensures r.Ok? <==> OwnedListing(listings, listingId, businessId).Ok?
    ensures r.Fail? ==> var f := OwnedListing(listings, listingId, businessId);
      r == Fail(f.status, f.detail)
    ensures r.Ok? ==> |r.body| == |found| && forall i :: 0 <= i < |r.body| ==>
      "listing_id" in r.body[i] && r.body[i]["listing_id"] == VStr(listingId)
    ensures r.Ok? ==> forall i :: 0 <= i < |found| ==> r.body[i] == OrderToResponse(found[i].0, found[i].1)
  {
    var target := OwnedListing(listings, listingId, businessId);
    if target.Fail? {
      return Fail(target.status, target.detail);
    }
    var out := ListingOrders(orders, listingId, found);
    r := Ok(out);
  }

  /** The filter of `business_orders`: the business, and the status when one is asked for. */
  function BusinessOrdersFilter(businessId: string, status: Option<string>): (f: Doc)
    ensures "business_id" in f && f["business_id"] == VStr(businessId)
    ensures "status" in f <==> status.Some? && status.value != ""
    ensures f.Keys <= {"business_id", "status"}
  {
    WithStatus(map["business_id" := VStr(businessId)], status)
  }

  /** `business_orders`: the orders the database answers for the filter (`found`), each in
      response form; every one belongs to the business and has the asked status. */
  method BusinessOrders(orders: map<ObjectId, Doc>, businessId: string, status: Option<string>, found: seq<(ObjectId, Doc)>)
    returns (out: seq<Doc>)
    requires Answers(orders, BusinessOrdersFilter(businessId, status), found)
    ensures |out| == |found|
    ensures forall i :: 0 <= i < |found| ==> out[i] == OrderToResponse(found[i].0, found[i].1)
    ensures forall i :: 0 <= i < |out| ==>
      && Get(out[i], "business_id") == VStr(businessId)
      && (status.Some? && status.value != "" ==> Get(out[i], "status") == VStr(status.value))
  {
    var filter := BusinessOrdersFilter(businessId, status);
    out := RespondOrders(found);
    ResponsesMatch(orders, filter, found, out);
    forall i | 0 <= i < |out|
      ensures Get(out[i], "business_id") == VStr(businessId)
      ensures status.Some? && status.value != "" ==> Get(out[i], "status") == VStr(status.value)
    {
      MatchesWithStatus(out[i], map["business_id" := VStr(businessId)], status);
    }
  }
}
