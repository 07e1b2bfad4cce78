/** The donation endpoints (apps/api/routers/donations.py): planning a donation for one
    listing, and planning donations for every open listing whose pickup window is about to
    close. */
module DonationsRouter {
  import opened Wrappers
  import opened Bson
  import opened Schemas
  import opened MongoStore
  import opened DonationRouting

  /** The most listings the trigger reads from the expiry query (`to_list(length=100)`). */
  const ExpiringCap: int := 100

  /** The endpoint's own defaults (whole minutes here). */
  const PlanMaxMinutes: int := 20
  const PlanTopK: int := 5

  /** `value or default`: an absent or zero value gives the default. */
  function OrDefault(o: Option<int>, default: int): (r: int)
    ensures o.Some? && o.value != 0 ==> r == o.value
    ensures o.None? || o.value == 0 ==> r == default
  {
    if o.Some? && o.value != 0 then o.value else default
  }

  /** `listing.get("qty_available", 0)` as it enters `qty_available * percent`: an int, a
      float or a bool (as 0 or 1) multiplies; None, text, a list, a dict or an id makes the
      product raise TypeError (`None`). */
  function StoredQty(listing: Doc): (r: Option<real>)
    ensures "qty_available" !in listing ==> r == Some(0.0)
    ensures var v := GetOr(listing, "qty_available", VInt(0));
      && (r.Some? <==> v.VInt? || v.VReal? || v.VBool?)
      && (v.VInt? ==> r == Some(v.i as real))
      && (v.VReal? ==> r == Some(v.r))
      && (v.VBool? ==> r == Some(if v.b then 1.0 else 0.0))
  {
    match GetOr(listing, "qty_available", VInt(0))
    case VInt(i) => Some(i as real)
    case VReal(x) => Some(x)
    case VBool(b) => Some(if b then 1.0 else 0.0)
    case _ => None
  }

  /** `math.floor(qty * percent)`. */
  function DonationQty(qty: real, percent: real): (q: int)
    ensures q as real <= qty * percent < q as real + 1.0
  {
    (qty * percent).Floor
  }

  /** A share in (0, 1] of a quantity never exceeds it, and leaves a remainder in [0, qty);
      a share of nothing is nothing. */
  lemma DonationWithinQuantity(qty: real, percent: real)
    requires 0.0 < percent <= 1.0
    ensures qty >= 0.0 ==> 0 <= DonationQty(qty, percent) && DonationQty(qty, percent) as real <= qty
    ensures qty <= 0.0 ==> DonationQty(qty, percent) <= 0
  {
    var x := qty * percent;
    if qty >= 0.0 {
      assert x <= qty by {
        assert qty * percent <= qty * 1.0;
      }
      assert 0.0 <= x;
    } else {
      assert x <= 0.0;
    }
  }

  /** The donation record written for one allocation. */
  function DonationDoc(listingId: string, a: Allocation, createdAt: string): Doc {
    map[
      "listing_id" := VStr(listingId),
      "food_bank_id" := VStr(a.foodBankId),
      "qty" := VInt(a.qty),
      "status" := VStr("planned"),
      "created_at" := VStr(createdAt)]
  }

  /** One record per allocation, in order, each "planned". */
  function DonationDocs(listingId: string, allocations: seq<Allocation>, createdAt: string): (r: seq<Doc>)
    ensures |r| == |allocations|
    ensures forall i :: 0 <= i < |r| ==> r[i] == DonationDoc(listingId, allocations[i], createdAt)
    ensures forall i :: 0 <= i < |r| ==> "status" in r[i] && r[i]["status"] == VStr("planned") && "qty" in r[i] && r[i]["qty"] == VInt(allocations[i].qty)
  {
    seq(|allocations|, i requires 0 <= i < |allocations| => DonationDoc(listingId, allocations[i], createdAt))
  }

  /** An allocation as reported (the routing service gives no phone number). */
  function ToItem(a: Allocation): AllocationItem {
    AllocationItem(a.foodBankId, a.name, Some(a.address), None, a.qty, a.durationMinutes, a.score)
  }

  function Items(allocations: seq<Allocation>): (r: seq<AllocationItem>)
    ensures |r| == |allocations| && forall i :: 0 <= i < |r| ==> r[i] == ToItem(allocations[i])
  {
    seq(|allocations|, i requires 0 <= i < |allocations| => ToItem(allocations[i]))
  }

  /** The fields a plan sets on its listing; `qty_available` is not among them. */
  function PlanFields(mode: string, allocations: seq<Allocation>, percent: real): (f: map<string, Value>)
    ensures f.Keys == {"donation_mode", "donation_plan", "donate_percent"}
  {
    map["donation_mode" := VStr(mode), "donation_plan" := PlanValue(allocations), "donate_percent" := VReal(percent)]
  }

  /** A stored location `create_donation_plan` accepts: a GeoJSON point. */
  predicate IsPointLocation(v: Value) {
    Truthy(v) && v.VObj? && Get(v.fields, "type") == VStr("Point")
  }

  /** The listing a plan is made for, with its quantity and the units to donate. */
  datatype ListingCheck = ListingCheck(oid: ObjectId, listing: Doc, qtyAvailable: real, donationQty: int)

  /** The checks `create_donation_plan` makes before routing, in order: a listing id that
      does not parse (400), an unknown listing (404), a listing without a GeoJSON point
      (422; a location that is set but is not an object makes the handler fail, 500), a
      stored quantity that cannot be multiplied (500), and fewer than one unit to donate
      (422). */
  function CheckListing(listings: map<ObjectId, Doc>, listingId: string, percent: real): (r: Reply<ListingCheck>)
    requires 0.0 < percent <= 1.0
    ensures ParseObjectId(listingId).None? ==> r == Fail(400, "Invalid listing id")
    ensures ParseObjectId(listingId).Some? && ParseObjectId(listingId).value !in listings ==>
      r == Fail(404, "Listing not found")
    ensures r.Ok? <==>
      && ParseObjectId(listingId).Some? && ParseObjectId(listingId).value in listings
      && IsPointLocation(Get(listings[ParseObjectId(listingId).value], "location"))
      && StoredQty(listings[ParseObjectId(listingId).value]).Some?
      && DonationQty(StoredQty(listings[ParseObjectId(listingId).value]).value, percent) >= 1
    ensures r.Ok? ==>
      && Some(r.body.oid) == ParseObjectId(listingId) && r.body.listing == listings[r.body.oid]
      && Some(r.body.qtyAvailable) == StoredQty(r.body.listing)
      && r.body.donationQty == DonationQty(r.body.qtyAvailable, percent)
      && 1 <= r.body.donationQty && r.body.donationQty as real <= r.body.qtyAvailable
    ensures r.Fail? && r.status == 500 <==>
      && ParseObjectId(listingId).Some? && ParseObjectId(listingId).value in listings
      && var listing := listings[ParseObjectId(listingId).value];
         var location := Get(listing, "location");
         Truthy(location) && (!location.VObj? || (IsPointLocation(location) && StoredQty(listing).None?))
  {
    match ParseObjectId(listingId)
    case None => Fail(400, "Invalid listing id")
    case Some(oid) =>
      if oid !in listings then Fail(404, "Listing not found")
      else
        var listing := listings[oid];
        var location := Get(listing, "location");
        if !Truthy(location) then Fail(422, "Listing has no valid location")
        else if !location.VObj? then Fail(500, "Internal Server Error")
        else if Get(location.fields, "type") != VStr("Point") then Fail(422, "Listing has no valid location")
        else match StoredQty(listing)
          case None => Fail(500, "Internal Server Error")
          case Some(qty) =>
            var q := DonationQty(qty, percent);
            if q < 1 then Fail(422, "donation_qty rounds to 0; nothing to donate")
            else
              DonationWithinQuantity(qty, percent);
              Ok(ListingCheck(oid, listing, qty, q))
  }

  /** Stored quantities that are not ints, as `create_donation_plan` reads them: 3.0 at a
      half donates one unit; 2.5 in full donates two units and leaves half a unit, so the
      reply is a 500 once the plan is written; null and text make the product raise. */
  lemma NonIntegerQuantities(listings: map<ObjectId, Doc>, listingId: string, oid: ObjectId, listing: Doc, plan: RoutingPlan)
    requires ParseObjectId(listingId) == Some(oid) && IsPointLocation(Get(listing, "location"))
    ensures var c := CheckListing(listings[oid := listing["qty_available" := VReal(3.0)]], listingId, 0.5);
      c.Ok? && c.body.donationQty == 1
    ensures var c := CheckListing(listings[oid := listing["qty_available" := VReal(2.5)]], listingId, 1.0);
      c.Ok? && c.body.donationQty == 2 && PlanReply(Planned(c.body, plan)) == Fail(500, "Internal Server Error")
    ensures CheckListing(listings[oid := listing["qty_available" := VNull]], listingId, 0.5) == Fail(500, "Internal Server Error")
    ensures CheckListing(listings[oid := listing["qty_available" := VStr("5")]], listingId, 0.5) == Fail(500, "Internal Server Error")
  {
    assert Get(listing["qty_available" := VReal(3.0)], "location") == Get(listing, "location");
    assert DonationQty(3.0, 0.5) == 1;
    assert Get(listing["qty_available" := VReal(2.5)], "location") == Get(listing, "location");
    assert DonationQty(2.5, 1.0) == 2;
    assert !IsWhole(2.5 - 2 as real);
    assert Get(listing["qty_available" := VNull], "location") == Get(listing, "location");
    assert Get(listing["qty_available" := VStr("5")], "location") == Get(listing, "location");
  }

  /** How the plan endpoint decides: a refusal with its status, or the plan. */
  datatype PlanDecision =
    | Refused(status: int, detail: string)
    | Planned(check: ListingCheck, plan: RoutingPlan)

  /** The refusals after routing, in the order `create_donation_plan` makes them: no
      candidates (503 when routing was used, else 404), then nothing allocated (422). */
  function RoutingRefusal(p: RoutingPlan): (r: Option<(int, string)>)
    ensures r.None? <==> p.candidates != [] && p.allocations != []
    ensures r.Some? && r.value.0 == 503 <==> p.candidates == [] && p.routingUsed
    ensures r.Some? ==> r.value.0 in {503, 404, 422}
  {
    if p.candidates == [] && p.routingUsed then Some((503, "routing_unavailable"))
    else if p.candidates == [] then Some((404, "No active food banks found near this listing"))
    else if p.allocations == [] then Some((422, "Could not allocate units to any food bank"))
    else None
  }

  /** What `create_donation_plan` decides for a checked listing: a routing refusal, or the
      plan, which allocates at least one unit and at most the units donated. */
  function DecideRouted(c: ListingCheck, body: DonationPlanRequest, answer: RoutingAnswer): (d: PlanDecision)
    requires WellFormedAnswer(answer)
    ensures var p := Plan(answer, c.donationQty, OrDefault(body.topK, PlanTopK), OrDefault(body.maxMinutes, PlanMaxMinutes) as real);
      && (d.Refused? <==> RoutingRefusal(p).Some?)
      && (d.Planned? ==> d == Planned(c, p) && 0 < TotalQty(p.allocations) <= Max(c.donationQty, 0))
  {
    var p := Plan(answer, c.donationQty, OrDefault(body.topK, PlanTopK), OrDefault(body.maxMinutes, PlanMaxMinutes) as real);
    match RoutingRefusal(p)
    case Some((status, detail)) => Refused(status, detail)
    case None =>
      PositiveTotal(p.allocations);
      Planned(c, p)
  }

  /** `create_donation_plan` as a decision: the listing checks, then the routing. A plan
      donates at least one unit, never more than the listing holds, and allocates at most the
      units donated. */
  function DecidePlan(listings: map<ObjectId, Doc>, listingId: string, body: DonationPlanRequest, answer: RoutingAnswer)
    : (d: PlanDecision)
    requires WellFormedAnswer(answer) && 0.0 < body.donatePercent <= 1.0
    ensures CheckListing(listings, listingId, body.donatePercent).Fail? ==>
      var f := CheckListing(listings, listingId, body.donatePercent);
      d == Refused(f.status, f.detail)
    ensures d.Planned? ==>
      && d.check == CheckListing(listings, listingId, body.donatePercent).body
      && 0 < TotalQty(d.plan.allocations) <= d.check.donationQty
      && d.check.donationQty as real <= d.check.qtyAvailable
    ensures CheckListing(listings, listingId, body.donatePercent).Ok? ==>
      d == DecideRouted(CheckListing(listings, listingId, body.donatePercent).body, body, answer)
  {
    match CheckListing(listings, listingId, body.donatePercent)
    case Fail(status, detail) => Refused(status, detail)
    case Ok(c) => DecideRouted(c, body, answer)
  }

  /** The total of a plan's allocations is positive whenever it has one, since every
      allocation is. */
  lemma {:induction false} PositiveTotal(a: seq<Allocation>)
    requires forall x :: x in a ==> x.qty > 0
    ensures a != [] ==> TotalQty(a) > 0
    ensures TotalQty(a) >= 0
  {
    if a != [] {
      PositiveTotal(a[1..]);
    }
  }

  /** `update_one` setting a plan on the listing `oid` under `mode`: a listing that is not
      stored is not created, and no other listing changes. */
  function MarkPlanned(listings: map<ObjectId, Doc>, oid: ObjectId, mode: string, allocations: seq<Allocation>, percent: real)
    : (r: map<ObjectId, Doc>)
    ensures r.Keys == listings.Keys
    ensures forall id :: id in listings && id != oid ==> r[id] == listings[id]
    ensures oid in listings ==> r[oid].Keys == listings[oid].Keys + PlanFields(mode, allocations, percent).Keys
    ensures oid in listings ==> "donation_mode" in r[oid] && r[oid]["donation_mode"] == VStr(mode)
  {
    if oid in listings then listings[oid := listings[oid] + PlanFields(mode, allocations, percent)] else listings
  }

  /** The two writes of a plan: one "planned" donation record per allocation, then the
      plan set on the listing (an update that matches no listing changes nothing). */
  method SavePlan(db: Db, oid: ObjectId, listingId: string, allocations: seq<Allocation>, mode: string, percent: real, now: string)
    modifies db`listings, db`donations
    ensures db.donations == old(db.donations) + DonationDocs(listingId, allocations, now)
    ensures db.listings == MarkPlanned(old(db.listings), oid, mode, allocations, percent)
  {
    var docs: seq<Doc> := [];
    var i := 0;
    while i < |allocations|
      invariant 0 <= i <= |allocations| && |docs| == i
      invariant forall k :: 0 <= k < i ==> docs[k] == DonationDoc(listingId, allocations[k], now)
    {
      docs := docs + [DonationDoc(listingId, allocations[i], now)];
      i := i + 1;
    }
    assert docs == DonationDocs(listingId, allocations, now);
    db.donations := db.donations + docs;
    db.listings := MarkPlanned(db.listings, oid, mode, allocations, percent);
  }

  /** Whether a real is a whole number: pydantic's `int` field takes a float only then. */
  predicate IsWhole(x: real) {
    x == x.Floor as real
  }

  /** Taking a whole number away keeps a real whole, or not whole. */
  lemma WholeLessInt(x: real, n: int)
    ensures IsWhole(x - n as real) <==> IsWhole(x)
  {
    var f := x.Floor;
    assert f as real <= x < f as real + 1.0;
    assert (f - n) as real <= x - n as real < (f - n) as real + 1.0;
    assert (x - n as real).Floor == f - n;
  }

  /** The reply to a decision: the refusal, or how many units are donated, how many stay on
      sale, and the allocations. A stored quantity that is not whole (2.5) leaves a
      remainder `DonationPlanResponse` refuses as an `int`, so the reply is a 500, after the
      writes. */
  function PlanReply(d: PlanDecision): (r: Reply<DonationPlanResponse>)
    ensures d.Refused? ==> r == Fail(d.status, d.detail)
    ensures d.Planned? ==> (r.Ok? <==> IsWhole(d.check.qtyAvailable))
    ensures d.Planned? && r.Fail? ==> r == Fail(500, "Internal Server Error")
    ensures d.Planned? && r.Ok? ==>
      && r.body.donationQty == d.check.donationQty
      && r.body.donationQty as real + r.body.remainingPublicQty as real == d.check.qtyAvailable
      && r.body.routingUsed == d.plan.routingUsed
      && |r.body.allocations| == |d.plan.allocations|
  {
    match d
    case Refused(status, detail) => Fail(status, detail)
    case Planned(c, p) =>
      var remaining := c.qtyAvailable - c.donationQty as real;
      WholeLessInt(c.qtyAvailable, c.donationQty);
      if IsWhole(remaining) then
        Ok(DonationPlanResponse(c.donationQty, remaining.Floor, p.routingUsed, Items(p.allocations)))
      else
        Fail(500, "Internal Server Error")
  }

  /** The listings once a decision is carried out: a plan is set on its listing under
      `mode`; a refusal changes nothing. */
  function ListingsAfter(listings: map<ObjectId, Doc>, d: PlanDecision, mode: string, percent: real): (r: map<ObjectId, Doc>)
    ensures d.Refused? ==> r == listings
    ensures d.Planned? && d.check.oid in listings ==> r.Keys == listings.Keys
    ensures forall id :: id in listings && (d.Refused? || id != d.check.oid) ==> id in r && r[id] == listings[id]
  {
    match d
    case Refused(_, _) => listings
    case Planned(c, p) => listings[c.oid := c.listing + PlanFields(mode, p.allocations, percent)]
  }

  /** The donation records a decision writes: one per allocation of a plan, none for a
      refusal. */
  function RecordsOf(d: PlanDecision, listingId: string, now: string): (r: seq<Doc>)
    ensures d.Refused? ==> r == []
    ensures d.Planned? ==> |r| == |d.plan.allocations|
  {
    match d
    case Refused(_, _) => []
    case Planned(_, p) => DonationDocs(listingId, p.allocations, now)
  }

  /** The routing step of `create_donation_plan` for a checked listing: run the service,
      then refuse or keep the plan. */
  method RouteListing(c: ListingCheck, body: DonationPlanRequest, answer: RoutingAnswer) returns (d: PlanDecision)
    requires WellFormedAnswer(answer)
    ensures d == DecideRouted(c, body, answer)
  {
    var maxMinutes := OrDefault(body.maxMinutes, PlanMaxMinutes);
    var topK := OrDefault(body.topK, PlanTopK);
    var candidates, routingUsed, allocations := RunPlan(answer, c.donationQty, topK, maxMinutes as real);
    var plan := RoutingPlan(candidates, routingUsed, allocations);
    var refusal := RoutingRefusal(plan);
    if refusal.Some? {
      d := Refused(refusal.value.0, refusal.value.1);
    } else {
      d := Planned(c, plan);
    }
  }

  /** Carrying out a decision: a plan is saved under `mode` and then reported (a 500 when
      the remainder is not whole); a refusal is answered and changes nothing. */
  method CarryOut(db: Db, d: PlanDecision, listingId: string, mode: string, percent: real, now: string)
    returns (r: Reply<DonationPlanResponse>)
    requires d.Planned? ==> d.check.oid in db.listings && db.listings[d.check.oid] == d.check.listing
    modifies db`listings, db`donations
    ensures r == PlanReply(d)
    ensures db.listings == ListingsAfter(old(db.listings), d, mode, percent)
    ensures db.donations == old(db.donations) + RecordsOf(d, listingId, now)
  {
    match d
    case Refused(status, detail) =>
      r := Fail(status, detail);
    case Planned(c, plan) =>
      SavePlan(db, c.oid, listingId, plan.allocations, mode, percent, now);
      var remaining := c.qtyAvailable - c.donationQty as real;
      if IsWhole(remaining) {
        r := Ok(DonationPlanResponse(c.donationQty, remaining.Floor, plan.routingUsed, Items(plan.allocations)));
      } else {
        r := Fail(500, "Internal Server Error");
      }
  }

  /** `create_donation_plan`. On success the listing gets the plan (`qty_available` is left
      as it is), one "planned" donation record is written per allocation, and the reply says
      how many units are donated and how many stay on sale; when the stored quantity is not
      whole the writes stay and the reply is a 500. Any refusal changes nothing. */
  method CreateDonationPlan(db: Db, listingId: string, body: DonationPlanRequest, answer: RoutingAnswer, now: string)
    returns (r: Reply<DonationPlanResponse>)
    requires WellFormedAnswer(answer) && 0.0 < body.donatePercent <= 1.0
    modifies db`listings, db`donations
    ensures r == PlanReply(DecidePlan(old(db.listings), listingId, body, answer))
    ensures db.listings == ListingsAfter(old(db.listings), DecidePlan(old(db.listings), listingId, body, answer), "planned", body.donatePercent)
    ensures db.donations == old(db.donations) + RecordsOf(DecidePlan(old(db.listings), listingId, body, answer), listingId, now)
  {
    var checked := CheckListing(db.listings, listingId, body.donatePercent);
    if checked.Fail? {
      return Fail(checked.status, checked.detail);
    }
    var d := RouteListing(checked.body, body, answer);
    assert d == DecidePlan(db.listings, listingId, body, answer);
    r := CarryOut(db, d, listingId, "planned", body.donatePercent, now);
  }

  /** What the expiring-listings trigger reports for one listing. */
  datatype ExpiringPlan = ExpiringPlan(listingId: string, title: Value, donationQty: int, routingUsed: bool, allocations: seq<Allocation>)

  /** The quantities the expiry query selects: `"qty_available": {"$gt": 0}` matches only a
      stored int or float above 0 (a missing field, a bool, null or text never compares
      greater than the number 0). */
  predicate QueriedQty(listing: Doc) {
    match GetOr(listing, "qty_available", VInt(0))
    case VInt(i) => i > 0
    case VReal(x) => x > 0.0
    case _ => false
  }

  /** What the trigger does with one expiring listing: nothing (`None`) when it has no
      location, fewer than one unit to donate, no candidates or nothing allocated; otherwise
      the units and the plan, which allocates at least one unit and at most the units
      donated. The trigger keeps the service's own `top_k` of 5. */
  function ExpiringOutcome(listing: Doc, percent: real, answer: RoutingAnswer, maxMinutes: int)
    : (r: Option<(int, RoutingPlan)>)
    requires WellFormedAnswer(answer) && QueriedQty(listing)
    ensures StoredQty(listing).Some? && StoredQty(listing).value > 0.0
    ensures r.Some? <==>
      && Truthy(Get(listing, "location"))
      && DonationQty(StoredQty(listing).value, percent) >= 1
      && var p := Plan(answer, DonationQty(StoredQty(listing).value, percent), DefaultTopK, maxMinutes as real);
         p.candidates != [] && p.allocations != []
    ensures r.Some? ==>
      && r.value.0 == DonationQty(StoredQty(listing).value, percent)
      && r.value.1 == Plan(answer, r.value.0, DefaultTopK, maxMinutes as real)
      && 0 < TotalQty(r.value.1.allocations) <= r.value.0
  {
    if !Truthy(Get(listing, "location")) then None
    else
      var q := DonationQty(StoredQty(listing).value, percent);
      if q < 1 then None
      else
        var p := Plan(answer, q, DefaultTopK, maxMinutes as real);
        if p.candidates == [] || p.allocations == [] then None
        else
          PositiveTotal(p.allocations);
          Some((q, p))
  }

  /** The expiry query selects a stored 2.5, and the trigger donates two units of it. */
  lemma ExpiringRealQuantity(listing: Doc)
    requires listing == map["qty_available" := VReal(2.5)]
    ensures QueriedQty(listing) && DonationQty(StoredQty(listing).value, 1.0) == 2
  {
    assert DonationQty(2.5, 1.0) == 2;
  }

  /** The trigger's handling of one expiring listing, up to the writes. */
  method ExpiringStep(listing: Doc, percent: real, answer: RoutingAnswer, maxMinutes: int)
    returns (outcome: Option<(int, RoutingPlan)>)
    requires WellFormedAnswer(answer) && QueriedQty(listing)
    ensures outcome == ExpiringOutcome(listing, percent, answer, maxMinutes)
  {
    var location := Get(listing, "location");
    if !Truthy(location) {
      return None;
    }
    var qtyAvailable := StoredQty(listing).value;
    var donationQty := DonationQty(qtyAvailable, percent);
    if donationQty < 1 {
      return None;
    }
    var candidates, routingUsed, allocations := RunPlan(answer, donationQty, DefaultTopK, maxMinutes as real);
    if candidates == [] || allocations == [] {
      return None;
    }
    return Some((donationQty, RoutingPlan(candidates, routingUsed, allocations)));
  }

  /** The report for a listing that got a plan. */
  function Reported(listing: (ObjectId, Doc), o: (int, RoutingPlan)): ExpiringPlan {
    ExpiringPlan(IdString(listing.0), Get(listing.1, "title"), o.0, o.1.routingUsed, o.1.allocations)
  }

  /** One routing answer per expiring listing, and every listing one the expiry query can
      select. */
  predicate AnswersFor(expiring: seq<(ObjectId, Doc)>, answers: seq<RoutingAnswer>) {
    && |answers| == |expiring|
    && (forall i :: 0 <= i < |answers| ==> WellFormedAnswer(answers[i]))
    && (forall i :: 0 <= i < |expiring| ==> QueriedQty(expiring[i].1))
  }

  /** What the trigger does with each expiring listing, in order. */
  function ExpiringOutcomes(expiring: seq<(ObjectId, Doc)>, answers: seq<RoutingAnswer>, percent: real, maxMinutes: int)
    : (r: seq<Option<(int, RoutingPlan)>>)
    requires AnswersFor(expiring, answers)
    ensures |r| == |expiring|
    ensures forall i :: 0 <= i < |r| ==> r[i] == ExpiringOutcome(expiring[i].1, percent, answers[i], maxMinutes)
  {
    seq(|expiring|, i requires 0 <= i < |expiring| => ExpiringOutcome(expiring[i].1, percent, answers[i], maxMinutes))
  }

  /** An outcome as the trigger produces them: a plan donates at least one unit and
      allocates at least one and at most the units donated. */
  predicate SoundOutcome(o: Option<(int, RoutingPlan)>) {
    o.Some? ==> o.value.0 >= 1 && o.value.1.allocations != [] && 0 < TotalQty(o.value.1.allocations) <= o.value.0
  }

  lemma OutcomesSound(expiring: seq<(ObjectId, Doc)>, answers: seq<RoutingAnswer>, percent: real, maxMinutes: int)
    requires AnswersFor(expiring, answers)
    ensures forall i :: 0 <= i < |expiring| ==> SoundOutcome(ExpiringOutcomes(expiring, answers, percent, maxMinutes)[i])
  {
    var outcomes := ExpiringOutcomes(expiring, answers, percent, maxMinutes);
    forall i | 0 <= i < |expiring|
      ensures SoundOutcome(outcomes[i])
    {
      var o := ExpiringOutcome(expiring[i].1, percent, answers[i], maxMinutes);
      assert outcomes[i] == o;
      if o.Some? {
        assert o.value.1.allocations != [];
      }
    }
  }

  /** The report after one expiring listing was handled. */
  function PlansStep(before: seq<ExpiringPlan>, listing: (ObjectId, Doc), outcome: Option<(int, RoutingPlan)>)
    : seq<ExpiringPlan>
  {
    match outcome
    case None => before
    case Some(o) => before + [Reported(listing, o)]
  }

  /** The listings after one expiring listing was handled. */
  function ListingsStep(before: map<ObjectId, Doc>, id: ObjectId, outcome: Option<(int, RoutingPlan)>, percent: real)
    : map<ObjectId, Doc>
  {
    match outcome
    case None => before
    case Some(o) => MarkPlanned(before, id, "pending", o.1.allocations, percent)
  }

  /** The donation records after one expiring listing was handled. */
  function DonationsStep(before: seq<Doc>, id: ObjectId, outcome: Option<(int, RoutingPlan)>, now: string): seq<Doc> {
    match outcome
    case None => before
    case Some(o) => before + DonationDocs(IdString(id), o.1.allocations, now)
  }

  /** The plans made for the first `n` expiring listings, in order. */
  function ExpiringPlans(expiring: seq<(ObjectId, Doc)>, outcomes: seq<Option<(int, RoutingPlan)>>, n: nat)
    : (r: seq<ExpiringPlan>)
    requires n <= |expiring| && n <= |outcomes|
    ensures |r| <= n
  {
    if n == 0 then []
    else PlansStep(ExpiringPlans(expiring, outcomes, n - 1), expiring[n - 1], outcomes[n - 1])
  }

  /** When every outcome is sound, every reported plan donates at least one unit and
      allocates at least one and at most the units donated. */
  lemma {:induction false} ExpiringPlansSound(expiring: seq<(ObjectId, Doc)>, outcomes: seq<Option<(int, RoutingPlan)>>, n: nat)
    requires n <= |expiring| && n <= |outcomes|
    requires forall i :: 0 <= i < n ==> SoundOutcome(outcomes[i])
    ensures forall p :: p in ExpiringPlans(expiring, outcomes, n) ==>
      p.donationQty >= 1 && p.allocations != [] && 0 < TotalQty(p.allocations) <= p.donationQty
  {
    if n > 0 {
      ExpiringPlansSound(expiring, outcomes, n - 1);
    }
  }

  /** The listings after the first `n` expiring listings were handled: each planned one that
      is still stored is marked "pending" with its plan. */
  function ExpiringListings(base: map<ObjectId, Doc>, expiring: seq<(ObjectId, Doc)>, outcomes: seq<Option<(int, RoutingPlan)>>,
                            percent: real, n: nat): map<ObjectId, Doc>
    requires n <= |expiring| && n <= |outcomes|
  {
    if n == 0 then base
    else ListingsStep(ExpiringListings(base, expiring, outcomes, percent, n - 1), expiring[n - 1].0, outcomes[n - 1], percent)
  }

  /** The donation records after the first `n` expiring listings were handled: `base`
      followed by the records of each plan, in order. */
  function ExpiringDonations(base: seq<Doc>, expiring: seq<(ObjectId, Doc)>, outcomes: seq<Option<(int, RoutingPlan)>>,
                             nows: seq<string>, n: nat): (r: seq<Doc>)
    requires n <= |expiring| && n <= |outcomes| && n <= |nows|
    ensures |base| <= |r| && r[..|base|] == base
  {
    if n == 0 then base
    else DonationsStep(ExpiringDonations(base, expiring, outcomes, nows, n - 1), expiring[n - 1].0, outcomes[n - 1], nows[n - 1])
  }

  /** The report lists exactly the expiring listings that got a plan, each with its plan. */
  lemma {:induction false} ExpiringPlansAreTheOutcomes(expiring: seq<(ObjectId, Doc)>, outcomes: seq<Option<(int, RoutingPlan)>>, n: nat)
    requires n <= |expiring| && n <= |outcomes|
    ensures forall i :: 0 <= i < n && outcomes[i].Some? ==>
      Reported(expiring[i], outcomes[i].value) in ExpiringPlans(expiring, outcomes, n)
    ensures forall p :: p in ExpiringPlans(expiring, outcomes, n) ==>
      exists i :: 0 <= i < n && outcomes[i].Some? && p == Reported(expiring[i], outcomes[i].value)
  {
    if n > 0 {
      ExpiringPlansAreTheOutcomes(expiring, outcomes, n - 1);
      var rest := ExpiringPlans(expiring, outcomes, n - 1);
      var all := ExpiringPlans(expiring, outcomes, n);
      var extra := if outcomes[n - 1].Some? then [Reported(expiring[n - 1], outcomes[n - 1].value)] else [];
      assert all == rest + extra;
      forall i | 0 <= i < n && outcomes[i].Some?
        ensures Reported(expiring[i], outcomes[i].value) in all
      {
        if i < n - 1 {
          assert Reported(expiring[i], outcomes[i].value) in rest;
        } else {
          assert all[|all| - 1] == Reported(expiring[i], outcomes[i].value);
        }
      }
      forall p | p in all
        ensures exists i :: 0 <= i < n && outcomes[i].Some? && p == Reported(expiring[i], outcomes[i].value)
      {
        if p !in rest {
          assert outcomes[n - 1].Some? && p == Reported(expiring[n - 1], outcomes[n - 1].value);
        }
      }
    }
  }

  /** The set of listings does not change, a listing no expiring listing names is left
      untouched, and a stored listing that got a plan ends up "pending". */
  lemma {:induction false} ExpiringListingsMarkPending(base: map<ObjectId, Doc>, expiring: seq<(ObjectId, Doc)>,
                                                       outcomes: seq<Option<(int, RoutingPlan)>>, percent: real, n: nat)
    requires n <= |expiring| && n <= |outcomes|
    ensures ExpiringListings(base, expiring, outcomes, percent, n).Keys == base.Keys
    ensures forall id :: id in base && (forall i :: 0 <= i < n ==> expiring[i].0 != id) ==>
      ExpiringListings(base, expiring, outcomes, percent, n)[id] == base[id]
    ensures forall i :: 0 <= i < n && expiring[i].0 in base && outcomes[i].Some? ==>
      var after := ExpiringListings(base, expiring, outcomes, percent, n)[expiring[i].0];
      "donation_mode" in after && after["donation_mode"] == VStr("pending")
  {
    if n > 0 {
      ExpiringListingsMarkPending(base, expiring, outcomes, percent, n - 1);
      var before := ExpiringListings(base, expiring, outcomes, percent, n - 1);
      var after := ExpiringListings(base, expiring, outcomes, percent, n);
      var id := expiring[n - 1].0;
      forall i | 0 <= i < n && expiring[i].0 in base && outcomes[i].Some?
        ensures "donation_mode" in after[expiring[i].0] && after[expiring[i].0]["donation_mode"] == VStr("pending")
      {
        if outcomes[n - 1].Some? && id in before {
          assert "donation_mode" in PlanFields("pending", outcomes[n - 1].value.1.allocations, percent);
        }
      }
    }
  }

  /** The writes for one expiring listing: with a plan, the donation records are inserted
      and the listing is marked "pending"; without one, nothing is written. */
  method HandleOutcome(db: Db, listing: (ObjectId, Doc), outcome: Option<(int, RoutingPlan)>, percent: real, now: string)
    modifies db`listings, db`donations
    ensures db.listings == ListingsStep(old(db.listings), listing.0, outcome, percent)
    ensures db.donations == DonationsStep(old(db.donations), listing.0, outcome, now)
  {
    if outcome.Some? {
      SavePlan(db, listing.0, IdString(listing.0), outcome.value.1.allocations, "pending", percent, now);
    }
  }

  /** `trigger_expiring_donations` over the listings the expiry query found (`expiring`,
      with their ids, at most `ExpiringCap` of them), given what routing answers for each
      (`answers`) and the time each plan is written (`nows`). `processed` counts the plans. */
  method TriggerExpiring(db: Db, body: TriggerExpiringRequest, expiring: seq<(ObjectId, Doc)>, answers: seq<RoutingAnswer>,
                         nows: seq<string>)
    returns (processed: int, plans: seq<ExpiringPlan>)
    requires AnswersFor(expiring, answers) && |nows| == |expiring| && |expiring| <= ExpiringCap
    modifies db`listings, db`donations
    ensures var outcomes := ExpiringOutcomes(expiring, answers, body.donatePercent, OrDefault(body.maxMinutes, PlanMaxMinutes));
      && plans == ExpiringPlans(expiring, outcomes, |expiring|)
      && db.listings == ExpiringListings(old(db.listings), expiring, outcomes, body.donatePercent, |expiring|)
      && db.donations == ExpiringDonations(old(db.donations), expiring, outcomes, nows, |expiring|)
    ensures processed == |plans| && processed <= |expiring| <= ExpiringCap
  {
    var maxMinutes := OrDefault(body.maxMinutes, PlanMaxMinutes);
    ghost var outcomes := ExpiringOutcomes(expiring, answers, body.donatePercent, maxMinutes);
    plans := [];
    processed := 0;
    var i := 0;
    while i < |expiring|
      invariant 0 <= i <= |expiring|
      invariant plans == ExpiringPlans(expiring, outcomes, i)
      invariant db.listings == ExpiringListings(old(db.listings), expiring, outcomes, body.donatePercent, i)
      invariant db.donations == ExpiringDonations(old(db.donations), expiring, outcomes, nows, i)
      invariant processed == |plans|
    {
      var listing := expiring[i];
      var outcome := ExpiringStep(listing.1, body.donatePercent, answers[i], maxMinutes);
      assert outcome == outcomes[i];
      HandleOutcome(db, listing, outcome, body.donatePercent, nows[i]);
      if outcome.Some? {
        plans := plans + [Reported(listing, outcome.value)];
        processed := processed + 1;
      }
      i := i + 1;
    }
  }
}
