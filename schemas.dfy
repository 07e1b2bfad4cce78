/** The request and response shapes of the Mongo-backed API (apps/api/schemas.py), with the
    field constraints and defaults the request validation applies. A body that breaks a
    constraint is answered with status 422 before any handler runs. */
module Schemas {
  import opened Wrappers
  import opened Bson

  /** The status the request validation answers with. */
  const Unprocessable: int := 422

  /** A GeoJSON point. Its type is always "Point"; the coordinates are `[lng, lat]`. */
  datatype GeoPoint = GeoPoint(kind: string, coordinates: seq<real>)

  /** `GeoPoint` validation: the type may be omitted (it defaults to "Point") and any other
      value than "Point" is refused. */
  function ParseGeoPoint(kind: Option<string>, coordinates: seq<real>): (r: Reply<GeoPoint>)
    ensures r.Ok? <==> kind.None? || kind == Some("Point")
    ensures r.Ok? ==> r.body.kind == "Point" && r.body.coordinates == coordinates
    ensures r.Fail? ==> r.status == Unprocessable
  {
    if kind.None? || kind.value == "Point" then Ok(GeoPoint("Point", coordinates))
    else Fail(Unprocessable, "type must be 'Point'")
  }

  /** The body of a new listing. */
  datatype ListingCreate = ListingCreate(
    businessId: Option<string>,
    businessName: string,
    title: string,
    priceCents: int,
    qtyAvailable: int,
    donatePercent: Option<real>,
    pickupStart: Option<string>,
    pickupEnd: Option<string>,
    address: Option<string>,
    location: Option<GeoPoint>,
    category: Option<string>)

  /** `donate_percent`, when given, lies in [0, 1]. */
  predicate ValidDonatePercent(p: Option<real>) {
    p.None? || (0.0 <= p.value <= 1.0)
  }

  /** `ListingCreate` validation: only the donation share is constrained. */
  function ValidateListingCreate(body: ListingCreate): (r: Reply<ListingCreate>)
    ensures r.Ok? <==> body.donatePercent.None? || 0.0 <= body.donatePercent.value <= 1.0
    ensures r.Ok? ==> r.body == body && ValidDonatePercent(r.body.donatePercent)
    ensures r.Fail? ==> r.status == Unprocessable
  {
    if ValidDonatePercent(body.donatePercent) then Ok(body)
    else Fail(Unprocessable, "donate_percent must be between 0 and 1")
  }

  /** The body of a donation-plan request. */
  datatype DonationPlanRequest = DonationPlanRequest(donatePercent: real, maxMinutes: Option<int>, topK: Option<int>)

  /** `DonationPlanRequest` validation: `donate_percent` is required and lies in (0, 1]. */
  function ParseDonationPlanRequest(donatePercent: Option<real>, maxMinutes: Option<int>, topK: Option<int>)
    : (r: Reply<DonationPlanRequest>)
    ensures r.Ok? <==> donatePercent.Some? && 0.0 < donatePercent.value <= 1.0
    ensures r.Ok? ==> r.body == DonationPlanRequest(donatePercent.value, maxMinutes, topK)
    ensures r.Fail? ==> r.status == Unprocessable
  {
    match donatePercent
    case None => Fail(Unprocessable, "donate_percent is required")
    case Some(p) =>
      if 0.0 < p <= 1.0 then Ok(DonationPlanRequest(p, maxMinutes, topK))
      else Fail(Unprocessable, "donate_percent must be in (0, 1]")
  }

  /** The body of the expiring-listings trigger. */
  datatype TriggerExpiringRequest = TriggerExpiringRequest(minutesBeforeEnd: int, maxMinutes: Option<int>, donatePercent: real)

  const DefaultMinutesBeforeEnd: int := 30
  const DefaultTriggerPercent: real := 1.0

  /** `TriggerExpiringRequest` validation: 30 minutes and the whole quantity unless given;
      a given share must lie in (0, 1]. */
  function ParseTriggerExpiringRequest(minutesBeforeEnd: Option<int>, maxMinutes: Option<int>, donatePercent: Option<real>)
    : (r: Reply<TriggerExpiringRequest>)
    ensures r.Ok? <==> donatePercent.None? || 0.0 < donatePercent.value <= 1.0
    ensures r.Ok? ==> 0.0 < r.body.donatePercent <= 1.0 && r.body.maxMinutes == maxMinutes
    ensures r.Ok? ==> r.body.minutesBeforeEnd == minutesBeforeEnd.GetOr(DefaultMinutesBeforeEnd)
    ensures r.Ok? ==> r.body.donatePercent == donatePercent.GetOr(DefaultTriggerPercent)
    ensures r.Fail? ==> r.status == Unprocessable
  {
    var p := donatePercent.GetOr(DefaultTriggerPercent);
    if 0.0 < p <= 1.0 then Ok(TriggerExpiringRequest(minutesBeforeEnd.GetOr(DefaultMinutesBeforeEnd), maxMinutes, p))
    else Fail(Unprocessable, "donate_percent must be in (0, 1]")
  }

  /** The answer to a pickup scan. */
  datatype PickupScanResponse = PickupScanResponse(ok: bool, alreadyPickedUp: bool, order: Option<Doc>)

  /** A `PickupScanResponse` built from the fields given: `ok` defaults to true and
      `already_picked_up` to false. */
  function MakePickupScanResponse(ok: Option<bool>, alreadyPickedUp: Option<bool>, order: Option<Doc>)
    : (r: PickupScanResponse)
    ensures ok.None? ==> r.ok
    ensures alreadyPickedUp.None? ==> !r.alreadyPickedUp
    ensures ok.Some? ==> r.ok == ok.value
    ensures alreadyPickedUp.Some? ==> r.alreadyPickedUp == alreadyPickedUp.value
    ensures r.order == order
  {
    PickupScanResponse(ok.GetOr(true), alreadyPickedUp.GetOr(false), order)
  }

  /** One planned delivery to a food bank, as the API reports it. */
  datatype AllocationItem = AllocationItem(
    foodBankId: string,
    name: string,
    address: Option<string>,
    phone: Option<string>,
    qty: int,
    durationMinutes: Option<real>,
    score: Option<real>)

  /** The answer to a donation-plan request. */
  datatype DonationPlanResponse = DonationPlanResponse(
    donationQty: int,
    remainingPublicQty: int,
    routingUsed: bool,
    allocations: seq<AllocationItem>)
}
