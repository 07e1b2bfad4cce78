/** A legacy listing's derived quantity and its JSON form (apps/api/app/models/listing.py). */
module LegacyListing {
  import opened Wrappers
  import opened Bson
  import opened LegacyTables

  /** The allocations made on a listing (`self.allocations.count()`). */
  function Taken(allocations: seq<Allocation>, listingId: int): (n: nat)
    ensures n <= |allocations|
  {
    if allocations == [] then 0
    else Taken(allocations[..|allocations| - 1], listingId) + (if allocations[|allocations| - 1].listingId == listingId then 1 else 0)
  }

  /** Allocations appended on a listing raise its count by their number; allocations on
      other listings do not change it. */
  lemma {:induction false} TakenAppend(allocations: seq<Allocation>, added: seq<Allocation>, listingId: int)
    ensures Taken(allocations + added, listingId) == Taken(allocations, listingId) + Taken(added, listingId)
  {
    if added != [] {
      var init := added[..|added| - 1];
      assert (allocations + added)[..|allocations + added| - 1] == allocations + init;
      TakenAppend(allocations, init, listingId);
    } else {
      assert allocations + added == allocations;
    }
  }

  /** Allocations that all belong to the listing count in full. */
  lemma {:induction false} TakenAll(added: seq<Allocation>, listingId: int)
    requires forall a :: a in added ==> a.listingId == listingId
    ensures Taken(added, listingId) == |added|
  {
    if added != [] {
      TakenAll(added[..|added| - 1], listingId);
    }
  }

  /** `available_qty`: the public share less what has been allocated, never below zero. */
  function AvailableQty(row: Row, taken: nat): (q: int)
    ensures q >= 0
    ensures taken <= IntCol(row, PublicQty) ==> q + taken == IntCol(row, PublicQty)
    ensures q > 0 <==> taken < IntCol(row, PublicQty)
  {
    Max(0, IntCol(row, PublicQty) - taken)
  }

  /** `float(x)` on a numeric column. */
  function Float(v: Value): (r: Value)
    ensures Truthy(v) && (v.VInt? || v.VReal?) ==> r.VReal? && r.r != 0.0
  {
    match v
    case VInt(i) => VReal(i as real)
    case _ => v
  }

  /** `float(x) if x else None`: a NULL, and also a price of 0, becomes None. */
  function OptFloat(v: Value): (r: Value)
    ensures r == VNull <==> !Truthy(v)
    ensures Truthy(v) ==> r == Float(v)
  {
    if Truthy(v) then (if v.VInt? then VReal(v.i as real) else v) else VNull
  }

  /** `x.isoformat() if x else None` on a date column, dates being kept as ISO text. */
  function OptDate(v: Value): (r: Value)
    ensures r == VNull <==> !Truthy(v)
    ensures Truthy(v) ==> r == v
  {
    if Truthy(v) then v else VNull
  }

  /** The JSON form of a listing (`to_dict`). */
  datatype ListingView = ListingView(
    id: int,
    businessId: Value,
    businessName: string,
    itemName: Value,
    totalQty: Value,
    partnerQty: Value,
    publicQty: Value,
    availableQty: int,
    standardPrice: Value,
    ebtPrice: Value,
    retailValue: Value,
    snapEligible: Value,
    requestDeadline: Value,
    pickupStart: Value,
    pickupEnd: Value,
    address: Value)

  /** `business.business_name or "Business"`. */
  function BusinessName(owner: User): (s: string)
    ensures owner.businessName.Some? && owner.businessName.value != "" ==> s == owner.businessName.value
    ensures owner.businessName.None? || owner.businessName.value == "" ==> s == "Business"
    ensures s != ""
  {
    match owner.businessName
    case Some(n) => if n != "" then n else "Business"
    case None => "Business"
  }

  /** `to_dict` of listing `id` owned by `owner`, with `taken` allocations made on it. */
  function ToDict(id: int, row: Row, owner: User, taken: nat): (v: ListingView)
    ensures v.id == id && v.availableQty == AvailableQty(row, taken) && v.availableQty >= 0
    ensures v.businessName != ""
    ensures v.ebtPrice == VNull <==> !Truthy(Col(row, EbtPrice))
    ensures v.retailValue == VNull <==> !Truthy(Col(row, RetailValue))
    ensures v.requestDeadline == VNull <==> !Truthy(Col(row, RequestDeadline))
    ensures v.pickupStart == VNull <==> !Truthy(Col(row, PickupStart))
    ensures v.pickupEnd == VNull <==> !Truthy(Col(row, PickupEnd))
    ensures v.address == Col(row, Address) && v.snapEligible == Col(row, SnapEligible)
  {
    ListingView(
      id, Col(row, BusinessId), BusinessName(owner), Col(row, ItemName),
      Col(row, TotalQty), Col(row, PartnerQty), Col(row, PublicQty), AvailableQty(row, taken),
      Float(Col(row, StandardPrice)), OptFloat(Col(row, EbtPrice)), OptFloat(Col(row, RetailValue)),
      Col(row, SnapEligible), OptDate(Col(row, RequestDeadline)), OptDate(Col(row, PickupStart)),
      OptDate(Col(row, PickupEnd)), Col(row, Address))
  }

  /** The listing `id` of the tables as its JSON form. */
  function View(users: map<int, User>, listings: map<int, Row>, allocations: seq<Allocation>, id: int): ListingView
    requires id in listings && ListingsValid(listings, users)
  {
    ToDict(id, listings[id], users[IntCol(listings[id], BusinessId)], Taken(allocations, id))
  }
}
