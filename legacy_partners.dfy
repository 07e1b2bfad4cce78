/** Partner reservation in the legacy service (apps/api/app/routes/partners.py): a partner
    takes part of a listing's public share, which moves to the partner share. */
module LegacyPartners {
  import opened Wrappers
  import opened Bson
  import opened LegacyTables
  import opened LegacyListing

  /** `request.get_json() or {}`: a missing or empty body reads as no fields. */
  function BodyOrEmpty(body: Option<Doc>): (data: Doc)
    ensures body.None? ==> data == map[]
    ensures body.Some? ==> data == body.value
  {
    match body
    case Some(d) => d
    case None => map[]
  }

  /** A JSON quantity as Python compares and adds it: an integer, or a boolean counting as
      0 or 1; any other value makes the comparison fail. */
  function Quantity(v: Value): (q: Option<int>)
    ensures v.VInt? ==> q == Some(v.i)
    ensures !v.VInt? && !v.VBool? ==> q.None?
  {
    match v
    case VInt(i) => Some(i)
    case VBool(b) => Some(if b then 1 else 0)
    case _ => None
  }

  /** The listing row after a partner takes `qty` units. */
  function ReservedRow(row: Row, qty: int): (r: Row)
    ensures IntCol(r, PartnerQty) == IntCol(row, PartnerQty) + qty
    ensures IntCol(r, PublicQty) == Max(0, IntCol(row, PublicQty) - qty) >= 0
    ensures forall c :: c != PartnerQty && c != PublicQty ==> Col(r, c) == Col(row, c)
  {
    row[PartnerQty := VInt(IntCol(row, PartnerQty) + qty)][PublicQty := VInt(Max(0, IntCol(row, PublicQty) - qty))]
  }

  /** What moves from the public share to the partner share is conserved when the public
      share covers it; beyond that the public share stops at zero and the total grows. */
  lemma ReservationConserves(row: Row, qty: int)
    requires qty > 0
    ensures var r := ReservedRow(row, qty);
      && (qty <= IntCol(row, PublicQty) ==>
            IntCol(r, PartnerQty) + IntCol(r, PublicQty) == IntCol(row, PartnerQty) + IntCol(row, PublicQty))
      && (qty > IntCol(row, PublicQty) >= 0 ==>
            IntCol(r, PublicQty) == 0
            && IntCol(r, PartnerQty) + IntCol(r, PublicQty) == IntCol(row, PartnerQty) + IntCol(row, PublicQty) + (qty - IntCol(row, PublicQty)))
  {
  }

  /** The reply and the new listings of `reserve_partner`, as a function of the tables. */
  function ReservePartnerResult(listings: map<int, Row>, listingId: int, body: Option<Doc>): (r: Reply<map<int, Row>>)
    ensures listingId !in listings ==> r == Fail(404, "Not Found")
    ensures r.Ok? ==> listingId in listings && r.body.Keys == listings.Keys
    ensures r.Ok? ==> forall id :: id in listings && id != listingId ==> r.body[id] == listings[id]
  {
    if listingId !in listings then Fail(404, "Not Found")
    else
      var data := BodyOrEmpty(body);
      match Quantity(GetOr(data, "partner_qty", VInt(1)))
      case None => Fail(500, "Internal Server Error")
      case Some(qty) =>
        if qty <= 0 then Fail(400, "partner_qty must be positive")
        else Ok(listings[listingId := ReservedRow(listings[listingId], qty)])
  }

  /** Without a quantity the partner takes one unit; a non-positive quantity is refused. */
  lemma ReserveDefaultsToOne(listings: map<int, Row>, listingId: int, body: Option<Doc>)
    requires listingId in listings
    ensures "partner_qty" !in BodyOrEmpty(body) ==>
      ReservePartnerResult(listings, listingId, body) == Ok(listings[listingId := ReservedRow(listings[listingId], 1)])
    ensures "partner_qty" in BodyOrEmpty(body) && BodyOrEmpty(body)["partner_qty"].VInt? && BodyOrEmpty(body)["partner_qty"].i <= 0 ==>
      ReservePartnerResult(listings, listingId, body) == Fail(400, "partner_qty must be positive")
  {
  }

  /** `reserve_partner`. */
  method ReservePartner(t: Tables, listingId: int, body: Option<Doc>) returns (r: Reply<ListingView>)
    requires t.Valid()
    modifies t`listings
    ensures var expected := ReservePartnerResult(old(t.listings), listingId, body);
      && (expected.Fail? ==> r == Fail(expected.status, expected.detail) && t.listings == old(t.listings))
      && (expected.Ok? ==> t.listings == expected.body && r.Ok?)
    ensures t.Valid()
    ensures r.Ok? ==> listingId in t.listings && r.body == View(t.users, t.listings, t.allocations, listingId)
  {
    if listingId !in t.listings {
      return Fail(404, "Not Found");
    }
    var data := BodyOrEmpty(body);
    var qty := Quantity(GetOr(data, "partner_qty", VInt(1)));
    if qty.None? {
      return Fail(500, "Internal Server Error");
    }
    if qty.value <= 0 {
      return Fail(400, "partner_qty must be positive");
    }
    var row := t.listings[listingId];
    var updated := ReservedRow(row, qty.value);
    assert IntCol(updated, BusinessId) == IntCol(row, BusinessId);
    assert Filled(updated) by {
      forall c | c in Required ensures Col(updated, c) != VNull {
        if c != PartnerQty && c != PublicQty {
          assert Col(updated, c) == Col(row, c);
        }
      }
    }
    StoreKeepsFilled(t.listings, listingId, updated, t.listings[listingId := updated]);
    t.listings := t.listings[listingId := updated];
    r := Ok(View(t.users, t.listings, t.allocations, listingId));
  }
}
