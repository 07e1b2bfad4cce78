/** Listings in the legacy service (apps/api/app/routes/listings.py): the buyers' market of
    listings with free slots, a business's listings, creating a listing and updating the
    whitelisted columns of one. */
module LegacyListings {
  import opened Wrappers
  import opened Bson
  import opened LegacyTables
  import opened LegacyListing
  import opened LegacyPartners
  import opened LegacyRequests

  /** The listings in the order the table returns them: each stored listing once. */
  predicate TableOrder(listings: map<int, Row>, order: seq<int>) {
    && (forall i :: 0 <= i < |order| ==> order[i] in listings)
    && (forall i, j :: 0 <= i < j < |order| ==> order[i] != order[j])
    && (forall id :: id in listings ==> id in order)
  }

  /** The listings among `order` with a free slot. */
  function MarketIds(listings: map<int, Row>, allocations: seq<Allocation>, order: seq<int>): (ids: seq<int>)
    requires forall i :: 0 <= i < |order| ==> order[i] in listings
    ensures forall i :: 0 <= i < |ids| ==> ids[i] in listings
    ensures forall id :: id in ids <==> id in order && AvailableQty(listings[id], Taken(allocations, id)) > 0
  {
    if order == [] then []
    else
      var init := MarketIds(listings, allocations, order[..|order| - 1]);
      var id := order[|order| - 1];
      if AvailableQty(listings[id], Taken(allocations, id)) > 0 then init + [id] else init
  }

  /** `get_market`: every listing with a free slot, and only those, in table order. */
  method GetMarket(t: Tables, order: seq<int>) returns (out: seq<ListingView>)
    requires t.Valid() && TableOrder(t.listings, order)
    ensures |out| == |MarketIds(t.listings, t.allocations, order)|
    ensures forall i :: 0 <= i < |out| ==> out[i] == View(t.users, t.listings, t.allocations, MarketIds(t.listings, t.allocations, order)[i])
    ensures forall i :: 0 <= i < |out| ==> out[i].availableQty > 0
  {
    out := [];
    ghost var ids: seq<int> := [];
    for i := 0 to |order|
      invariant ids == MarketIds(t.listings, t.allocations, order[..i]) && |out| == |ids|
      invariant forall k :: 0 <= k < |out| ==> ids[k] in t.listings && out[k] == View(t.users, t.listings, t.allocations, ids[k])
      invariant forall k :: 0 <= k < |out| ==> out[k].availableQty > 0
    {
      assert order[..i + 1][..i] == order[..i];
      var id := order[i];
      var view := View(t.users, t.listings, t.allocations, id);
      if view.availableQty > 0 {
        out := out + [view];
        ids := ids + [id];
      }
    }
    assert order[..|order|] == order;
  }

  /** `list_listings`: a business's listings, by position in the table order; the
      business id is required. */
  function ListListings(listings: map<int, Row>, order: seq<int>, businessId: Option<int>): (r: Reply<seq<int>>)
    requires forall i :: 0 <= i < |order| ==> order[i] in listings
    ensures r.Fail? <==> Missing(businessId)
    ensures r.Fail? ==> r == Fail(400, "business_id required")
    ensures r.Ok? ==> forall id :: id in r.body <==> id in order && IntCol(listings[id], BusinessId) == businessId.value
  {
    if Missing(businessId) then Fail(400, "business_id required")
    else Ok(OwnedBy(listings, order, businessId.value))
  }

  function OwnedBy(listings: map<int, Row>, order: seq<int>, businessId: int): (ids: seq<int>)
    requires forall i :: 0 <= i < |order| ==> order[i] in listings
    ensures forall id :: id in ids <==> id in order && IntCol(listings[id], BusinessId) == businessId
  {
    if order == [] then []
    else
      var init := OwnedBy(listings, order[..|order| - 1], businessId);
      var id := order[|order| - 1];
      if IntCol(listings[id], BusinessId) == businessId then init + [id] else init
  }

  /** The row `create_listing` stores: the owner, the body's values with the documented
      defaults (empty name, zero quantities and price, not SNAP-eligible), and NULL for the
      optional prices and address when they are not given. */
  function NewRow(data: Doc): (row: Row)
    ensures Col(row, BusinessId) == Get(data, "business_id")
    ensures Col(row, ItemName) == GetOr(data, "item_name", VStr(""))
    ensures Col(row, TotalQty) == GetOr(data, "total_qty", VInt(0))
    ensures Col(row, PartnerQty) == GetOr(data, "partner_qty", VInt(0))
    ensures Col(row, PublicQty) == GetOr(data, "public_qty", VInt(0))
    ensures Col(row, StandardPrice) == GetOr(data, "standard_price", VInt(0))
    ensures Col(row, EbtPrice) == Get(data, "ebt_price") && Col(row, RetailValue) == Get(data, "retail_value")
    ensures Col(row, SnapEligible) == GetOr(data, "snap_eligible", VBool(false))
    ensures Col(row, Address) == Get(data, "address")
    ensures Col(row, RequestDeadline) == VNull && Col(row, PickupStart) == VNull && Col(row, PickupEnd) == VNull
  {
    map[
      BusinessId := Get(data, "business_id"),
      ItemName := GetOr(data, "item_name", VStr("")),
      TotalQty := GetOr(data, "total_qty", VInt(0)),
      PartnerQty := GetOr(data, "partner_qty", VInt(0)),
      PublicQty := GetOr(data, "public_qty", VInt(0)),
      StandardPrice := GetOr(data, "standard_price", VInt(0)),
      EbtPrice := Get(data, "ebt_price"),
      RetailValue := Get(data, "retail_value"),
      SnapEligible := GetOr(data, "snap_eligible", VBool(false)),
      Address := Get(data, "address")]
  }

  /** A new listing starts with its full public share free: nothing is allocated on an id
      the table has not used. */
  lemma NewListingAllFree(allocations: seq<Allocation>, newId: int, data: Doc)
    requires forall a :: a in allocations ==> a.listingId != newId
    ensures AvailableQty(NewRow(data), Taken(allocations, newId)) == Max(0, IntCol(NewRow(data), PublicQty))
  {
    TakenNone(allocations, newId);
  }

  lemma {:induction false} TakenNone(allocations: seq<Allocation>, id: int)
    requires forall a :: a in allocations ==> a.listingId != id
    ensures Taken(allocations, id) == 0
  {
    if allocations != [] {
      TakenNone(allocations[..|allocations| - 1], id);
    }
  }

  /** `create_listing`: the owner must be a stored user whose role is "business"; a body
      that puts NULL in a NOT NULL column fails at the commit with 500 and stores nothing;
      otherwise the new listing gets the unused id `newId` and is answered with 201. */
  method CreateListing(t: Tables, body: Option<Doc>, newId: int) returns (r: Reply<ListingView>)
    requires t.Valid() && newId !in t.listings
    modifies t`listings
    ensures var b := Get(BodyOrEmpty(body), "business_id");
      && (!Truthy(b) ==> r == Fail(400, "business_id required"))
      && (Truthy(b) && !(b.VInt? && b.i in t.users && t.users[b.i].role == "business") ==> r == Fail(400, "business user not found"))
      && (Truthy(b) && b.VInt? && b.i in t.users && t.users[b.i].role == "business" && !Filled(NewRow(BodyOrEmpty(body))) ==>
            r == Fail(500, "Internal Server Error"))
      && (r.Fail? ==> t.listings == old(t.listings))
      && (r.Ok? <==> (Truthy(b) && b.VInt? && b.i in t.users && t.users[b.i].role == "business"
                      && Filled(NewRow(BodyOrEmpty(body)))))
    ensures r.Ok? ==> t.listings == old(t.listings)[newId := NewRow(BodyOrEmpty(body))]
    ensures r.Ok? ==> r.body == View(t.users, t.listings, t.allocations, newId)
    ensures t.Valid()
  {
    var data := BodyOrEmpty(body);
    var businessId := Get(data, "business_id");
    if !Truthy(businessId) {
      return Fail(400, "business_id required");
    }
    var user := UserOf(t.users, businessId);
    if user.None? || t.users[user.value].role != "business" {
      return Fail(400, "business user not found");
    }
    var row := NewRow(data);
    if !Filled(row) {
      return Fail(500, "Internal Server Error");
    }
    assert IntCol(row, BusinessId) == user.value;
    StoreKeepsFilled(t.listings, newId, row, t.listings[newId := row]);
    t.listings := t.listings[newId := row];
    r := Ok(View(t.users, t.listings, t.allocations, newId));
  }

  /** `get_listing`. */
  function GetListing(users: map<int, User>, listings: map<int, Row>, allocations: seq<Allocation>, listingId: int): (r: Reply<ListingView>)
    requires ListingsValid(listings, users)
    ensures r.Fail? <==> listingId !in listings
    ensures r.Fail? ==> r == Fail(404, "Not Found")
    ensures r.Ok? ==> r.body.id == listingId && r.body.availableQty == AvailableQty(listings[listingId], Taken(allocations, listingId))
  {
    if listingId in listings then Ok(View(users, listings, allocations, listingId)) else Fail(404, "Not Found")
  }

  /** The body key of a column. */
  function ColumnName(c: Column): string {
    match c
    case BusinessId => "business_id"
    case ItemName => "item_name"
    case TotalQty => "total_qty"
    case PartnerQty => "partner_qty"
    case PublicQty => "public_qty"
    case StandardPrice => "standard_price"
    case EbtPrice => "ebt_price"
    case RetailValue => "retail_value"
    case SnapEligible => "snap_eligible"
    case RequestDeadline => "request_deadline"
    case PickupStart => "pickup_start"
    case PickupEnd => "pickup_end"
    case Address => "address"
  }

  /** The columns `update_listing` may set, in its order. */
  const Whitelist: seq<Column> := [ItemName, TotalQty, PartnerQty, PublicQty, StandardPrice, EbtPrice, RetailValue, SnapEligible, Address]

  /** The row after setting, in turn, each of `cols` whose name the body holds. */
  function Patched(row: Row, data: Doc, cols: seq<Column>): (r: Row)
    ensures forall c :: c !in cols ==> Col(r, c) == Col(row, c)
  {
    if cols == [] then row
    else
      var init := Patched(row, data, cols[..|cols| - 1]);
      var c := cols[|cols| - 1];
      if ColumnName(c) in data then init[c := data[ColumnName(c)]] else init
  }

  /** A patched column holds the body's value when the body names it and its old value
      otherwise. */
  lemma {:induction false} PatchedColumns(row: Row, data: Doc, cols: seq<Column>)
    ensures forall c :: c in cols && ColumnName(c) in data ==> Col(Patched(row, data, cols), c) == data[ColumnName(c)]
    ensures forall c :: c in cols && ColumnName(c) !in data ==> Col(Patched(row, data, cols), c) == Col(row, c)
  {
    if cols != [] {
      PatchedColumns(row, data, cols[..|cols| - 1]);
      forall c | c in cols ensures c in cols[..|cols| - 1] || c == cols[|cols| - 1] {
        var i :| 0 <= i < |cols| && cols[i] == c;
        if i < |cols| - 1 {
          assert cols[..|cols| - 1][i] == c;
        }
      }
    }
  }

  /** The update sets exactly the whitelisted columns the body names and keeps every other
      column, the owner among them; an empty body changes nothing, and repeating an update
      changes nothing more. */
  lemma UpdateLaws(row: Row, data: Doc)
    ensures forall c :: (Col(Patched(row, data, Whitelist), c) ==
      if c in Whitelist && ColumnName(c) in data then data[ColumnName(c)] else Col(row, c))
    ensures Col(Patched(row, data, Whitelist), BusinessId) == Col(row, BusinessId)
    ensures forall c :: Col(Patched(row, map[], Whitelist), c) == Col(row, c)
    ensures forall c :: Col(Patched(Patched(row, data, Whitelist), data, Whitelist), c) == Col(Patched(row, data, Whitelist), c)
  {
    PatchedColumns(row, data, Whitelist);
    PatchedColumns(row, map[], Whitelist);
    PatchedColumns(Patched(row, data, Whitelist), data, Whitelist);
  }

  /** A stored row stays filled under an update exactly when the body sets no NOT NULL
      column to null; the owner column is never touched. */
  lemma PatchKeepsFilled(row: Row, data: Doc)
    requires Filled(row)
    ensures Filled(Patched(row, data, Whitelist)) <==>
      forall c :: c in Required && c in Whitelist && ColumnName(c) in data ==> data[ColumnName(c)] != VNull
  {
    UpdateLaws(row, data);
    assert BusinessId !in Whitelist;
  }

  /** A new row is filled exactly when the body gives no null name, quantity or price. */
  lemma NewRowFilled(data: Doc)
    requires Truthy(Get(data, "business_id"))
    ensures Filled(NewRow(data)) <==>
      forall k :: k in ["item_name", "total_qty", "public_qty", "standard_price"] && k in data ==> data[k] != VNull
  {
    assert Col(NewRow(data), ItemName) == GetOr(data, "item_name", VStr(""));
    assert Col(NewRow(data), TotalQty) == GetOr(data, "total_qty", VInt(0));
    assert Col(NewRow(data), PublicQty) == GetOr(data, "public_qty", VInt(0));
    assert Col(NewRow(data), StandardPrice) == GetOr(data, "standard_price", VInt(0));
  }

  /** `update_listing`: the loop over the whitelist, then the commit, which fails with 500 and
      keeps the stored row when a NOT NULL column would hold NULL. */
  method UpdateListing(t: Tables, listingId: int, body: Option<Doc>) returns (r: Reply<ListingView>)
    requires t.Valid()
    modifies t`listings
    ensures listingId !in old(t.listings) ==> r == Fail(404, "Not Found") && t.listings == old(t.listings)
    ensures listingId in old(t.listings) && !Filled(Patched(old(t.listings)[listingId], BodyOrEmpty(body), Whitelist)) ==>
      r == Fail(500, "Internal Server Error") && t.listings == old(t.listings)
    ensures listingId in old(t.listings) && Filled(Patched(old(t.listings)[listingId], BodyOrEmpty(body), Whitelist)) ==>
      t.listings == old(t.listings)[listingId := Patched(old(t.listings)[listingId], BodyOrEmpty(body), Whitelist)]
      && r == Ok(View(t.users, t.listings, t.allocations, listingId))
    ensures t.Valid()
  {
    if listingId !in t.listings {
      return Fail(404, "Not Found");
    }
    var data := BodyOrEmpty(body);
    var row := t.listings[listingId];
    ghost var row0 := row;
    for i := 0 to |Whitelist|
      invariant row == Patched(row0, data, Whitelist[..i])
    {
      assert Whitelist[..i + 1][..i] == Whitelist[..i];
      var key := Whitelist[i];
      if ColumnName(key) in data {
        row := row[key := data[ColumnName(key)]];
      }
    }
    assert Whitelist[..|Whitelist|] == Whitelist;
    if !Filled(row) {
      return Fail(500, "Internal Server Error");
    }
    StoreKeepsFilled(t.listings, listingId, row, t.listings[listingId := row]);
    assert BusinessId !in Whitelist;
    t.listings := t.listings[listingId := row];
    r := Ok(View(t.users, t.listings, t.allocations, listingId));
  }
}
