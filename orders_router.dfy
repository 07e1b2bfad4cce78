/** The order endpoints (apps/api/routers/orders.py): a buyer's order history, reserving one
    unit of a listing, the pickup scan at the counter and cancelling a reservation. An order
    is "reserved" until it is either "picked_up" or "canceled". */
module OrdersRouter {
  import opened Wrappers
  import opened Bson
  import Text
  import opened Schemas
  import opened MongoStore

  /** `str(v)` for an id field holding an ObjectId; any other value is kept as it is. */
  function IdAsString(v: Value): (r: Value)
    ensures !r.VOid?
    ensures v.VOid? ==> r == VStr(IdString(v.oid))
    ensures !v.VOid? ==> r == v
  {
    match v
    case VOid(o) => VStr(IdString(o))
    case _ => v
  }

  /** `_order_to_response`: `_id` becomes the string field "id", and a listing or business
      id stored as an ObjectId becomes its string. */
  function OrderToResponse(id: ObjectId, doc: Doc): (r: Doc)
    ensures r.Keys == doc.Keys - {"_id"} + {"id"}
    ensures r["id"] == VStr(IdString(id))
    ensures "listing_id" in doc ==> r["listing_id"] == IdAsString(doc["listing_id"])
    ensures "business_id" in doc ==> r["business_id"] == IdAsString(doc["business_id"])
    ensures forall k :: k in doc && k != "_id" && k != "id" && k != "listing_id" && k != "business_id" ==> r[k] == doc[k]
  {
    var d := (doc - {"_id"})["id" := VStr(IdString(id))];
    var d1 := if "listing_id" in doc then d["listing_id" := IdAsString(doc["listing_id"])] else d;
    if "business_id" in doc then d1["business_id" := IdAsString(doc["business_id"])] else d1
  }

  /** An order whose ids are already strings comes back from its response unchanged once
      "id" is dropped. */
  lemma OrderResponseKeepsFields(id: ObjectId, doc: Doc)
    requires "_id" !in doc && "id" !in doc
    requires "listing_id" in doc ==> !doc["listing_id"].VOid?
    requires "business_id" in doc ==> !doc["business_id"].VOid?
    ensures OrderToResponse(id, doc) - {"id"} == doc
  {
    var r := OrderToResponse(id, doc);
    assert (r - {"id"}).Keys == doc.Keys;
  }

  /** A document matches a Mongo equality filter when it holds every filtered field with
      the filtered value. */
  predicate Matches(doc: Doc, filter: Doc) {
    forall k :: k in filter ==> k in doc && doc[k] == filter[k]
  }

  /** What the database answers to `find(filter)` on a collection: stored documents, each
      at most once, all matching, and every matching document among them. The order of the
      answer is the database's. */
  predicate Answers(orders: map<ObjectId, Doc>, filter: Doc, found: seq<(ObjectId, Doc)>) {
    && (forall i :: 0 <= i < |found| ==> found[i].0 in orders && orders[found[i].0] == found[i].1 && Matches(found[i].1, filter))
    && (forall i, j :: 0 <= i < j < |found| ==> found[i].0 != found[j].0)
    && (forall id :: id in orders && Matches(orders[id], filter) ==> exists i :: 0 <= i < |found| && found[i].0 == id)
  }

  /** Every order of an answer in response form, in the answer's order. */
  method RespondOrders(found: seq<(ObjectId, Doc)>) returns (out: seq<Doc>)
    ensures |out| == |found|
    ensures forall i :: 0 <= i < |found| ==> out[i] == OrderToResponse(found[i].0, found[i].1)
  {
    out := [];
    var i := 0;
    while i < |found|
      invariant 0 <= i <= |found| && |out| == i
      invariant forall j :: 0 <= j < i ==> out[j] == OrderToResponse(found[j].0, found[j].1)
    {
      out := out + [OrderToResponse(found[i].0, found[i].1)];
      i := i + 1;
    }
  }

  /** A response still matches a filter on anything but `_id` and `id` whose values are
      not ObjectIds. */
  lemma ResponseMatches(id: ObjectId, doc: Doc, filter: Doc)
    requires Matches(doc, filter)
    requires "_id" !in filter && "id" !in filter
    requires forall k :: k in filter ==> !filter[k].VOid?
    ensures Matches(OrderToResponse(id, doc), filter)
  {
  }

  /** Every response of an answer matches the filter. */
  lemma ResponsesMatch(orders: map<ObjectId, Doc>, filter: Doc, found: seq<(ObjectId, Doc)>, out: seq<Doc>)
    requires Answers(orders, filter, found)
    requires "_id" !in filter && "id" !in filter
    requires forall k :: k in filter ==> !filter[k].VOid?
    requires |out| == |found| && forall i :: 0 <= i < |found| ==> out[i] == OrderToResponse(found[i].0, found[i].1)
    ensures forall i :: 0 <= i < |out| ==> Matches(out[i], filter)
  {
    forall i | 0 <= i < |out| ensures Matches(out[i], filter) {
      ResponseMatches(found[i].0, found[i].1, filter);
    }
  }

  /** `{"status": status}` added to a filter when a non-empty status is asked for. */
  function WithStatus(filter: Doc, status: Option<string>): (r: Doc)
    ensures "status" in r <==> "status" in filter || (status.Some? && status.value != "")
    ensures status.Some? && status.value != "" ==> r["status"] == VStr(status.value)
    ensures forall k :: k in filter && k != "status" ==> k in r && r[k] == filter[k]
    ensures r.Keys <= filter.Keys + {"status"}
  {
    if status.Some? && status.value != "" then filter["status" := VStr(status.value)] else filter
  }

  /** A document matches a filter with a status added exactly when it matches the filter
      and, when a status was asked for, has that status. */
  lemma MatchesWithStatus(doc: Doc, filter: Doc, status: Option<string>)
    requires "status" !in filter
    ensures Matches(doc, WithStatus(filter, status)) <==>
      && Matches(doc, filter)
      && (status.Some? && status.value != "" ==> Get(doc, "status") == VStr(status.value))
  {
    if status.Some? && status.value != "" && Matches(doc, WithStatus(filter, status)) {
      assert "status" in WithStatus(filter, status);
    }
  }

  /** The filter of `buyer_orders`: an empty `user_name` is refused by validation (422), one
      that is blank once stripped by the handler (400); otherwise the stripped name and the
      status when one is asked for. */
  function BuyerOrdersFilter(userName: string, status: Option<string>): (r: Reply<Doc>)
    ensures userName == "" ==> r == Fail(422, "user_name must have at least 1 character")
    ensures r.Fail? <==> Text.PyStrip(userName) == ""
    ensures r.Ok? ==> "user_name" in r.body && r.body["user_name"] == VStr(Text.PyStrip(userName))
    ensures r.Ok? ==> r.body.Keys <= {"user_name", "status"}
    ensures r.Ok? ==> ("status" in r.body <==> status.Some? && status.value != "")
    ensures r.Ok? && "status" in r.body ==> r.body["status"] == VStr(status.value)
  {
    if |userName| < 1 then Fail(422, "user_name must have at least 1 character")
    else
      var user := Text.PyStrip(userName);
      if user == "" then Fail(400, "user_name is required")
      else Ok(WithStatus(map["user_name" := VStr(user)], status))
  }

  /** `buyer_orders`: given what the database answers to the filter (`found`), exactly the
      buyer's orders (with the asked status), each in response form. */
  method BuyerOrders(orders: map<ObjectId, Doc>, userName: string, status: Option<string>, found: seq<(ObjectId, Doc)>)
    returns (r: Reply<seq<Doc>>)
    requires BuyerOrdersFilter(userName, status).Ok? ==> Answers(orders, BuyerOrdersFilter(userName, status).body, found)
    ensures r.Fail? <==> BuyerOrdersFilter(userName, status).Fail?
    ensures r.Ok? ==> |r.body| == |found|
    ensures r.Ok? ==> forall i :: 0 <= i < |found| ==> r.body[i] == OrderToResponse(found[i].0, found[i].1)
    ensures r.Ok? ==> forall i :: 0 <= i < |r.body| ==>
      "user_name" in r.body[i] && r.body[i]["user_name"] == VStr(Text.PyStrip(userName))
    ensures r.Ok? && status.Some? && status.value != "" ==> forall i :: 0 <= i < |r.body| ==>
      "status" in r.body[i] && r.body[i]["status"] == VStr(status.value)
  {
    var filter := BuyerOrdersFilter(userName, status);
    if filter.Fail? {
      return Fail(filter.status, filter.detail);
    }
    var out := RespondOrders(found);
    ResponsesMatch(orders, filter.body, found, out);
    r := Ok(out);
  }

  /** The listing a reservation may take a unit of: open, with at least one unit left. */
  predicate Reservable(listing: Doc) {
    && Get(listing, "status") == VStr("open")
    && Get(listing, "qty_available").VInt? && Get(listing, "qty_available").i >= 1
  }

  /** The listing after a reservation: one unit fewer, and "sold_out" once none is left. */
  function AfterReserve(listing: Doc): (r: Doc)
    requires Reservable(listing)
    ensures r.Keys == listing.Keys
    ensures r["qty_available"] == VInt(listing["qty_available"].i - 1)
    ensures r["status"] == if listing["qty_available"].i - 1 <= 0 then VStr("sold_out") else VStr("open")
    ensures forall k :: k in listing && k != "qty_available" && k != "status" ==> r[k] == listing[k]
  {
    var taken := listing["qty_available" := VInt(listing["qty_available"].i - 1)];
    if IntField(taken, "qty_available", 0) <= 0 then taken["status" := VStr("sold_out")] else taken
  }

  /** `secrets.token_hex(16)` for the sixteen random bytes drawn: 32 lower-case hexadecimal
      digits. */
  function QrToken(random: seq<byte>): (t: string)
    requires |random| == 16
    ensures |t| == 32 && forall i :: 0 <= i < |t| ==> IsHexChar(t[i])
  {
    HexOf(random)
  }

  /** The order a reservation creates: "reserved", for the listing id as given and the
      listing's business. */
  function NewOrder(listingId: string, businessId: Value, userName: string, token: string, createdAt: string): (o: Doc)
    ensures "status" in o && o["status"] == VStr("reserved")
    ensures "listing_id" in o && o["listing_id"] == VStr(listingId)
    ensures "business_id" in o && o["business_id"] == businessId
    ensures "qr_token" in o && o["qr_token"] == VStr(token)
  {
    map[
      "listing_id" := VStr(listingId),
      "business_id" := businessId,
      "user_name" := VStr(userName),
      "status" := VStr("reserved"),
      "qr_token" := VStr(token),
      "created_at" := VStr(createdAt)]
  }

  /** The listing a reservation is for: 400 for an id that does not parse, 409 unless the
      listing is stored, open and has a unit left. */
  function ReserveTarget(listings: map<ObjectId, Doc>, listingId: string): (r: Reply<ObjectId>)
    ensures ParseObjectId(listingId).None? ==> r == Fail(400, "Invalid listing id")
    ensures r.Ok? <==> ParseObjectId(listingId).Some? && ParseObjectId(listingId).value in listings
                        && Reservable(listings[ParseObjectId(listingId).value])
    ensures r.Ok? ==> Some(r.body) == ParseObjectId(listingId)
    ensures r.Fail? && ParseObjectId(listingId).Some? ==> r == Fail(409, "Sold out / unavailable")
  {
    match ParseObjectId(listingId)
    case None => Fail(400, "Invalid listing id")
    case Some(oid) =>
      if oid in listings && Reservable(listings[oid]) then Ok(oid) else Fail(409, "Sold out / unavailable")
  }

  /** `reserve`: a refusal changes nothing; otherwise three writes follow one another with
      nothing between them: one unit is taken, the listing is marked "sold_out" when none is
      left, and a "reserved" order is stored under the fresh id `newId`. `random` is what the
      token generator draws. */
  method Reserve(db: Db, listingId: string, userName: string, random: seq<byte>, createdAt: string, newId: ObjectId)
    returns (r: Reply<Doc>)
    requires |random| == 16 && newId !in db.orders
    modifies db`listings, db`orders
    ensures ReserveTarget(old(db.listings), listingId).Fail? ==>
      var f := ReserveTarget(old(db.listings), listingId);
      r == Fail(f.status, f.detail) && db.listings == old(db.listings) && db.orders == old(db.orders)
    ensures ReserveTarget(old(db.listings), listingId).Ok? ==>
      var oid := ReserveTarget(old(db.listings), listingId).body;
      var order := NewOrder(listingId, Get(old(db.listings)[oid], "business_id"), userName, QrToken(random), createdAt);
      && db.listings == old(db.listings)[oid := AfterReserve(old(db.listings)[oid])]
      && db.orders == old(db.orders)[newId := order]
      && r == Ok(OrderToResponse(newId, order))
  {
    var target := ReserveTarget(db.listings, listingId);
    if target.Fail? {
      return Fail(target.status, target.detail);
    }
    var oid := target.body;
    var listing := db.listings[oid];
    // `$inc` of -1 on the matched listing, then "sold_out" when no unit is left; the
    // business id is read from the listing, which the decrement does not touch
    db.listings := db.listings[oid := AfterReserve(listing)];
    var order := NewOrder(listingId, Get(listing, "business_id"), userName, QrToken(random), createdAt);
    db.orders := db.orders[newId := order];
    r := Ok(OrderToResponse(newId, order));
  }

  /** What `find_one({"qr_token": token})` answers: no order when none carries the token,
      otherwise one that does. */
  predicate TokenLookup(orders: map<ObjectId, Doc>, token: string, hit: Option<ObjectId>) {
    && (hit.None? <==> forall id :: id in orders ==> Get(orders[id], "qr_token") != VStr(token))
    && (hit.Some? ==> hit.value in orders && Get(orders[hit.value], "qr_token") == VStr(token))
  }

  /** The order as the scan reports it once picked up. */
  function MarkPickedUp(order: Doc, now: string): (r: Doc)
    ensures r.Keys == order.Keys + {"status", "picked_up_at"}
    ensures r["status"] == VStr("picked_up") && r["picked_up_at"] == VStr(now)
    ensures forall k :: k in order && k != "status" && k != "picked_up_at" ==> r[k] == order[k]
  {
    order["status" := VStr("picked_up")]["picked_up_at" := VStr(now)]
  }

  /** What a scan stores: the update only applies to a "reserved" order. */
  function StoredAfterScan(order: Doc, now: string): (r: Doc)
    ensures Get(order, "status") == VStr("reserved") ==> r == MarkPickedUp(order, now)
    ensures Get(order, "status") != VStr("reserved") ==> r == order
  {
    if Get(order, "status") == VStr("reserved") then MarkPickedUp(order, now) else order
  }

  /** What a scan answers: an order already picked up is reported as such, unchanged; any
      other is reported picked up now. */
  function ScanReply(id: ObjectId, order: Doc, now: string): (r: PickupScanResponse)
    ensures r.ok
    ensures r.alreadyPickedUp <==> Get(order, "status") == VStr("picked_up")
    ensures r.alreadyPickedUp ==> r.order == Some(OrderToResponse(id, order))
    ensures !r.alreadyPickedUp ==> r.order == Some(OrderToResponse(id, MarkPickedUp(order, now)))
  {
    if Get(order, "status") == VStr("picked_up") then MakePickupScanResponse(None, Some(true), Some(OrderToResponse(id, order)))
    else MakePickupScanResponse(None, Some(false), Some(OrderToResponse(id, MarkPickedUp(order, now))))
  }

  /** `pickup_scan`: 404 for a token no order carries; otherwise the order found
      (`hit`) is answered as `ScanReply` says and stored as `StoredAfterScan` says. */
  method PickupScan(db: Db, token: string, hit: Option<ObjectId>, now: string) returns (r: Reply<PickupScanResponse>)
    requires TokenLookup(db.orders, token, hit)
    modifies db`orders
    ensures hit.None? ==> r == Fail(404, "Invalid or already used code") && db.orders == old(db.orders)
    ensures hit.Some? ==>
      && r == Ok(ScanReply(hit.value, old(db.orders)[hit.value], now))
      && db.orders == old(db.orders)[hit.value := StoredAfterScan(old(db.orders)[hit.value], now)]
  {
    if hit.None? {
      return Fail(404, "Invalid or already used code");
    }
    var id := hit.value;
    var order := db.orders[id];
    if Get(order, "status") == VStr("picked_up") {
      assert old(db.orders)[id := order] == old(db.orders);
      return Ok(MakePickupScanResponse(Some(true), Some(true), Some(OrderToResponse(id, order))));
    }
    var shown := order["status" := VStr("picked_up")]["picked_up_at" := VStr(now)];
    if Get(order, "status") == VStr("reserved") {
      db.orders := db.orders[id := shown];
    } else {
      assert old(db.orders)[id := order] == old(db.orders);
    }
    r := Ok(MakePickupScanResponse(Some(true), Some(false), Some(OrderToResponse(id, shown))));
  }

  /** Scanning is idempotent: a second scan of a reserved order, at any time, stores nothing
      new and answers that the order was already picked up, with the time of the first scan. */
  lemma ScanTwice(id: ObjectId, order: Doc, first: string, second: string)
    requires Get(order, "status") == VStr("reserved")
    ensures StoredAfterScan(StoredAfterScan(order, first), second) == StoredAfterScan(order, first)
    ensures ScanReply(id, StoredAfterScan(order, first), second).alreadyPickedUp
    ensures ScanReply(id, StoredAfterScan(order, first), second).order.value["picked_up_at"] == VStr(first)
  {
    var after := StoredAfterScan(order, first);
    assert Get(after, "status") == VStr("picked_up");
  }

  /** Scanning a canceled order stores nothing, yet answers that it was picked up now. */
  lemma ScanOfCanceledOrder(id: ObjectId, order: Doc, now: string)
    requires Get(order, "status") == VStr("canceled")
    ensures StoredAfterScan(order, now) == order
    ensures !ScanReply(id, order, now).alreadyPickedUp
    ensures ScanReply(id, order, now).order.value["status"] == VStr("picked_up")
  {
  }

  /** The order after a cancellation. */
  function CanceledOrder(order: Doc, now: string): (r: Doc)
    ensures r.Keys == order.Keys + {"status", "canceled_at", "cancel_reason"}
    ensures r["status"] == VStr("canceled") && r["cancel_reason"] == VStr("user_cancel")
    ensures r["canceled_at"] == VStr(now)
    ensures forall k :: k in order && k != "status" && k != "canceled_at" && k != "cancel_reason" ==> r[k] == order[k]
  {
    order["status" := VStr("canceled")]["canceled_at" := VStr(now)]["cancel_reason" := VStr("user_cancel")]
  }

  /** The listing after a restock: `$inc` of `qty_available` by one (a missing field counts
      from 0) and status "open". A stored quantity that is not a number makes the update
      fail as a whole, which the handler ignores. */
  function Restocked(listing: Doc): (r: Doc)
    ensures "qty_available" !in listing ==> r == listing["qty_available" := VInt(1)]["status" := VStr("open")]
    ensures "qty_available" in listing && listing["qty_available"].VInt? ==>
      r == listing["qty_available" := VInt(listing["qty_available"].i + 1)]["status" := VStr("open")]
    ensures "qty_available" in listing && !listing["qty_available"].VInt? && !listing["qty_available"].VReal? ==> r == listing
  {
    if "qty_available" !in listing then listing["qty_available" := VInt(1)]["status" := VStr("open")]
    else match listing["qty_available"]
      case VInt(q) => listing["qty_available" := VInt(q + 1)]["status" := VStr("open")]
      case VReal(q) => listing["qty_available" := VReal(q + 1.0)]["status" := VStr("open")]
      case _ => listing
  }

  /** The listings after a cancellation: the target listing, when there is one and it is
      stored, is restocked; nothing else changes. */
  function RestockListings(listings: map<ObjectId, Doc>, lid: Value): (r: map<ObjectId, Doc>)
    ensures r.Keys == listings.Keys
    ensures forall id :: id in listings && ObjectIdOf(lid) != Some(id) ==> r[id] == listings[id]
    ensures ObjectIdOf(lid).Some? && ObjectIdOf(lid).value in listings ==>
      r[ObjectIdOf(lid).value] == Restocked(listings[ObjectIdOf(lid).value])
  {
    var target := ObjectIdOf(lid);
    if target.Some? && target.value in listings then listings[target.value := Restocked(listings[target.value])]
    else listings
  }

  /** `cancel_order`: 400 for an id that does not parse, 400 unless the order exists and is
      "reserved"; otherwise the order is canceled and its listing restocked. */
  method CancelOrder(db: Db, orderId: string, now: string) returns (r: Reply<Doc>)
    modifies db`orders, db`listings
    ensures ParseObjectId(orderId).None? ==>
      r == Fail(400, "Invalid order id") && db.orders == old(db.orders) && db.listings == old(db.listings)
    ensures ParseObjectId(orderId).Some? ==>
      var oid := ParseObjectId(orderId).value;
      if oid in old(db.orders) && Get(old(db.orders)[oid], "status") == VStr("reserved") then
        var order := old(db.orders)[oid];
        && db.orders == old(db.orders)[oid := CanceledOrder(order, now)]
        && db.listings == RestockListings(old(db.listings), Get(order, "listing_id"))
        && r == Ok(OrderToResponse(oid, CanceledOrder(order, now)))
      else
        r == Fail(400, "Order not found or not reservable") && db.orders == old(db.orders) && db.listings == old(db.listings)
  {
    var oid := ParseObjectId(orderId);
    if oid.None? {
      return Fail(400, "Invalid order id");
    }
    if oid.value !in db.orders || Get(db.orders[oid.value], "status") != VStr("reserved") {
      return Fail(400, "Order not found or not reservable");
    }
    var order := db.orders[oid.value];
    var canceled := CanceledOrder(order, now);
    db.orders := db.orders[oid.value := canceled];
    db.listings := RestockListings(db.listings, Get(order, "listing_id"));
    r := Ok(OrderToResponse(oid.value, canceled));
  }

  /** Reserving a unit and cancelling that order gives the listing back exactly as it was
      (it was open, and is open again with the same quantity). */
  lemma ReserveThenCancel(listings: map<ObjectId, Doc>, listingId: string)
    requires ParseObjectId(listingId).Some? && ParseObjectId(listingId).value in listings
    requires Reservable(listings[ParseObjectId(listingId).value])
    ensures var oid := ParseObjectId(listingId).value;
      RestockListings(listings[oid := AfterReserve(listings[oid])], VStr(listingId)) == listings
  {
    var oid := ParseObjectId(listingId).value;
    var l := listings[oid];
    var back := Restocked(AfterReserve(l));
    assert back == l by {
      assert back.Keys == l.Keys;
    }
  }
}
