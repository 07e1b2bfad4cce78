/** Bag requests in the legacy service (apps/api/app/routes/requests.py): a buyer asks for a
    bag of a listing with free slots, and the request lists for a buyer, a listing and a
    business. */
module LegacyRequests {
  import opened Wrappers
  import opened Bson
  import opened LegacyTables
  import opened LegacyListing
  import opened LegacyPartners

  /** `User.query.get(user_id)`: a user exists for an integer id in the table. */
  function UserOf(users: map<int, User>, v: Value): (u: Option<int>)
    ensures u.Some? <==> v.VInt? && v.i in users
    ensures u.Some? ==> u.value == v.i
  {
    if v.VInt? && v.i in users then Some(v.i) else None
  }

  /** `create_request` as a function of the tables: the reply and the new requests. The
      listing's availability is checked before the body is looked at. */
  function CreateRequestResult(users: map<int, User>, listings: map<int, Row>, requests: seq<Request>, allocations: seq<Allocation>, listingId: int, body: Option<Doc>)
    : (r: Reply<seq<Request>>)
    ensures listingId !in listings ==> r == Fail(404, "Not Found")
    ensures listingId in listings && AvailableQty(listings[listingId], Taken(allocations, listingId)) <= 0 ==> r == Fail(400, "No availability")
    ensures r.Ok? ==> listingId in listings && AvailableQty(listings[listingId], Taken(allocations, listingId)) > 0
    ensures r.Ok? ==> |r.body| == |requests| + 1 && r.body[..|requests|] == requests
    ensures r.Ok? ==> var q := r.body[|requests|];
      q.listingId == listingId && q.status == "pending" && q.userId in users
      && Get(BodyOrEmpty(body), "user_id") == VInt(q.userId)
      && q.paymentMethod == GetOr(BodyOrEmpty(body), "payment_method", VStr("standard"))
  {
    if listingId !in listings then Fail(404, "Not Found")
    else if AvailableQty(listings[listingId], Taken(allocations, listingId)) <= 0 then Fail(400, "No availability")
    else
      var data := BodyOrEmpty(body);
      var userId := Get(data, "user_id");
      if !Truthy(userId) then Fail(400, "user_id required")
      else match UserOf(users, userId)
        case None => Fail(400, "user not found")
        case Some(u) => Ok(requests + [Request(listingId, u, "pending", GetOr(data, "payment_method", VStr("standard")))])
  }

  /** The body is checked in order: a missing (or zero) user id, then an unknown one. */
  lemma CreateRequestRefusals(users: map<int, User>, listings: map<int, Row>, requests: seq<Request>, allocations: seq<Allocation>, listingId: int, body: Option<Doc>)
    requires listingId in listings && AvailableQty(listings[listingId], Taken(allocations, listingId)) > 0
    ensures var v := Get(BodyOrEmpty(body), "user_id");
      var r := CreateRequestResult(users, listings, requests, allocations, listingId, body);
      && (!Truthy(v) ==> r == Fail(400, "user_id required"))
      && (Truthy(v) && !(v.VInt? && v.i in users) ==> r == Fail(400, "user not found"))
      && (v.VInt? && v.i in users && v.i != 0 ==> r.Ok?)
  {
  }

  /** `create_request`: the new request, answered with 201. */
  method CreateRequest(t: Tables, listingId: int, body: Option<Doc>) returns (r: Reply<Request>)
    modifies t`requests
    ensures var expected := CreateRequestResult(t.users, t.listings, old(t.requests), t.allocations, listingId, body);
      && (expected.Fail? ==> r == Fail(expected.status, expected.detail) && t.requests == old(t.requests))
      && (expected.Ok? ==> t.requests == expected.body && r == Ok(t.requests[|t.requests| - 1]))
  {
    if listingId !in t.listings {
      return Fail(404, "Not Found");
    }
    if AvailableQty(t.listings[listingId], Taken(t.allocations, listingId)) <= 0 {
      return Fail(400, "No availability");
    }
    var data := BodyOrEmpty(body);
    var userId := Get(data, "user_id");
    if !Truthy(userId) {
      return Fail(400, "user_id required");
    }
    var user := UserOf(t.users, userId);
    if user.None? {
      return Fail(400, "user not found");
    }
    var req := Request(listingId, user.value, "pending", GetOr(data, "payment_method", VStr("standard")));
    t.requests := t.requests + [req];
    r := Ok(req);
  }

  /** The ids of the requests that satisfy `keep`, in table order. */
  function RequestIds(requests: seq<Request>, keep: Request -> bool): (ids: seq<int>)
    ensures forall id :: id in ids <==> 1 <= id <= |requests| && keep(requests[id - 1])
    ensures forall i :: 0 <= i < |ids| ==> 1 <= ids[i] <= |requests|
    ensures forall i, j :: 0 <= i < j < |ids| ==> ids[i] < ids[j]
  {
    if requests == [] then []
    else
      var init := RequestIds(requests[..|requests| - 1], keep);
      if keep(requests[|requests| - 1]) then init + [|requests|] else init
  }

  /** The ids of the requests that satisfy `keep`, newest first: `order_by(created_at.desc())`.
      A request's `created_at` is its insert time, so a later request (a larger id) sorts
      first. */
  function NewestFirst(requests: seq<Request>, keep: Request -> bool): (ids: seq<int>)
    ensures forall id :: id in ids <==> 1 <= id <= |requests| && keep(requests[id - 1])
    ensures forall i :: 0 <= i < |ids| ==> 1 <= ids[i] <= |requests|
    ensures forall i, j :: 0 <= i < j < |ids| ==> ids[i] > ids[j]
  {
    if requests == [] then []
    else
      var init := NewestFirst(requests[..|requests| - 1], keep);
      if keep(requests[|requests| - 1]) then [|requests|] + init else init
  }

  /** Newest first is table order reversed. */
  lemma {:induction false} NewestFirstReversesTableOrder(requests: seq<Request>, keep: Request -> bool)
    ensures var n := NewestFirst(requests, keep);
      var t := RequestIds(requests, keep);
      |n| == |t| && forall i :: 0 <= i < |n| ==> n[i] == t[|t| - 1 - i]
  {
    if requests != [] {
      NewestFirstReversesTableOrder(requests[..|requests| - 1], keep);
    }
  }

  /** A query parameter read with `type=int`: absent, unparseable or zero is missing. */
  predicate Missing(id: Option<int>) {
    id.None? || id.value == 0
  }

  /** `get_orders`: a buyer's requests; the buyer's id is required. */
  function GetOrders(requests: seq<Request>, userId: Option<int>): (r: Reply<seq<int>>)
    ensures r.Fail? <==> Missing(userId)
    ensures r.Fail? ==> r == Fail(400, "user_id required")
    ensures r.Ok? ==> forall id :: id in r.body <==> 1 <= id <= |requests| && requests[id - 1].userId == userId.value
    ensures r.Ok? ==> forall i, j :: 0 <= i < j < |r.body| ==> r.body[i] > r.body[j]
  {
    if Missing(userId) then Fail(400, "user_id required")
    else Ok(NewestFirst(requests, (q: Request) => q.userId == userId.value))
  }

  /** `listing_requests`: every request on one listing. */
  function ListingRequests(requests: seq<Request>, listingId: int): (ids: seq<int>)
    ensures forall id :: id in ids <==> 1 <= id <= |requests| && requests[id - 1].listingId == listingId
    ensures forall i, j :: 0 <= i < j < |ids| ==> ids[i] < ids[j]
  {
    RequestIds(requests, (q: Request) => q.listingId == listingId)
  }

  /** `list_requests`: the requests on a business's listings; the business id is required. */
  function ListRequests(requests: seq<Request>, listings: map<int, Row>, businessId: Option<int>): (r: Reply<seq<int>>)
    ensures r.Fail? <==> Missing(businessId)
    ensures r.Fail? ==> r == Fail(400, "business_id required")
    ensures r.Ok? ==> forall id :: id in r.body <==>
      1 <= id <= |requests| && requests[id - 1].listingId in listings
      && IntCol(listings[requests[id - 1].listingId], BusinessId) == businessId.value
    ensures r.Ok? ==> forall i, j :: 0 <= i < j < |r.body| ==> r.body[i] > r.body[j]
  {
    if Missing(businessId) then Fail(400, "business_id required")
    else Ok(NewestFirst(requests, (q: Request) => q.listingId in listings && IntCol(listings[q.listingId], BusinessId) == businessId.value))
  }
}
