/** The allocation endpoints of the legacy service (apps/api/app/routes/allocations.py): a
    business runs the weighted lottery on a listing and every winner's pending request becomes
    an allocation; and the allocations on a business's listings. The QR token the database
    gives a new allocation is the input `token`, applied to the allocation's id. */
module LegacyAllocations {
  import opened Wrappers
  import opened LegacyTables
  import opened LegacyListing
  import opened AllocationService

  /** `Request.query.filter_by(listing_id, user_id, status="pending").first()`: the first
      pending request of the user on the listing, by position. */
  function FirstPending(requests: seq<Request>, listingId: int, userId: int): (j: Option<nat>)
    ensures j.Some? ==> j.value < |requests| && IsPendingFor(requests[j.value], listingId, userId)
    ensures j.Some? ==> forall k :: 0 <= k < j.value ==> !IsPendingFor(requests[k], listingId, userId)
    ensures j.None? ==> forall k :: 0 <= k < |requests| ==> !IsPendingFor(requests[k], listingId, userId)
  {
    if requests == [] then None
    else if IsPendingFor(requests[0], listingId, userId) then Some(0)
    else match FirstPending(requests[1..], listingId, userId)
      case Some(j) => Some(j + 1)
      case None => None
  }

  /** The first pending request depends only on which positions hold one. */
  lemma FirstPendingSame(a: seq<Request>, b: seq<Request>, listingId: int, userId: int)
    requires |a| == |b|
    requires forall k :: 0 <= k < |a| ==> (IsPendingFor(a[k], listingId, userId) <==> IsPendingFor(b[k], listingId, userId))
    ensures FirstPending(a, listingId, userId) == FirstPending(b, listingId, userId)
  {
  }

  /** A pending request of a candidate is there to be found. */
  lemma CandidateHasRequest(requests: seq<Request>, users: map<int, User>, listingId: int, userId: int)
    requires exists c :: c in PendingFor(requests, users, listingId) && c.userId == userId
    ensures FirstPending(requests, listingId, userId).Some?
  {
    PendingForSound(requests, users, listingId);
    var c :| c in PendingFor(requests, users, listingId) && c.userId == userId;
    var k :| 0 <= k < |requests| && IsPendingFor(requests[k], listingId, c.userId);
  }

  /** The tables a winner leaves behind: their first pending request on the listing is
      marked "allocated" and gets an allocation, not yet picked up; a winner without one is
      skipped. */
  function AllocateOne(requests: seq<Request>, allocations: seq<Allocation>, listingId: int, userId: int, token: int -> string)
    : (r: (seq<Request>, seq<Allocation>))
    ensures |r.0| == |requests|
  {
    match FirstPending(requests, listingId, userId)
    case None => (requests, allocations)
    case Some(j) =>
      (requests[j := requests[j].(status := "allocated")],
       allocations + [Allocation(listingId, userId, Some(j + 1), "allocated", token(|allocations| + 1), false, None)])
  }

  /** The tables after every winner in turn. */
  function AllocateAll(requests: seq<Request>, allocations: seq<Allocation>, listingId: int, winners: seq<int>, token: int -> string)
    : (r: (seq<Request>, seq<Allocation>))
    ensures |r.0| == |requests|
  {
    if winners == [] then (requests, allocations)
    else
      var s := AllocateAll(requests, allocations, listingId, winners[..|winners| - 1], token);
      AllocateOne(s.0, s.1, listingId, winners[|winners| - 1], token)
  }

  /** A made allocation: on the listing, "allocated", not picked up, linked to a request
      that is now "allocated" and belongs to the same user. */
  predicate Made(a: Allocation, requests: seq<Request>, listingId: int) {
    && a.listingId == listingId && a.status == "allocated" && !a.pickedUp && a.pickedUpAt.None?
    && a.requestId.Some? && 1 <= a.requestId.value <= |requests|
    && requests[a.requestId.value - 1].status == "allocated"
    && requests[a.requestId.value - 1].userId == a.userId
    && requests[a.requestId.value - 1].listingId == listingId
  }

  /** Allocation only appends allocations, each made for a winner, at most one per winner;
      requests change only from "pending" to "allocated", and keep their user and listing. */
  lemma {:induction false} AllocateAllShape(requests: seq<Request>, allocations: seq<Allocation>, listingId: int, winners: seq<int>, token: int -> string)
    ensures var r := AllocateAll(requests, allocations, listingId, winners, token);
      && |allocations| <= |r.1| <= |allocations| + |winners|
      && r.1[..|allocations|] == allocations
      && (forall i :: |allocations| <= i < |r.1| ==> Made(r.1[i], r.0, listingId) && r.1[i].userId in winners)
      && (forall k :: 0 <= k < |requests| ==>
            r.0[k].userId == requests[k].userId && r.0[k].listingId == requests[k].listingId
            && r.0[k].paymentMethod == requests[k].paymentMethod
            && (r.0[k].status == requests[k].status || (requests[k].status == "pending" && r.0[k].status == "allocated")))
  {
    if winners != [] {
      var init := winners[..|winners| - 1];
      var u := winners[|winners| - 1];
      AllocateAllShape(requests, allocations, listingId, init, token);
      var s := AllocateAll(requests, allocations, listingId, init, token);
      var r := AllocateAll(requests, allocations, listingId, winners, token);
      assert r == AllocateOne(s.0, s.1, listingId, u, token);
      match FirstPending(s.0, listingId, u)
      case None =>
        assert forall w :: w in init ==> w in winners;
      case Some(j) =>
        assert r.1[..|s.1|] == s.1;
        forall i | |allocations| <= i < |r.1| ensures Made(r.1[i], r.0, listingId) && r.1[i].userId in winners {
          if i < |s.1| {
            assert r.1[i] == s.1[i] && Made(s.1[i], s.0, listingId) && s.1[i].userId in init;
            var q := s.1[i].requestId.value - 1;
            assert q != j;
          }
        }
    }
  }

  /** Allocating for the winners leaves every other user's pending requests as they were. */
  lemma {:induction false} AllocateAllKeepsOthers(requests: seq<Request>, allocations: seq<Allocation>, listingId: int, winners: seq<int>, token: int -> string, v: int)
    requires v !in winners
    ensures var r := AllocateAll(requests, allocations, listingId, winners, token);
      forall k :: 0 <= k < |requests| ==> (IsPendingFor(r.0[k], listingId, v) <==> IsPendingFor(requests[k], listingId, v))
  {
    if winners != [] {
      AllocateAllKeepsOthers(requests, allocations, listingId, winners[..|winners| - 1], token, v);
    }
  }

  /** Every winner drawn from the pending requests, each once, gets an allocation: the skip
      for a winner without a pending request never happens. */
  lemma {:induction false} EveryWinnerAllocated(requests: seq<Request>, allocations: seq<Allocation>, listingId: int, winners: seq<int>, token: int -> string)
    requires forall i, j :: 0 <= i < j < |winners| ==> winners[i] != winners[j]
    requires forall u :: u in winners ==> FirstPending(requests, listingId, u).Some?
    ensures |AllocateAll(requests, allocations, listingId, winners, token).1| == |allocations| + |winners|
  {
    if winners != [] {
      var init := winners[..|winners| - 1];
      var u := winners[|winners| - 1];
      EveryWinnerAllocated(requests, allocations, listingId, init, token);
      var s := AllocateAll(requests, allocations, listingId, init, token);
      assert u !in init;
      AllocateAllKeepsOthers(requests, allocations, listingId, init, token, u);
      FirstPendingSame(s.0, requests, listingId, u);
    }
  }

  /** The lottery's winners for the listing in the current tables. */
  function Winners(t_requests: seq<Request>, users: map<int, User>, allocations: seq<Allocation>, row: Row, listingId: int, draw: nat -> nat): seq<int> {
    Lottery(PendingFor(t_requests, users, listingId), AvailableQty(row, Taken(allocations, listingId)), draw)
  }

  /** No overbooking: a run on a listing with free slots gives every winner an allocation,
      and the listing never ends up with more allocations than its public share. */
  lemma AllocationWithinShare(requests: seq<Request>, users: map<int, User>, allocations: seq<Allocation>, row: Row, listingId: int, draw: nat -> nat, token: int -> string)
    requires AvailableQty(row, Taken(allocations, listingId)) > 0
    ensures var w := Winners(requests, users, allocations, row, listingId, draw);
      var r := AllocateAll(requests, allocations, listingId, w, token);
      && |r.1| == |allocations| + |w|
      && Taken(r.1, listingId) == Taken(allocations, listingId) + |w|
      && Taken(r.1, listingId) <= IntCol(row, PublicQty)
  {
    var cs := PendingFor(requests, users, listingId);
    var slots := AvailableQty(row, Taken(allocations, listingId));
    var w := Winners(requests, users, allocations, row, listingId, draw);
    LotteryBounds(cs, slots, draw);
    forall u | u in w ensures FirstPending(requests, listingId, u).Some? {
      CandidateHasRequest(requests, users, listingId, u);
    }
    EveryWinnerAllocated(requests, allocations, listingId, w, token);
    AllocateAllShape(requests, allocations, listingId, w, token);
    var r := AllocateAll(requests, allocations, listingId, w, token);
    var added := r.1[|allocations|..];
    assert r.1 == allocations + added;
    assert forall a :: a in added ==> a.listingId == listingId by {
      forall a | a in added ensures a.listingId == listingId {
        var i :| 0 <= i < |added| && added[i] == a;
        assert r.1[|allocations| + i] == a;
      }
    }
    TakenAppend(allocations, added, listingId);
    TakenAll(added, listingId);
  }

  /** The reply of `allocate`: the number of allocations made and the allocations. */
  datatype Allocated = Allocated(count: nat, allocations: seq<Allocation>)

  /** `allocate`. */
  method Allocate(t: Tables, listingId: int, draw: nat -> nat, token: int -> string) returns (r: Reply<Allocated>)
    requires t.Valid()
    modifies t`requests, t`allocations
    ensures listingId !in t.listings ==> r == Fail(404, "Not Found")
    ensures listingId in t.listings && AvailableQty(t.listings[listingId], Taken(old(t.allocations), listingId)) <= 0 ==>
      r == Fail(400, "No slots available")
    ensures r.Fail? <==> (listingId !in t.listings
      || AvailableQty(t.listings[listingId], Taken(old(t.allocations), listingId)) <= 0)
    ensures r.Fail? ==> t.requests == old(t.requests) && t.allocations == old(t.allocations)
    ensures r.Ok? ==> (listingId in t.listings && (t.requests, t.allocations) ==
      AllocateAll(old(t.requests), old(t.allocations), listingId,
                  Winners(old(t.requests), t.users, old(t.allocations), t.listings[listingId], listingId, draw), token))
    ensures r.Ok? ==> r.body.count == |r.body.allocations| && t.allocations == old(t.allocations) + r.body.allocations
    ensures t.Valid()
  {
    if listingId !in t.listings {
      return Fail(404, "Not Found");
    }
    var slots := AvailableQty(t.listings[listingId], Taken(t.allocations, listingId));
    if slots <= 0 {
      return Fail(400, "No slots available");
    }
    var cs := PendingFor(t.requests, t.users, listingId);
    PendingForSound(t.requests, t.users, listingId);
    var selected := WeightedLottery(cs, slots, draw);
    ghost var allocations0 := t.allocations;
    var before := |t.allocations|;
    AllocateWinners(t, listingId, selected, token);
    AllocateAllAppends(old(t.requests), allocations0, listingId, selected, token);
    var created := t.allocations[before..];
    assert t.allocations == allocations0 + created;
    return Ok(Allocated(|created|, created));
  }

  /** The loop of `allocate` over the winners. */
  method AllocateWinners(t: Tables, listingId: int, selected: seq<int>, token: int -> string)
    modifies t`requests, t`allocations
    ensures (t.requests, t.allocations) == AllocateAll(old(t.requests), old(t.allocations), listingId, selected, token)
  {
    var i := 0;
    while i < |selected|
      invariant 0 <= i <= |selected|
      invariant (t.requests, t.allocations) == AllocateAll(old(t.requests), old(t.allocations), listingId, selected[..i], token)
    {
      assert selected[..i + 1][..i] == selected[..i];
      AllocateWinner(t, listingId, selected[i], token);
      i := i + 1;
    }
    assert selected[..i] == selected;
  }

  /** Allocation keeps the existing allocations as a prefix. */
  lemma AllocateAllAppends(requests: seq<Request>, allocations: seq<Allocation>, listingId: int, winners: seq<int>, token: int -> string)
    ensures var r := AllocateAll(requests, allocations, listingId, winners, token);
      |allocations| <= |r.1| && r.1[..|allocations|] == allocations
  {
    AllocateAllShape(requests, allocations, listingId, winners, token);
  }

  /** One winner of the loop in `allocate`: their first pending request on the listing is
      marked "allocated" and an allocation row is added for it. */
  method AllocateWinner(t: Tables, listingId: int, userId: int, token: int -> string)
    modifies t`requests, t`allocations
    ensures (t.requests, t.allocations) == AllocateOne(old(t.requests), old(t.allocations), listingId, userId, token)
  {
    var found := FirstPending(t.requests, listingId, userId);
    if found.Some? {
      var j := found.value;
      t.allocations := t.allocations + [Allocation(listingId, userId, Some(j + 1), "allocated", token(|t.allocations| + 1), false, None)];
      t.requests := t.requests[j := t.requests[j].(status := "allocated")];
    }
  }

  /** The allocations on the listings of one business, by id. */
  function OwnedAllocations(allocations: seq<Allocation>, listings: map<int, Row>, businessId: int): (ids: seq<int>)
    ensures forall id :: id in ids <==>
      (1 <= id <= |allocations| && allocations[id - 1].listingId in listings
       && IntCol(listings[allocations[id - 1].listingId], BusinessId) == businessId)
  {
    if allocations == [] then []
    else
      var init := OwnedAllocations(allocations[..|allocations| - 1], listings, businessId);
      var a := allocations[|allocations| - 1];
      if a.listingId in listings && IntCol(listings[a.listingId], BusinessId) == businessId
      then init + [|allocations|] else init
  }

  /** `list_allocations`: the business id is required, and 0 counts as missing. */
  function ListAllocations(allocations: seq<Allocation>, listings: map<int, Row>, businessId: Option<int>): (r: Reply<seq<int>>)
    ensures r.Fail? <==> businessId.None? || businessId.value == 0
    ensures r.Fail? ==> r == Fail(400, "business_id required")
    ensures r.Ok? ==> r.body == OwnedAllocations(allocations, listings, businessId.value)
  {
    match businessId
    case Some(b) => if b == 0 then Fail(400, "business_id required") else Ok(OwnedAllocations(allocations, listings, b))
    case None => Fail(400, "business_id required")
  }
}
