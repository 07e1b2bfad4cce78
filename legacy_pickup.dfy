/** The pickup scan of the legacy service (apps/api/app/routes/pickup.py): the QR token of an
    allocation confirms the pickup once and counts it towards the user's recent pickups. A
    second scan of the same token is refused. The clock is the input `now`. */
module LegacyPickup {
  import opened Wrappers
  import opened Bson
  import opened LegacyTables
  import opened LegacyPartners

  /** `Allocation.query.filter_by(qr_token=token).first()`: the first allocation holding the
      token, by position. */
  function WithToken(allocations: seq<Allocation>, token: Value): (i: Option<nat>)
    ensures i.Some? ==> i.value < |allocations| && token == VStr(allocations[i.value].qrToken)
    ensures i.Some? ==> forall k :: 0 <= k < i.value ==> token != VStr(allocations[k].qrToken)
    ensures i.None? ==> forall k :: 0 <= k < |allocations| ==> token != VStr(allocations[k].qrToken)
  {
    if allocations == [] then None
    else if token == VStr(allocations[0].qrToken) then Some(0)
    else match WithToken(allocations[1..], token)
      case Some(i) => Some(i + 1)
      case None => None
  }

  /** The first allocation holding a token depends only on the tokens. */
  lemma WithTokenSame(a: seq<Allocation>, b: seq<Allocation>, token: Value)
    requires |a| == |b| && forall k :: 0 <= k < |a| ==> a[k].qrToken == b[k].qrToken
    ensures WithToken(a, token) == WithToken(b, token)
  {
  }

  /** The allocation marked as collected at `now`. */
  function PickedUp(a: Allocation, now: string): (b: Allocation)
    ensures b.pickedUp && b.status == "picked_up" && b.pickedUpAt == Some(now)
    ensures b.listingId == a.listingId && b.userId == a.userId && b.requestId == a.requestId && b.qrToken == a.qrToken
  {
    a.(pickedUp := true, pickedUpAt := Some(now), status := "picked_up")
  }

  /** The user with one more recent pickup, a missing count reading as zero. */
  function CountPickup(u: User): (v: User)
    ensures v.pickups == Some(u.pickups.GetOr(0) + 1)
    ensures v.email == u.email && v.role == u.role && v.businessName == u.businessName
  {
    u.(pickups := Some(u.pickups.GetOr(0) + 1))
  }

  /** What a scan leaves behind: the reply (the index of the allocation collected), the
      users and the allocations. */
  datatype ScanOutcome = ScanOutcome(reply: Reply<nat>, users: map<int, User>, allocations: seq<Allocation>)

  /** `scan` as a function of the tables. */
  function ScanResult(users: map<int, User>, allocations: seq<Allocation>, body: Option<Doc>, now: string): (o: ScanOutcome)
    ensures o.reply.Fail? ==> o.users == users && o.allocations == allocations
    ensures o.users.Keys == users.Keys && |o.allocations| == |allocations|
  {
    var token := Get(BodyOrEmpty(body), "qr_token");
    if !Truthy(token) then ScanOutcome(Fail(400, "qr_token required"), users, allocations)
    else match WithToken(allocations, token)
      case None => ScanOutcome(Fail(404, "Invalid or already used code"), users, allocations)
      case Some(i) =>
        if allocations[i].pickedUp then ScanOutcome(Fail(400, "Already picked up"), users, allocations)
        else
          var uid := allocations[i].userId;
          var users' := if uid in users then users[uid := CountPickup(users[uid])] else users;
          ScanOutcome(Ok(i), users', allocations[i := PickedUp(allocations[i], now)])
  }

  /** A successful scan collects the allocation holding the token, which was not collected
      before; it raises its user's recent pickups by exactly one and changes no other user
      and no other allocation. */
  lemma ScanCollectsOnce(users: map<int, User>, allocations: seq<Allocation>, body: Option<Doc>, now: string)
    ensures var o := ScanResult(users, allocations, body, now);
      o.reply.Ok? ==>
        var i := o.reply.body;
        && i < |allocations| && !allocations[i].pickedUp
        && Get(BodyOrEmpty(body), "qr_token") == VStr(allocations[i].qrToken)
        && o.allocations == allocations[i := PickedUp(allocations[i], now)]
        && (allocations[i].userId in users ==>
              o.users[allocations[i].userId].pickups == Some(users[allocations[i].userId].pickups.GetOr(0) + 1))
        && (forall id :: id in users && id != allocations[i].userId ==> o.users[id] == users[id])
  {
  }

  /** The scan is not idempotent: scanning the same code again right after a successful
      scan is refused as already picked up, and changes nothing. */
  lemma ScanTwiceRefused(users: map<int, User>, allocations: seq<Allocation>, body: Option<Doc>, now: string, later: string)
    requires ScanResult(users, allocations, body, now).reply.Ok?
    ensures var o := ScanResult(users, allocations, body, now);
      var o2 := ScanResult(o.users, o.allocations, body, later);
      o2 == ScanOutcome(Fail(400, "Already picked up"), o.users, o.allocations)
  {
    var o := ScanResult(users, allocations, body, now);
    var i := o.reply.body;
    WithTokenSame(allocations, o.allocations, Get(BodyOrEmpty(body), "qr_token"));
  }

  /** A scan keeps every user's pickup count non-negative. */
  lemma ScanKeepsUsersValid(users: map<int, User>, allocations: seq<Allocation>, body: Option<Doc>, now: string)
    requires UsersValid(users)
    ensures UsersValid(ScanResult(users, allocations, body, now).users)
  {
  }

  /** `scan`. */
  method Scan(t: Tables, body: Option<Doc>, now: string) returns (r: Reply<Allocation>)
    requires t.Valid()
    modifies t`users, t`allocations
    ensures var o := ScanResult(old(t.users), old(t.allocations), body, now);
      && t.users == o.users && t.allocations == o.allocations
      && (o.reply.Fail? ==> r == Fail(o.reply.status, o.reply.detail))
      && (o.reply.Ok? ==> r == Ok(t.allocations[o.reply.body]))
    ensures t.Valid()
  {
    var data := BodyOrEmpty(body);
    var token := Get(data, "qr_token");
    if !Truthy(token) {
      return Fail(400, "qr_token required");
    }
    var found := WithToken(t.allocations, token);
    if found.None? {
      return Fail(404, "Invalid or already used code");
    }
    var i := found.value;
    if t.allocations[i].pickedUp {
      return Fail(400, "Already picked up");
    }
    t.allocations := t.allocations[i := PickedUp(t.allocations[i], now)];
    var uid := t.allocations[i].userId;
    if uid in t.users {
      t.users := t.users[uid := CountPickup(t.users[uid])];
    }
    ScanKeepsUsersValid(old(t.users), old(t.allocations), body, now);
    r := Ok(t.allocations[i]);
  }
}
