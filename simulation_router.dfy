/** The simulation feed (apps/api/routers/simulation.py): the listings that carry a donation
    plan, and every food bank their plans name with the units it is due to receive. */
module SimulationRouter {
  import opened Wrappers
  import opened Bson

  /** The most listings the feed reads. */
  const FeedLimit: int := 200

  /** `_serialize` of a stored document: `_id` becomes the string field "id". */
  function Serialize(id: ObjectId, doc: Doc): (r: Doc)
    ensures r.Keys == doc.Keys - {"_id"} + {"id"}
    ensures r["id"] == VStr(IdString(id))
    ensures forall k :: k in doc && k != "_id" && k != "id" ==> r[k] == doc[k]
  {
    (doc - {"_id"})["id" := VStr(IdString(id))]
  }

  /** A stored document without "_id" or "id" fields is its serialized form without "id". */
  lemma SerializeRoundTrip(id: ObjectId, doc: Doc)
    requires "_id" !in doc && "id" !in doc
    ensures Serialize(id, doc) - {"id"} == doc
  {
    assert (Serialize(id, doc) - {"id"}).Keys == doc.Keys;
  }

  /** A listing the feed shows: its donation mode is planned, pending or assigned. */
  predicate InSimulation(doc: Doc) {
    Get(doc, "donation_mode") in {VStr("planned"), VStr("pending"), VStr("assigned")}
  }

  /** What `find` with the donation-mode filter and a limit of 200 answers: stored listings
      in the feed, each at most once, and all of them unless the limit was reached. */
  predicate ListingsAnswer(listings: map<ObjectId, Doc>, found: seq<(ObjectId, Doc)>) {
    && |found| <= FeedLimit
    && (forall i :: 0 <= i < |found| ==> found[i].0 in listings && listings[found[i].0] == found[i].1 && InSimulation(found[i].1))
    && (forall i, j :: 0 <= i < j < |found| ==> found[i].0 != found[j].0)
    && (|found| < FeedLimit ==> forall id :: id in listings && InSimulation(listings[id]) ==>
          exists i :: 0 <= i < |found| && found[i].0 == id)
  }

  /** The plan entries of a listing: `donation_plan`, or none when it is missing. */
  function PlanEntries(doc: Doc): (r: seq<Value>)
    ensures "donation_plan" !in doc ==> r == []
    ensures "donation_plan" in doc && doc["donation_plan"].VList? ==> r == doc["donation_plan"].items
  {
    match GetOr(doc, "donation_plan", VList([]))
    case VList(items) => items
    case _ => []
  }

  /** A plan the handler can walk: a list of objects whose quantities are integers. */
  predicate PlanShaped(doc: Doc) {
    && ("donation_plan" in doc ==> doc["donation_plan"].VList?)
    && forall e :: e in PlanEntries(doc) ==> e.VObj? && ("qty" in e.fields ==> e.fields["qty"].VInt?)
  }

  /** The food bank an entry names, and the units it carries (0 when it gives none). */
  function EntryRef(e: Value): Value requires e.VObj? { Get(e.fields, "food_bank_id") }
  function EntryQty(e: Value): int requires e.VObj? { IntField(e.fields, "qty", 0) }

  /** The ids of the food banks the plans of `found` name, each converted as `ObjectId(fid)`
      would be; a falsy or unparsable reference names none. */
  function Referenced(found: seq<(ObjectId, Doc)>): set<ObjectId> {
    set i, j | 0 <= i < |found| && 0 <= j < |PlanEntries(found[i].1)|
                && PlanEntries(found[i].1)[j].VObj? && ObjectIdOf(EntryRef(PlanEntries(found[i].1)[j])).Some?
      :: ObjectIdOf(EntryRef(PlanEntries(found[i].1)[j])).value
  }

  /** What `find({"_id": {"$in": oids}})` answers: stored food banks among the referenced
      ones, each at most once, and all of them. */
  predicate BanksAnswer(foodBanks: map<ObjectId, Doc>, referenced: set<ObjectId>, banks: seq<(ObjectId, Doc)>) {
    && (forall i :: 0 <= i < |banks| ==> banks[i].0 in foodBanks && foodBanks[banks[i].0] == banks[i].1 && banks[i].0 in referenced)
    && (forall i, j :: 0 <= i < j < |banks| ==> banks[i].0 != banks[j].0)
    && (forall id :: id in foodBanks && id in referenced ==> exists i :: 0 <= i < |banks| && banks[i].0 == id)
  }

  /** The units one entry sends to the food bank whose id prints as `key`: its quantity when
      it names that bank by exactly that string, else nothing. */
  function EntryIncoming(e: Value, key: string): int
    requires e.VObj?
  {
    if EntryRef(e) == VStr(key) && key != "" then EntryQty(e) else 0
  }

  /** The units a plan sends to `key`, summed front to back. */
  function PlanIncoming(entries: seq<Value>, key: string): (n: int)
    requires forall e :: e in entries ==> e.VObj?
    ensures (forall e :: e in entries ==> EntryRef(e) != VStr(key)) ==> n == 0
  {
    if entries == [] then 0
    else PlanIncoming(entries[..|entries| - 1], key) + EntryIncoming(entries[|entries| - 1], key)
  }

  predicate AllShaped(found: seq<(ObjectId, Doc)>) {
    forall i :: 0 <= i < |found| ==> PlanShaped(found[i].1)
  }

  /** The units all plans of `found` send to `key`. */
  function Incoming(found: seq<(ObjectId, Doc)>, key: string): (n: int)
    requires AllShaped(found)
  {
    if found == [] then 0
    else Incoming(found[..|found| - 1], key) + PlanIncoming(PlanEntries(found[|found| - 1].1), key)
  }

  /** A plan's units split over any cut of its entries. */
  lemma {:induction false} PlanIncomingAppend(a: seq<Value>, b: seq<Value>, key: string)
    requires forall e :: e in a + b ==> e.VObj?
    ensures PlanIncoming(a + b, key) == PlanIncoming(a, key) + PlanIncoming(b, key)
    decreases |b|
  {
    if b == [] {
      assert a + b == a;
    } else {
      var b' := b[..|b| - 1];
      assert (a + b)[..|a + b| - 1] == a + b';
      PlanIncomingAppend(a, b', key);
    }
  }

  /** The units sent to a bank split over any cut of the listings: the total does not depend
      on how the listings are grouped. */
  lemma {:induction false} IncomingAppend(a: seq<(ObjectId, Doc)>, b: seq<(ObjectId, Doc)>, key: string)
    requires AllShaped(a) && AllShaped(b)
    ensures AllShaped(a + b)
    ensures Incoming(a + b, key) == Incoming(a, key) + Incoming(b, key)
    decreases |b|
  {
    assert forall i :: 0 <= i < |a + b| ==> (a + b)[i] == if i < |a| then a[i] else b[i - |a|];
    if b == [] {
      assert a + b == a;
    } else {
      var b' := b[..|b| - 1];
      assert (a + b)[..|a + b| - 1] == a + b';
      IncomingAppend(a, b', key);
    }
  }

  /** All the units the plans of `found` carry. */
  function PlannedUnits(found: seq<(ObjectId, Doc)>): int
    requires AllShaped(found)
  {
    if found == [] then 0
    else PlannedUnits(found[..|found| - 1]) + SumQty(PlanEntries(found[|found| - 1].1))
  }

  function SumQty(entries: seq<Value>): int
    requires forall e :: e in entries ==> e.VObj?
  {
    if entries == [] then 0 else SumQty(entries[..|entries| - 1]) + EntryQty(entries[|entries| - 1])
  }

  predicate NonNegativeQty(found: seq<(ObjectId, Doc)>) {
    forall i, e :: 0 <= i < |found| && e in PlanEntries(found[i].1) && e.VObj? ==> EntryQty(e) >= 0
  }

  /** With non-negative quantities, a bank receives no more than all the units planned. */
  lemma {:induction false} PlanIncomingBounded(entries: seq<Value>, key: string)
    requires forall e :: e in entries ==> e.VObj? && EntryQty(e) >= 0
    ensures 0 <= PlanIncoming(entries, key) <= SumQty(entries)
  {
    if entries != [] {
      PlanIncomingBounded(entries[..|entries| - 1], key);
    }
  }

  lemma {:induction false} IncomingBounded(found: seq<(ObjectId, Doc)>, key: string)
    requires AllShaped(found) && NonNegativeQty(found)
    ensures 0 <= Incoming(found, key) <= PlannedUnits(found)
  {
    if found != [] {
      var init := found[..|found| - 1];
      assert NonNegativeQty(init) by {
        forall i, e | 0 <= i < |init| && e in PlanEntries(init[i].1) && e.VObj? ensures EntryQty(e) >= 0 {
          assert init[i] == found[i];
        }
      }
      IncomingBounded(init, key);
      PlanIncomingBounded(PlanEntries(found[|found| - 1].1), key);
    }
  }

  /** A listing as the feed shows it: the fields the map needs, with their defaults. */
  function FeedListing(id: ObjectId, doc: Doc): Doc
  {
    var d := Serialize(id, doc);
    map[
      "id" := d["id"],
      "title" := GetOr(d, "title", VStr("")),
      "business_name" := GetOr(d, "business_name", VStr("")),
      "location" := Get(d, "location"),
      "qty_available" := GetOr(d, "qty_available", VInt(0)),
      "donate_percent" := GetOr(d, "donate_percent", VInt(0)),
      "donation_plan" := GetOr(d, "donation_plan", VList([]))]
  }

  /** The feed form has exactly the seven fields the map reads: the id as a string, and the
      stored quantity, percentage, plan and location with their defaults. */
  lemma FeedListingFields(id: ObjectId, doc: Doc)
    ensures var r := FeedListing(id, doc);
      r.Keys == {"id", "title", "business_name", "location", "qty_available", "donate_percent", "donation_plan"}
      && r["id"] == VStr(IdString(id))
      && r["qty_available"] == GetOr(doc, "qty_available", VInt(0))
      && r["donate_percent"] == GetOr(doc, "donate_percent", VInt(0))
      && r["donation_plan"] == GetOr(doc, "donation_plan", VList([]))
      && r["location"] == Get(doc, "location")
  {
  }

  /** A food bank as the feed shows it: serialized, with the units due to it. */
  function FeedBank(bank: (ObjectId, Doc), found: seq<(ObjectId, Doc)>): Doc
    requires AllShaped(found)
  {
    Serialize(bank.0, bank.1)["total_incoming" := VInt(Incoming(found, IdString(bank.0)))]
  }

  /** The inner loop over one plan: each entry that names a fetched bank by its id string
      adds its quantity to that bank's total. */
  method AddPlan(totals: map<string, int>, entries: seq<Value>) returns (after: map<string, int>)
    requires forall e :: e in entries ==> e.VObj?
    ensures after.Keys == totals.Keys
    ensures forall k :: k in totals ==> after[k] == totals[k] + PlanIncoming(entries, k)
  {
    after := totals;
    var j := 0;
    while j < |entries|
      invariant 0 <= j <= |entries|
      invariant after.Keys == totals.Keys
      invariant forall k :: k in totals ==> after[k] == totals[k] + PlanIncoming(entries[..j], k)
    {
      var e := entries[j];
      assert entries[..j + 1][..j] == entries[..j];
      var fid := Get(e.fields, "food_bank_id");
      if Truthy(fid) && fid.VStr? && fid.s in after {
        after := after[fid.s := after[fid.s] + IntField(e.fields, "qty", 0)];
      }
      j := j + 1;
    }
    assert entries[..j] == entries;
  }

  /** `food_banks_by_id`: every fetched bank serialized under its id string, each with a
      running total of 0. */
  method IndexBanks(banks: seq<(ObjectId, Doc)>) returns (byId: map<string, Doc>, totals: map<string, int>)
    requires forall i :: 0 <= i < |banks| ==> WellFormed(banks[i].0)
    requires forall i, j :: 0 <= i < j < |banks| ==> banks[i].0 != banks[j].0
    ensures totals.Keys == byId.Keys
    ensures forall i :: 0 <= i < |banks| ==> IdString(banks[i].0) in byId && byId[IdString(banks[i].0)] == Serialize(banks[i].0, banks[i].1)
    ensures forall k :: k in totals ==> totals[k] == 0
  {
    byId := map[];
    totals := map[];
    var b := 0;
    while b < |banks|
      invariant 0 <= b <= |banks|
      invariant totals.Keys == byId.Keys
      invariant forall i :: 0 <= i < b ==> IdString(banks[i].0) in byId && byId[IdString(banks[i].0)] == Serialize(banks[i].0, banks[i].1)
      invariant forall k :: k in totals ==> totals[k] == 0
    {
      forall i | 0 <= i < b ensures IdString(banks[i].0) != IdString(banks[b].0) {
        if IdString(banks[i].0) == IdString(banks[b].0) {
          IdStringInjective(banks[i].0, banks[b].0);
        }
      }
      byId := byId[IdString(banks[b].0) := Serialize(banks[b].0, banks[b].1)];
      totals := totals[IdString(banks[b].0) := 0];
      b := b + 1;
    }
  }

  /** One more listing adds its plan's units. */
  lemma IncomingStep(found: seq<(ObjectId, Doc)>, i: int)
    requires AllShaped(found) && 0 <= i < |found|
    ensures AllShaped(found[..i]) && AllShaped(found[..i + 1])
    ensures forall k :: Incoming(found[..i + 1], k) == Incoming(found[..i], k) + PlanIncoming(PlanEntries(found[i].1), k)
  {
    assert found[..i + 1][..i] == found[..i];
  }

  /** The loop over the listings: each in feed form, and its plan added to the totals. */
  method FeedListings(found: seq<(ObjectId, Doc)>, totals: map<string, int>)
    returns (outListings: seq<Doc>, after: map<string, int>)
    requires AllShaped(found)
    ensures |outListings| == |found| && forall i :: 0 <= i < |found| ==> outListings[i] == FeedListing(found[i].0, found[i].1)
    ensures after.Keys == totals.Keys
    ensures forall k :: k in totals ==> after[k] == totals[k] + Incoming(found, k)
  {
    outListings := [];
    after := totals;
    var i := 0;
    while i < |found|
      invariant 0 <= i <= |found| && |outListings| == i
      invariant forall j :: 0 <= j < i ==> outListings[j] == FeedListing(found[j].0, found[j].1)
      invariant after.Keys == totals.Keys
      invariant AllShaped(found[..i]) && forall k :: k in totals ==> after[k] == totals[k] + Incoming(found[..i], k)
    {
      outListings, after := FeedStep(found, i, totals, outListings, after);
      i := i + 1;
    }
    assert found[..i] == found;
  }

  /** One pass of the loop over the listings. */
  method FeedStep(found: seq<(ObjectId, Doc)>, i: int, ghost totals: map<string, int>, outListings: seq<Doc>, after: map<string, int>)
    returns (outListings': seq<Doc>, after': map<string, int>)
    requires AllShaped(found) && 0 <= i < |found| && |outListings| == i
    requires forall j :: 0 <= j < i ==> outListings[j] == FeedListing(found[j].0, found[j].1)
    requires after.Keys == totals.Keys
    requires AllShaped(found[..i]) && forall k :: k in totals ==> after[k] == totals[k] + Incoming(found[..i], k)
    ensures |outListings'| == i + 1
    ensures forall j :: 0 <= j < i + 1 ==> outListings'[j] == FeedListing(found[j].0, found[j].1)
    ensures after'.Keys == totals.Keys
    ensures AllShaped(found[..i + 1]) && forall k :: k in totals ==> after'[k] == totals[k] + Incoming(found[..i + 1], k)
  {
    IncomingStep(found, i);
    outListings' := outListings + [FeedListing(found[i].0, found[i].1)];
    after' := AddPlan(after, PlanEntries(found[i].1));
  }

  /** `list(food_banks_by_id.values())`, with each bank's total set. */
  method EmitBanks(banks: seq<(ObjectId, Doc)>, byId: map<string, Doc>, totals: map<string, int>, ghost found: seq<(ObjectId, Doc)>)
    returns (outBanks: seq<Doc>)
    requires AllShaped(found)
    requires forall i :: 0 <= i < |banks| ==> IdString(banks[i].0) in byId && byId[IdString(banks[i].0)] == Serialize(banks[i].0, banks[i].1)
    requires forall i :: 0 <= i < |banks| ==> IdString(banks[i].0) in totals && totals[IdString(banks[i].0)] == Incoming(found, IdString(banks[i].0))
    ensures |outBanks| == |banks| && forall i :: 0 <= i < |banks| ==> outBanks[i] == FeedBank(banks[i], found)
  {
    outBanks := [];
    var b := 0;
    while b < |banks|
      invariant 0 <= b <= |banks| && |outBanks| == b
      invariant forall j :: 0 <= j < b ==> outBanks[j] == FeedBank(banks[j], found)
    {
      var key := IdString(banks[b].0);
      outBanks := outBanks + [byId[key]["total_incoming" := VInt(totals[key])]];
      b := b + 1;
    }
  }

  /** `get_simulation`, given what the listings query answers (`found`) and what the food
      bank query answers for the referenced ids (`banks`): every listing in feed form, and
      every fetched bank with the sum of the units all plans send to it. */
  method GetSimulation(listings: map<ObjectId, Doc>, foodBanks: map<ObjectId, Doc>,
                       found: seq<(ObjectId, Doc)>, banks: seq<(ObjectId, Doc)>)
    returns (outListings: seq<Doc>, outBanks: seq<Doc>)
    requires ListingsAnswer(listings, found) && AllShaped(found)
    requires forall id :: id in foodBanks ==> WellFormed(id)
    requires BanksAnswer(foodBanks, Referenced(found), banks)
    ensures |outListings| == |found| && forall i :: 0 <= i < |found| ==> outListings[i] == FeedListing(found[i].0, found[i].1)
    ensures |outBanks| == |banks| && forall i :: 0 <= i < |banks| ==> outBanks[i] == FeedBank(banks[i], found)
  {
    var byId, zero := IndexBanks(banks);
    var totals;
    outListings, totals := FeedListings(found, zero);
    outBanks := EmitBanks(banks, byId, totals, found);
  }
}
