/** The donation-routing demo page (apps/web/src/pages/SimulationMap.tsx): the lines drawn
    from each restaurant to the food banks of its donation plan, the donated quantity shown
    per restaurant, the total of incoming units and the placeholder row of the allocation
    table. The feed is the one typed in apps/web/src/api/simulation.ts. */
module SimulationMap {
  import opened Wrappers

  /** A GeoJSON point, longitude first. */
  datatype LngLat = LngLat(lng: real, lat: real)

  /** A map position as Leaflet takes it, latitude first. */
  datatype LatLng = LatLng(lat: real, lng: real)

  datatype PlanItem = PlanItem(foodBankId: string, name: string, qty: int)

  datatype SimListing = SimListing(
    id: string, title: string, businessName: string, location: Option<LngLat>,
    qtyAvailable: int, donatePercent: real, plan: seq<PlanItem>)

  datatype SimBank = SimBank(id: string, name: string, location: Option<LngLat>, needWeight: real, totalIncoming: int)

  /** One allocation line and its label. */
  datatype Line = Line(from: LatLng, to: LatLng, caption: string)

  function Swap(p: LngLat): (q: LatLng)
    ensures q.lat == p.lat && q.lng == p.lng
  {
    LatLng(p.lat, p.lng)
  }

  /** The lookup `fbById`: a food bank for each id listed. */
  function IndexOf(banks: seq<SimBank>): (m: map<string, SimBank>)
    ensures forall id :: id in m <==> exists k :: 0 <= k < |banks| && banks[k].id == id
  {
    if banks == [] then map[]
    else
      var init := banks[..|banks| - 1];
      var b := banks[|banks| - 1];
      assert forall k :: 0 <= k < |init| ==> init[k] == banks[k];
      IndexOf(init)[b.id := b]
  }

  /** Later entries overwrite earlier ones: an id maps to the last food bank listed with it. */
  lemma {:induction false} IndexLastWins(banks: seq<SimBank>, id: string)
    requires id in IndexOf(banks)
    ensures exists k :: (0 <= k < |banks| && banks[k] == IndexOf(banks)[id]
      && forall j :: k < j < |banks| ==> banks[j].id != id)
  {
    var init := banks[..|banks| - 1];
    var b := banks[|banks| - 1];
    if b.id == id {
      assert banks[|banks| - 1] == IndexOf(banks)[id];
    } else {
      IndexLastWins(init, id);
      var k :| 0 <= k < |init| && init[k] == IndexOf(init)[id] && forall j :: k < j < |init| ==> init[j].id != id;
      assert banks[k] == IndexOf(banks)[id];
      assert forall j :: k < j < |banks| ==> banks[j].id != id by {
        forall j | k < j < |banks| ensures banks[j].id != id {
          if j < |init| {
            assert init[j] == banks[j];
          }
        }
      }
    }
  }

  /** The loop that fills `fbById`. */
  method BuildIndex(banks: seq<SimBank>) returns (byId: map<string, SimBank>)
    ensures byId == IndexOf(banks)
  {
    byId := map[];
    for i := 0 to |banks|
      invariant byId == IndexOf(banks[..i])
    {
      assert banks[..i + 1][..i] == banks[..i];
      byId := byId[banks[i].id := banks[i]];
    }
    assert banks[..|banks|] == banks;
  }

  /** A plan entry draws a line when its food bank is known and has a location. */
  predicate Routed(index: map<string, SimBank>, item: PlanItem) {
    item.foodBankId in index && index[item.foodBankId].location.Some?
  }

  /** The line of a routed entry from a restaurant at `origin`. */
  function LineTo(index: map<string, SimBank>, origin: LngLat, businessName: string, item: PlanItem): Line
    requires Routed(index, item)
  {
    var fb := index[item.foodBankId];
    Line(Swap(origin), Swap(fb.location.value), businessName + " → " + fb.name)
  }

  /** The lines of one restaurant's plan: one per routed entry, in plan order. */
  function PlanLines(index: map<string, SimBank>, origin: LngLat, businessName: string, plan: seq<PlanItem>): (r: seq<Line>)
    ensures |r| <= |plan|
    ensures forall i :: 0 <= i < |r| ==> r[i].from == Swap(origin)
    ensures forall i :: 0 <= i < |r| ==> exists k :: (0 <= k < |plan| && Routed(index, plan[k])
      && r[i] == LineTo(index, origin, businessName, plan[k]))
    ensures (forall k :: 0 <= k < |plan| ==> Routed(index, plan[k])) ==> |r| == |plan|
    ensures (forall k :: 0 <= k < |plan| ==> !Routed(index, plan[k])) ==> r == []
  {
    if plan == [] then []
    else
      var init := plan[..|plan| - 1];
      var item := plan[|plan| - 1];
      var lines := PlanLines(index, origin, businessName, init);
      assert forall k :: 0 <= k < |init| ==> init[k] == plan[k];
      if Routed(index, item) then lines + [LineTo(index, origin, businessName, item)] else lines
  }

  /** The lines of every restaurant with a location, restaurant by restaurant. */
  function Lines(index: map<string, SimBank>, listings: seq<SimListing>): (r: seq<Line>)
  {
    if listings == [] then []
    else
      var l := listings[|listings| - 1];
      var init := Lines(index, listings[..|listings| - 1]);
      if l.location.None? then init else init + PlanLines(index, l.location.value, l.businessName, l.plan)
  }

  /** The number of plan entries over all restaurants: the rows of the allocation table. */
  function PlanEntries(listings: seq<SimListing>): (n: nat)
    ensures listings == [] ==> n == 0
  {
    if listings == [] then 0 else PlanEntries(listings[..|listings| - 1]) + |listings[|listings| - 1].plan|
  }

  /** There are never more lines than plan entries, and every line starts at a restaurant
      that has a location (where it ends is stated by `PlanLines`). */
  lemma {:induction false} LinesFromPlans(index: map<string, SimBank>, listings: seq<SimListing>)
    ensures |Lines(index, listings)| <= PlanEntries(listings)
    ensures forall i :: 0 <= i < |Lines(index, listings)| ==> exists j :: (0 <= j < |listings|
      && listings[j].location.Some? && Lines(index, listings)[i].from == Swap(listings[j].location.value))
  {
    if listings != [] {
      var init := listings[..|listings| - 1];
      var l := listings[|listings| - 1];
      LinesFromPlans(index, init);
      var before := Lines(index, init);
      forall i | 0 <= i < |Lines(index, listings)|
        ensures exists j :: (0 <= j < |listings| && listings[j].location.Some?
          && Lines(index, listings)[i].from == Swap(listings[j].location.value))
      {
        if i < |before| {
          var j :| 0 <= j < |init| && init[j].location.Some? && before[i].from == Swap(init[j].location.value);
          assert listings[j] == init[j];
        } else {
          assert Lines(index, listings)[i].from == Swap(listings[|listings| - 1].location.value);
        }
      }
    }
  }

  /** With every food bank of every plan known and located, each plan entry of a located
      restaurant gets its line. */
  lemma {:induction false} LinesCoverRoutedPlans(index: map<string, SimBank>, listings: seq<SimListing>)
    requires forall j, k :: 0 <= j < |listings| && 0 <= k < |listings[j].plan| ==> Routed(index, listings[j].plan[k])
    requires forall j :: 0 <= j < |listings| ==> listings[j].location.Some?
    ensures |Lines(index, listings)| == PlanEntries(listings)
  {
    if listings != [] {
      var init := listings[..|listings| - 1];
      assert forall j :: 0 <= j < |init| ==> init[j] == listings[j];
      LinesCoverRoutedPlans(index, init);
    }
  }

  /** The nested loops that push the lines. */
  method BuildLines(listings: seq<SimListing>, banks: seq<SimBank>) returns (lines: seq<Line>)
    ensures lines == Lines(IndexOf(banks), listings)
  {
    var byId := BuildIndex(banks);
    lines := [];
    for i := 0 to |listings|
      invariant lines == Lines(byId, listings[..i])
    {
      assert listings[..i + 1][..i] == listings[..i];
      var l := listings[i];
      if l.location.Some? {
        ghost var before := lines;
        for k := 0 to |l.plan|
          invariant lines == before + PlanLines(byId, l.location.value, l.businessName, l.plan[..k])
        {
          assert l.plan[..k + 1][..k] == l.plan[..k];
          var item := l.plan[k];
          if item.foodBankId in byId && byId[item.foodBankId].location.Some? {
            lines := lines + [LineTo(byId, l.location.value, l.businessName, item)];
          }
        }
        assert l.plan[..|l.plan|] == l.plan;
      }
    }
    assert listings[..|listings|] == listings;
  }

  /** The units a restaurant is shown donating: its stock times its percentage, rounded down. */
  function DonatedQty(l: SimListing): (d: int)
    ensures d as real <= l.qtyAvailable as real * l.donatePercent < d as real + 1.0
  {
    (l.qtyAvailable as real * l.donatePercent).Floor
  }

  /** With a percentage between 0 and 1 the donation is between nothing and the whole stock. */
  lemma DonatedWithinStock(l: SimListing)
    requires l.qtyAvailable >= 0 && 0.0 <= l.donatePercent <= 1.0
    ensures 0 <= DonatedQty(l) <= l.qtyAvailable
  {
    var q := l.qtyAvailable as real;
    assert q * l.donatePercent <= q * 1.0;
    assert 0.0 <= q * l.donatePercent;
  }

  /** The "Total units allocated" figure: `total_incoming` summed over the food banks. */
  function TotalIncoming(banks: seq<SimBank>): (n: int)
    ensures (forall k :: 0 <= k < |banks| ==> banks[k].totalIncoming >= 0) ==> n >= 0
  {
    if banks == [] then 0 else TotalIncoming(banks[..|banks| - 1]) + banks[|banks| - 1].totalIncoming
  }

  /** The total over a list of food banks is the sum of the totals over its parts. */
  lemma {:induction false} TotalIncomingAppend(a: seq<SimBank>, b: seq<SimBank>)
    ensures TotalIncoming(a + b) == TotalIncoming(a) + TotalIncoming(b)
  {
    if b == [] {
      assert a + b == a;
    } else {
      assert (a + b)[..|a + b| - 1] == a + b[..|b| - 1];
      TotalIncomingAppend(a, b[..|b| - 1]);
    }
  }

  /** The placeholder row of the allocation table. */
  predicate NoAllocationData(listings: seq<SimListing>) {
    forall j :: 0 <= j < |listings| ==> |listings[j].plan| == 0
  }

  /** The placeholder row is shown exactly when the table has no other row, and then no
      line is drawn either. */
  lemma {:induction false} PlaceholderIffEmptyTable(index: map<string, SimBank>, listings: seq<SimListing>)
    ensures NoAllocationData(listings) <==> PlanEntries(listings) == 0
    ensures NoAllocationData(listings) ==> Lines(index, listings) == []
  {
    if listings != [] {
      var init := listings[..|listings| - 1];
      assert forall j :: 0 <= j < |init| ==> init[j] == listings[j];
      PlaceholderIffEmptyTable(index, init);
      LinesFromPlans(index, listings);
    }
  }
}
