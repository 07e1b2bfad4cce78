/** The food-bank ingest script (apps/api/scripts/ingest_food_banks.py): census tracts and
    food distributors are read from CSV rows, each distributor is weighted by the SNAP rate of
    the nearest tract, and the distributors are upserted by (name, address). CSV rows are
    maps from column to text; Python's `float()` on a string is the parameter `float`. */
module IngestFoodBanks {
  import opened Wrappers
  import opened Bson
  import opened Schemas
  import Text

  /** A CSV row: column name to cell text. */
  type Row = map<string, string>

  /** A census tract's centroid and SNAP rate. */
  datatype Tract = Tract(lat: real, lng: real, snapRate: real, geoid: string)

  /** `load_snap_tracts` for one row: a missing column or a cell that does not parse as a
      number skips the row. */
  function TractOf(row: Row, float: string -> Option<real>): (t: Option<Tract>)
    ensures t.Some? <==> ("lat" in row && "lng" in row && "snap_rate" in row && "geoid" in row
      && float(row["lat"]).Some? && float(row["lng"]).Some? && float(row["snap_rate"]).Some?)
    ensures t.Some? ==> t.value == Tract(float(row["lat"]).value, float(row["lng"]).value, float(row["snap_rate"]).value, row["geoid"])
  {
    if "lat" in row && "lng" in row && "snap_rate" in row && "geoid" in row
       && float(row["lat"]).Some? && float(row["lng"]).Some? && float(row["snap_rate"]).Some?
    then Some(Tract(float(row["lat"]).value, float(row["lng"]).value, float(row["snap_rate"]).value, row["geoid"]))
    else None
  }

  /** The tracts of the rows that parse, in row order. */
  function Tracts(rows: seq<Row>, float: string -> Option<real>): (ts: seq<Tract>)
    ensures |ts| <= |rows|
  {
    if rows == [] then []
    else
      var init := Tracts(rows[..|rows| - 1], float);
      match TractOf(rows[|rows| - 1], float)
      case Some(t) => init + [t]
      case None => init
  }

  /** Every tract loaded comes from some row, parsed; a row that does not parse yields none. */
  lemma {:induction false} TractsFromRows(rows: seq<Row>, float: string -> Option<real>)
    ensures forall t :: t in Tracts(rows, float) ==> exists i :: 0 <= i < |rows| && TractOf(rows[i], float) == Some(t)
    ensures (forall i :: 0 <= i < |rows| ==> TractOf(rows[i], float).Some?) ==> |Tracts(rows, float)| == |rows|
  {
    if rows != [] {
      var init := rows[..|rows| - 1];
      TractsFromRows(init, float);
      forall t | t in Tracts(rows, float) ensures exists i :: 0 <= i < |rows| && TractOf(rows[i], float) == Some(t) {
        if t in Tracts(init, float) {
          var i :| 0 <= i < |init| && TractOf(init[i], float) == Some(t);
          assert rows[i] == init[i];
        } else {
          assert TractOf(rows[|rows| - 1], float) == Some(t);
        }
      }
      if forall i :: 0 <= i < |rows| ==> TractOf(rows[i], float).Some? {
        assert forall i :: 0 <= i < |init| ==> TractOf(init[i], float).Some? by {
          forall i | 0 <= i < |init| ensures TractOf(init[i], float).Some? {
            assert init[i] == rows[i];
          }
        }
      }
    }
  }

  /** `load_snap_tracts`. */
  method LoadSnapTracts(rows: seq<Row>, float: string -> Option<real>) returns (tracts: seq<Tract>)
    ensures tracts == Tracts(rows, float)
  {
    tracts := [];
    var i := 0;
    while i < |rows|
      invariant 0 <= i <= |rows|
      invariant tracts == Tracts(rows[..i], float)
    {
      assert rows[..i + 1][..i] == rows[..i];
      var t := TractOf(rows[i], float);
      if t.Some? {
        tracts := tracts + [t.value];
      }
      i := i + 1;
    }
    assert rows[..i] == rows;
  }

  /** The square of the Euclidean distance on (lat, lng) from a point to a tract's centroid.
      `math.hypot` is its square root, which orders tracts the same way. */
  function Dist2(lat: real, lng: real, t: Tract): (d: real)
    ensures d >= 0.0
  {
    (lat - t.lat) * (lat - t.lat) + (lng - t.lng) * (lng - t.lng)
  }

  /** The index the scan settles on among the first `n` tracts: a later tract replaces the
      best so far only when it is strictly closer. */
  function Nearest(lat: real, lng: real, tracts: seq<Tract>, n: nat): (k: nat)
    requires 1 <= n <= |tracts|
    ensures k < n
  {
    if n == 1 then 0
    else
      var b := Nearest(lat, lng, tracts, n - 1);
      if Dist2(lat, lng, tracts[n - 1]) < Dist2(lat, lng, tracts[b]) then n - 1 else b
  }

  /** The scan finds a closest tract, and the earliest of the closest ones. */
  lemma {:induction false} NearestIsEarliestClosest(lat: real, lng: real, tracts: seq<Tract>, n: nat)
    requires 1 <= n <= |tracts|
    ensures var k := Nearest(lat, lng, tracts, n);
      && (forall j :: 0 <= j < n ==> Dist2(lat, lng, tracts[k]) <= Dist2(lat, lng, tracts[j]))
      && (forall j :: 0 <= j < k ==> Dist2(lat, lng, tracts[k]) < Dist2(lat, lng, tracts[j]))
  {
    if n > 1 {
      NearestIsEarliestClosest(lat, lng, tracts, n - 1);
    }
  }

  /** `nearest_snap_rate`: the SNAP rate of the nearest tract, or 1.0 when there are none. */
  function NearestRate(lat: real, lng: real, tracts: seq<Tract>): real {
    if tracts == [] then 1.0 else tracts[Nearest(lat, lng, tracts, |tracts|)].snapRate
  }

  /** The loop of `nearest_snap_rate`; "no best distance yet" stands for infinity. */
  method NearestSnapRate(lat: real, lng: real, tracts: seq<Tract>) returns (rate: real)
    ensures rate == NearestRate(lat, lng, tracts)
  {
    var bestDist: Option<real> := None;
    rate := 1.0;
    ghost var best := 0;
    var i := 0;
    while i < |tracts|
      invariant 0 <= i <= |tracts|
      invariant i == 0 ==> bestDist.None? && rate == 1.0
      invariant i > 0 ==> (best == Nearest(lat, lng, tracts, i) && bestDist == Some(Dist2(lat, lng, tracts[best]))
        && rate == tracts[best].snapRate)
    {
      var d := Dist2(lat, lng, tracts[i]);
      if bestDist.None? || d < bestDist.value {
        bestDist := Some(d);
        rate := tracts[i].snapRate;
        best := i;
      }
      i := i + 1;
    }
  }

  /** The nearest rate is some tract's rate, and no tract is closer than the one it comes
      from. */
  lemma NearestRateIsClosest(lat: real, lng: real, tracts: seq<Tract>)
    requires tracts != []
    ensures exists k :: (0 <= k < |tracts| && NearestRate(lat, lng, tracts) == tracts[k].snapRate
      && forall j :: 0 <= j < |tracts| ==> Dist2(lat, lng, tracts[k]) <= Dist2(lat, lng, tracts[j]))
  {
    var k := Nearest(lat, lng, tracts, |tracts|);
    NearestIsEarliestClosest(lat, lng, tracts, |tracts|);
    assert NearestRate(lat, lng, tracts) == tracts[k].snapRate;
  }

  /** `row.get(column, "").strip()`. */
  function Cell(row: Row, column: string): string {
    Text.PyStrip(if column in row then row[column] else "")
  }

  /** A food bank as the script stores it. */
  datatype Bank = Bank(
    name: string,
    category: string,
    address: string,
    neighborhood: string,
    phone: string,
    hours: string,
    location: GeoPoint,
    needWeight: real,
    active: bool)

  /** The food bank a distributor row describes, stored at (lat, lng) with the given need:
      a GeoJSON point with coordinates [lng, lat], and active. */
  function BankAt(row: Row, lat: real, lng: real, need: real): Bank {
    Bank(Cell(row, "name"), Cell(row, "category"), Address(row), Cell(row, "neighborhood"),
         Cell(row, "phone"), Cell(row, "hours"), GeoPoint("Point", [lng, lat]), need, true)
  }

  /** The address: the full address column, else the street address column, stripped. */
  function Address(row: Row): string {
    if "full_address" in row then Text.PyStrip(row["full_address"]) else Cell(row, "street_address")
  }

  /** `load_food_banks` for one row: blank or non-numeric coordinates skip the row. */
  function BankOf(row: Row, tracts: seq<Tract>, float: string -> Option<real>): (b: Option<Bank>)
    ensures b.Some? <==> (Cell(row, "latitude") != "" && Cell(row, "longitude") != ""
      && float(Cell(row, "latitude")).Some? && float(Cell(row, "longitude")).Some?)
    ensures b.Some? ==>
      var lat, lng := float(Cell(row, "latitude")).value, float(Cell(row, "longitude")).value;
      b.value == BankAt(row, lat, lng, NearestRate(lat, lng, tracts))
  {
    var latText, lngText := Cell(row, "latitude"), Cell(row, "longitude");
    if latText == "" || lngText == "" then None
    else match (float(latText), float(lngText))
      case (Some(lat), Some(lng)) => Some(BankAt(row, lat, lng, NearestRate(lat, lng, tracts)))
      case _ => None
  }

  /** The banks of the rows that parse, in row order. */
  function Banks(rows: seq<Row>, tracts: seq<Tract>, float: string -> Option<real>): (bs: seq<Bank>)
    ensures |bs| <= |rows|
  {
    if rows == [] then []
    else
      var init := Banks(rows[..|rows| - 1], tracts, float);
      match BankOf(rows[|rows| - 1], tracts, float)
      case Some(b) => init + [b]
      case None => init
  }

  /** A loaded bank: active, located by a GeoJSON point [lng, lat], and weighted by the SNAP
      rate of the tract nearest to that point. */
  predicate Located(b: Bank, tracts: seq<Tract>) {
    && b.active
    && b.location.kind == "Point" && |b.location.coordinates| == 2
    && b.needWeight == NearestRate(b.location.coordinates[1], b.location.coordinates[0], tracts)
  }

  lemma BankAtLocated(row: Row, lat: real, lng: real, tracts: seq<Tract>)
    ensures Located(BankAt(row, lat, lng, NearestRate(lat, lng, tracts)), tracts)
  {
  }

  /** Every bank loaded is located and weighted as `Located` says. */
  lemma {:induction false} BanksAreLocated(rows: seq<Row>, tracts: seq<Tract>, float: string -> Option<real>, banks: seq<Bank>)
    requires banks == Banks(rows, tracts, float)
    ensures forall i :: 0 <= i < |banks| ==> Located(banks[i], tracts)
  {
    if rows != [] {
      var init, row := rows[..|rows| - 1], rows[|rows| - 1];
      var before := Banks(init, tracts, float);
      BanksAreLocated(init, tracts, float, before);
      var found := BankOf(row, tracts, float);
      if found.Some? {
        var lat, lng := float(Cell(row, "latitude")).value, float(Cell(row, "longitude")).value;
        BankAtLocated(row, lat, lng, tracts);
        assert banks == before + [found.value];
      } else {
        assert banks == before;
      }
    }
  }

  /** `load_food_banks`. */
  method LoadFoodBanks(rows: seq<Row>, tracts: seq<Tract>, float: string -> Option<real>) returns (banks: seq<Bank>)
    ensures banks == Banks(rows, tracts, float)
  {
    banks := [];
    var i := 0;
    while i < |rows|
      invariant 0 <= i <= |rows|
      invariant banks == Banks(rows[..i], tracts, float)
    {
      assert rows[..i + 1][..i] == rows[..i];
      var row := rows[i];
      var latText := Cell(row, "latitude");
      var lngText := Cell(row, "longitude");
      if latText != "" && lngText != "" {
        var lat := float(latText);
        var lng := float(lngText);
        if lat.Some? && lng.Some? {
          var need := NearestSnapRate(lat.value, lng.value, tracts);
          banks := banks + [BankAt(row, lat.value, lng.value, need)];
        }
      }
      i := i + 1;
    }
    assert rows[..i] == rows;
  }

  /** The unique index of the collection: a food bank is identified by (name, address). */
  type Key = (string, string)

  function KeyOf(bank: Bank): Key {
    (bank.name, bank.address)
  }

  /** The counts `ingest` reports. */
  datatype Counts = Counts(inserted: nat, updated: nat, skipped: nat)

  /** The collection and the counts after upserting `banks` one after the other: a bank
      without a name is skipped; otherwise it is stored under its key, over the bank stored
      there (the upsert sets every field the script writes) or as a new one. */
  function Upserted(store: map<Key, Bank>, banks: seq<Bank>): (r: (map<Key, Bank>, Counts))
    ensures r.1.inserted + r.1.updated + r.1.skipped == |banks|
    ensures store.Keys <= r.0.Keys
  {
    if banks == [] then (store, Counts(0, 0, 0))
    else
      var (s, c) := Upserted(store, banks[..|banks| - 1]);
      var bank := banks[|banks| - 1];
      if bank.name == "" then (s, c.(skipped := c.skipped + 1))
      else if KeyOf(bank) in s then (s[KeyOf(bank) := bank], c.(updated := c.updated + 1))
      else (s[KeyOf(bank) := bank], c.(inserted := c.inserted + 1))
  }

  /** The banks without a name. */
  function Unnamed(banks: seq<Bank>): nat {
    if banks == [] then 0 else Unnamed(banks[..|banks| - 1]) + (if banks[|banks| - 1].name == "" then 1 else 0)
  }

  /** The skipped count is the number of banks without a name. */
  lemma {:induction false} UpsertedSkipped(store: map<Key, Bank>, banks: seq<Bank>)
    ensures Upserted(store, banks).1.skipped == Unnamed(banks)
  {
    if banks != [] {
      UpsertedSkipped(store, banks[..|banks| - 1]);
    }
  }

  /** No key is stored but those already there and those of the named banks. */
  lemma {:induction false} UpsertedKeys(store: map<Key, Bank>, banks: seq<Bank>)
    ensures forall k :: k in Upserted(store, banks).0 ==>
      k in store || exists i :: 0 <= i < |banks| && banks[i].name != "" && KeyOf(banks[i]) == k
  {
    if banks != [] {
      var init := banks[..|banks| - 1];
      UpsertedKeys(store, init);
      forall k | k in Upserted(store, banks).0 && k !in store
        ensures exists i :: 0 <= i < |banks| && banks[i].name != "" && KeyOf(banks[i]) == k
      {
        if k in Upserted(store, init).0 {
          var i :| 0 <= i < |init| && init[i].name != "" && KeyOf(init[i]) == k;
          assert banks[i] == init[i];
        } else {
          assert KeyOf(banks[|banks| - 1]) == k;
        }
      }
    }
  }

  /** The last named bank with a given key is the one stored under it: a later upsert of the
      same key replaces the bank, whatever was stored before. */
  lemma {:induction false} UpsertedLastWins(store: map<Key, Bank>, banks: seq<Bank>, i: nat)
    requires i < |banks| && banks[i].name != ""
    requires forall j :: i < j < |banks| && banks[j].name != "" ==> KeyOf(banks[j]) != KeyOf(banks[i])
    ensures KeyOf(banks[i]) in Upserted(store, banks).0
    ensures Upserted(store, banks).0[KeyOf(banks[i])] == banks[i]
  {
    if i < |banks| - 1 {
      var init := banks[..|banks| - 1];
      assert init[i] == banks[i];
      forall j | i < j < |init| && init[j].name != "" ensures KeyOf(init[j]) != KeyOf(init[i]) {
        assert init[j] == banks[j];
      }
      UpsertedLastWins(store, init, i);
    }
  }

  /** `ingest`'s loop over the loaded banks. */
  method Ingest(store: map<Key, Bank>, banks: seq<Bank>) returns (after: map<Key, Bank>, counts: Counts)
    ensures (after, counts) == Upserted(store, banks)
    ensures counts.inserted + counts.updated + counts.skipped == |banks|
  {
    after := store;
    var inserted, updated, skipped := 0, 0, 0;
    var i := 0;
    while i < |banks|
      invariant 0 <= i <= |banks|
      invariant (after, Counts(inserted, updated, skipped)) == Upserted(store, banks[..i])
    {
      assert banks[..i + 1][..i] == banks[..i];
      var bank := banks[i];
      if bank.name == "" {
        skipped := skipped + 1;
      } else {
        var key := KeyOf(bank);
        if key in after {
          after := after[key := bank];
          updated := updated + 1;
        } else {
          after := after[key := bank];
          inserted := inserted + 1;
        }
      }
      i := i + 1;
    }
    assert banks[..i] == banks;
    counts := Counts(inserted, updated, skipped);
  }
}
