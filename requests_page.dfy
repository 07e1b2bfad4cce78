/** The business's request page (apps/web/src/pages/business/Requests.tsx): the requests of
    one listing or of all, grouped by listing, with a pending count and the button that runs
    the allocation of a group. */
module RequestsPage {
  import opened Wrappers

  /** A request as the page reads it. */
  datatype BagRequest = BagRequest(id: int, listingId: int, status: string, paymentMethod: Option<string>)

  /** The `listing` search parameter: absent, or its text with `Number(text)` (None for NaN;
      parsing the text is not part of this model). */
  datatype ListingParam = Absent | Given(text: string, number: Option<int>)

  /** The parameter filters only when it is present and not empty. */
  predicate Filters(p: ListingParam) {
    p.Given? && p.text != ""
  }

  /** The requests kept: with a filtering parameter, those whose listing equals its number
      (none when it is NaN); otherwise all of them. */
  function Shown(rs: seq<BagRequest>, p: ListingParam): (r: seq<BagRequest>)
    ensures !Filters(p) ==> r == rs
    ensures Filters(p) ==> r == OfListing(rs, p.number)
  {
    if Filters(p) then OfListing(rs, p.number) else rs
  }

  /** `rs.filter(req => req.listing_id === n)`, comparing with NaN never matching. */
  function OfListing(rs: seq<BagRequest>, n: Option<int>): (r: seq<BagRequest>)
    ensures |r| <= |rs|
    ensures forall x :: x in r <==> x in rs && n == Some(x.listingId)
  {
    if rs == [] then []
    else
      var init := OfListing(rs[..|rs| - 1], n);
      var x := rs[|rs| - 1];
      assert forall y :: y in rs <==> y in rs[..|rs| - 1] || y == x by {
        assert rs == rs[..|rs| - 1] + [x];
      }
      if n == Some(x.listingId) then init + [x] else init
  }

  /** The requests of one listing, in their order: what `byListing` holds for it. */
  function Group(rs: seq<BagRequest>, lid: int): (g: seq<BagRequest>)
  {
    OfListing(rs, Some(lid))
  }

  /** The listings that have requests. */
  function ListingIds(rs: seq<BagRequest>): (ids: set<int>)
    ensures forall lid :: lid in ids <==> exists k :: 0 <= k < |rs| && rs[k].listingId == lid
  {
    set k | 0 <= k < |rs| :: rs[k].listingId
  }

  /** The `reduce` that builds `byListing` as a function: each request pushed onto the
      array of its listing, the array created on first use. */
  function ByListing(rs: seq<BagRequest>): (m: map<int, seq<BagRequest>>)
  {
    if rs == [] then map[]
    else
      var m := ByListing(rs[..|rs| - 1]);
      var x := rs[|rs| - 1];
      m[x.listingId := (if x.listingId in m then m[x.listingId] else []) + [x]]
  }

  /** `byListing` holds a group for exactly the listings that have requests, and each
      group is that listing's requests in their order. */
  lemma {:induction false} ByListingGroups(rs: seq<BagRequest>)
    ensures ByListing(rs).Keys == ListingIds(rs)
    ensures forall lid :: lid in ByListing(rs) ==> ByListing(rs)[lid] == Group(rs, lid)
  {
    if rs != [] {
      var init := rs[..|rs| - 1];
      var x := rs[|rs| - 1];
      ByListingGroups(init);
      ListingIdsSnoc(rs);
      if x.listingId !in ByListing(init) {
        NoGroup(init, x.listingId);
      }
    }
  }

  /** One more request adds its listing to the listings with requests. */
  lemma ListingIdsSnoc(rs: seq<BagRequest>)
    requires rs != []
    ensures ListingIds(rs) == ListingIds(rs[..|rs| - 1]) + {rs[|rs| - 1].listingId}
  {
    var init := rs[..|rs| - 1];
    forall y | y in ListingIds(rs) ensures y in ListingIds(init) + {rs[|rs| - 1].listingId} {
      var k :| 0 <= k < |rs| && rs[k].listingId == y;
      if k < |init| {
        assert init[k].listingId == y;
      }
    }
    forall y | y in ListingIds(init) ensures y in ListingIds(rs) {
      var k :| 0 <= k < |init| && init[k].listingId == y;
      assert rs[k].listingId == y;
    }
  }

  /** A listing without requests has an empty group. */
  lemma {:induction false} NoGroup(rs: seq<BagRequest>, lid: int)
    requires lid !in ListingIds(rs)
    ensures Group(rs, lid) == []
  {
    if rs != [] {
      var init := rs[..|rs| - 1];
      assert forall k :: 0 <= k < |init| ==> init[k] == rs[k];
      NoGroup(init, lid);
    }
  }

  /** The loop of the `reduce`, pushing onto the accumulator. */
  method GroupByListing(rs: seq<BagRequest>) returns (byListing: map<int, seq<BagRequest>>)
    ensures byListing == ByListing(rs)
  {
    byListing := map[];
    for i := 0 to |rs|
      invariant byListing == ByListing(rs[..i])
    {
      assert rs[..i + 1][..i] == rs[..i];
      var lid := rs[i].listingId;
      if lid !in byListing {
        byListing := byListing[lid := []];
      }
      byListing := byListing[lid := byListing[lid] + [rs[i]]];
    }
    assert rs[..|rs|] == rs;
  }

  /** The number of a group's requests in a list of groups' sizes. */
  function GroupedCount(rs: seq<BagRequest>, lids: seq<int>): nat {
    if lids == [] then 0 else GroupedCount(rs, lids[..|lids| - 1]) + |Group(rs, lids[|lids| - 1])|
  }

  /** The groups partition the requests: summing the group sizes over distinct listing ids
      that include every listing with requests counts each request exactly once. */
  lemma {:induction false} GroupsPartition(rs: seq<BagRequest>, lids: seq<int>)
    requires forall i, j :: 0 <= i < j < |lids| ==> lids[i] != lids[j]
    requires forall lid :: lid in ListingIds(rs) ==> lid in lids
    ensures GroupedCount(rs, lids) == |rs|
  {
    CountSplit(rs, lids);
    CountAll(rs, lids);
  }

  /** The count of requests whose listing lies among `lids`. */
  function CountIn(rs: seq<BagRequest>, lids: seq<int>): (n: nat)
    ensures n <= |rs|
  {
    if rs == [] then 0 else CountIn(rs[..|rs| - 1], lids) + (if rs[|rs| - 1].listingId in lids then 1 else 0)
  }

  /** Counting group by group equals counting request by request. */
  lemma {:induction false} CountSplit(rs: seq<BagRequest>, lids: seq<int>)
    requires forall i, j :: 0 <= i < j < |lids| ==> lids[i] != lids[j]
    ensures GroupedCount(rs, lids) == CountIn(rs, lids)
  {
    if lids == [] {
      CountNone(rs);
    } else {
      var init := lids[..|lids| - 1];
      var last := lids[|lids| - 1];
      assert lids == init + [last];
      assert GroupedCount(rs, lids) == GroupedCount(rs, init) + |Group(rs, last)|;
      CountSplit(rs, init);
      CountStep(rs, init, last);
    }
  }

  lemma {:induction false} CountNone(rs: seq<BagRequest>)
    ensures CountIn(rs, []) == 0
  {
    if rs != [] {
      CountNone(rs[..|rs| - 1]);
    }
  }

  /** Adding one more listing id adds the size of its group. */
  lemma {:induction false} CountStep(rs: seq<BagRequest>, lids: seq<int>, lid: int)
    requires lid !in lids
    ensures CountIn(rs, lids + [lid]) == CountIn(rs, lids) + |Group(rs, lid)|
  {
    if rs != [] {
      var init := rs[..|rs| - 1];
      CountStep(init, lids, lid);
      assert forall x :: x in lids + [lid] <==> x in lids || x == lid;
    }
  }

  /** When every request's listing is listed, all requests are counted. */
  lemma {:induction false} CountAll(rs: seq<BagRequest>, lids: seq<int>)
    requires forall lid :: lid in ListingIds(rs) ==> lid in lids
    ensures CountIn(rs, lids) == |rs|
  {
    if rs != [] {
      var init := rs[..|rs| - 1];
      assert ListingIds(init) <= ListingIds(rs) by {
        forall x | x in ListingIds(init) ensures x in ListingIds(rs) {
          var k :| 0 <= k < |init| && init[k].listingId == x;
          assert rs[k].listingId == x;
        }
      }
      CountAll(init, lids);
      assert rs[|rs| - 1].listingId in ListingIds(rs);
    }
  }

  /** A group's pending requests. */
  function Pending(group: seq<BagRequest>): (p: seq<BagRequest>)
    ensures |p| <= |group|
    ensures forall x :: x in p <==> x in group && x.status == "pending"
  {
    if group == [] then []
    else
      var init := Pending(group[..|group| - 1]);
      var x := group[|group| - 1];
      assert forall y :: y in group <==> y in group[..|group| - 1] || y == x by {
        assert group == group[..|group| - 1] + [x];
      }
      if x.status == "pending" then init + [x] else init
  }

  /** The "Run allocation" button: shown for a group with pending requests, disabled while
      any allocation runs. */
  datatype Button = Hidden | Enabled | Disabled

  function AllocateButton(group: seq<BagRequest>, allocating: Option<int>): (b: Button)
    ensures b != Hidden <==> exists x :: x in group && x.status == "pending"
    ensures b == Disabled <==> b != Hidden && allocating.Some?
  {
    var p := Pending(group);
    if |p| == 0 then Hidden
    else
      assert p[0] in p;
      if allocating.Some? then Disabled else Enabled
  }

  /** The page state the handlers change. */
  class Page {
    const param: ListingParam
    var requests: seq<BagRequest>
    var allocating: Option<int>
    var error: Option<string>
    var loading: bool

    constructor(p: ListingParam)
      ensures param == p && requests == [] && allocating.None? && error.None? && loading
    {
      param := p;
      requests := [];
      allocating := None;
      error := None;
      loading := true;
    }

    /** The first load settles, with the business's requests or a failure. */
    method Loaded(fetched: Option<seq<BagRequest>>, failure: string)
      modifies this`requests, this`error, this`loading
      ensures fetched.Some? ==> requests == Shown(fetched.value, param) && error == old(error)
      ensures fetched.None? ==> requests == old(requests) && error == Some(failure)
      ensures !loading
    {
      if fetched.Some? {
        requests := Shown(fetched.value, param);
      } else {
        error := Some(failure);
      }
      loading := false;
    }

    /** `handleAllocate`: the allocation of listing `id` starts. */
    method StartAllocate(id: int)
      modifies this`allocating
      ensures allocating == Some(id)
    {
      allocating := Some(id);
    }

    /** The allocation and the reload settle: the reloaded requests are filtered as on the
        first load, a failure shows its message, and no allocation runs afterwards. */
    method AllocateSettled(reloaded: Option<seq<BagRequest>>, failure: string)
      modifies this`requests, this`error, this`allocating
      ensures reloaded.Some? ==> requests == Shown(reloaded.value, param) && error == old(error)
      ensures reloaded.None? ==> requests == old(requests) && error == Some(failure)
      ensures allocating.None?
    {
      if reloaded.Some? {
        requests := Shown(reloaded.value, param);
      } else {
        error := Some(failure);
      }
      allocating := None;
    }
  }
}
