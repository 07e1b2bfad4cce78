/** The buyer's listing page (apps/web/src/pages/buyer/ListingDetail.tsx): the price, tax and
    total shown for the chosen payment method, the payment buttons and the reserve action,
    over the listing JSON of the legacy service. */
module ListingDetailPage {
  import opened Wrappers
  import opened Bson
  import opened LegacyTables
  import opened LegacyListing
  import opened LegacyPartners
  import opened LegacyRequests

  datatype PaymentMethod = Standard | Ebt

  function MethodName(m: PaymentMethod): (s: string)
    ensures s == "ebt" <==> m == Ebt
  {
    match m
    case Standard => "standard"
    case Ebt => "ebt"
  }

  /** The buyer the page reserves for. */
  const DefaultBuyerId := 1

  /** JavaScript truthiness of a JSON value (every array and object is truthy). */
  predicate JsTruthy(v: Value) {
    match v
    case VNull => false
    case VBool(b) => b
    case VInt(i) => i != 0
    case VReal(r) => r != 0.0
    case VStr(s) => s != ""
    case _ => true
  }

  /** `Number(x)` of a JSON value; None stands for NaN. Parsing numeric text is not part of
      this model, so text other than "" reads as NaN. */
  function Number(v: Value): (n: Option<real>)
    ensures v.VInt? ==> n == Some(v.i as real)
    ensures v.VReal? ==> n == Some(v.r)
    ensures v.VNull? ==> n == Some(0.0)
  {
    match v
    case VNull => Some(0.0)
    case VBool(b) => Some(if b then 1.0 else 0.0)
    case VInt(i) => Some(i as real)
    case VReal(r) => Some(r)
    case VStr(s) => if s == "" then Some(0.0) else None
    case _ => None
  }

  /** The EBT price applies only to an EBT payment on a SNAP-eligible listing that has one. */
  predicate EbtPriceApplies(l: ListingView, m: PaymentMethod) {
    m == Ebt && JsTruthy(l.snapEligible) && l.ebtPrice != VNull
  }

  /** The bag price shown. */
  function Price(l: ListingView, m: PaymentMethod): (p: Option<real>)
    ensures EbtPriceApplies(l, m) ==> p == Number(l.ebtPrice)
    ensures !EbtPriceApplies(l, m) ==> p == Number(l.standardPrice)
  {
    if EbtPriceApplies(l, m) then Number(l.ebtPrice) else Number(l.standardPrice)
  }

  /** The tax: waived for EBT, 0.42 otherwise. */
  function Tax(m: PaymentMethod): (t: real)
    ensures t == 0.0 <==> m == Ebt
  {
    if m == Ebt then 0.0 else 0.42
  }

  /** The total shown, before it is formatted to two decimals. */
  function Total(l: ListingView, m: PaymentMethod): (t: Option<real>)
    ensures t.Some? <==> Price(l, m).Some?
    ensures t.Some? ==> t.value == Price(l, m).value + Tax(m)
  {
    match Price(l, m)
    case Some(p) => Some(p + Tax(m))
    case None => None
  }

  /** Paying standard always costs the standard price plus tax; without SNAP eligibility or
      without an EBT price the method changes only the tax. */
  lemma PaymentRules(l: ListingView)
    ensures Price(l, Standard) == Number(l.standardPrice)
    ensures !JsTruthy(l.snapEligible) || l.ebtPrice == VNull ==> Price(l, Ebt) == Price(l, Standard)
    ensures JsTruthy(l.snapEligible) && l.ebtPrice != VNull ==> Total(l, Ebt) == Number(l.ebtPrice)
  {
  }

  /** With an EBT price no higher than the standard one, paying by EBT saves at least the
      tax. */
  lemma EbtNeverCostsMore(l: ListingView)
    requires JsTruthy(l.snapEligible) && Number(l.ebtPrice).Some? && Number(l.standardPrice).Some?
    requires l.ebtPrice != VNull && Number(l.ebtPrice).value <= Number(l.standardPrice).value
    ensures Total(l, Ebt).value + 0.42 <= Total(l, Standard).value
  {
  }

  /** The legacy listing JSON drops an EBT price of 0 to null, so an EBT payment on such a
      listing is shown the standard price (with the tax still waived). */
  lemma ZeroEbtPriceShowsStandard(id: int, row: Row, owner: User, taken: nat)
    requires Col(row, EbtPrice) == VInt(0)
    ensures Price(ToDict(id, row, owner, taken), Ebt) == Number(Float(Col(row, StandardPrice)))
  {
  }

  /** The EBT button is disabled unless the listing is SNAP-eligible. */
  predicate EbtDisabled(l: ListingView) {
    !JsTruthy(l.snapEligible)
  }

  /** The reserve button is disabled while a reservation is in flight or without free slots. */
  predicate ReserveDisabled(l: ListingView, submitting: bool) {
    submitting || l.availableQty <= 0
  }

  /** The body the page posts to create a request. */
  function ReserveBody(m: PaymentMethod): (d: Doc)
    ensures Get(d, "user_id") == VInt(DefaultBuyerId) && Get(d, "payment_method") == VStr(MethodName(m))
  {
    map["user_id" := VInt(DefaultBuyerId), "payment_method" := VStr(MethodName(m))]
  }

  /** A reservation sent while the tables still match the page is accepted when the default
      buyer exists, and the request carries the chosen payment method. */
  lemma ReserveAccepted(users: map<int, User>, listings: map<int, Row>, requests: seq<Request>, allocations: seq<Allocation>, id: int, m: PaymentMethod)
    requires id in listings && ListingsValid(listings, users) && DefaultBuyerId in users
    requires View(users, listings, allocations, id).availableQty > 0
    ensures var r := CreateRequestResult(users, listings, requests, allocations, id, Some(ReserveBody(m)));
      && r.Ok? && r.body[|requests|].userId == DefaultBuyerId
      && r.body[|requests|].paymentMethod == VStr(MethodName(m))
  {
    var r := CreateRequestResult(users, listings, requests, allocations, id, Some(ReserveBody(m)));
    CreateRequestRefusals(users, listings, requests, allocations, id, Some(ReserveBody(m)));
    assert r.Ok?;
  }

  /** The page state that the handlers change. */
  class DetailPage {
    var listing: Option<ListingView>
    var paymentMethod: PaymentMethod
    var submitting: bool
    var error: Option<string>
    /** The route the page has sent the browser to, if any. */
    var navigatedTo: Option<string>

    /** The initial state: nothing loaded, standard payment, nothing in flight. */
    constructor()
      ensures listing.None? && paymentMethod == Standard && !submitting && error.None? && navigatedTo.None?
    {
      listing := None;
      paymentMethod := Standard;
      submitting := false;
      error := None;
      navigatedTo := None;
    }

    /** The fetched listing arrives. */
    method Loaded(l: ListingView)
      modifies this`listing
      ensures listing == Some(l)
    {
      listing := Some(l);
    }

    /** The fetch fails: its message is shown, or "Failed to load" when it has none. */
    method LoadFailed(message: string)
      modifies this`error
      ensures error == Some(if message != "" then message else "Failed to load")
    {
      error := Some(if message != "" then message else "Failed to load");
    }

    /** The standard button, always enabled. */
    method ChooseStandard()
      modifies this`paymentMethod
      ensures paymentMethod == Standard
    {
      paymentMethod := Standard;
    }

    /** The EBT button, which does nothing while it is disabled. */
    method ChooseEbt()
      modifies this`paymentMethod
      ensures listing.Some? && !EbtDisabled(listing.value) ==> paymentMethod == Ebt
      ensures listing.None? || EbtDisabled(listing.value) ==> paymentMethod == old(paymentMethod)
    {
      if listing.Some? && !EbtDisabled(listing.value) {
        paymentMethod := Ebt;
      }
    }

    /** `handleReserve`: without a listing or a free slot nothing happens; otherwise the
        page marks itself submitting, clears the error and posts the request body. */
    method Reserve() returns (sent: Option<(int, Doc)>)
      modifies this`submitting, this`error
      ensures listing.None? || listing.value.availableQty <= 0 ==>
        sent.None? && submitting == old(submitting) && error == old(error)
      ensures listing.Some? && listing.value.availableQty > 0 ==>
        sent == Some((listing.value.id, ReserveBody(paymentMethod))) && submitting && error.None?
    {
      if listing.None? || listing.value.availableQty <= 0 {
        return None;
      }
      submitting := true;
      error := None;
      sent := Some((listing.value.id, ReserveBody(paymentMethod)));
    }

    /** The request settles: success goes to the orders page, a failure shows its message,
        and submitting ends either way. */
    method Settled(failure: Option<string>)
      modifies this`submitting, this`error, this`navigatedTo
      ensures !submitting
      ensures error == if failure.Some? then failure else old(error)
      ensures navigatedTo == if failure.None? then Some("/orders") else old(navigatedTo)
    {
      if failure.Some? {
        error := failure;
      } else {
        navigatedTo := Some("/orders");
      }
      submitting := false;
    }
  }
}
