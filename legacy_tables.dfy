/** The tables of the legacy Flask reservation service (apps/api/app/models/): users, listings,
    bag requests and allocations, kept in memory. Requests and allocations are only ever
    appended to and updated in place, never deleted, so each is the sequence of its rows and
    a row's id is its position plus one (the autoincrement key). A listing row maps each of
    its columns to the JSON value stored there, since the update endpoint writes whatever the
    request body holds. */
module LegacyTables {
  import opened Wrappers
  import opened Bson

  /** A user (models/user.py): a buyer or a business. */
  datatype User = User(email: string, role: string, businessName: Option<string>, pickups: Option<int>)

  /** The columns of a listing (models/listing.py), apart from its id. */
  datatype Column =
    | BusinessId | ItemName | TotalQty | PartnerQty | PublicQty | StandardPrice | EbtPrice
    | RetailValue | SnapEligible | RequestDeadline | PickupStart | PickupEnd | Address

  /** A listing row; a column without an entry holds NULL. */
  type Row = map<Column, Value>

  /** A bag request (models/request.py): "pending", then "allocated" or "cancelled". */
  datatype Request = Request(listingId: int, userId: int, status: string, paymentMethod: Value)

  /** An allocation (models/allocation.py): a user's won slot on a listing, picked up once
      with its QR token. */
  datatype Allocation = Allocation(
    listingId: int,
    userId: int,
    requestId: Option<int>,
    status: string,
    qrToken: string,
    pickedUp: bool,
    pickedUpAt: Option<string>)

  /** The stored value of a column: NULL when the row has none. */
  function Col(row: Row, c: Column): Value {
    if c in row then row[c] else VNull
  }

  /** An integer column read as `(column or 0)`. */
  function IntCol(row: Row, c: Column): int {
    match Col(row, c)
    case VInt(i) => i
    case _ => 0
  }

  /** Pickup counts start at 0 (the column default) and only ever grow. */
  predicate UsersValid(users: map<int, User>) {
    forall id :: id in users ==> users[id].pickups.GetOr(0) >= 0
  }

  /** The columns models/listing.py declares NOT NULL. */
  const Required: set<Column> := {BusinessId, ItemName, TotalQty, PublicQty, StandardPrice}

  /** No NOT NULL column of the row holds NULL: the database refuses to commit such a row. */
  predicate Filled(row: Row) {
    forall c :: c in Required ==> Col(row, c) != VNull
  }

  /** Storing a filled row keeps every stored row filled. */
  lemma StoreKeepsFilled(listings: map<int, Row>, id: int, row: Row, after: map<int, Row>)
    requires forall k :: k in listings ==> Filled(listings[k])
    requires Filled(row) && after == listings[id := row]
    ensures forall k :: k in after ==> Filled(after[k])
  {
  }

  /** Every listing belongs to a stored user (the business_id foreign key). */
  predicate ListingsValid(listings: map<int, Row>, users: map<int, User>) {
    forall id :: id in listings ==> IntCol(listings[id], BusinessId) in users
  }

  /** The database of the legacy service. */
  class Tables {
    var users: map<int, User>
    var listings: map<int, Row>
    var requests: seq<Request>
    var allocations: seq<Allocation>

    predicate Valid()
      reads this
    {
      && UsersValid(users) && ListingsValid(listings, users)
      && forall id :: id in listings ==> Filled(listings[id])
    }

    constructor()
      ensures Valid()
      ensures users == map[] && listings == map[] && requests == [] && allocations == []
    {
      users := map[];
      listings := map[];
      requests := [];
      allocations := [];
    }
  }
}
