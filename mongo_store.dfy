/** The MongoDB database the API works on (apps/api/database.py is not part of this model):
    one map per collection from a document's `_id` to the rest of the document. Donation
    records are only ever inserted and never read back, so that collection is kept as the
    sequence of inserted documents. */
module MongoStore {
  import opened Bson

  class Db {
    var listings: map<ObjectId, Doc>
    var orders: map<ObjectId, Doc>
    var donations: seq<Doc>
    var foodBanks: map<ObjectId, Doc>
    var businesses: map<ObjectId, Doc>

    constructor()
      ensures listings == map[] && orders == map[] && donations == []
      ensures foodBanks == map[] && businesses == map[]
    {
      listings := map[];
      orders := map[];
      donations := [];
      foodBanks := map[];
      businesses := map[];
    }
  }
}
