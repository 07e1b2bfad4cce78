/** The weighted lottery of the legacy service (apps/api/app/services/allocation_service.py):
    among the pending requests on a listing, users with fewer recent pickups weigh more; `k`
    draws are made with replacement, repeated winners are kept once in the order they were
    first drawn, and at most `slots` users are returned. The random draws are an input:
    draw `i` picks candidate `draw(i) % n`, which reaches every sequence of picks. */
module AllocationService {
  import opened Wrappers
  import opened LegacyTables

  /** A pending request joined with its user: the user and their recent pickup count. */
  datatype Candidate = Candidate(userId: int, pickups: Option<int>)

  predicate IsPendingFor(r: Request, listingId: int, userId: int) {
    r.listingId == listingId && r.userId == userId && r.status == "pending"
  }

  /** The query: the pending requests on the listing whose user exists, in table order. */
  function PendingFor(requests: seq<Request>, users: map<int, User>, listingId: int): (cs: seq<Candidate>)
    ensures |cs| <= |requests|
  {
    if requests == [] then []
    else
      var init := PendingFor(requests[..|requests| - 1], users, listingId);
      var r := requests[|requests| - 1];
      if r.listingId == listingId && r.status == "pending" && r.userId in users
      then init + [Candidate(r.userId, users[r.userId].pickups)]
      else init
  }

  /** Every candidate is a stored user with a pending request on the listing, and carries
      that user's pickup count. */
  lemma {:induction false} PendingForSound(requests: seq<Request>, users: map<int, User>, listingId: int)
    ensures forall c :: c in PendingFor(requests, users, listingId) ==>
      && c.userId in users && c.pickups == users[c.userId].pickups
      && exists k :: 0 <= k < |requests| && IsPendingFor(requests[k], listingId, c.userId)
  {
    if requests != [] {
      var init := requests[..|requests| - 1];
      PendingForSound(init, users, listingId);
      forall c | c in PendingFor(requests, users, listingId)
        ensures exists k :: 0 <= k < |requests| && IsPendingFor(requests[k], listingId, c.userId)
      {
        if c in PendingFor(init, users, listingId) {
          var k :| 0 <= k < |init| && IsPendingFor(init[k], listingId, c.userId);
          assert requests[k] == init[k];
        } else {
          assert IsPendingFor(requests[|requests| - 1], listingId, c.userId);
        }
      }
    }
  }

  /** `1 / (1 + (pickups or 0))`. */
  function Weight(pickups: Option<int>): (w: real)
    requires pickups.GetOr(0) >= 0
    ensures 0.0 < w <= 1.0
  {
    1.0 / (1.0 + pickups.GetOr(0) as real)
  }

  /** Fewer recent pickups weigh more; a user with none weighs 1. */
  lemma FewerPickupsWeighMore(a: nat, b: nat)
    requires a < b
    ensures Weight(Some(a)) > Weight(Some(b))
    ensures Weight(None) == Weight(Some(0)) == 1.0
  {
    var x, y := 1.0 + a as real, 1.0 + b as real;
    var p, q := 1.0 / x, 1.0 / y;
    assert p * x == 1.0 && q * y == 1.0;
    assert p * (y - x) > 0.0;
    assert p * y > q * y;
  }

  /** The loop building the weight list. */
  method Weights(cs: seq<Candidate>) returns (ws: seq<real>)
    requires forall c :: c in cs ==> c.pickups.GetOr(0) >= 0
    ensures |ws| == |cs|
    ensures forall i :: 0 <= i < |cs| ==> ws[i] == Weight(cs[i].pickups)
  {
    ws := [];
    for i := 0 to |cs|
      invariant |ws| == i
      invariant forall j :: 0 <= j < i ==> ws[j] == Weight(cs[j].pickups)
    {
      ws := ws + [Weight(cs[i].pickups)];
    }
  }

  function SumReals(s: seq<real>): real {
    if s == [] then 0.0 else SumReals(s[..|s| - 1]) + s[|s| - 1]
  }

  /** A non-empty list of positive weights has a positive total, so the guard on a
      non-positive total never fires. */
  lemma {:induction false} TotalPositive(ws: seq<real>)
    requires ws != [] && forall i :: 0 <= i < |ws| ==> ws[i] > 0.0
    ensures SumReals(ws) > 0.0
  {
    var init := ws[..|ws| - 1];
    if init != [] {
      assert forall i :: 0 <= i < |init| ==> init[i] == ws[i];
      TotalPositive(init);
    }
  }

  /** `[w / total for w in weights]`. */
  function Probabilities(ws: seq<real>, total: real): (ps: seq<real>)
    requires total != 0.0
    ensures |ps| == |ws| && forall i :: 0 <= i < |ws| ==> ps[i] * total == ws[i]
  {
    seq(|ws|, i requires 0 <= i < |ws| => ws[i] / total)
  }

  /** Dividing every weight by the total divides their sum by it. */
  lemma {:induction false} SumScaled(ws: seq<real>, total: real)
    requires total != 0.0
    ensures SumReals(Probabilities(ws, total)) == SumReals(ws) / total
  {
    if ws != [] {
      var init := ws[..|ws| - 1];
      assert Probabilities(ws, total)[..|ws| - 1] == Probabilities(init, total);
      SumScaled(init, total);
    }
  }

  /** The probabilities the draws are made with add up to one. */
  lemma ProbabilitiesSumToOne(ws: seq<real>)
    requires ws != [] && forall i :: 0 <= i < |ws| ==> ws[i] > 0.0
    ensures SumReals(ws) > 0.0 && SumReals(Probabilities(ws, SumReals(ws))) == 1.0
  {
    TotalPositive(ws);
    var t := SumReals(ws);
    SumScaled(ws, t);
    DivSelf(t);
  }

  lemma DivSelf(t: real)
    requires t != 0.0
    ensures t / t == 1.0
  {
  }

  /** The users drawn: `k` picks with replacement. */
  function Drawn(cs: seq<Candidate>, k: nat, draw: nat -> nat): (ids: seq<int>)
    requires cs != []
    ensures |ids| == k
    ensures forall i :: 0 <= i < k ==> ids[i] == cs[draw(i) % |cs|].userId
  {
    seq(k, i requires 0 <= i < k => cs[draw(i) % |cs|].userId)
  }

  /** `list(dict.fromkeys(xs))`: each value once, where it first occurs. */
  function Dedup(xs: seq<int>): (r: seq<int>)
    ensures |r| <= |xs|
    ensures forall x :: x in r <==> x in xs
    ensures forall i, j :: 0 <= i < j < |r| ==> r[i] != r[j]
  {
    if xs == [] then []
    else
      var init := Dedup(xs[..|xs| - 1]);
      if xs[|xs| - 1] in init then init else init + [xs[|xs| - 1]]
  }

  /** The position of a value's first occurrence. */
  function FirstIndex(xs: seq<int>, x: int): (i: nat)
    requires x in xs
    ensures i < |xs| && xs[i] == x && forall j :: 0 <= j < i ==> xs[j] != x
  {
    if xs[0] == x then 0 else 1 + FirstIndex(xs[1..], x)
  }

  lemma {:induction false} FirstIndexInPrefix(xs: seq<int>, n: nat, x: int)
    requires n <= |xs| && x in xs[..n]
    ensures FirstIndex(xs, x) == FirstIndex(xs[..n], x)
  {
    var j := FirstIndex(xs[..n], x);
    assert xs[..n][j] == xs[j];
    assert forall m :: 0 <= m < j ==> xs[..n][m] == xs[m];
  }

  /** The kept values appear in the order of their first draw. */
  lemma {:induction false} DedupKeepsFirstOrder(xs: seq<int>)
    ensures forall i, j :: 0 <= i < j < |Dedup(xs)| ==> FirstIndex(xs, Dedup(xs)[i]) < FirstIndex(xs, Dedup(xs)[j])
  {
    if xs != [] {
      var init := xs[..|xs| - 1];
      var x := xs[|xs| - 1];
      DedupKeepsFirstOrder(init);
      var r := Dedup(xs);
      var r0 := Dedup(init);
      assert init == xs[..|init|];
      forall i, j | 0 <= i < j < |r| ensures FirstIndex(xs, r[i]) < FirstIndex(xs, r[j]) {
        assert r[i] == r0[i] && r0[i] in r0;
        FirstInInit(xs, r0[i]);
        if j < |r0| {
          assert r[j] == r0[j] && r0[j] in r0;
          FirstInInit(xs, r0[j]);
          assert FirstIndex(init, r0[i]) < FirstIndex(init, r0[j]);
          assert FirstIndex(xs, r[i]) < FirstIndex(xs, r[j]);
        } else {
          assert r == r0 + [x] && x !in r0;
          FirstIndexOfLast(xs);
          assert FirstIndex(xs, r[j]) == |init|;
          assert FirstIndex(xs, r[i]) < FirstIndex(xs, r[j]);
        }
      }
    }
  }

  lemma FirstInInit(xs: seq<int>, y: int)
    requires xs != [] && y in xs[..|xs| - 1]
    ensures FirstIndex(xs, y) == FirstIndex(xs[..|xs| - 1], y) < |xs| - 1
  {
    FirstIndexInPrefix(xs, |xs| - 1, y);
  }

  lemma FirstIndexOfLast(xs: seq<int>)
    requires xs != [] && xs[|xs| - 1] !in xs[..|xs| - 1]
    ensures FirstIndex(xs, xs[|xs| - 1]) == |xs| - 1
  {
  }

  /** What `weighted_lottery` returns: nothing without pending requests; otherwise the
      distinct winners of `min(slots, n)` draws, cut to `slots`. */
  function Lottery(cs: seq<Candidate>, slots: int, draw: nat -> nat): seq<int> {
    if cs == [] then [] else PyPrefix(Dedup(Drawn(cs, Max(0, Min(slots, |cs|)), draw)), slots)
  }

  /** The winners are distinct pending users, no more than `slots`; with a free slot and a
      pending request someone wins; and the final cut never removes anyone, since there are
      never more distinct winners than draws. */
  lemma LotteryBounds(cs: seq<Candidate>, slots: int, draw: nat -> nat)
    ensures var r := Lottery(cs, slots, draw);
      && |r| <= Max(0, slots)
      && (forall i, j :: 0 <= i < j < |r| ==> r[i] != r[j])
      && (forall u :: u in r ==> exists c :: c in cs && c.userId == u)
      && (cs != [] && slots >= 1 ==> |r| >= 1)
      && (cs != [] && slots >= 0 ==> r == Dedup(Drawn(cs, Max(0, Min(slots, |cs|)), draw)))
  {
    if cs != [] {
      var k := Max(0, Min(slots, |cs|));
      var d := Dedup(Drawn(cs, k, draw));
      var r := Lottery(cs, slots, draw);
      forall u | u in r ensures exists c :: c in cs && c.userId == u {
        assert u in d;
        var i :| 0 <= i < k && Drawn(cs, k, draw)[i] == u;
        assert cs[draw(i) % |cs|] in cs;
      }
      if slots >= 1 {
        assert Drawn(cs, k, draw)[0] in d;
      }
    }
  }

  /** `weighted_lottery` on the candidates the query returned. */
  method WeightedLottery(cs: seq<Candidate>, slots: int, draw: nat -> nat) returns (chosen: seq<int>)
    requires forall c :: c in cs ==> c.pickups.GetOr(0) >= 0
    ensures chosen == Lottery(cs, slots, draw)
  {
    if cs == [] {
      return [];
    }
    var weights := Weights(cs);
    var total := SumReals(weights);
    TotalPositive(weights);
    var probs := Probabilities(weights, total);
    var k := Min(slots, |cs|);
    var drawn: seq<int> := [];
    var i := 0;
    while i < k
      invariant 0 <= i <= Max(0, k) && |drawn| == i
      invariant forall j :: 0 <= j < i ==> drawn[j] == cs[draw(j) % |cs|].userId
    {
      drawn := drawn + [cs[draw(i) % |probs|].userId];
      i := i + 1;
    }
    assert drawn == Drawn(cs, Max(0, k), draw);
    chosen := PyPrefix(Dedup(drawn), slots);
  }
}
