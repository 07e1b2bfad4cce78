/** Donation routing (apps/api/services/donation_routing_service.py): which nearby food banks
    can be reached in time, how they are ranked, and how the donated units are split among
    them, capacity by capacity. */
module DonationRouting {
  import opened Wrappers
  import opened Bson

  const DefaultMaxMinutes: real := 20.0
  const DefaultTopK: int := 5

  /** An active food bank as the nearby-bank query returns it. */
  datatype FoodBank = FoodBank(
    id: ObjectId,
    name: Option<string>,
    address: Option<string>,
    needWeight: Option<real>,
    capacityDaily: Option<int>,
    lng: real,
    lat: real)

  /** A food bank together with the fields routing adds: its id as a string, the driving
      time (absent when no route is known) and, once ranked, its score. */
  datatype Candidate = Candidate(
    bank: FoodBank,
    id: string,
    durationSeconds: Option<real>,
    durationMinutes: Option<real>,
    score: Option<real>)

  /** A bank reached in `seconds` of driving. */
  function Routed(bank: FoodBank, seconds: real): Candidate {
    Candidate(bank, IdString(bank.id), Some(seconds), Some(seconds / 60.0), None)
  }

  /** A bank taken without routing. */
  function Unrouted(bank: FoodBank): Candidate {
    Candidate(bank, IdString(bank.id), None, None, None)
  }

  predicate InTime(d: Option<real>, maxMinutes: real) {
    d.Some? && d.value / 60.0 <= maxMinutes
  }

  /** The banks among the first `n` that have a route no longer than `maxMinutes`, in order. */
  function Reachable(nearby: seq<FoodBank>, durations: seq<Option<real>>, maxMinutes: real, n: nat)
    : seq<Candidate>
    requires n <= |nearby| && n <= |durations|
  {
    if n == 0 then []
    else
      Reachable(nearby, durations, maxMinutes, n - 1)
        + (if InTime(durations[n - 1], maxMinutes) then [Routed(nearby[n - 1], durations[n - 1].value)] else [])
  }

  /** A candidate is reachable exactly when it is the routed form of a bank whose route takes
      at most `maxMinutes`. */
  lemma {:induction false} ReachableMembers(nearby: seq<FoodBank>, durations: seq<Option<real>>, maxMinutes: real, n: nat)
    requires n <= |nearby| && n <= |durations|
    ensures forall c :: c in Reachable(nearby, durations, maxMinutes, n) <==>
      exists i :: 0 <= i < n && InTime(durations[i], maxMinutes) && c == Routed(nearby[i], durations[i].value)
    ensures |Reachable(nearby, durations, maxMinutes, n)| <= n
  {
    if n > 0 {
      ReachableMembers(nearby, durations, maxMinutes, n - 1);
    }
  }

  /** Every reachable candidate carries a driving time within the limit. */
  lemma ReachableInTime(nearby: seq<FoodBank>, durations: seq<Option<real>>, maxMinutes: real, n: nat)
    requires n <= |nearby| && n <= |durations|
    ensures forall c :: c in Reachable(nearby, durations, maxMinutes, n) ==>
      c.durationMinutes.Some? && c.durationMinutes.value <= maxMinutes
  {
    ReachableMembers(nearby, durations, maxMinutes, n);
  }

  /** The first `topK` banks, taken without routing. */
  function Fallback(nearby: seq<FoodBank>, topK: int): seq<Candidate> {
    var first := PyPrefix(nearby, topK);
    seq(|first|, i requires 0 <= i < |first| => Unrouted(first[i]))
  }

  predicate AnyRoute(durations: seq<Option<real>>) {
    exists i :: 0 <= i < |durations| && durations[i].Some?
  }

  /** What `pick_candidates` answers once the nearby banks (`nearby`) and their driving
      times (`durations`, one per bank) are known. No bank nearby: nothing, with routing
      counted as used. Otherwise routing was used when some time came back; then the banks
      within `maxMinutes`, else the first `topK` banks without times; at most `topK` either
      way. */
  function Picked(nearby: seq<FoodBank>, durations: seq<Option<real>>, topK: int, maxMinutes: real)
    : (r: (seq<Candidate>, bool))
    requires |durations| == |nearby|
    ensures nearby == [] ==> r == ([], true)
    ensures nearby != [] ==> r.1 == AnyRoute(durations)
    ensures topK >= 0 ==> |r.0| <= topK
    ensures |r.0| <= |nearby|
    ensures r.1 ==> forall c :: c in r.0 ==>
      && InTime(c.durationSeconds, maxMinutes) && c.durationSeconds in durations
      && c.durationMinutes == Some(c.durationSeconds.value / 60.0)
    ensures !r.1 ==> forall c :: c in r.0 ==> c.durationMinutes.None? && c.bank in nearby
  {
    if nearby == [] then ([], true)
    else if AnyRoute(durations) then
      RoutedPickSound(nearby, durations, topK, maxMinutes);
      (PyPrefix(Reachable(nearby, durations, maxMinutes, |nearby|), topK), true)
    else
      FallbackPickSound(nearby, topK);
      (PyPrefix(Fallback(nearby, topK), topK), false)
  }

  lemma PrefixMembers<T>(s: seq<T>, k: int)
    ensures forall x :: x in PyPrefix(s, k) ==> x in s
    ensures k >= 0 ==> |PyPrefix(s, k)| <= k
    ensures |PyPrefix(s, k)| <= |s|
  {
  }

  /** The routed pick: at most `topK` banks, each within the time limit. */
  lemma RoutedPickSound(nearby: seq<FoodBank>, durations: seq<Option<real>>, topK: int, maxMinutes: real)
    requires |durations| == |nearby|
    ensures var r := PyPrefix(Reachable(nearby, durations, maxMinutes, |nearby|), topK);
      && (topK >= 0 ==> |r| <= topK) && |r| <= |nearby|
      && forall c :: c in r ==>
        && InTime(c.durationSeconds, maxMinutes) && c.durationSeconds in durations
        && c.durationMinutes == Some(c.durationSeconds.value / 60.0)
  {
    var all := Reachable(nearby, durations, maxMinutes, |nearby|);
    ReachableMembers(nearby, durations, maxMinutes, |nearby|);
    PrefixMembers(all, topK);
    forall c | c in all
      ensures InTime(c.durationSeconds, maxMinutes) && c.durationSeconds in durations
      ensures c.durationMinutes == Some(c.durationSeconds.value / 60.0)
    {
      var i :| 0 <= i < |nearby| && InTime(durations[i], maxMinutes) && c == Routed(nearby[i], durations[i].value);
      assert c.durationSeconds == durations[i];
    }
  }

  /** The fallback pick: at most `topK` nearby banks, none with a driving time. */
  lemma FallbackPickSound(nearby: seq<FoodBank>, topK: int)
    ensures var r := PyPrefix(Fallback(nearby, topK), topK);
      && (topK >= 0 ==> |r| <= topK) && |r| <= |nearby|
      && forall c :: c in r ==> c.durationMinutes.None? && c.bank in nearby
  {
    var all := Fallback(nearby, topK);
    var first := PyPrefix(nearby, topK);
    PrefixMembers(all, topK);
    PrefixMembers(nearby, topK);
    forall c | c in all ensures c.durationMinutes.None? && c.bank in nearby {
      var i :| 0 <= i < |all| && all[i] == c;
      assert c.bank == first[i];
    }
  }

  /** `pick_candidates` after the nearby-bank query. */
  method PickCandidates(nearby: seq<FoodBank>, durations: seq<Option<real>>, topK: int, maxMinutes: real)
    returns (candidates: seq<Candidate>, routingUsed: bool)
    requires |durations| == |nearby|
    ensures (candidates, routingUsed) == Picked(nearby, durations, topK, maxMinutes)
  {
    if nearby == [] {
      return [], true;
    }
    routingUsed := false;
    var j := 0;
    while j < |durations|
      invariant 0 <= j <= |durations|
      invariant routingUsed <==> exists i :: 0 <= i < j && durations[i].Some?
    {
      routingUsed := routingUsed || durations[j].Some?;
      j := j + 1;
    }
    assert routingUsed == AnyRoute(durations);
    var all: seq<Candidate> := [];
    if routingUsed {
      var i := 0;
      while i < |nearby|
        invariant 0 <= i <= |nearby|
        invariant all == Reachable(nearby, durations, maxMinutes, i)
      {
        if durations[i].Some? {
          var minutes := durations[i].value / 60.0;
          if minutes <= maxMinutes {
            all := all + [Routed(nearby[i], durations[i].value)];
          }
        }
        i := i + 1;
      }
    } else {
      var first := PyPrefix(nearby, topK);
      var i := 0;
      while i < |first|
        invariant 0 <= i <= |first| && |all| == i
        invariant forall k :: 0 <= k < i ==> all[k] == Unrouted(first[k])
      {
        all := all + [Unrouted(first[i])];
        i := i + 1;
      }
      assert all == Fallback(nearby, topK);
    }
    candidates := PyPrefix(all, topK);
  }

  /** The key candidates are ranked by. */
  function Key(c: Candidate): real {
    c.score.GetOr(0.0)
  }

  /** `need_weight / (duration_minutes + 1)`, or the need alone without a duration; the need
      defaults to 1. */
  function ScoreOf(c: Candidate): real
    requires c.durationMinutes != Some(-1.0)
  {
    var need := c.bank.needWeight.GetOr(1.0);
    if c.durationMinutes.None? then need else need / (c.durationMinutes.value + 1.0)
  }

  predicate SortedDesc(s: seq<Candidate>) {
    forall i, j :: 0 <= i < j < |s| ==> Key(s[i]) >= Key(s[j])
  }

  /** The entries of `s` whose key is `k`, in order. */
  function WithKey(s: seq<Candidate>, k: real): seq<Candidate> {
    if s == [] then []
    else (if Key(s[0]) == k then [s[0]] else []) + WithKey(s[1..], k)
  }

  /** `x` placed after every entry whose key is at least its own. */
  function Insert(x: Candidate, s: seq<Candidate>): seq<Candidate> {
    if s == [] then [x]
    else if Key(s[0]) >= Key(x) then [s[0]] + Insert(x, s[1..])
    else [x] + s
  }

  /** Python's stable `sorted(..., reverse=True)` by key: entries are placed one at a time in
      their original order, each after the ones with an equal key. */
  function SortDesc(s: seq<Candidate>): seq<Candidate> {
    if s == [] then [] else Insert(s[|s| - 1], SortDesc(s[..|s| - 1]))
  }

  /** Inserting adds exactly the inserted entry. */
  lemma {:induction false} InsertPermutes(x: Candidate, s: seq<Candidate>)
    ensures multiset(Insert(x, s)) == multiset(s) + multiset{x}
    decreases |s|
  {
    if s != [] && Key(s[0]) >= Key(x) {
      InsertPermutes(x, s[1..]);
      assert Insert(x, s) == [s[0]] + Insert(x, s[1..]);
      assert s == [s[0]] + s[1..];
    }
  }

  /** No entry of `s` has a key above `k`. */
  predicate KeysAtMost(s: seq<Candidate>, k: real) {
    forall i :: 0 <= i < |s| ==> Key(s[i]) <= k
  }

  lemma {:induction false} InsertBounded(x: Candidate, s: seq<Candidate>, k: real)
    requires KeysAtMost(s, k) && Key(x) <= k
    ensures KeysAtMost(Insert(x, s), k)
    decreases |s|
  {
    if s != [] && Key(s[0]) >= Key(x) {
      InsertBounded(x, s[1..], k);
      assert Insert(x, s) == [s[0]] + Insert(x, s[1..]);
    }
  }

  lemma {:induction false} InsertSorted(x: Candidate, s: seq<Candidate>)
    requires SortedDesc(s)
    ensures SortedDesc(Insert(x, s))
    decreases |s|
  {
    if s == [] {
    } else if Key(s[0]) >= Key(x) {
      var rest := Insert(x, s[1..]);
      assert SortedDesc(s[1..]);
      InsertSorted(x, s[1..]);
      assert KeysAtMost(s[1..], Key(s[0]));
      InsertBounded(x, s[1..], Key(s[0]));
      assert Insert(x, s) == [s[0]] + rest;
    } else {
      assert Insert(x, s) == [x] + s;
    }
  }

  lemma {:induction false} WithKeyAppend(a: seq<Candidate>, b: seq<Candidate>, k: real)
    ensures WithKey(a + b, k) == WithKey(a, k) + WithKey(b, k)
    decreases |a|
  {
    if a == [] {
      assert a + b == b;
    } else {
      var head := if Key(a[0]) == k then [a[0]] else [];
      assert (a + b)[0] == a[0];
      assert (a + b)[1..] == a[1..] + b;
      WithKeyAppend(a[1..], b, k);
      assert WithKey(a + b, k) == head + (WithKey(a[1..], k) + WithKey(b, k));
      assert WithKey(a, k) == head + WithKey(a[1..], k);
      assert head + (WithKey(a[1..], k) + WithKey(b, k)) == (head + WithKey(a[1..], k)) + WithKey(b, k);
    }
  }

  /** In a ranking, no entry has a key above the first one's. */
  lemma {:induction false} NoKeyAboveFirst(s: seq<Candidate>, k: real)
    requires SortedDesc(s) && s != [] && Key(s[0]) < k
    ensures WithKey(s, k) == []
    decreases |s|
  {
    if |s| > 1 {
      assert Key(s[1]) <= Key(s[0]);
      assert SortedDesc(s[1..]);
      NoKeyAboveFirst(s[1..], k);
    }
  }

  /** Ties are kept when the inserted entry goes after the head. */
  lemma TiesPastHead(x: Candidate, s: seq<Candidate>, k: real)
    requires s != [] && Key(s[0]) >= Key(x)
    requires WithKey(Insert(x, s[1..]), k) == WithKey(s[1..], k) + (if Key(x) == k then [x] else [])
    ensures WithKey(Insert(x, s), k) == WithKey(s, k) + (if Key(x) == k then [x] else [])
  {
    var head := if Key(s[0]) == k then [s[0]] else [];
    var tail := if Key(x) == k then [x] else [];
    assert Insert(x, s) == [s[0]] + Insert(x, s[1..]);
    assert WithKey(Insert(x, s), k) == head + WithKey(Insert(x, s[1..]), k);
    assert WithKey(s, k) == head + WithKey(s[1..], k);
    assert head + (WithKey(s[1..], k) + tail) == (head + WithKey(s[1..], k)) + tail;
  }

  /** Ties are kept when the inserted entry goes first. */
  lemma TiesBeforeHead(x: Candidate, s: seq<Candidate>, k: real)
    requires SortedDesc(s) && s != [] && Key(s[0]) < Key(x)
    ensures WithKey(Insert(x, s), k) == WithKey(s, k) + (if Key(x) == k then [x] else [])
  {
    assert Insert(x, s) == [x] + s;
    assert ([x] + s)[1..] == s;
    if Key(x) == k {
      // every entry of s has a key below Key(x)
      NoKeyAboveFirst(s, k);
    }
  }

  lemma {:induction false} InsertKeepsTies(x: Candidate, s: seq<Candidate>, k: real)
    requires SortedDesc(s)
    ensures WithKey(Insert(x, s), k) == WithKey(s, k) + (if Key(x) == k then [x] else [])
    decreases |s|
  {
    if s == [] {
    } else if Key(s[0]) >= Key(x) {
      assert SortedDesc(s[1..]);
      InsertKeepsTies(x, s[1..], k);
      TiesPastHead(x, s, k);
    } else {
      TiesBeforeHead(x, s, k);
    }
  }

  /** The insertion step keeps the ties of `init + [last]` in order. */
  lemma SortStepKeepsTies(init: seq<Candidate>, last: Candidate, k: real)
    requires SortedDesc(SortDesc(init)) && WithKey(SortDesc(init), k) == WithKey(init, k)
    ensures WithKey(Insert(last, SortDesc(init)), k) == WithKey(init + [last], k)
  {
    InsertKeepsTies(last, SortDesc(init), k);
    WithKeyAppend(init, [last], k);
    assert WithKey([last], k) == (if Key(last) == k then [last] else []) by {
      assert [last][1..] == [];
    }
  }

  /** The ranking is sorted by descending score. */
  lemma {:induction false} SortDescSorted(s: seq<Candidate>)
    ensures SortedDesc(SortDesc(s))
    decreases |s|
  {
    if s != [] {
      SortDescSorted(s[..|s| - 1]);
      InsertSorted(s[|s| - 1], SortDesc(s[..|s| - 1]));
    }
  }

  /** The ranking holds the same candidates. */
  lemma {:induction false} SortDescPermutes(s: seq<Candidate>)
    ensures multiset(SortDesc(s)) == multiset(s)
    decreases |s|
  {
    if s != [] {
      var init := s[..|s| - 1];
      var last := s[|s| - 1];
      SortDescPermutes(init);
      InsertPermutes(last, SortDesc(init));
      calc {
        multiset(SortDesc(s));
        multiset(Insert(last, SortDesc(init)));
        multiset(init) + multiset{last};
        { assert s == init + [last]; }
        multiset(s);
      }
    }
  }

  /** The ranking keeps candidates with equal scores in their original order. */
  lemma {:induction false} SortDescKeepsTies(s: seq<Candidate>, k: real)
    ensures WithKey(SortDesc(s), k) == WithKey(s, k)
    decreases |s|
  {
    if s != [] {
      var init := s[..|s| - 1];
      var last := s[|s| - 1];
      SortDescKeepsTies(init, k);
      SortDescSorted(init);
      SortStepKeepsTies(init, last, k);
      assert s == init + [last];
    }
  }

  /** Scoring divides by the duration plus one, so no duration may be -1 minute. */
  predicate Scorable(candidates: seq<Candidate>) {
    forall i :: 0 <= i < |candidates| ==> candidates[i].durationMinutes != Some(-1.0)
  }

  /** Every candidate with its score. */
  function Scored(candidates: seq<Candidate>): (r: seq<Candidate>)
    requires Scorable(candidates)
    ensures |r| == |candidates|
    ensures forall i :: 0 <= i < |r| ==> r[i] == candidates[i].(score := Some(ScoreOf(candidates[i])))
  {
    seq(|candidates|, i requires 0 <= i < |candidates| => candidates[i].(score := Some(ScoreOf(candidates[i]))))
  }

  /** The scored candidates ranked by descending score: the same candidates, sorted, with
      equal scores in their original order. */
  function Ranked(candidates: seq<Candidate>): (r: seq<Candidate>)
    requires Scorable(candidates)
    ensures SortedDesc(r) && multiset(r) == multiset(Scored(candidates)) && |r| == |candidates|
    ensures forall k :: WithKey(r, k) == WithKey(Scored(candidates), k)
  {
    SortDescSorted(Scored(candidates));
    SortDescPermutes(Scored(candidates));
    forall k ensures WithKey(SortDesc(Scored(candidates)), k) == WithKey(Scored(candidates), k) {
      SortDescKeepsTies(Scored(candidates), k);
    }
    assert |multiset(SortDesc(Scored(candidates)))| == |multiset(Scored(candidates))|;
    SortDesc(Scored(candidates))
  }

  /** `score_candidates`: every candidate gets its score, then the list is ranked. */
  method ScoreCandidates(candidates: seq<Candidate>) returns (ranked: seq<Candidate>)
    requires Scorable(candidates)
    ensures ranked == Ranked(candidates)
  {
    var scored: seq<Candidate> := [];
    var i := 0;
    while i < |candidates|
      invariant 0 <= i <= |candidates| && |scored| == i
      invariant forall k :: 0 <= k < i ==> scored[k] == candidates[k].(score := Some(ScoreOf(candidates[k])))
    {
      var c := candidates[i];
      var need := c.bank.needWeight.GetOr(1.0);
      var score := if c.durationMinutes.None? then need else need / (c.durationMinutes.value + 1.0);
      scored := scored + [c.(score := Some(score))];
      i := i + 1;
    }
    assert scored == Scored(candidates);
    ranked := SortDesc(scored);
  }

  /** One planned delivery. */
  datatype Allocation = Allocation(
    foodBankId: string,
    name: string,
    address: string,
    qty: int,
    durationMinutes: Option<real>,
    score: Option<real>)

  /** The capacity that limits a candidate: the override given for its id (which may say
      "no limit"), else its `capacity_daily`, else none. An absent override table is the
      empty map. */
  function Capacity(c: Candidate, capacities: map<string, Option<int>>): (r: Option<int>)
    ensures c.id in capacities ==> r == capacities[c.id]
    ensures c.id !in capacities ==> r == c.bank.capacityDaily
  {
    if c.id in capacities then capacities[c.id] else c.bank.capacityDaily
  }

  function AllocationOf(c: Candidate, qty: int): Allocation {
    Allocation(c.id, c.bank.name.GetOr("Unknown"), c.bank.address.GetOr(""), qty, c.durationMinutes, c.score)
  }

  /** The allocation rule: walk the ranking while units remain; each candidate takes what
      remains, up to its capacity, and one that would take nothing is passed over. */
  function Allocate(remaining: int, ranked: seq<Candidate>, capacities: map<string, Option<int>>): seq<Allocation>
    decreases |ranked|
  {
    if remaining <= 0 || ranked == [] then []
    else
      var cap := Capacity(ranked[0], capacities);
      var alloc := if cap.Some? then Min(remaining, cap.value) else remaining;
      if alloc <= 0 then Allocate(remaining, ranked[1..], capacities)
      else [AllocationOf(ranked[0], alloc)] + Allocate(remaining - alloc, ranked[1..], capacities)
  }

  function TotalQty(a: seq<Allocation>): int {
    if a == [] then 0 else a[0].qty + TotalQty(a[1..])
  }

  /** How many units the candidates can take together: the sum of their positive capacities,
      or no bound (`None`) as soon as one of them has no capacity. */
  function Room(ranked: seq<Candidate>, capacities: map<string, Option<int>>): (r: Option<int>)
    ensures r.Some? ==> r.value >= 0
  {
    if ranked == [] then Some(0)
    else
      match Capacity(ranked[0], capacities)
      case None => None
      case Some(k) =>
        match Room(ranked[1..], capacities)
        case None => None
        case Some(rest) => Some(Max(k, 0) + rest)
  }

  /** The total allocated is the donation, capped by the room the candidates have: it never
      exceeds the donation, and all of it is placed once an uncapped candidate is reached. */
  lemma {:induction false} AllocateTotal(donationQty: int, ranked: seq<Candidate>, capacities: map<string, Option<int>>)
    requires donationQty >= 0
    ensures var total := TotalQty(Allocate(donationQty, ranked, capacities));
      total == (match Room(ranked, capacities) case None => donationQty case Some(r) => Min(donationQty, r))
    decreases |ranked|
  {
    if donationQty > 0 && ranked != [] {
      var cap := Capacity(ranked[0], capacities);
      var alloc := if cap.Some? then Min(donationQty, cap.value) else donationQty;
      if alloc <= 0 {
        AllocateTotal(donationQty, ranked[1..], capacities);
      } else {
        AllocateTotal(donationQty - alloc, ranked[1..], capacities);
      }
    }
  }

  lemma AllocateNeverExceeds(donationQty: int, ranked: seq<Candidate>, capacities: map<string, Option<int>>)
    ensures 0 <= TotalQty(Allocate(donationQty, ranked, capacities)) <= Max(donationQty, 0)
    ensures Room(ranked, capacities).None? && donationQty >= 0 ==> TotalQty(Allocate(donationQty, ranked, capacities)) == donationQty
  {
    if donationQty >= 0 {
      AllocateTotal(donationQty, ranked, capacities);
    }
  }

  /** `a` is drawn from `ranked` in order: each entry is the allocation of a distinct
      candidate, later entries from later candidates, with a positive quantity within that
      candidate's capacity. */
  predicate DrawnInOrder(a: seq<Allocation>, ranked: seq<Candidate>, capacities: map<string, Option<int>>)
    decreases |ranked|
  {
    if a == [] then true
    else if ranked == [] then false
    else
      var cap := Capacity(ranked[0], capacities);
      (&& a[0] == AllocationOf(ranked[0], a[0].qty) && a[0].qty > 0
       && (cap.Some? ==> a[0].qty <= cap.value)
       && DrawnInOrder(a[1..], ranked[1..], capacities))
      || DrawnInOrder(a, ranked[1..], capacities)
  }

  /** Allocations follow the ranking, each names a candidate, and each quantity is positive
      and within the capacity that applies (the override before `capacity_daily`). */
  lemma {:induction false} AllocateDrawnInOrder(remaining: int, ranked: seq<Candidate>, capacities: map<string, Option<int>>)
    ensures DrawnInOrder(Allocate(remaining, ranked, capacities), ranked, capacities)
    decreases |ranked|
  {
    if remaining > 0 && ranked != [] {
      var cap := Capacity(ranked[0], capacities);
      var alloc := if cap.Some? then Min(remaining, cap.value) else remaining;
      if alloc <= 0 {
        AllocateDrawnInOrder(remaining, ranked[1..], capacities);
      } else {
        AllocateDrawnInOrder(remaining - alloc, ranked[1..], capacities);
      }
    }
  }

  /** Each allocation has a positive quantity no larger than the donation. */
  lemma {:induction false} AllocationsPositive(remaining: int, ranked: seq<Candidate>, capacities: map<string, Option<int>>)
    ensures forall a :: a in Allocate(remaining, ranked, capacities) ==> 0 < a.qty <= remaining
    ensures |Allocate(remaining, ranked, capacities)| <= |ranked|
    decreases |ranked|
  {
    if remaining > 0 && ranked != [] {
      var cap := Capacity(ranked[0], capacities);
      var alloc := if cap.Some? then Min(remaining, cap.value) else remaining;
      if alloc <= 0 {
        AllocationsPositive(remaining, ranked[1..], capacities);
      } else {
        AllocationsPositive(remaining - alloc, ranked[1..], capacities);
      }
    }
  }

  /** With no capacity on the best candidate, it takes every unit. */
  lemma TopUncappedTakesAll(donationQty: int, ranked: seq<Candidate>, capacities: map<string, Option<int>>)
    requires donationQty > 0 && ranked != [] && Capacity(ranked[0], capacities).None?
    ensures Allocate(donationQty, ranked, capacities) == [AllocationOf(ranked[0], donationQty)]
  {
    assert Allocate(0, ranked[1..], capacities) == [];
  }

  /** `allocate_units`. */
  method AllocateUnits(donationQty: int, ranked: seq<Candidate>, capacities: map<string, Option<int>>)
    returns (allocations: seq<Allocation>)
    ensures allocations == Allocate(donationQty, ranked, capacities)
  {
    allocations := [];
    var remaining := donationQty;
    var i := 0;
    while i < |ranked|
      invariant 0 <= i <= |ranked|
      invariant allocations + Allocate(remaining, ranked[i..], capacities) == Allocate(donationQty, ranked, capacities)
    {
      if remaining <= 0 {
        break;
      }
      var bank := ranked[i];
      var capacity := Capacity(bank, capacities);
      var alloc := if capacity.Some? then Min(remaining, capacity.value) else remaining;
      assert ranked[i..][1..] == ranked[i + 1..];
      if alloc <= 0 {
        assert Allocate(remaining, ranked[i..], capacities) == Allocate(remaining, ranked[i + 1..], capacities);
        i := i + 1;
        continue;
      }
      ghost var rest := Allocate(remaining - alloc, ranked[i + 1..], capacities);
      assert Allocate(remaining, ranked[i..], capacities) == [AllocationOf(bank, alloc)] + rest;
      assert allocations + ([AllocationOf(bank, alloc)] + rest) == (allocations + [AllocationOf(bank, alloc)]) + rest;
      allocations := allocations + [AllocationOf(bank, alloc)];
      remaining := remaining - alloc;
      i := i + 1;
    }
    assert Allocate(remaining, ranked[i..], capacities) == [];
  }

  /** What the routing service answers for one listing: the nearby active banks and, one per
      bank, the driving time in seconds (absent when no route came back). Driving times are
      never negative. */
  datatype RoutingAnswer = RoutingAnswer(nearby: seq<FoodBank>, durations: seq<Option<real>>)

  predicate WellFormedAnswer(a: RoutingAnswer) {
    && |a.durations| == |a.nearby|
    && forall i :: 0 <= i < |a.durations| && a.durations[i].Some? ==> a.durations[i].value >= 0.0
  }

  /** The candidates, whether routing was used, and the allocations of `donationQty` units. */
  datatype RoutingPlan = RoutingPlan(candidates: seq<Candidate>, routingUsed: bool, allocations: seq<Allocation>)

  /** The whole routing pipeline: pick, rank, allocate (with no capacity overrides). */
  function Plan(answer: RoutingAnswer, donationQty: int, topK: int, maxMinutes: real): (p: RoutingPlan)
    requires WellFormedAnswer(answer)
    ensures var picked := Picked(answer.nearby, answer.durations, topK, maxMinutes);
      p.candidates == picked.0 && p.routingUsed == picked.1
    ensures Scorable(p.candidates) && p.allocations == Allocate(donationQty, Ranked(p.candidates), map[])
    ensures 0 <= TotalQty(p.allocations) <= Max(donationQty, 0)
    ensures forall a :: a in p.allocations ==> 0 < a.qty
    ensures |p.allocations| <= |p.candidates|
  {
    var picked := Picked(answer.nearby, answer.durations, topK, maxMinutes);
    assert Scorable(picked.0) by {
      forall i | 0 <= i < |picked.0| && picked.0[i].durationMinutes.Some?
        ensures picked.0[i].durationMinutes.value >= 0.0
      {
        assert picked.0[i] in picked.0;
      }
    }
    var ranked := Ranked(picked.0);
    AllocateNeverExceeds(donationQty, ranked, map[]);
    AllocationsPositive(donationQty, ranked, map[]);
    RoutingPlan(picked.0, picked.1, Allocate(donationQty, ranked, map[]))
  }

  /** Both endpoints' use of the service: pick the candidates and, when there are any,
      rank them and allocate `donationQty` units. */
  method RunPlan(answer: RoutingAnswer, donationQty: int, topK: int, maxMinutes: real)
    returns (candidates: seq<Candidate>, routingUsed: bool, allocations: seq<Allocation>)
    requires WellFormedAnswer(answer)
    ensures RoutingPlan(candidates, routingUsed, allocations) == Plan(answer, donationQty, topK, maxMinutes)
  {
    ghost var plan := Plan(answer, donationQty, topK, maxMinutes);
    candidates, routingUsed := PickCandidates(answer.nearby, answer.durations, topK, maxMinutes);
    assert candidates == plan.candidates;
    if candidates == [] {
      assert Ranked(candidates) == [];
      return candidates, routingUsed, [];
    }
    var ranked := ScoreCandidates(candidates);
    allocations := AllocateUnits(donationQty, ranked, map[]);
  }

  /** An optional number as stored. */
  function RealValue(o: Option<real>): Value {
    match o
    case Some(r) => VReal(r)
    case None => VNull
  }

  /** An allocation as stored in a listing's `donation_plan`. */
  function AllocationValue(a: Allocation): (v: Value)
    ensures v.VObj? && "food_bank_id" in v.fields && "qty" in v.fields
    ensures v.fields["food_bank_id"] == VStr(a.foodBankId) && v.fields["qty"] == VInt(a.qty)
  {
    VObj(map[
      "food_bank_id" := VStr(a.foodBankId),
      "name" := VStr(a.name),
      "address" := VStr(a.address),
      "qty" := VInt(a.qty),
      "duration_minutes" := RealValue(a.durationMinutes),
      "score" := RealValue(a.score)])
  }

  /** A listing's `donation_plan`. */
  function PlanValue(allocations: seq<Allocation>): (v: Value)
    ensures v.VList? && |v.items| == |allocations|
    ensures forall i :: 0 <= i < |allocations| ==> v.items[i] == AllocationValue(allocations[i])
  {
    VList(seq(|allocations|, i requires 0 <= i < |allocations| => AllocationValue(allocations[i])))
  }
}
