/** The OSRM client (apps/api/services/osrm_service.py): driving durations from one origin to
    many destinations through the Table service, or to one destination through the Route
    service. Each HTTP attempt's outcome is an input; how a coordinate is printed as text is
    a parameter. */
module Osrm {
  import opened Wrappers
  import opened Bson
  import Text

  /** Retries after the first attempt. */
  const Retries: int := 1

  /** The outcome of one GET: the decoded JSON body, a timeout, a refused connection, an
      HTTP error status, or an exception `_get` does not catch (a body that is not JSON,
      any other transport error). */
  datatype Attempt = Answered(body: Doc) | TimedOut | ConnectFailed | StatusError | Raised

  /** How a call ends: with its value, or with an exception that propagates to the caller
      (the request handler then answers 500). */
  datatype Call<+T> = Done(value: T) | Raises

  /** A point as (lng, lat). */
  type Point = (real, real)

  /** `_coord_str`: "lng,lat". */
  function CoordStr(show: real -> string, p: Point): (s: string)
    ensures s == show(p.0) + "," + show(p.1)
  {
    show(p.0) + "," + show(p.1)
  }

  /** The path segment of a Table request: the origin first, then every destination, joined
      by ";". */
  function TableCoords(show: real -> string, origin: Point, destinations: seq<Point>): (s: string)
  {
    Text.Join([CoordStr(show, origin)] + seq(|destinations|, i requires 0 <= i < |destinations| => CoordStr(show, destinations[i])), ";")
  }

  lemma CoordStrHasNoSemicolon(show: real -> string, p: Point)
    requires ';' !in show(p.0) && ';' !in show(p.1)
    ensures ';' !in CoordStr(show, p)
  {
    var s := CoordStr(show, p);
    forall i | 0 <= i < |s| ensures s[i] != ';' {
      if i < |show(p.0)| {
        assert s[i] == show(p.0)[i];
      } else if i > |show(p.0)| {
        assert s[i] == show(p.1)[i - |show(p.0)| - 1];
      }
    }
  }

  /** When no printed number contains ";", the request names the origin and then each
      destination, in order: splitting the path segment at ";" gives them back. */
  lemma TableCoordsSplit(show: real -> string, origin: Point, destinations: seq<Point>)
    requires forall x :: ';' !in show(x)
    ensures var parts := Text.Split(TableCoords(show, origin, destinations), ';');
      && |parts| == |destinations| + 1
      && parts[0] == CoordStr(show, origin)
      && forall i :: 0 <= i < |destinations| ==> parts[i + 1] == CoordStr(show, destinations[i])
  {
    var parts := [CoordStr(show, origin)] + seq(|destinations|, i requires 0 <= i < |destinations| => CoordStr(show, destinations[i]));
    forall k | 0 <= k < |parts| ensures ';' !in parts[k] {
      var q := if k == 0 then origin else destinations[k - 1];
      assert parts[k] == CoordStr(show, q);
      var lng, lat := q.0, q.1;
      assert ';' !in show(lng) && ';' !in show(lat);
      CoordStrHasNoSemicolon(show, q);
    }
    Text.SplitJoin(parts, ';');
  }

  /** What `_get` ends with after the attempts `outcomes` (one per attempt it may make): the
      first answered body; nothing after an HTTP error status, which is not retried; an
      uncaught exception; a timeout or a refused connection is retried until the attempts run
      out, and then nothing is returned. */
  function GetResult(outcomes: seq<Attempt>): (r: Call<Option<Doc>>)
  {
    if outcomes == [] then Done(None)
    else match outcomes[0]
      case Answered(body) => Done(Some(body))
      case StatusError => Done(None)
      case Raised => Raises
      case _ => GetResult(outcomes[1..])
  }

  /** An attempt after which `_get` makes no other. */
  predicate Final(a: Attempt) {
    a.Answered? || a.StatusError? || a.Raised?
  }

  /** The attempts `_get` makes: up to the first answer, HTTP error status or exception. */
  function AttemptsMade(outcomes: seq<Attempt>): (n: nat)
    ensures n <= |outcomes|
    ensures outcomes != [] ==> n >= 1
  {
    if outcomes == [] then 0
    else if Final(outcomes[0]) then 1
    else 1 + AttemptsMade(outcomes[1..])
  }

  /** How `_get` ends: every attempt before the last one made timed out or was refused; the
      last one made is the answer returned, the exception raised, an HTTP error status
      (nothing returned), or, when every attempt was used up that way, a timeout or refused
      connection (nothing returned). */
  lemma {:induction false} GetStops(outcomes: seq<Attempt>)
    requires outcomes != []
    ensures var n := AttemptsMade(outcomes);
      && (forall j :: 0 <= j < n - 1 ==> outcomes[j] == TimedOut || outcomes[j] == ConnectFailed)
      && (GetResult(outcomes).Raises? <==> outcomes[n - 1] == Raised)
      && (GetResult(outcomes) == Done(None) <==> !outcomes[n - 1].Answered? && outcomes[n - 1] != Raised)
      && (forall d :: GetResult(outcomes) == Done(Some(d)) <==> outcomes[n - 1] == Answered(d))
      && (n < |outcomes| ==> Final(outcomes[n - 1]))
  {
    if !Final(outcomes[0]) && |outcomes| > 1 {
      GetStops(outcomes[1..]);
      var n := AttemptsMade(outcomes);
      forall j | 0 <= j < n - 1 ensures outcomes[j] == TimedOut || outcomes[j] == ConnectFailed {
        if j > 0 { assert outcomes[j] == outcomes[1..][j - 1]; }
      }
      assert outcomes[n - 1] == outcomes[1..][n - 2];
    }
  }

  /** `_get`: at most `Retries + 1` attempts; an answer is returned at once, an HTTP error
      status ends the loop, another exception escapes, a timeout or refused connection moves
      on to the next attempt. */
  method Fetch(outcomes: seq<Attempt>) returns (r: Call<Option<Doc>>, attempts: nat)
    requires |outcomes| == Retries + 1
    ensures r == GetResult(outcomes) && attempts == AttemptsMade(outcomes)
    ensures 1 <= attempts <= Retries + 1
  {
    var attempt := 0;
    while attempt < Retries + 1
      invariant 0 <= attempt <= Retries + 1
      invariant GetResult(outcomes) == GetResult(outcomes[attempt..])
      invariant AttemptsMade(outcomes) == attempt + AttemptsMade(outcomes[attempt..])
    {
      assert outcomes[attempt..][1..] == outcomes[attempt + 1..];
      var outcome := outcomes[attempt];
      if outcome.Answered? {
        return Done(Some(outcome.body)), attempt + 1;
      } else if outcome.StatusError? {
        return Done(None), attempt + 1;
      } else if outcome.Raised? {
        return Raises, attempt + 1;
      }
      attempt := attempt + 1;
    }
    r, attempts := Done(None), attempt;
  }

  /** A duration cell of the answer: a number, or None for an unreachable destination. */
  function Seconds(v: Value): Option<real> {
    match v
    case VInt(i) => Some(i as real)
    case VReal(x) => Some(x)
    case _ => None
  }

  /** `len(v)`, for the values that have one: strings, lists and dicts. */
  function PyLen(v: Value): Option<nat> {
    match v
    case VStr(s) => Some(|s|)
    case VList(items) => Some(|items|)
    case VObj(fields) => Some(|fields|)
    case _ => None
  }

  /** `data.get("durations", [[]])[0]`: the row of the single source. Indexing at 0 raises on
      an empty list or string, on a dict (its keys are text) and on a scalar; the first item
      of a string is a one-character string. */
  function SourceRow(data: Doc): (r: Call<Value>)
    ensures "durations" !in data ==> r == Done(VList([]))
    ensures "durations" in data && data["durations"].VList? && data["durations"].items != [] ==>
      r == Done(data["durations"].items[0])
    ensures r.Raises? <==> ("durations" in data
      && !((data["durations"].VList? || data["durations"].VStr?) && Truthy(data["durations"])))
  {
    if "durations" !in data then Done(VList([]))
    else match data["durations"]
      case VList(rows) => if rows == [] then Raises else Done(rows[0])
      case VStr(s) => if s == "" then Raises else Done(VStr([s[0]]))
      case _ => Raises
  }

  /** `[row[i + 1] if i + 1 < len(row) else None for i in range(n)]`. The first pass takes
      `len(row)`, which raises on a value without a length, and `row[1]` on a dict raises,
      its keys being text; a list cell is read as seconds, and a one-character string is not
      a number. */
  function RowDurations(row: Value, n: nat): (r: Call<seq<Option<real>>>)
    ensures r.Done? ==> |r.value| == n
    ensures r.Raises? <==> n > 0 && (PyLen(row).None? || (row.VObj? && |row.fields| > 1))
    ensures row.VList? ==> r.Done? && forall i :: 0 <= i < n ==>
      r.value[i] == if i + 1 < |row.items| then Seconds(row.items[i + 1]) else None
    ensures r.Done? && !row.VList? ==> forall i :: 0 <= i < n ==> r.value[i].None?
  {
    if n == 0 then Done([])
    else match row
      case VList(items) => Done(seq(n, i requires 0 <= i < n => if i + 1 < |items| then Seconds(items[i + 1]) else None))
      case VStr(_) => Done(seq(n, i => None))
      case VObj(fields) => if |fields| > 1 then Raises else Done(seq(n, i => None))
      case _ => Raises
  }

  predicate IsOk(data: Option<Doc>) {
    data.Some? && Get(data.value, "code") == VStr("Ok")
  }

  /** The durations `table_durations` reports for `n` destinations from what `_get` returned:
      n times None on failure or a code other than "Ok", and also when the answer has no
      `durations`; otherwise entry i is the row's cell i + 1 (cell 0 is the origin itself)
      when the row is that long, else None. A malformed `durations` can raise. */
  function TableResult(n: nat, data: Option<Doc>): (r: Call<seq<Option<real>>>)
    ensures r.Done? ==> |r.value| == n
    ensures !IsOk(data) || "durations" !in data.value ==> r.Done? && forall i :: 0 <= i < n ==> r.value[i].None?
    ensures (IsOk(data) && "durations" in data.value && data.value["durations"].VList?
      && data.value["durations"].items != [] && data.value["durations"].items[0].VList?) ==>
      var row := data.value["durations"].items[0].items;
      r.Done? && forall i :: 0 <= i < n ==> r.value[i] == if i + 1 < |row| then Seconds(row[i + 1]) else None
    ensures r.Raises? ==> IsOk(data) && "durations" in data.value
  {
    if !IsOk(data) then Done(seq(n, i => None))
    else match SourceRow(data.value)
      case Raises => Raises
      case Done(row) => RowDurations(row, n)
  }

  /** Answers a misbehaving server could send, as `table_durations` reads them: an empty
      dict as the row gives None throughout, and an empty `durations` list raises. */
  lemma MalformedTableAnswers()
    ensures TableResult(2, Some(map["code" := VStr("Ok"), "durations" := VList([VObj(map[])])])) == Done([None, None])
    ensures TableResult(2, Some(map["code" := VStr("Ok"), "durations" := VList([])])).Raises?
    ensures TableResult(2, Some(map["code" := VStr("Ok"), "durations" := VNull])).Raises?
  {
    var empty: map<string, Value> := map[];
    assert |empty| == 0;
    assert RowDurations(VObj(empty), 2).value == [None, None];
  }

  /** `table_durations` after `_get` ended with `got`: the exception passes through, and an
      answer or None is read by `TableResult`. */
  function TableCall(n: nat, got: Call<Option<Doc>>): (r: Call<seq<Option<real>>>)
    ensures got.Raises? ==> r.Raises?
    ensures got.Done? ==> r == TableResult(n, got.value)
    ensures r.Done? ==> |r.value| == n
  {
    match got
    case Raises => Raises
    case Done(data) => TableResult(n, data)
  }

  /** `table_durations`: no request for no destinations; otherwise one Table request naming
      the origin and the destinations, and one duration per destination unless an
      exception escapes. */
  method TableDurations(show: real -> string, origin: Point, destinations: seq<Point>, outcomes: seq<Attempt>)
    returns (r: Call<seq<Option<real>>>, request: Option<string>)
    requires |outcomes| == Retries + 1
    ensures destinations == [] ==> r == Done([]) && request.None?
    ensures destinations != [] ==> request == Some(TableCoords(show, origin, destinations))
    ensures destinations != [] ==> r == TableCall(|destinations|, GetResult(outcomes))
    ensures r.Done? ==> |r.value| == |destinations|
  {
    if destinations == [] {
      return Done([]), None;
    }
    request := Some(TableCoords(show, origin, destinations));
    var got, _ := Fetch(outcomes);
    r := TableCall(|destinations|, got);
  }

  /** A body `_get` returns is one of the attempts' answers. */
  lemma {:induction false} GetResultFrom(outcomes: seq<Attempt>)
    ensures GetResult(outcomes).Done? && GetResult(outcomes).value.Some? ==>
      Answered(GetResult(outcomes).value.value) in outcomes
  {
    if outcomes != [] && !Final(outcomes[0]) {
      GetResultFrom(outcomes[1..]);
    }
  }

  /** The duration `route_duration` reports from what `_get` returned: None on failure, on a
      code other than "Ok" or when `routes` is missing or falsy; otherwise the first route's
      "duration". Reading it raises unless `routes` is a list whose first item is a dict:
      a string's first item has no `.get`, and a dict or scalar cannot be indexed at 0. */
  function RouteResult(data: Option<Doc>): (r: Call<Option<real>>)
    ensures !IsOk(data) || !Truthy(Get(data.value, "routes")) ==> r == Done(None)
    ensures (IsOk(data) && Get(data.value, "routes").VList? && Get(data.value, "routes").items != []
      && Get(data.value, "routes").items[0].VObj?) ==>
      r == Done(Seconds(Get(Get(data.value, "routes").items[0].fields, "duration")))
    ensures r.Raises? <==> (IsOk(data) && Truthy(Get(data.value, "routes"))
      && !(Get(data.value, "routes").VList? && Get(data.value, "routes").items[0].VObj?))
  {
    if !IsOk(data) then Done(None)
    else
      var routes := Get(data.value, "routes");
      if !Truthy(routes) then Done(None)
      else match routes
        case VList(items) => if items[0].VObj? then Done(Seconds(Get(items[0].fields, "duration"))) else Raises
        case _ => Raises
  }

  /** Only the first route is read, and falsy routes mean no route. */
  lemma MalformedRouteAnswers()
    ensures RouteResult(Some(map["code" := VStr("Ok"), "routes" := VNull])) == Done(None)
    ensures RouteResult(Some(map["code" := VStr("Ok"), "routes" := VObj(map[])])) == Done(None)
    ensures RouteResult(Some(map["code" := VStr("Ok"),
      "routes" := VList([VObj(map["duration" := VReal(7.5)]), VInt(3)])])) == Done(Some(7.5))
    ensures RouteResult(Some(map["code" := VStr("Ok"), "routes" := VList([VInt(3)])])).Raises?
  {
  }

  /** `route_duration` after `_get` ended with `got`: the exception passes through, and an
      answer or None is read by `RouteResult`. */
  function RouteCall(got: Call<Option<Doc>>): (r: Call<Option<real>>)
    ensures got.Raises? ==> r.Raises?
    ensures got.Done? ==> r == RouteResult(got.value)
  {
    match got
    case Raises => Raises
    case Done(data) => RouteResult(data)
  }

  /** `route_duration`: one Route request from the origin to the destination. */
  method RouteDuration(show: real -> string, origin: Point, dest: Point, outcomes: seq<Attempt>)
    returns (r: Call<Option<real>>, request: string)
    requires |outcomes| == Retries + 1
    ensures request == CoordStr(show, origin) + ";" + CoordStr(show, dest)
    ensures r == RouteCall(GetResult(outcomes))
  {
    request := CoordStr(show, origin) + ";" + CoordStr(show, dest);
    var got, _ := Fetch(outcomes);
    r := RouteCall(got);
  }
}
