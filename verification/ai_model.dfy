/** The prediction side of the backend (backend/app/ai_model.py): per-route
    statistics from the simulator's edge records, the analytical best-route
    choice and delay estimate, the parser of the language model's labelled
    answer, and the fallback filling that turns a parsed answer into the
    prediction shown to the user. The model's answer is an input string. */
module AiModel {
  import opened Wrappers
  import opened Text
  import opened Seqs
  import opened Rounding
  import opened Traffic

  // ---------------------------------------------------------------------------
  // Route table
  // ---------------------------------------------------------------------------

  /** One entry of the `ROUTES` table: a display label and the SUMO edges the
      route drives along. */
  datatype RouteInfo = RouteInfo(routeLabel: string, name: string, sumoId: string, edges: seq<string>, description: string)

  /** `ROUTES`, in the dictionary's insertion order. */
  const Routes: seq<RouteInfo> := [
    RouteInfo("Route A", "Highway Direct", "highway_direct",
      ["S1_J1", "J1_J2", "J2_J3", "J3_D1"],
      "direct highway, fastest when clear"),
    RouteInfo("Route B", "City Road", "highway_via_city",
      ["S1_J1", "J1_J4", "J4_J5", "J5_J6", "J6_J3", "J3_D1"],
      "city road, medium distance"),
    RouteInfo("Route C", "Local Street", "highway_via_local",
      ["S1_J1", "J1_J4", "J4_J7", "J7_J8", "J8_J9", "J9_J6", "J6_J3", "J3_D1"],
      "local streets, longest but avoids highway")
  ]

  /** The three route labels in table order. */
  const Labels: seq<string> := ["Route A", "Route B", "Route C"]

  /** An edge id is driven by some route of the table. */
  predicate OnSomeRoute(id: string) {
    exists i :: 0 <= i < |Routes| && id in Routes[i].edges
  }

  // ---------------------------------------------------------------------------
  // Route statistics
  // ---------------------------------------------------------------------------

  /** The statistics dictionary of one route. */
  datatype RouteStat = RouteStat(avgSpeed: real, vehicles: int, waitingTime: real, edgeCount: int)

  /** One `label: stats` entry of an insertion-ordered `route_stats` dictionary. */
  datatype LabeledStat = LabeledStat(routeLabel: string, stat: RouteStat)

  /** The statistics of `routeLabel`, if the table has it (dictionary keys are
      unique, so the first entry with that label is the only one). */
  function LookupStat(t: seq<LabeledStat>, routeLabel: string): (r: Option<RouteStat>)
    ensures r.None? <==> forall i :: 0 <= i < |t| ==> t[i].routeLabel != routeLabel
    ensures r.Some? ==> exists i :: 0 <= i < |t| && t[i].routeLabel == routeLabel && t[i].stat == r.value
  {
    if |t| == 0 then None
    else if t[0].routeLabel == routeLabel then Some(t[0].stat)
    else LookupStat(t[1..], routeLabel)
  }

  /** Index of the last record with id `id`, or -1 when there is none. */
  function LastIndexOf(edges: seq<EdgeRecord>, id: string): (k: int)
    ensures -1 <= k < |edges|
    ensures k >= 0 ==> edges[k].id == id
    ensures forall j :: k < j < |edges| ==> edges[j].id != id
  {
    if |edges| == 0 then -1
    else if edges[|edges| - 1].id == id then |edges| - 1
    else LastIndexOf(edges[..|edges| - 1], id)
  }

  /** `{e["id"]: e for e in edges_data}[id]`: the dictionary comprehension keeps
      the last record of each id. */
  function EdgeLookup(edges: seq<EdgeRecord>, id: string): Option<EdgeRecord> {
    var k := LastIndexOf(edges, id);
    if k >= 0 then Some(edges[k]) else None
  }

  /** The records of the route's edges that the lookup has, in route order. */
  function PresentEdges(edges: seq<EdgeRecord>, ids: seq<string>): seq<EdgeRecord> {
    if |ids| == 0 then []
    else
      (match EdgeLookup(edges, ids[0])
       case Some(e) => [e]
       case None => [])
      + PresentEdges(edges, ids[1..])
  }

  function SumVehicles(es: seq<EdgeRecord>): nat {
    if |es| == 0 then 0 else es[0].vehicleCount + SumVehicles(es[1..])
  }

  function SumWaiting(es: seq<EdgeRecord>): real {
    if |es| == 0 then 0.0 else es[0].waitingTime + SumWaiting(es[1..])
  }

  function SumReal(xs: seq<real>): real {
    if |xs| == 0 then 0.0 else xs[0] + SumReal(xs[1..])
  }

  lemma {:induction false} SumVehiclesAppend(a: seq<EdgeRecord>, b: seq<EdgeRecord>)
    ensures SumVehicles(a + b) == SumVehicles(a) + SumVehicles(b)
  {
    if |a| > 0 {
      assert (a + b)[1..] == a[1..] + b;
      SumVehiclesAppend(a[1..], b);
    } else {
      assert a + b == b;
    }
  }

  lemma {:induction false} SumWaitingAppend(a: seq<EdgeRecord>, b: seq<EdgeRecord>)
    ensures SumWaiting(a + b) == SumWaiting(a) + SumWaiting(b)
  {
    if |a| > 0 {
      assert (a + b)[1..] == a[1..] + b;
      SumWaitingAppend(a[1..], b);
    } else {
      assert a + b == b;
    }
  }

  /** The strictly positive mean speeds of the given records, in order. */
  function PositiveSpeeds(es: seq<EdgeRecord>): (r: seq<real>)
    ensures |r| <= |es|
    ensures forall i :: 0 <= i < |r| ==> r[i] > 0.0
    ensures forall i :: 0 <= i < |es| && es[i].meanSpeed > 0.0 ==> es[i].meanSpeed in r
    ensures forall x :: x in r ==> exists i :: 0 <= i < |es| && es[i].meanSpeed == x
  {
    if |es| == 0 then []
    else
      var rest := PositiveSpeeds(es[1..]);
      assert forall i :: 1 <= i < |es| ==> es[i] == es[1..][i - 1];
      (if es[0].meanSpeed > 0.0 then [es[0].meanSpeed] else []) + rest
  }

  /** A single record gives its speed exactly when it is positive. */
  lemma PositiveSpeedsOne(e: EdgeRecord)
    ensures PositiveSpeeds([e]) == if e.meanSpeed > 0.0 then [e.meanSpeed] else []
  {
    assert [e][1..] == [];
  }

  /** The speeds of two runs of records are those of each run, in order. */
  lemma {:induction false} PositiveSpeedsAppend(a: seq<EdgeRecord>, b: seq<EdgeRecord>)
    ensures PositiveSpeeds(a + b) == PositiveSpeeds(a) + PositiveSpeeds(b)
  {
    if |a| > 0 {
      assert (a + b)[1..] == a[1..] + b;
      PositiveSpeedsAppend(a[1..], b);
    } else {
      assert a + b == b;
    }
  }

  /** The arithmetic mean of a non-empty sequence of reals. */
  function Mean(xs: seq<real>): real
    requires |xs| > 0
  {
    SumReal(xs) / |xs| as real
  }

  lemma {:induction false} SumBelow(xs: seq<real>, c: real)
    requires |xs| > 0
    requires forall i :: 0 <= i < |xs| ==> xs[i] < c
    ensures SumReal(xs) < |xs| as real * c
  {
    if |xs| > 1 {
      SumBelow(xs[1..], c);
    }
  }

  lemma {:induction false} SumAbove(xs: seq<real>, c: real)
    requires |xs| > 0
    requires forall i :: 0 <= i < |xs| ==> xs[i] > c
    ensures SumReal(xs) > |xs| as real * c
  {
    if |xs| > 1 {
      SumAbove(xs[1..], c);
    }
  }

  /** The mean times the count is the sum. */
  lemma MeanTimesCount(xs: seq<real>)
    requires |xs| > 0
    ensures Mean(xs) * |xs| as real == SumReal(xs)
  {
    DivTimes(SumReal(xs), |xs| as real);
  }

  /** The mean lies between the smallest and the largest element. */
  lemma MeanWithin(xs: seq<real>)
    ensures |xs| > 0 ==> exists i :: 0 <= i < |xs| && xs[i] <= Mean(xs)
    ensures |xs| > 0 ==> exists j :: 0 <= j < |xs| && xs[j] >= Mean(xs)
  {
    if |xs| == 0 {
      return;
    }
    var m := Mean(xs);
    MeanTimesCount(xs);
    if forall i :: 0 <= i < |xs| ==> xs[i] > m {
      SumAbove(xs, m);
    }
    if forall j :: 0 <= j < |xs| ==> xs[j] < m {
      SumBelow(xs, m);
    }
  }

  lemma DivTimes(a: real, n: real)
    requires n > 0.0
    ensures (a / n) * n == a && n * (a / n) == a
  {
  }

  /** The average of the positive speeds, 0 when there is none: the sum over
      the count, so lying between the smallest and the largest speed. */
  function AvgSpeed(sp: seq<real>): (a: real)
    requires forall i :: 0 <= i < |sp| ==> sp[i] > 0.0
    ensures |sp| == 0 <==> a == 0.0
    ensures |sp| > 0 ==>
      && (exists i :: 0 <= i < |sp| && sp[i] <= a)
      && (exists j :: 0 <= j < |sp| && sp[j] >= a)
      && a * |sp| as real == SumReal(sp)
  {
    MeanWithin(sp);
    if |sp| == 0 then 0.0
    else
      MeanTimesCount(sp);
      Mean(sp)
  }

  /** The statistics of one route: vehicles and waiting time summed over the
      route's edges that the input has (absent edges contribute nothing), the
      mean of the strictly positive speeds among them (0 when there is none),
      and the length of the route's edge list. The mean lies between the
      smallest and the largest positive speed. */
  function RouteStatFor(edges: seq<EdgeRecord>, ids: seq<string>): (r: RouteStat)
    ensures r.edgeCount == |ids|
    ensures r.vehicles >= 0
    ensures var sp := PositiveSpeeds(PresentEdges(edges, ids));
      && (|sp| == 0 <==> r.avgSpeed == 0.0)
      && (|sp| > 0 ==>
            (exists i :: 0 <= i < |sp| && sp[i] <= r.avgSpeed)
            && (exists j :: 0 <= j < |sp| && sp[j] >= r.avgSpeed))
    ensures var sp := PositiveSpeeds(PresentEdges(edges, ids));
      |sp| > 0 ==> r.avgSpeed == SumReal(sp) / |sp| as real
  {
    var present := PresentEdges(edges, ids);
    var speeds := PositiveSpeeds(present);
    var avg := AvgSpeed(speeds);
    RouteStat(
      avg,
      SumVehicles(present),
      SumWaiting(present),
      |ids|)
  }

  /** The records visited along two runs of edge ids are those of each run. */
  lemma {:induction false} PresentEdgesAppend(edges: seq<EdgeRecord>, a: seq<string>, b: seq<string>)
    ensures PresentEdges(edges, a + b) == PresentEdges(edges, a) + PresentEdges(edges, b)
  {
    if |a| > 0 {
      assert (a + b)[0] == a[0];
      assert (a + b)[1..] == a[1..] + b;
      PresentEdgesAppend(edges, a[1..], b);
    } else {
      assert a + b == b;
    }
  }

  /** The statistics of a route split at any point: vehicles and waiting
      time add up, and the positive speeds are those of the first part
      followed by those of the second. */
  lemma RouteStatSplit(edges: seq<EdgeRecord>, a: seq<string>, b: seq<string>)
    ensures RouteStatFor(edges, a + b).vehicles == RouteStatFor(edges, a).vehicles + RouteStatFor(edges, b).vehicles
    ensures RouteStatFor(edges, a + b).waitingTime == RouteStatFor(edges, a).waitingTime + RouteStatFor(edges, b).waitingTime
    ensures PositiveSpeeds(PresentEdges(edges, a + b)) ==
      PositiveSpeeds(PresentEdges(edges, a)) + PositiveSpeeds(PresentEdges(edges, b))
  {
    PresentEdgesAppend(edges, a, b);
    var pa, pb := PresentEdges(edges, a), PresentEdges(edges, b);
    SumVehiclesAppend(pa, pb);
    SumWaitingAppend(pa, pb);
    PositiveSpeedsAppend(pa, pb);
  }

  /** One edge id contributes the looked-up record's vehicles, waiting time
      and (when positive) speed, and nothing when the input lacks the edge. */
  lemma RouteStatOfOneEdge(edges: seq<EdgeRecord>, id: string)
    ensures var r := RouteStatFor(edges, [id]);
      && r.edgeCount == 1
      && (EdgeLookup(edges, id).None? ==> r.vehicles == 0 && r.waitingTime == 0.0 && r.avgSpeed == 0.0)
      && (EdgeLookup(edges, id).Some? ==>
            var e := EdgeLookup(edges, id).value;
            && r.vehicles == e.vehicleCount && r.waitingTime == e.waitingTime
            && r.avgSpeed == (if e.meanSpeed > 0.0 then e.meanSpeed else 0.0))
  {
    var present := PresentEdges(edges, [id]);
    assert [id][0] == id && [id][1..] == [];
    assert present == (match EdgeLookup(edges, id) case Some(e) => [e] case None => []) + PresentEdges(edges, []);
    if EdgeLookup(edges, id).Some? {
      var e := EdgeLookup(edges, id).value;
      assert present == [e];
      assert present[1..] == [];
      assert SumVehicles(present) == e.vehicleCount + SumVehicles([]);
      assert SumWaiting(present) == e.waitingTime + SumWaiting([]);
      PositiveSpeedsOne(e);
    } else {
      assert present == [];
    }
  }

  /** `_calc_route_stats`: exactly the three route labels, in table order, each
      with the statistics of its own edge list. */
  function CalcRouteStats(edges: seq<EdgeRecord>): (t: seq<LabeledStat>)
    ensures |t| == |Routes| == 3
    ensures forall i :: 0 <= i < 3 ==> t[i].routeLabel == Labels[i] && t[i].stat.edgeCount == |Routes[i].edges|
    ensures t[0].stat.edgeCount == 4 && t[1].stat.edgeCount == 6 && t[2].stat.edgeCount == 8
    ensures forall i :: 0 <= i < 3 ==> t[i].stat == RouteStatFor(edges, Routes[i].edges)
  {
    seq(3, i requires 0 <= i < 3 => LabeledStat(Routes[i].routeLabel, RouteStatFor(edges, Routes[i].edges)))
  }

  /** The route statistics see the edge records only through the id lookup. */
  lemma {:induction false} PresentEdgesDependOnLookup(a: seq<EdgeRecord>, b: seq<EdgeRecord>, ids: seq<string>)
    requires forall i :: 0 <= i < |ids| ==> EdgeLookup(a, ids[i]) == EdgeLookup(b, ids[i])
    ensures PresentEdges(a, ids) == PresentEdges(b, ids)
  {
    if |ids| > 0 {
      PresentEdgesDependOnLookup(a, b, ids[1..]);
    }
  }

  lemma StatsDependOnLookup(a: seq<EdgeRecord>, b: seq<EdgeRecord>)
    requires forall id :: OnSomeRoute(id) ==> EdgeLookup(a, id) == EdgeLookup(b, id)
    ensures CalcRouteStats(a) == CalcRouteStats(b)
  {
    forall i | 0 <= i < 3
      ensures RouteStatFor(a, Routes[i].edges) == RouteStatFor(b, Routes[i].edges)
    {
      forall j | 0 <= j < |Routes[i].edges|
        ensures EdgeLookup(a, Routes[i].edges[j]) == EdgeLookup(b, Routes[i].edges[j])
      {
        assert OnSomeRoute(Routes[i].edges[j]);
      }
      PresentEdgesDependOnLookup(a, b, Routes[i].edges);
    }
  }

  /** Inserting a record changes the lookup only for its own id. */
  lemma {:induction false} LookupSkipsOtherId(a: seq<EdgeRecord>, e: EdgeRecord, b: seq<EdgeRecord>, id: string)
    requires id != e.id
    ensures EdgeLookup(a + [e] + b, id) == EdgeLookup(a + b, id)
  {
    if |b| == 0 {
      assert a + [e] + b == a + [e];
      assert (a + [e])[..|a|] == a;
      assert a + b == a;
    } else {
      var b' := b[..|b| - 1];
      var x := a + [e] + b;
      var y := a + b;
      assert x[|x| - 1] == b[|b| - 1] && y[|y| - 1] == b[|b| - 1];
      assert x[..|x| - 1] == a + [e] + b';
      assert y[..|y| - 1] == a + b';
      if b[|b| - 1].id != id {
        LookupSkipsOtherId(a, e, b', id);
      }
    }
  }

  /** A record followed later by another record with the same id is invisible
      to the lookup. */
  lemma {:induction false} LookupShadowed(a: seq<EdgeRecord>, e: EdgeRecord, b: seq<EdgeRecord>, id: string)
    requires exists j :: 0 <= j < |b| && b[j].id == e.id
    ensures EdgeLookup(a + [e] + b, id) == EdgeLookup(a + b, id)
  {
    if id != e.id {
      LookupSkipsOtherId(a, e, b, id);
    } else {
      var k := LastIndexOf(b, id);
      assert k >= 0;
      var x := a + [e] + b;
      var y := a + b;
      assert x[|a| + 1 + k] == b[k];
      assert y[|a| + k] == b[k];
      var kx := LastIndexOf(x, id);
      var ky := LastIndexOf(y, id);
      assert kx >= |a| + 1 + k;
      assert ky >= |a| + k;
      assert kx - (|a| + 1) < |b| && b[kx - (|a| + 1)] == x[kx];
      assert ky - |a| < |b| && b[ky - |a|] == y[ky];
      assert kx == |a| + 1 + k;
      assert ky == |a| + k;
    }
  }

  /** Edge records of edges no route drives on (internal junction lanes, the
      rest of the grid) do not change the route statistics. */
  lemma OffRouteEdgeIgnored(a: seq<EdgeRecord>, e: EdgeRecord, b: seq<EdgeRecord>)
    requires !OnSomeRoute(e.id)
    ensures CalcRouteStats(a + [e] + b) == CalcRouteStats(a + b)
  {
    forall id | OnSomeRoute(id)
      ensures EdgeLookup(a + [e] + b, id) == EdgeLookup(a + b, id)
    {
      LookupSkipsOtherId(a, e, b, id);
    }
    StatsDependOnLookup(a + [e] + b, a + b);
  }

  /** For a duplicated edge id the last record wins: an earlier duplicate does
      not change the route statistics. */
  lemma LastDuplicateWins(a: seq<EdgeRecord>, e: EdgeRecord, b: seq<EdgeRecord>)
    requires exists j :: 0 <= j < |b| && b[j].id == e.id
    ensures CalcRouteStats(a + [e] + b) == CalcRouteStats(a + b)
  {
    forall id
      ensures EdgeLookup(a + [e] + b, id) == EdgeLookup(a + b, id)
    {
      LookupShadowed(a, e, b, id);
    }
    StatsDependOnLookup(a + [e] + b, a + b);
  }

  // ---------------------------------------------------------------------------
  // Analytical fallbacks
  // ---------------------------------------------------------------------------

  /** The score `_pick_best_route` maximises: for "fast", speed minus half a
      point per edge; for any other objective, minus (vehicles + waiting). */
  function Score(s: RouteStat, objective: string): real {
    if objective == "fast" then s.avgSpeed - s.edgeCount as real * 0.5
    else -(s.vehicles as real + s.waitingTime)
  }

  function Scores(t: seq<LabeledStat>, objective: string): (r: seq<real>)
    ensures |r| == |t|
    ensures forall i :: 0 <= i < |t| ==> r[i] == Score(t[i].stat, objective)
  {
    seq(|t|, i requires 0 <= i < |t| => Score(t[i].stat, objective))
  }

  /** `_pick_best_route`: the label of the first entry with the maximal score
      (a later entry replaces the best only with a strictly greater score);
      "Route A" for an empty table, and also when the winning label is the
      empty string, which `best or "Route A"` treats as missing. */
  function PickBestRoute(t: seq<LabeledStat>, objective: string): (r: string)
    ensures |t| == 0 ==> r == "Route A"
    ensures |t| > 0 ==>
      (exists k :: 0 <= k < |t|
        && (forall j :: 0 <= j < |t| ==> Score(t[j].stat, objective) <= Score(t[k].stat, objective))
        && (forall j :: 0 <= j < k ==> Score(t[j].stat, objective) < Score(t[k].stat, objective))
        && r == (if t[k].routeLabel == "" then "Route A" else t[k].routeLabel))
    ensures r != ""
  {
    if |t| == 0 then "Route A"
    else
      var k := FirstMax(Scores(t, objective));
      if t[k].routeLabel == "" then "Route A" else t[k].routeLabel
  }

  /** On a table whose labels are all non-empty the choice is one of its labels. */
  lemma PickBestIsALabel(t: seq<LabeledStat>, objective: string)
    requires |t| > 0
    requires forall i :: 0 <= i < |t| ==> t[i].routeLabel != ""
    ensures LookupStat(t, PickBestRoute(t, objective)).Some?
  {
  }

  /** The index whose label the choice returns, when no label is empty. */
  lemma PickBestIndex(t: seq<LabeledStat>, objective: string) returns (k: nat)
    requires |t| > 0
    requires forall i :: 0 <= i < |t| ==> t[i].routeLabel != ""
    ensures k < |t| && PickBestRoute(t, objective) == t[k].routeLabel
  {
    k := FirstMax(Scores(t, objective));
  }

  /** The delay `_estimate_delay` computes before rounding: 150 length units
      per edge divided by the speed floored at 1, plus the waiting time; an
      unknown label uses speed 5, 4 edges and no waiting, which gives 120. */
  function DelaySeconds(t: seq<LabeledStat>, routeLabel: string): (d: real)
    ensures LookupStat(t, routeLabel).None? ==> d == 120.0
    ensures LookupStat(t, routeLabel).Some? ==>
      var s := LookupStat(t, routeLabel).value;
      s.edgeCount >= 0 ==> s.waitingTime <= d <= s.edgeCount as real * 150.0 + s.waitingTime
  {
    match LookupStat(t, routeLabel)
    case None => 4.0 * 150.0 / 5.0
    case Some(s) =>
      var speed := if s.avgSpeed < 1.0 then 1.0 else s.avgSpeed;
      var distance := s.edgeCount as real * 150.0;
      assert distance >= 0.0 ==> distance / speed <= distance;
      distance / speed + s.waitingTime
  }

  /** Speeds below 1 are all treated as 1, and a faster route never gets a
      larger delay. */
  lemma DelayFloorsAndDecreasesWithSpeed(s: RouteStat, u: RouteStat, routeLabel: string)
    requires s.edgeCount == u.edgeCount >= 0 && s.waitingTime == u.waitingTime
    requires s.avgSpeed <= u.avgSpeed
    ensures DelaySeconds([LabeledStat(routeLabel, u)], routeLabel) <= DelaySeconds([LabeledStat(routeLabel, s)], routeLabel)
    ensures u.avgSpeed <= 1.0 ==>
      DelaySeconds([LabeledStat(routeLabel, u)], routeLabel) == DelaySeconds([LabeledStat(routeLabel, s)], routeLabel)
  {
    var d := s.edgeCount as real * 150.0;
    var vs := if s.avgSpeed < 1.0 then 1.0 else s.avgSpeed;
    var vu := if u.avgSpeed < 1.0 then 1.0 else u.avgSpeed;
    DivAntitone(d, vs, vu);
    assert LookupStat([LabeledStat(routeLabel, u)], routeLabel) == Some(u);
    assert LookupStat([LabeledStat(routeLabel, s)], routeLabel) == Some(s);
  }

  /** Dividing a non-negative amount by a larger divisor gives no more. */
  lemma DivAntitone(d: real, vs: real, vu: real)
    requires d >= 0.0 && 0.0 < vs <= vu
    ensures d / vu <= d / vs
  {
    var a := d / vs;
    var b := d / vu;
    assert a * vs == d && b * vu == d;
    assert a >= 0.0;
    assert a * vs <= a * vu;
    assert b * vu <= a * vu;
  }

  /** `_estimate_delay`: the delay above rounded to the nearest integer (ties to
      even). */
  function EstimateDelay(t: seq<LabeledStat>, routeLabel: string): (r: int)
    ensures DelaySeconds(t, routeLabel) - 0.5 <= r as real <= DelaySeconds(t, routeLabel) + 0.5
    ensures LookupStat(t, routeLabel).None? ==> r == 120
  {
    RoundHalfEven(DelaySeconds(t, routeLabel))
  }

  // ---------------------------------------------------------------------------
  // Parsing the model's answer
  // ---------------------------------------------------------------------------

  /** The prediction dictionary that `parse_response` creates and
      `generate_prediction` completes; `routeStats` is the `route_stats` key,
      absent until `generate_prediction` attaches it. */
  datatype Prediction = Prediction(
    prediction: string,
    congestion: string,
    recommendedRoute: string,
    expectedDelay: int,
    explanation: string,
    rawResponse: string,
    routeStats: Option<seq<LabeledStat>>)

  /** One position of a label pattern: a letter matched case-insensitively, or
      the class `[_\s]`. */
  datatype PatChar = Letter(c: char) | UnderscoreOrSpace

  predicate PatMatches(p: PatChar, c: char) {
    match p
    case Letter(l) => LowerChar(c) == LowerChar(l)
    case UnderscoreOrSpace => c == '_' || IsSpace(c)
  }

  function Word(w: string): (p: seq<PatChar>)
    ensures |p| == |w|
    ensures forall i :: 0 <= i < |w| ==> p[i] == Letter(w[i])
  {
    seq(|w|, i requires 0 <= i < |w| => Letter(w[i]))
  }

  /** The label parts of the five patterns of `parse_response`. */
  const PredictionLabel: seq<PatChar> := Word("PREDICTION")
  const CongestionLabel: seq<PatChar> := Word("CONGESTION")
  const RouteLabel: seq<PatChar> := Word("RECOMMENDED") + [UnderscoreOrSpace] + Word("ROUTE")
  const DelayLabel: seq<PatChar> := Word("EXPECTED") + [UnderscoreOrSpace] + Word("DELAY")
  const ExplanationLabel: seq<PatChar> := Word("EXPLANATION")

  /** The end of the line containing `i` (greedy `.+` stops before a newline). */
  function LineEnd(s: string, i: nat): (j: nat)
    requires i <= |s|
    ensures i <= j <= |s|
    ensures forall k :: i <= k < j ==> s[k] != '\n'
    ensures j < |s| ==> s[j] == '\n'
    decreases |s| - i
  {
    if i == |s| || s[i] == '\n' then i else LineEnd(s, i + 1)
  }

  /** The last position in [lo, hi) that is not a newline. */
  function LastNonNewline(s: string, lo: nat, hi: nat): (m: Option<nat>)
    requires lo <= hi <= |s|
    ensures m.Some? ==> lo <= m.value < hi && s[m.value] != '\n'
    ensures m.None? ==> forall k :: lo <= k < hi ==> s[k] == '\n'
    decreases hi - lo
  {
    if hi == lo then None
    else if s[hi - 1] != '\n' then Some(hi - 1)
    else LastNonNewline(s, lo, hi - 1)
  }

  /** The label part of a pattern matches at index `i`. */
  predicate LabelAt(s: string, i: nat, pat: seq<PatChar>) {
    i + |pat| <= |s| && forall k :: 0 <= k < |pat| ==> PatMatches(pat[k], s[i + k])
  }

  /** The index of the colon when the label part of a pattern matches at `i`
      and, after optional whitespace (greedy `\s*`), a colon follows. */
  function ColonAfterLabel(s: string, i: nat, pat: seq<PatChar>): (r: Option<nat>)
    requires i <= |s|
    ensures r.Some? ==> r.value < |s| && s[r.value] == ':'
  {
    if !LabelAt(s, i, pat) then None
    else
      var j := SkipSpace(s, i + |pat|);
      if j == |s| || s[j] != ':' then None else Some(j)
  }

  /** The group `(.+)` of `:\s*(.+)` for the colon at `j`, under the
      backtracking of Python's `re`: the greedy `\s*` runs to the first
      non-space character and `.+` takes the rest of that line; when only
      whitespace follows the colon, `\s*` gives characters back until `.+` can
      start on one that is not a newline. The capture is a non-empty piece of
      one line of `s`. */
  function CaptureAfterColon(s: string, j: nat): (r: Option<string>)
    requires j < |s|
    ensures r.Some? ==> |r.value| > 0 && Contains(s, r.value)
    ensures r.Some? ==> forall k :: 0 <= k < |r.value| ==> r.value[k] != '\n'
  {
    var k := SkipSpace(s, j + 1);
    if k < |s| then
      var e := LineEnd(s, k);
      assert OccursAt(s, s[k..e], k);
      Some(s[k..e])
    else
      match LastNonNewline(s, j + 1, |s|)
      case None => None
      case Some(m) =>
        var e := LineEnd(s, m);
        assert OccursAt(s, s[m..e], m);
        Some(s[m..e])
  }

  /** The group captured by `LABEL\s*:\s*(.+)` when the match starts at `i`. */
  function MatchAt(s: string, i: nat, pat: seq<PatChar>): Option<string>
    requires i <= |s|
  {
    match ColonAfterLabel(s, i, pat)
    case None => None
    case Some(j) => CaptureAfterColon(s, j)
  }

  /** The pattern matches with the match starting at `i`. */
  predicate MatchesAt(s: string, i: nat, pat: seq<PatChar>)
    requires i <= |s|
  {
    MatchAt(s, i, pat).Some?
  }

  /** Whether the pattern matches at each start index 0..|s|. */
  function MatchTable(s: string, pat: seq<PatChar>): (t: seq<bool>)
    ensures |t| == |s| + 1
    ensures forall k :: 0 <= k <= |s| ==> t[k] == MatchesAt(s, k, pat)
  {
    seq(|s| + 1, k requires 0 <= k <= |s| => MatchesAt(s, k, pat))
  }

  /** `re.search(pattern, s, re.IGNORECASE).group(1)`, if there is a match:
      the group of the match at the leftmost start index (`re.search` tries
      every start position from left to right). */
  function Search(s: string, pat: seq<PatChar>): (r: Option<string>)
    ensures r.Some? ==> |r.value| > 0 && Contains(s, r.value)
    ensures r.Some? ==> forall k :: 0 <= k < |r.value| ==> r.value[k] != '\n'
  {
    match FirstTrue(MatchTable(s, pat), 0)
    case None => None
    case Some(i) => MatchAt(s, i, pat)
  }

  /** A text field: the stripped capture, or the default "" without a match. */
  function TextField(raw: string, pat: seq<PatChar>): string {
    match Search(raw, pat)
    case None => ""
    case Some(c) => Strip(c)
  }

  /** One line without surrounding whitespace. */
  predicate SingleLineStripped(t: string) {
    (forall k :: 0 <= k < |t| ==> t[k] != '\n')
    && (|t| > 0 ==> !IsSpace(t[0]) && !IsSpace(t[|t| - 1]))
  }

  lemma TextFieldIsSingleLine(raw: string, pat: seq<PatChar>)
    ensures SingleLineStripped(TextField(raw, pat))
  {
    match Search(raw, pat)
    case None =>
    case Some(c) =>
      var t := Strip(c);
      forall k | 0 <= k < |t|
        ensures t[k] != '\n'
      {
        assert t[k] == c[LeadingSpaces(c) + k];
      }
  }

  /** The first index at or after `i` holding a decimal digit. */
  function FirstDigit(v: string, i: nat): (r: Option<nat>)
    requires i <= |v|
    ensures r.Some? ==> i <= r.value < |v| && IsDigit(v[r.value])
    ensures r.Some? ==> forall k :: i <= k < r.value ==> !IsDigit(v[k])
    ensures r.None? ==> forall k :: i <= k < |v| ==> !IsDigit(v[k])
    decreases |v| - i
  {
    if i == |v| then None
    else if IsDigit(v[i]) then Some(i)
    else FirstDigit(v, i + 1)
  }

  /** The end of the run of digits starting at `i` (greedy `\d+`). */
  function DigitRunEnd(v: string, i: nat): (j: nat)
    requires i <= |v|
    ensures i <= j <= |v|
    ensures forall k :: i <= k < j ==> IsDigit(v[k])
    ensures j < |v| ==> !IsDigit(v[j])
    decreases |v| - i
  {
    if i == |v| || !IsDigit(v[i]) then i else DigitRunEnd(v, i + 1)
  }

  /** 2^53: every natural below it is exactly a double, so `float` of its
      decimal digits and `int` of that float give it back. */
  const ExactFloatBound: nat := 0x20_0000_0000_0000

  /** `int(float(re.search(r"(\d+\.?\d*)", v).group(1)))`, or 0 without a
      digit, taken as the exact value of the first run of ASCII digits: the
      digits after an optional point only truncate away. Where the double
      conversion rounds (a fraction close enough to 1, integers from 2^53),
      overflows, or where `\d` meets a non-ASCII digit, the source differs. */
  function FirstNumber(v: string): nat {
    match FirstDigit(v, 0)
    case None => 0
    case Some(i) => DigitsValue(v[i..DigitRunEnd(v, i)])
  }

  /** The `expected_delay` field: the first number after the label, 0 when
      the label is missing or no digit follows it. */
  function DelayField(raw: string): nat {
    match Search(raw, DelayLabel)
    case None => 0
    case Some(c) => FirstNumber(Strip(c))
  }

  /** No label part of the pattern occurs anywhere in `s`. */
  predicate LabelAbsent(s: string, pat: seq<PatChar>) {
    forall i :: 0 <= i <= |s| ==> !LabelAt(s, i, pat)
  }

  /** `parse_response`: the raw answer is kept verbatim, every text field is
      one stripped line, and the delay is a non-negative integer. */
  function ParseResponse(raw: string): (r: Prediction)
    ensures r.rawResponse == raw
    ensures r.routeStats.None?
    ensures r.expectedDelay >= 0
    ensures SingleLineStripped(r.prediction) && SingleLineStripped(r.congestion)
    ensures SingleLineStripped(r.recommendedRoute) && SingleLineStripped(r.explanation)
  {
    TextFieldIsSingleLine(raw, PredictionLabel);
    TextFieldIsSingleLine(raw, CongestionLabel);
    TextFieldIsSingleLine(raw, RouteLabel);
    TextFieldIsSingleLine(raw, ExplanationLabel);
    Prediction(
      TextField(raw, PredictionLabel),
      TextField(raw, CongestionLabel),
      TextField(raw, RouteLabel),
      DelayField(raw),
      TextField(raw, ExplanationLabel),
      raw,
      None)
  }

  /** Without a match the field keeps its default. */
  lemma TextFieldDefault(raw: string, pat: seq<PatChar>)
    requires LabelAbsent(raw, pat)
    ensures TextField(raw, pat) == ""
  {
  }

  /** `parse_response` keeps the defaults of labels that do not occur: "" for
      the text fields, 0 for the delay; the delay is also 0 when the answer
      contains no digit at all. */
  lemma ParseResponseDefaults(raw: string)
    ensures LabelAbsent(raw, PredictionLabel) ==> ParseResponse(raw).prediction == ""
    ensures LabelAbsent(raw, CongestionLabel) ==> ParseResponse(raw).congestion == ""
    ensures LabelAbsent(raw, RouteLabel) ==> ParseResponse(raw).recommendedRoute == ""
    ensures LabelAbsent(raw, ExplanationLabel) ==> ParseResponse(raw).explanation == ""
    ensures LabelAbsent(raw, DelayLabel) ==> ParseResponse(raw).expectedDelay == 0
    ensures (forall k :: 0 <= k < |raw| ==> !IsDigit(raw[k])) ==> ParseResponse(raw).expectedDelay == 0
  {
    if LabelAbsent(raw, PredictionLabel) { TextFieldDefault(raw, PredictionLabel); }
    if LabelAbsent(raw, CongestionLabel) { TextFieldDefault(raw, CongestionLabel); }
    if LabelAbsent(raw, RouteLabel) { TextFieldDefault(raw, RouteLabel); }
    if LabelAbsent(raw, ExplanationLabel) { TextFieldDefault(raw, ExplanationLabel); }
    DelayFromDigits(raw);
  }

  /** A delay other than 0 is read from digits of the answer. */
  lemma DelayFromDigits(raw: string)
    ensures (forall k :: 0 <= k < |raw| ==> !IsDigit(raw[k])) ==> DelayField(raw) == 0
  {
    match Search(raw, DelayLabel)
    case None =>
    case Some(c) =>
      var t := Strip(c);
      assert OccursAt(c, t, LeadingSpaces(c));
      if forall q :: 0 <= q < |raw| ==> !IsDigit(raw[q]) {
        NoDigitInPiece(raw, c);
        NoDigitInPiece(c, t);
        assert FirstDigit(t, 0).None?;
      }
  }

  /** A piece of a digit-free string is digit-free. */
  lemma NoDigitInPiece(hay: string, piece: string)
    requires Contains(hay, piece)
    requires forall k :: 0 <= k < |hay| ==> !IsDigit(hay[k])
    ensures forall k :: 0 <= k < |piece| ==> !IsDigit(piece[k])
  {
    var a :| 0 <= a <= |hay| - |piece| && OccursAt(hay, piece, a);
    forall k | 0 <= k < |piece|
      ensures !IsDigit(piece[k])
    {
      assert piece[k] == hay[a + k];
    }
  }

  /** A stripped single line is its own `strip()`. */
  lemma StripOfStripped(v: string)
    requires SingleLineStripped(v)
    ensures Strip(v) == v
  {
  }

  /** A labelled line is read back: when the label part does not match before
      the line, the field is the line's value. */
  lemma LabelledLineRoundTrip(pre: string, labelText: string, pat: seq<PatChar>, v: string, post: string)
    requires |labelText| == |pat| && forall k :: 0 <= k < |pat| ==> PatMatches(pat[k], labelText[k])
    requires |v| > 0 && SingleLineStripped(v)
    requires var s := pre + labelText + ": " + v + "\n" + post;
      forall i :: 0 <= i < |pre| ==> !LabelAt(s, i, pat)
    ensures Search(pre + labelText + ": " + v + "\n" + post, pat) == Some(v)
    ensures TextField(pre + labelText + ": " + v + "\n" + post, pat) == v
  {
    var s := pre + labelText + ": " + v + "\n" + post;
    var i := |pre|;
    LabelledLineMatches(pre, labelText, pat, v, post);
    forall q | 0 <= q < i
      ensures !MatchesAt(s, q, pat)
    {
      assert !LabelAt(s, q, pat);
    }
    SearchFindsFirst(s, pat, i);
    StripOfStripped(v);
  }

  /** The pattern matches where a labelled line starts, capturing its value. */
  lemma LabelledLineMatches(pre: string, labelText: string, pat: seq<PatChar>, v: string, post: string)
    requires |labelText| == |pat| && forall k :: 0 <= k < |pat| ==> PatMatches(pat[k], labelText[k])
    requires |v| > 0 && SingleLineStripped(v)
    ensures MatchAt(pre + labelText + ": " + v + "\n" + post, |pre|, pat) == Some(v)
  {
    var s := pre + labelText + ": " + v + "\n" + post;
    var i := |pre|;
    var j := i + |pat|;
    assert s[i..j] == labelText;
    assert LabelAt(s, i, pat) by {
      forall k | 0 <= k < |pat|
        ensures PatMatches(pat[k], s[i + k])
      {
        assert s[i + k] == labelText[k];
      }
    }
    assert s[j] == ':' && s[j + 1] == ' ' && s[j + 2] == v[0];
    assert SkipSpace(s, j) == j;
    assert SkipSpace(s, j + 2) == j + 2;
    assert SkipSpace(s, j + 1) == j + 2;
    var e := j + 2 + |v|;
    assert s[j + 2..e] == v;
    assert s[e] == '\n';
    LineEndOfLine(s, j + 2, e);
  }

  lemma {:induction false} LineEndOfLine(s: string, k: nat, e: nat)
    requires k <= e < |s|
    requires forall q :: k <= q < e ==> s[q] != '\n'
    requires s[e] == '\n'
    ensures LineEnd(s, k) == e
    decreases e - k
  {
    if k < e {
      LineEndOfLine(s, k + 1, e);
    }
  }

  lemma SearchFindsFirst(s: string, pat: seq<PatChar>, i: nat)
    requires i <= |s|
    requires MatchesAt(s, i, pat)
    requires forall q :: 0 <= q < i ==> !MatchesAt(s, q, pat)
    ensures Search(s, pat) == MatchAt(s, i, pat)
  {
    var t := MatchTable(s, pat);
    assert t[i];
    assert forall q :: 0 <= q < i ==> !t[q];
  }

  /** The forecast line of a well-formed answer is read back verbatim. */
  lemma ParsePredictionLine(v: string, post: string)
    requires |v| > 0 && SingleLineStripped(v)
    ensures ParseResponse("PREDICTION: " + v + "\n" + post).prediction == v
  {
    assert "" + "PREDICTION" + ": " + v + "\n" + post == "PREDICTION: " + v + "\n" + post;
    LabelledLineRoundTrip("", "PREDICTION", PredictionLabel, v, post);
  }

  /** A delay line holding a rendered natural number is read back as that
      number; below 2^53 the double conversion of the source is exact too. */
  lemma ParseDelayLine(n: nat, post: string)
    requires n < ExactFloatBound
    ensures ParseResponse("EXPECTED_DELAY: " + NatToString(n) + "\n" + post).expectedDelay == n
  {
    var v := NatToString(n);
    DelayFieldOfLine(v, post);
    FirstNumberOfRendered(n);
  }

  /** The delay field of an answer that starts with a delay line is the
      first number of that line's value. */
  lemma DelayFieldOfLine(v: string, post: string)
    requires |v| > 0 && SingleLineStripped(v)
    ensures DelayField("EXPECTED_DELAY: " + v + "\n" + post) == FirstNumber(v)
  {
    var s := "EXPECTED_DELAY: " + v + "\n" + post;
    assert "" + "EXPECTED_DELAY" + ": " + v + "\n" + post == s;
    DelayLabelMatchesText();
    LabelledLineRoundTrip("", "EXPECTED_DELAY", DelayLabel, v, post);
    StripOfStripped(v);
  }

  lemma DelayLabelMatchesText()
    ensures |"EXPECTED_DELAY"| == |DelayLabel|
    ensures forall k :: 0 <= k < |DelayLabel| ==> PatMatches(DelayLabel[k], "EXPECTED_DELAY"[k])
  {
    forall k | 0 <= k < |DelayLabel|
      ensures PatMatches(DelayLabel[k], "EXPECTED_DELAY"[k])
    {
    }
  }

  /** The first number of a rendered natural number below 2^53 is that
      number. */
  lemma FirstNumberOfRendered(n: nat)
    requires n < ExactFloatBound
    ensures FirstNumber(NatToString(n)) == n
  {
    var v := NatToString(n);
    assert FirstDigit(v, 0) == Some(0);
    DigitRunToEnd(v, 0);
    assert v[0..|v|] == v;
    DigitsValueOfNatToString(n);
  }

  lemma {:induction false} DigitRunToEnd(v: string, i: nat)
    requires i <= |v|
    requires forall k :: i <= k < |v| ==> IsDigit(v[k])
    ensures DigitRunEnd(v, i) == |v|
    decreases |v| - i
  {
    if i < |v| {
      DigitRunToEnd(v, i + 1);
    }
  }

  // ---------------------------------------------------------------------------
  // Fallback filling
  // ---------------------------------------------------------------------------

  /** The three route labels all contain "route" once lower-cased. */
  lemma LabelsMentionRoute()
    ensures forall i :: 0 <= i < 3 ==> Contains(Lower(Labels[i]), "route")
  {
    forall i | 0 <= i < 3
      ensures Contains(Lower(Labels[i]), "route")
    {
      var l := Lower(Labels[i]);
      assert l[0] == 'r' && l[1] == 'o' && l[2] == 'u' && l[3] == 't' && l[4] == 'e';
      assert l[0..5] == "route";
      assert OccursAt(l, "route", 0);
    }
  }

  /** On computed statistics the best route is one of the three labels, so
      it is found in the table and mentions "route". */
  lemma BestOfComputedStats(edges: seq<EdgeRecord>, objective: string)
    ensures var t := CalcRouteStats(edges);
      var best := PickBestRoute(t, objective);
      && LookupStat(t, best).Some?
      && best in Labels
      && Contains(Lower(best), "route")
  {
    BestOfLabelledTable(CalcRouteStats(edges), objective);
  }

  lemma BestOfLabelledTable(t: seq<LabeledStat>, objective: string)
    requires |t| == 3 && forall i :: 0 <= i < 3 ==> t[i].routeLabel == Labels[i]
    ensures var best := PickBestRoute(t, objective);
      && LookupStat(t, best).Some?
      && best in Labels
      && Contains(Lower(best), "route")
  {
    var k := PickBestIndex(t, objective);
    assert PickBestRoute(t, objective) == Labels[k];
    PickBestIsALabel(t, objective);
    LabelsMentionRoute();
  }

  /** `route_stats[label]` for a label the table is known to have. */
  function StatOf(t: seq<LabeledStat>, routeLabel: string): RouteStat
    requires LookupStat(t, routeLabel).Some?
  {
    LookupStat(t, routeLabel).value
  }

  /** The generated forecast when the model's is missing or too short. */
  function FallbackPrediction(active: nat, best: string, s: RouteStat, showReal: real -> string): (t: string)
    ensures |t| >= 10
  {
    "Network has " + NatToString(active) + " active vehicles. "
      + best + " has best conditions with " + showReal(s.avgSpeed) + "m/s avg speed."
  }

  /** `c` names the first route of `t` with the most vehicles, together with
      its vehicle count. */
  predicate NamesMostCongested(t: seq<LabeledStat>, c: string) {
    exists w :: 0 <= w < |t|
      && c == t[w].routeLabel + " is most congested with " + IntToString(t[w].stat.vehicles) + " vehicles"
      && (forall i :: 0 <= i < |t| ==> t[i].stat.vehicles <= t[w].stat.vehicles)
      && (forall i :: 0 <= i < w ==> t[i].stat.vehicles < t[w].stat.vehicles)
  }

  /** The generated congestion note: the first route with the most vehicles
      (`max(route_stats, key=...)`). */
  function FallbackCongestion(t: seq<LabeledStat>): (c: string)
    requires |t| > 0
    ensures |c| > 0
    ensures NamesMostCongested(t, c)
  {
    var xs := seq(|t|, i requires 0 <= i < |t| => t[i].stat.vehicles as real);
    var w := FirstMax(xs);
    assert forall i :: 0 <= i < |t| ==> t[i].stat.vehicles <= t[w].stat.vehicles by {
      forall i | 0 <= i < |t| ensures t[i].stat.vehicles <= t[w].stat.vehicles {
        assert xs[i] <= xs[w];
      }
    }
    assert forall i :: 0 <= i < w ==> t[i].stat.vehicles < t[w].stat.vehicles by {
      forall i | 0 <= i < w ensures t[i].stat.vehicles < t[w].stat.vehicles {
        assert xs[i] < xs[w];
      }
    }
    t[w].routeLabel + " is most congested with " + IntToString(t[w].stat.vehicles) + " vehicles"
  }

  /** The generated explanation when the model's is missing or too short. */
  function FallbackExplanation(best: string, s: RouteStat, showReal: real -> string): (t: string)
    ensures |t| >= 10
  {
    best + " recommended — avg speed " + showReal(s.avgSpeed) + "m/s, "
      + IntToString(s.vehicles) + " vehicles on route."
  }

  /** The model's route passes when it is non-empty and mentions "route". */
  predicate MentionsRoute(route: string) {
    route != "" && Contains(Lower(route), "route")
  }

  /** The route kept from the answer, or the best route. */
  function FillRoute(parsed: string, best: string): (r: string)
    requires Contains(Lower(best), "route")
    ensures Contains(Lower(r), "route")
    ensures r == parsed || r == best
  {
    if MentionsRoute(parsed) then parsed else best
  }

  /** `generate_prediction` after the model call: the parsed answer with its
      gaps filled analytically. The route is kept when it mentions "route",
      otherwise replaced by the best route; a delay below 10 is replaced by the
      estimate for the BEST route (not the recommended one); forecast and
      explanation shorter than 10 and an empty congestion note are generated;
      the raw answer is kept and the route statistics are attached. The
      rendering of a float (`f"{x}"`) is the parameter `showReal`. */
  function GeneratePrediction(edges: seq<EdgeRecord>, active: nat, objective: string, answer: string,
                              showReal: real -> string): (r: Prediction)
    ensures Contains(Lower(r.recommendedRoute), "route")
    ensures |r.prediction| >= 10 && |r.explanation| >= 10 && |r.congestion| > 0
    ensures r.rawResponse == answer
    ensures r.routeStats == Some(CalcRouteStats(edges))
  {
    var stats := CalcRouteStats(edges);
    var p := ParseResponse(answer);
    var best := PickBestRoute(stats, objective);
    BestOfComputedStats(edges, objective);
    FillGaps(p, stats, best, StatOf(stats, best), EstimateDelay(stats, best), active, showReal)
  }

  /** Replaces each field of `p` that fails its acceptance test. */
  function FillGaps(p: Prediction, stats: seq<LabeledStat>, best: string, bestStat: RouteStat, estimate: int,
                    active: nat, showReal: real -> string): (r: Prediction)
    requires |stats| > 0 && Contains(Lower(best), "route")
    ensures Contains(Lower(r.recommendedRoute), "route")
    ensures |r.prediction| >= 10 && |r.explanation| >= 10 && |r.congestion| > 0
    ensures r.rawResponse == p.rawResponse && r.routeStats == Some(stats)
  {
    Prediction(
      if |p.prediction| < 10 then FallbackPrediction(active, best, bestStat, showReal) else p.prediction,
      if p.congestion == "" then FallbackCongestion(stats) else p.congestion,
      FillRoute(p.recommendedRoute, best),
      if p.expectedDelay < 10 then estimate else p.expectedDelay,
      if |p.explanation| < 10 then FallbackExplanation(best, bestStat, showReal) else p.explanation,
      p.rawResponse,
      Some(stats))
  }

  /** Which fields of the answer survive: a field is replaced exactly when it
      fails its acceptance test, and a replaced delay is the estimate for the
      best route. */
  lemma GeneratePredictionKeeps(edges: seq<EdgeRecord>, active: nat, objective: string, answer: string,
                                showReal: real -> string)
    ensures var r := GeneratePrediction(edges, active, objective, answer, showReal);
      var p := ParseResponse(answer);
      var best := PickBestRoute(CalcRouteStats(edges), objective);
      && (MentionsRoute(p.recommendedRoute) ==> r.recommendedRoute == p.recommendedRoute)
      && (!MentionsRoute(p.recommendedRoute) ==> r.recommendedRoute == best)
      && (p.expectedDelay >= 10 ==> r.expectedDelay == p.expectedDelay)
      && (p.expectedDelay < 10 ==> r.expectedDelay == EstimateDelay(CalcRouteStats(edges), best))
      && (|p.prediction| >= 10 <==> r.prediction == p.prediction)
      && (|p.explanation| >= 10 <==> r.explanation == p.explanation)
      && (p.congestion != "" ==> r.congestion == p.congestion)
      && (p.congestion == "" ==> r.congestion == FallbackCongestion(CalcRouteStats(edges)))
      && (p.congestion == "" ==> NamesMostCongested(CalcRouteStats(edges), r.congestion))
  {
  }
}
