/** The per-route card of the prediction view
    (frontend/src/components/RouteCard.jsx): three bars scaled against the
    largest value of each field over all routes, a travel-time estimate and
    the recommendation badge. */
module RouteCard {
  import opened Wrappers
  import opened Rounding
  import AiModel

  /** One entry of `ROUTE_META` (the icon is left out). */
  datatype Meta = Meta(name: string, color: string, path: string)

  /** `ROUTE_META`, in insertion order. */
  const RouteMeta: seq<(string, Meta)> := [
    ("Route A", Meta("Highway Direct", "blue", "S1→J1→J2→J3→D1")),
    ("Route B", Meta("City Road", "amber", "S1→J1→J4→J5→J6→J3→D1")),
    ("Route C", Meta("Local Street", "emerald", "S1→J1→J4→J7→J8→J9→J6→J3→D1"))
  ]

  /** The keys of `COLOR_MAP`. */
  const ColorKeys: seq<string> := ["blue", "amber", "emerald"]

  predicate HasMeta(routeLabel: string) {
    exists i :: 0 <= i < |RouteMeta| && RouteMeta[i].0 == routeLabel
  }

  /** `ROUTE_META[label]`. The component reads `meta.color` without a guard,
      so a label outside the table is a caller error. */
  function MetaOf(routeLabel: string): (m: Meta)
    requires HasMeta(routeLabel)
    ensures exists i :: 0 <= i < |RouteMeta| && RouteMeta[i] == (routeLabel, m)
  {
    if routeLabel == RouteMeta[0].0 then RouteMeta[0].1
    else if routeLabel == RouteMeta[1].0 then RouteMeta[1].1
    else RouteMeta[2].1
  }

  /** The cards are keyed by the backend's route labels, and every card's
      colour has an entry in `COLOR_MAP`, so `colors.bg` and the other class
      lookups never read through `undefined`. */
  lemma MetaMatchesBackend(routeLabel: string)
    ensures HasMeta(routeLabel) <==> routeLabel in AiModel.Labels
    ensures HasMeta(routeLabel) ==> MetaOf(routeLabel).color in ColorKeys
  {
    if routeLabel in AiModel.Labels {
      var i :| 0 <= i < |AiModel.Labels| && AiModel.Labels[i] == routeLabel;
      assert RouteMeta[i].0 == routeLabel;
    }
  }

  // ---------------------------------------------------------------------------
  // Bars
  // ---------------------------------------------------------------------------

  /** `pct` of `StatBar`: the value as a percentage of `max`, capped at 100;
      0 when `max` is not positive. */
  function Pct(value: real, max: real): (p: real)
    ensures max <= 0.0 ==> p == 0.0
    ensures p <= 100.0
    ensures max > 0.0 && value >= 0.0 ==> 0.0 <= p
    ensures max > 0.0 && value >= max ==> p == 100.0
    ensures max > 0.0 && value <= max ==> p == value / max * 100.0
  {
    if max > 0.0 then
      var q := value / max;
      assert q * max == value;
      assert value >= max ==> q >= 1.0;
      assert value >= 0.0 ==> q >= 0.0;
      var raw := q * 100.0;
      if raw < 100.0 then raw else 100.0
    else 0.0
  }

  /** For a fixed scale, a larger value never draws a shorter bar. */
  lemma PctMonotone(a: real, b: real, max: real)
    requires a <= b
    ensures Pct(a, max) <= Pct(b, max)
  {
    if max > 0.0 {
      assert a / max * max == a && b / max * max == b;
      assert a / max <= b / max;
    }
  }

  /** `Math.max(...values, 1)`: the scale of one field. */
  function FieldMax(xs: seq<real>): (m: real)
    ensures m >= 1.0
    ensures forall i :: 0 <= i < |xs| ==> xs[i] <= m
    ensures m == 1.0 || exists i :: 0 <= i < |xs| && xs[i] == m
  {
    if |xs| == 0 then 1.0
    else
      var front := FieldMax(xs[..|xs| - 1]);
      if xs[|xs| - 1] > front then xs[|xs| - 1] else front
  }

  function Speeds(all: seq<AiModel.LabeledStat>): (r: seq<real>)
    ensures |r| == |all| && forall i :: 0 <= i < |all| ==> r[i] == all[i].stat.avgSpeed
  {
    seq(|all|, i requires 0 <= i < |all| => all[i].stat.avgSpeed)
  }

  function VehicleCounts(all: seq<AiModel.LabeledStat>): (r: seq<real>)
    ensures |r| == |all| && forall i :: 0 <= i < |all| ==> r[i] == all[i].stat.vehicles as real
  {
    seq(|all|, i requires 0 <= i < |all| => all[i].stat.vehicles as real)
  }

  function Waits(all: seq<AiModel.LabeledStat>): (r: seq<real>)
    ensures |r| == |all| && forall i :: 0 <= i < |all| ==> r[i] == all[i].stat.waitingTime
  {
    seq(|all|, i requires 0 <= i < |all| => all[i].stat.waitingTime)
  }

  /** `maxSpeed`, `maxVehicles` and `maxWait` over `Object.values(allStats)`. */
  datatype Scale = Scale(speed: real, vehicles: real, wait: real)

  function ScaleOf(all: seq<AiModel.LabeledStat>): (sc: Scale)
    ensures sc.speed >= 1.0 && sc.vehicles >= 1.0 && sc.wait >= 1.0
    ensures forall i :: 0 <= i < |all| ==>
      && all[i].stat.avgSpeed <= sc.speed
      && all[i].stat.vehicles as real <= sc.vehicles
      && all[i].stat.waitingTime <= sc.wait
  {
    Scale(FieldMax(Speeds(all)), FieldMax(VehicleCounts(all)), FieldMax(Waits(all)))
  }

  // ---------------------------------------------------------------------------
  // Travel estimate
  // ---------------------------------------------------------------------------

  /** The travel time before rounding: 150 length units per edge at the
      average speed, floored at 1. */
  function TravelSeconds(s: AiModel.RouteStat): (t: real)
    ensures s.edgeCount >= 0 ==> 0.0 <= t <= s.edgeCount as real * 150.0
    ensures s.avgSpeed >= 1.0 ==> t * s.avgSpeed == s.edgeCount as real * 150.0
    ensures s.avgSpeed <= 1.0 ==> t == s.edgeCount as real * 150.0
  {
    var speed := if s.avgSpeed > 1.0 then s.avgSpeed else 1.0;
    var distance := s.edgeCount as real * 150.0;
    assert distance >= 0.0 ==> distance / speed <= distance;
    distance / speed
  }

  /** `~{Math.round(...)}s travel`. */
  function TravelEstimate(s: AiModel.RouteStat): (r: int)
    ensures TravelSeconds(s) - 0.5 < r as real <= TravelSeconds(s) + 0.5
  {
    JsRound(TravelSeconds(s))
  }

  /** The card's travel time is the backend's delay estimate for the same
      route without its waiting time; with no waiting the two rounded numbers
      differ by at most one second (the runtimes break ties differently). */
  lemma TravelMatchesBackendDelay(t: seq<AiModel.LabeledStat>, routeLabel: string, s: AiModel.RouteStat)
    requires AiModel.LookupStat(t, routeLabel) == Some(s)
    ensures AiModel.DelaySeconds(t, routeLabel) == TravelSeconds(s) + s.waitingTime
    ensures s.waitingTime == 0.0 ==>
      -1 <= TravelEstimate(s) - AiModel.EstimateDelay(t, routeLabel) <= 1
  {
  }

  // ---------------------------------------------------------------------------
  // The card
  // ---------------------------------------------------------------------------

  /** What a card shows: the badge, the title lines, the three bar widths in
      percent, the edge count and the travel estimate. */
  datatype Card = Card(
    badge: bool,
    title: string,
    subtitle: string,
    path: string,
    speedBar: real,
    vehiclesBar: real,
    waitBar: real,
    edgeCount: int,
    travel: int)

  /** `RouteCard({ label, stats, isRecommended, allStats })`. */
  function Render(routeLabel: string, stats: AiModel.RouteStat, isRecommended: bool, all: seq<AiModel.LabeledStat>): (c: Card)
    requires HasMeta(routeLabel)
    ensures c.badge <==> isRecommended
    ensures c.title == routeLabel && (routeLabel, Meta(c.subtitle, MetaOf(routeLabel).color, c.path)) in RouteMeta
    ensures c.speedBar <= 100.0 && c.vehiclesBar <= 100.0 && c.waitBar <= 100.0
    ensures stats.avgSpeed >= 0.0 ==> c.speedBar >= 0.0
    ensures stats.vehicles >= 0 ==> c.vehiclesBar >= 0.0
    ensures stats.waitingTime >= 0.0 ==> c.waitBar >= 0.0
    ensures c.edgeCount == stats.edgeCount
    ensures TravelSeconds(stats) - 0.5 < c.travel as real <= TravelSeconds(stats) + 0.5
  {
    var meta := MetaOf(routeLabel);
    var sc := ScaleOf(all);
    Card(isRecommended, routeLabel, meta.name, meta.path,
      Pct(stats.avgSpeed, sc.speed), Pct(stats.vehicles as real, sc.vehicles), Pct(stats.waitingTime, sc.wait),
      stats.edgeCount, TravelEstimate(stats))
  }

  /** A card drawn from one of the routes it is scaled against is never
      capped: its bars are exactly its share of the largest value, and the
      route with the largest vehicle count (at least 1) fills its bar. */
  lemma MemberBarsUnclipped(routeLabel: string, isRecommended: bool, all: seq<AiModel.LabeledStat>, k: nat)
    requires HasMeta(routeLabel) && k < |all|
    ensures var c := Render(routeLabel, all[k].stat, isRecommended, all);
      var sc := ScaleOf(all);
      && c.speedBar == all[k].stat.avgSpeed / sc.speed * 100.0
      && c.vehiclesBar == all[k].stat.vehicles as real / sc.vehicles * 100.0
      && c.waitBar == all[k].stat.waitingTime / sc.wait * 100.0
    ensures (forall i :: 0 <= i < |all| ==> all[i].stat.vehicles <= all[k].stat.vehicles) && all[k].stat.vehicles >= 1 ==>
      Render(routeLabel, all[k].stat, isRecommended, all).vehiclesBar == 100.0
  {
    var sc := ScaleOf(all);
    var vs := VehicleCounts(all);
    if (forall i :: 0 <= i < |all| ==> all[i].stat.vehicles <= all[k].stat.vehicles) && all[k].stat.vehicles >= 1 {
      if sc.vehicles != 1.0 {
        var j :| 0 <= j < |vs| && vs[j] == sc.vehicles;
        assert all[j].stat.vehicles <= all[k].stat.vehicles;
      }
    }
  }
}
