/** The SVG network map of the prediction view
    (frontend/src/components/NetworkMap.jsx): the junction coordinates, the
    three highlighted routes drawn as SVG paths, and the legend. */
module NetworkMap {
  import opened Wrappers
  import opened Text
  import opened Seqs
  import AiModel
  import Scenario
  import RouteCard

  datatype Point = Point(x: nat, y: nat)

  /** `JUNCTIONS`: the drawing position of each node. */
  const Junctions: seq<(string, Point)> := [
    ("J1", Point(100, 80)), ("J2", Point(280, 80)), ("J3", Point(460, 80)),
    ("J4", Point(100, 200)), ("J5", Point(280, 200)), ("J6", Point(460, 200)),
    ("J7", Point(100, 320)), ("J8", Point(280, 320)), ("J9", Point(460, 320)),
    ("S1", Point(10, 80)), ("D1", Point(550, 80)), ("D2", Point(550, 320))
  ]

  /** `ROUTE_PATHS`: the nodes each displayed route passes. */
  const RoutePaths: seq<(string, seq<string>)> := [
    ("Route A", ["S1", "J1", "J2", "J3", "D1"]),
    ("Route B", ["S1", "J1", "J4", "J5", "J6", "J3", "D1"]),
    ("Route C", ["S1", "J1", "J4", "J7", "J8", "J9", "J6", "J3", "D1"])
  ]

  /** `ROUTE_COLORS`, whose key order is the legend's order. */
  const RouteColors: seq<(string, string)> := [
    ("Route A", "#3b82f6"), ("Route B", "#f59e0b"), ("Route C", "#10b981")
  ]

  /** `ALL_EDGES`: the grey grid drawn under the routes. */
  const AllEdges: seq<(string, string)> := [
    ("J1", "J2"), ("J2", "J3"), ("J4", "J5"), ("J5", "J6"), ("J7", "J8"), ("J8", "J9"),
    ("J1", "J4"), ("J4", "J7"), ("J2", "J5"), ("J5", "J8"), ("J3", "J6"), ("J6", "J9"),
    ("S1", "J1"), ("J3", "D1"), ("J9", "D2")
  ]

  predicate IsJunction(n: string) {
    n in Keys(Junctions)
  }

  /** `JUNCTIONS[n]`; the component dereferences it without a guard. */
  function PointOf(n: string): (p: Point)
    requires IsJunction(n)
    ensures (n, p) in Junctions
  {
    var r := Lookup(Junctions, n);
    var i :| 0 <= i < |Junctions| && Junctions[i] == (n, r.value);
    r.value
  }

  predicate AllJunctions(nodes: seq<string>) {
    forall i :: 0 <= i < |nodes| ==> IsJunction(nodes[i])
  }

  /** Every node a route or a grid line names has a position, so neither the
      path builder nor the grid ever reads a coordinate of `undefined`. */
  lemma TablesUseJunctions()
    ensures forall r :: 0 <= r < |RoutePaths| ==> AllJunctions(RoutePaths[r].1)
    ensures forall e :: 0 <= e < |AllEdges| ==> IsJunction(AllEdges[e].0) && IsJunction(AllEdges[e].1)
  {
    var ks := Keys(Junctions);
    assert ks == ["J1", "J2", "J3", "J4", "J5", "J6", "J7", "J8", "J9", "S1", "D1", "D2"];
  }

  // ---------------------------------------------------------------------------
  // Paths
  // ---------------------------------------------------------------------------

  /** One path command: `M x y` for the first node, `L x y` after it. */
  function Command(p: Point, first: bool): (c: string)
    ensures |c| >= 2 && c[0] == (if first then 'M' else 'L') && c[1] == ' '
  {
    [if first then 'M' else 'L'] + " " + NatToString(p.x) + " " + NatToString(p.y)
  }

  function Commands(nodes: seq<string>): (cs: seq<string>)
    requires AllJunctions(nodes)
    ensures |cs| == |nodes|
    ensures forall i :: 0 <= i < |nodes| ==> cs[i] == Command(PointOf(nodes[i]), i == 0)
  {
    seq(|nodes|, i requires 0 <= i < |nodes| => Command(PointOf(nodes[i]), i == 0))
  }

  /** `buildPath(nodes)`: the commands joined by single spaces. */
  function BuildPath(nodes: seq<string>): string
    requires AllJunctions(nodes)
  {
    Join(Commands(nodes), " ")
  }

  /** A command holds exactly one command letter. */
  lemma CommandLetters(p: Point, first: bool)
    ensures CountChar(Command(p, first), 'M') == (if first then 1 else 0)
    ensures CountChar(Command(p, first), 'L') == (if first then 0 else 1)
  {
    var head := [if first then 'M' else 'L'] + " ";
    var tail := NatToString(p.x) + " " + NatToString(p.y);
    assert Command(p, first) == head + tail;
    CountCharAbsent(tail, 'M');
    CountCharAbsent(tail, 'L');
    CountCharAppend(head, tail, 'M');
    CountCharAppend(head, tail, 'L');
    assert head[1..] == " ";
    assert head[1..][1..] == "";
  }

  /** The path has one command per node: a single move to the first node and
      one line to each later node. */
  lemma {:induction false} PathCommands(nodes: seq<string>)
    requires AllJunctions(nodes)
    ensures CountChar(BuildPath(nodes), 'M') == (if |nodes| == 0 then 0 else 1)
    ensures CountChar(BuildPath(nodes), 'L') == (if |nodes| == 0 then 0 else |nodes| - 1)
    ensures |nodes| > 0 ==> BuildPath(nodes)[0] == 'M'
  {
    var cs := Commands(nodes);
    assert CountChar(" ", 'M') == 0 && CountChar(" ", 'L') == 0;
    CountCharJoin(cs, " ", 'M');
    CountCharJoin(cs, " ", 'L');
    if |nodes| > 0 {
      forall i | 0 <= i < |cs[1..]|
        ensures CountChar(cs[1..][i], 'M') == 0 && CountChar(cs[1..][i], 'L') == 1
      {
        CommandLetters(PointOf(nodes[i + 1]), false);
      }
      CountInEqualParts(cs[1..], 'M', 0);
      CountInEqualParts(cs[1..], 'L', 1);
      CommandLetters(PointOf(nodes[0]), true);
      if |cs| > 1 {
        assert Join(cs, " ") == cs[0] + " " + Join(cs[1..], " ");
      }
    }
  }

  // ---------------------------------------------------------------------------
  // Highlighting
  // ---------------------------------------------------------------------------

  /** One drawn route: solid, wide and opaque when highlighted; dashed,
      narrow and faded otherwise. */
  datatype RoutePath = RoutePath(routeLabel: string, d: string, color: string, strokeWidth: nat, dashed: bool)

  /** `recommendedRoute === label`; an absent prop equals no label. */
  predicate IsRecommended(recommended: Option<string>, routeLabel: string) {
    recommended == Some(routeLabel)
  }

  function ColorOf(routeLabel: string): string {
    match Lookup(RouteColors, routeLabel)
    case Some(c) => c
    case None => ""
  }

  /** The route layer, in `ROUTE_PATHS` order. */
  function Routes(recommended: Option<string>): (rs: seq<RoutePath>)
    ensures |rs| == |RoutePaths|
    ensures forall i :: 0 <= i < |rs| ==>
      && rs[i].routeLabel == RoutePaths[i].0
      && (rs[i].strokeWidth == 5 <==> IsRecommended(recommended, RoutePaths[i].0))
      && (rs[i].dashed <==> rs[i].strokeWidth != 5)
  {
    TablesUseJunctions();
    seq(|RoutePaths|, i requires 0 <= i < |RoutePaths| =>
      var on := IsRecommended(recommended, RoutePaths[i].0);
      RoutePath(RoutePaths[i].0, BuildPath(RoutePaths[i].1), ColorOf(RoutePaths[i].0), if on then 5 else 3, !on))
  }

  /** The map's routes are the backend's labels, in order, and no two are
      equal. */
  lemma LabelsOfPaths()
    ensures forall i :: 0 <= i < |RoutePaths| ==> RoutePaths[i].0 == AiModel.Labels[i]
    ensures forall i, j :: 0 <= i < j < |RoutePaths| ==> RoutePaths[i].0 != RoutePaths[j].0
  {
    assert RoutePaths[0].0[6] == 'A' && RoutePaths[1].0[6] == 'B' && RoutePaths[2].0[6] == 'C';
  }

  /** Highlighting is string equality: at most one route is highlighted, and
      one is exactly when the recommendation is one of the three labels. */
  lemma AtMostOneHighlighted(recommended: Option<string>)
    ensures forall i, j :: 0 <= i < j < |Routes(recommended)| ==>
      !(Routes(recommended)[i].strokeWidth == 5 && Routes(recommended)[j].strokeWidth == 5)
    ensures (exists i :: 0 <= i < |Routes(recommended)| && Routes(recommended)[i].strokeWidth == 5) <==>
      recommended.Some? && recommended.value in AiModel.Labels
  {
    var rs := Routes(recommended);
    LabelsOfPaths();
    forall i, j | 0 <= i < j < |rs|
      ensures !(rs[i].strokeWidth == 5 && rs[j].strokeWidth == 5)
    {
      assert RoutePaths[i].0 != RoutePaths[j].0;
    }
    if recommended.Some? && recommended.value in AiModel.Labels {
      var k :| 0 <= k < 3 && AiModel.Labels[k] == recommended.value;
      assert rs[k].strokeWidth == 5;
    }
  }

  // ---------------------------------------------------------------------------
  // Legend
  // ---------------------------------------------------------------------------

  predicate EndsWithStar(s: string) {
    |s| >= 2 && s[|s| - 2..] == " ★"
  }

  /** `routeStats?.[label]`. */
  function StatsFor(routeStats: Option<seq<AiModel.LabeledStat>>, routeLabel: string): Option<AiModel.RouteStat> {
    if routeStats.None? then None else AiModel.LookupStat(routeStats.value, routeLabel)
  }

  /** One legend line: the label, then ` — <speed>m/s, <n> cars` when the
      statistics have the label, then ` ★` when the route is recommended.
      `showReal` is how the browser prints a number. */
  function LegendText(routeLabel: string, routeStats: Option<seq<AiModel.LabeledStat>>,
                      recommended: Option<string>, showReal: real -> string): (t: string)
    ensures StartsWith(t, routeLabel)
    ensures OccursAt(t, " — ", |routeLabel|) <==> StatsFor(routeStats, routeLabel).Some?
    ensures EndsWithStar(t) <==>
      IsRecommended(recommended, routeLabel) || (StatsFor(routeStats, routeLabel).None? && EndsWithStar(routeLabel))
  {
    var stats := StatsFor(routeStats, routeLabel);
    var statsPart := if stats.Some? then
      " — " + showReal(stats.value.avgSpeed) + "m/s, " + IntToString(stats.value.vehicles) + " cars"
      else "";
    var starPart := if IsRecommended(recommended, routeLabel) then " ★" else "";
    var t := routeLabel + statsPart + starPart;
    assert t[..|routeLabel|] == routeLabel;
    assert stats.Some? ==> t[|routeLabel|..|routeLabel| + 3] == " — ";
    assert stats.Some? && starPart == "" ==> t[|t| - 2..] == "rs";
    assert stats.None? && starPart == "" ==> t == routeLabel;
    assert stats.None? && starPart != "" ==> t[|routeLabel|..] == " ★";
    t
  }

  /** The legend, one line per `ROUTE_COLORS` key. */
  function Legend(routeStats: Option<seq<AiModel.LabeledStat>>, recommended: Option<string>,
                  showReal: real -> string): (ls: seq<string>)
    ensures |ls| == |RouteColors|
    ensures forall i :: 0 <= i < |ls| ==> ls[i] == LegendText(RouteColors[i].0, routeStats, recommended, showReal)
  {
    seq(|RouteColors|, i requires 0 <= i < |RouteColors| =>
      LegendText(RouteColors[i].0, routeStats, recommended, showReal))
  }

  /** Only the recommended route's legend line carries the star. */
  lemma StarMarksRecommended(routeStats: Option<seq<AiModel.LabeledStat>>, recommended: Option<string>,
                             showReal: real -> string, i: nat)
    requires i < |RouteColors|
    ensures EndsWithStar(Legend(routeStats, recommended, showReal)[i]) <==> recommended == Some(RouteColors[i].0)
  {
    var l := RouteColors[i].0;
    assert l[|l| - 1] != '★';
  }

  // ---------------------------------------------------------------------------
  // Agreement with the other route tables
  // ---------------------------------------------------------------------------

  /** The drawn routes are the backend's three routes: same labels in the
      same order, and their consecutive node pairs spell the backend's edge
      ids; they are the first three routes of the scenario table. */
  lemma PathsMatchBackend(i: nat)
    requires i < |RoutePaths|
    ensures RoutePaths[i].0 == AiModel.Routes[i].routeLabel == RouteColors[i].0
    ensures RoutePaths[i].1 == Scenario.RouteGroups[0].1[i].path
    ensures Scenario.Edges(RoutePaths[i].1) == AiModel.Routes[i].edges
  {
    if i == 0 {
      PathMatchesBackend0();
    } else if i == 1 {
      PathMatchesBackend1();
    } else {
      PathMatchesBackend2();
    }
  }

  lemma PathMatchesBackend0()
    ensures RoutePaths[0].1 == Scenario.RouteGroups[0].1[0].path
    ensures Scenario.Edges(RoutePaths[0].1) == AiModel.Routes[0].edges
  {
    Scenario.RouteAgrees0();
  }

  lemma PathMatchesBackend1()
    ensures RoutePaths[1].1 == Scenario.RouteGroups[0].1[1].path
    ensures Scenario.Edges(RoutePaths[1].1) == AiModel.Routes[1].edges
  {
    Scenario.RouteAgrees1();
  }

  lemma PathMatchesBackend2()
    ensures RoutePaths[2].1 == Scenario.RouteGroups[0].1[2].path
    ensures Scenario.Edges(RoutePaths[2].1) == AiModel.Routes[2].edges
  {
    Scenario.RouteAgrees2();
  }

  /** The route cards print the same labels and the same nodes, joined by
      arrows. */
  lemma PathsMatchCards(i: nat)
    requires i < |RoutePaths|
    ensures RouteCard.RouteMeta[i].0 == RoutePaths[i].0
    ensures RouteCard.RouteMeta[i].1.path == Join(RoutePaths[i].1, "→")
  {
    if i == 0 {
      PathMatchesCard0();
    } else if i == 1 {
      PathMatchesCard1();
    } else {
      PathMatchesCard2();
    }
  }

  lemma PathMatchesCard0()
    ensures RouteCard.RouteMeta[0].1.path == Join(RoutePaths[0].1, "→")
  {
    var ns := RoutePaths[0].1;
    assert ns == ["S1", "J1", "J2", "J3", "D1"];
    assert Join(ns[4..], "→") == "D1";
    assert Join(ns[3..], "→") == "J3→D1";
    assert Join(ns[2..], "→") == "J2→J3→D1";
    assert Join(ns[1..], "→") == "J1→J2→J3→D1";
  }

  lemma PathMatchesCard1()
    ensures RouteCard.RouteMeta[1].1.path == Join(RoutePaths[1].1, "→")
  {
    var front: seq<string> := ["S1", "J1", "J4"];
    var back: seq<string> := ["J5", "J6", "J3", "D1"];
    RouteBHalves();
    JoinAppend(front, back, "→");
    RouteBHalvesJoined();
  }

  /** Route B's nodes and its card text, each cut after J4. */
  lemma RouteBHalves()
    ensures RoutePaths[1].1 == ["S1", "J1", "J4"] + ["J5", "J6", "J3", "D1"]
    ensures RouteCard.RouteMeta[1].1.path == "S1→J1→J4" + "→" + "J5→J6→J3→D1"
  {
  }

  lemma RouteBHalvesJoined()
    ensures Join(["S1", "J1", "J4"], "→") == "S1→J1→J4"
    ensures Join(["J5", "J6", "J3", "D1"], "→") == "J5→J6→J3→D1"
  {
  }

  lemma PathMatchesCard2()
    ensures RouteCard.RouteMeta[2].1.path == Join(RoutePaths[2].1, "→")
  {
    var front: seq<string> := ["S1", "J1", "J4", "J7"];
    var back: seq<string> := ["J8", "J9", "J6", "J3", "D1"];
    RouteCHalves();
    JoinAppend(front, back, "→");
    RouteCHalvesJoined();
  }

  /** Route C's nodes and its card text, each cut after J7. */
  lemma RouteCHalves()
    ensures RoutePaths[2].1 == ["S1", "J1", "J4", "J7"] + ["J8", "J9", "J6", "J3", "D1"]
    ensures RouteCard.RouteMeta[2].1.path == "S1→J1→J4→J7" + "→" + "J8→J9→J6→J3→D1"
  {
  }

  lemma RouteCHalvesJoined()
    ensures Join(["S1", "J1", "J4", "J7"], "→") == "S1→J1→J4→J7"
    ensures Join(["J8", "J9", "J6", "J3", "D1"], "→") == "J8→J9→J6→J3→D1"
  {
  }
}
