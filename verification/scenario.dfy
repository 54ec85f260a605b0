/** The scenario generator: the route table of the road network, the density
    and vehicle-mix tables, the three departure schedules, the weighted pool
    of vehicle types, and the vehicle list of a generated scenario. The XML
    text the generator serialises the list into is not modelled; the random
    draws are inputs. */
module Scenario {
  import opened Wrappers
  import opened Text
  import opened Seqs
  import AiModel

  // ---------------------------------------------------------------------------
  // Route table
  // ---------------------------------------------------------------------------

  /** One route: its SUMO id and the junctions it passes. Its `edges`
      attribute lists the edge `X_Y` for each consecutive pair `X`, `Y` of
      junctions (`Edges`); the table below writes each route that way. */
  datatype RouteDef = RouteDef(id: string, path: seq<string>) {
    function edges(): seq<string> {
      Edges(path)
    }
  }

  /** The edge id `X_Y` of the edge from junction `X` to junction `Y`. */
  function E(from: string, to: string): string {
    from + "_" + to
  }

  /** `ROUTES`: the routes grouped by entry point, in insertion order. */
  const RouteGroups: seq<(string, seq<RouteDef>)> := [
    ("west", WestRoutes),
    ("southwest", SouthwestRoutes),
    ("north", NorthRoutes)
  ]

  /** The routes entering at S1. */
  const WestRoutes: seq<RouteDef> := [
    RouteDef("highway_direct", ["S1", "J1", "J2", "J3", "D1"]),
    RouteDef("highway_via_city", ["S1", "J1", "J4", "J5", "J6", "J3", "D1"]),
    RouteDef("highway_via_local", ["S1", "J1", "J4", "J7", "J8", "J9", "J6", "J3", "D1"]),
    RouteDef("west_to_d2_mid", ["S1", "J1", "J2", "J5", "J8", "J9", "D2"]),
    RouteDef("west_to_d2_south", ["S1", "J1", "J4", "J7", "J8", "J9", "D2"]),
    RouteDef("s1_to_sr1", ["S1", "J1", "J2", "J5", "J8", "SR1"]),
    RouteDef("s1_to_sr2", ["S1", "J1", "J2", "J3", "J6", "J9", "SR2"])
  ]

  /** The routes entering at S2. */
  const SouthwestRoutes: seq<RouteDef> := [
    RouteDef("s2_to_d1_up", ["S2", "J7", "J4", "J1", "J2", "J3", "D1"]),
    RouteDef("s2_to_d1_mid", ["S2", "J7", "J8", "J5", "J2", "J3", "D1"]),
    RouteDef("s2_to_d2", ["S2", "J7", "J8", "J9", "D2"])
  ]

  /** The routes entering at NR1, NR2 and NR3. */
  const NorthRoutes: seq<RouteDef> := [
    RouteDef("nr1_to_d1", ["NR1", "J1", "J2", "J3", "D1"]),
    RouteDef("nr1_to_d2", ["NR1", "J1", "J4", "J7", "J8", "J9", "D2"]),
    RouteDef("nr1_to_sr1", ["NR1", "J1", "J4", "J5", "J8", "SR1"]),
    RouteDef("nr2_to_d1", ["NR2", "J2", "J3", "D1"]),
    RouteDef("nr2_to_d2", ["NR2", "J2", "J5", "J8", "J9", "D2"]),
    RouteDef("nr2_to_sr1", ["NR2", "J2", "J5", "J8", "SR1"]),
    RouteDef("nr3_to_d1", ["NR3", "J3", "D1"]),
    RouteDef("nr3_to_d2", ["NR3", "J3", "J6", "J9", "D2"]),
    RouteDef("nr3_to_sr2", ["NR3", "J3", "J6", "J9", "SR2"])
  ]

  /** Concatenation of the route lists of `groups`, in order. */
  function Flatten(groups: seq<(string, seq<RouteDef>)>): (r: seq<RouteDef>)
    ensures forall g :: 0 <= g < |groups| ==> forall k :: 0 <= k < |groups[g].1| ==> groups[g].1[k] in r
    ensures forall i :: 0 <= i < |r| ==> exists g :: 0 <= g < |groups| && r[i] in groups[g].1
  {
    if |groups| == 0 then []
    else
      var rest := Flatten(groups[1..]);
      assert forall g :: 1 <= g < |groups| ==> groups[g] == groups[1..][g - 1];
      groups[0].1 + rest
  }

  /** `ALL_ROUTES`: every group's routes, group after group. */
  function AllRoutes(): seq<RouteDef> {
    Flatten(RouteGroups)
  }

  /** The junction an edge id `X_Y` leaves (the part before the underscore). */
  function EdgeFrom(id: string): string {
    if |id| == 0 || id[0] == '_' then "" else [id[0]] + EdgeFrom(id[1..])
  }

  /** The junction an edge id `X_Y` enters (the part after the underscore). */
  function EdgeTo(id: string): string {
    if |id| == 0 then "" else if id[0] == '_' then id[1..] else EdgeTo(id[1..])
  }

  /** The edge ids along a path of junctions. */
  function Edges(path: seq<string>): (es: seq<string>)
    ensures |es| == if |path| == 0 then 0 else |path| - 1
    ensures forall i :: 0 <= i < |es| ==> es[i] == E(path[i], path[i + 1])
  {
    if |path| <= 1 then [] else seq(|path| - 1, i requires 0 <= i < |path| - 1 => E(path[i], path[i + 1]))
  }

  /** A junction name holds no underscore, so an edge id splits uniquely. */
  predicate IsJunction(name: string) {
    forall i :: 0 <= i < |name| ==> name[i] != '_'
  }

  /** An edge id gives back the junctions it was built from. */
  lemma {:induction false} EdgeParts(from: string, to: string)
    requires IsJunction(from)
    ensures EdgeFrom(E(from, to)) == from && EdgeTo(E(from, to)) == to
  {
    if |from| > 0 {
      assert E(from, to)[1..] == E(from[1..], to);
      EdgeParts(from[1..], to);
    } else {
      assert E(from, to) == "_" + to;
    }
  }

  /** Each edge ends where the next one starts. */
  predicate Chained(edges: seq<string>) {
    forall i :: 0 <= i < |edges| - 1 ==> EdgeTo(edges[i]) == EdgeFrom(edges[i + 1])
  }

  predicate UniqueIds(rs: seq<RouteDef>) {
    forall i, j :: 0 <= i < j < |rs| ==> rs[i].id != rs[j].id
  }

  /** `ALL_ROUTES` is the three groups' lists one after the other: 19
      routes, although the heading comment speaks of 20. */
  lemma AllRoutesIsConcatenation()
    ensures AllRoutes() == RouteGroups[0].1 + RouteGroups[1].1 + RouteGroups[2].1
    ensures |AllRoutes()| == 19
  {
    assert Flatten(RouteGroups[3..]) == [];
    assert RouteGroups[2..][1..] == RouteGroups[3..];
    assert Flatten(RouteGroups[2..]) == RouteGroups[2].1 + Flatten(RouteGroups[3..]);
    assert RouteGroups[1..][1..] == RouteGroups[2..];
    assert Flatten(RouteGroups[1..]) == RouteGroups[1].1 + Flatten(RouteGroups[2..]);
  }

  /** The edges along a path of junctions chain: every `X_Y` is followed by
      a `Y_Z`. */
  lemma EdgesChain(path: seq<string>)
    requires forall i :: 0 <= i < |path| ==> IsJunction(path[i])
    ensures Chained(Edges(path))
  {
    var es := Edges(path);
    forall i | 0 <= i < |es| - 1
      ensures EdgeTo(es[i]) == EdgeFrom(es[i + 1])
    {
      EdgeParts(path[i], path[i + 1]);
      EdgeParts(path[i + 1], path[i + 2]);
    }
  }

  /** Every junction named in the table is a junction name, and every route
      passes at least two junctions. */
  lemma TableJunctions()
    ensures forall g, k :: 0 <= g < |RouteGroups| && 0 <= k < |RouteGroups[g].1| ==>
      |RouteGroups[g].1[k].path| >= 2 &&
      forall i :: 0 <= i < |RouteGroups[g].1[k].path| ==> IsJunction(RouteGroups[g].1[k].path[i])
  {
  }

  /** Ids distinct within two lists and between them stay distinct in the
      concatenation. */
  lemma UniqueConcat(a: seq<RouteDef>, b: seq<RouteDef>)
    requires UniqueIds(a) && UniqueIds(b)
    requires forall i, j :: 0 <= i < |a| && 0 <= j < |b| ==> a[i].id != b[j].id
    ensures UniqueIds(a + b)
  {
    var ab := a + b;
    forall i, j | 0 <= i < j < |ab|
      ensures ab[i].id != ab[j].id
    {
      if j < |a| {
        assert ab[i] == a[i] && ab[j] == a[j];
      } else if i < |a| {
        assert ab[i] == a[i] && ab[j] == b[j - |a|];
      } else {
        assert ab[i] == b[i - |a|] && ab[j] == b[j - |a|];
      }
    }
  }

  lemma GroupsDisjoint()
    ensures forall i, j :: 0 <= i < |RouteGroups[0].1| && 0 <= j < |RouteGroups[1].1| ==>
      RouteGroups[0].1[i].id != RouteGroups[1].1[j].id
    ensures forall i, j :: 0 <= i < |RouteGroups[0].1| && 0 <= j < |RouteGroups[2].1| ==>
      RouteGroups[0].1[i].id != RouteGroups[2].1[j].id
    ensures forall i, j :: 0 <= i < |RouteGroups[1].1| && 0 <= j < |RouteGroups[2].1| ==>
      RouteGroups[1].1[i].id != RouteGroups[2].1[j].id
  {
  }

  lemma GroupsUnique()
    ensures UniqueIds(RouteGroups[0].1) && UniqueIds(RouteGroups[1].1) && UniqueIds(RouteGroups[2].1)
  {
    WestUnique();
    NorthUnique();
  }

  lemma WestUnique()
    ensures UniqueIds(RouteGroups[0].1)
  {
  }

  lemma NorthUnique()
    ensures UniqueIds(RouteGroups[2].1)
  {
  }

  /** Three lists with distinct ids, pairwise disjoint, concatenate to a list
      with distinct ids. */
  lemma UniqueConcat3(a: seq<RouteDef>, b: seq<RouteDef>, c: seq<RouteDef>)
    requires UniqueIds(a) && UniqueIds(b) && UniqueIds(c)
    requires forall i, j :: 0 <= i < |a| && 0 <= j < |b| ==> a[i].id != b[j].id
    requires forall i, j :: 0 <= i < |a| && 0 <= j < |c| ==> a[i].id != c[j].id
    requires forall i, j :: 0 <= i < |b| && 0 <= j < |c| ==> b[i].id != c[j].id
    ensures UniqueIds(a + b + c)
  {
    UniqueConcat(a, b);
    forall i, j | 0 <= i < |a + b| && 0 <= j < |c|
      ensures (a + b)[i].id != c[j].id
    {
      if i < |a| {
        assert (a + b)[i] == a[i];
      } else {
        assert (a + b)[i] == b[i - |a|];
      }
    }
    UniqueConcat(a + b, c);
  }

  /** The route ids are distinct. */
  lemma RouteIdsUnique()
    ensures UniqueIds(AllRoutes())
  {
    AllRoutesIsConcatenation();
    GroupsUnique();
    GroupsDisjoint();
    UniqueConcat3(RouteGroups[0].1, RouteGroups[1].1, RouteGroups[2].1);
  }

  /** The flattened table holds 19 routes with distinct ids and chained,
      non-empty edge lists. */
  lemma AllRoutesFacts()
    ensures |AllRoutes()| == 19
    ensures UniqueIds(AllRoutes())
    ensures forall i :: 0 <= i < |AllRoutes()| ==> |AllRoutes()[i].edges()| > 0 && Chained(AllRoutes()[i].edges())
  {
    AllRoutesIsConcatenation();
    RouteIdsUnique();
    TableJunctions();
    var rs := AllRoutes();
    forall i | 0 <= i < |rs|
      ensures |rs[i].edges()| > 0 && Chained(rs[i].edges())
    {
      if i < 7 {
        assert rs[i] == RouteGroups[0].1[i];
      } else if i < 10 {
        assert rs[i] == RouteGroups[1].1[i - 7];
      } else {
        assert rs[i] == RouteGroups[2].1[i - 10];
      }
      EdgesChain(rs[i].path);
    }
  }

  /** The three routes the prediction side compares are the first three
      routes of the scenario table, with the same SUMO ids and edges. */
  lemma PredictionRoutesInTable()
    ensures forall i :: 0 <= i < |AiModel.Routes| ==>
      AllRoutes()[i].id == AiModel.Routes[i].sumoId && AllRoutes()[i].edges() == AiModel.Routes[i].edges
  {
    WestComesFirst();
    forall i | 0 <= i < 3
      ensures AllRoutes()[i].id == AiModel.Routes[i].sumoId && AllRoutes()[i].edges() == AiModel.Routes[i].edges
    {
      var r := RouteGroups[0].1[i];
      assert AllRoutes()[i] == r;
      if i == 0 {
        RouteAgrees0();
      } else if i == 1 {
        RouteAgrees1();
      } else {
        RouteAgrees2();
      }
    }
  }

  /** The west group opens `ALL_ROUTES`. */
  lemma WestComesFirst()
    ensures |AllRoutes()| >= 7
    ensures forall i :: 0 <= i < 7 ==> AllRoutes()[i] == RouteGroups[0].1[i]
  {
    assert AllRoutes() == RouteGroups[0].1 + Flatten(RouteGroups[1..]);
  }

  lemma RouteAgrees0()
    ensures RouteGroups[0].1[0].edges() == AiModel.Routes[0].edges
  {
    EdgesSpell(["S1", "J1", "J2", "J3", "D1"], ["S1_J1", "J1_J2", "J2_J3", "J3_D1"]);
  }

  lemma RouteAgrees1()
    ensures RouteGroups[0].1[1].edges() == AiModel.Routes[1].edges
  {
    EdgesSpell(["S1", "J1", "J4", "J5", "J6", "J3", "D1"], ["S1_J1", "J1_J4", "J4_J5", "J5_J6", "J6_J3", "J3_D1"]);
  }

  lemma RouteAgrees2()
    ensures RouteGroups[0].1[2].edges() == AiModel.Routes[2].edges
  {
    EdgesSpell(["S1", "J1", "J4", "J7", "J8", "J9", "J6", "J3", "D1"],
      ["S1_J1", "J1_J4", "J4_J7", "J7_J8", "J8_J9", "J9_J6", "J6_J3", "J3_D1"]);
  }

  lemma EdgesSpell(path: seq<string>, ids: seq<string>)
    requires |path| == |ids| + 1
    requires forall k :: 0 <= k < |ids| ==> E(path[k], path[k + 1]) == ids[k]
    ensures Edges(path) == ids
  {
  }

  /** The `edges` strings of `ROUTES` as written, split at the spaces, in
      `ALL_ROUTES` order. */
  const RouteEdgesAsWritten: seq<seq<string>> := WestEdgesAsWritten + SouthwestEdgesAsWritten + NorthEdgesAsWritten

  const WestEdgesAsWritten: seq<seq<string>> := [
    ["S1_J1", "J1_J2", "J2_J3", "J3_D1"],
    ["S1_J1", "J1_J4", "J4_J5", "J5_J6", "J6_J3", "J3_D1"],
    ["S1_J1", "J1_J4", "J4_J7", "J7_J8", "J8_J9", "J9_J6", "J6_J3", "J3_D1"],
    ["S1_J1", "J1_J2", "J2_J5", "J5_J8", "J8_J9", "J9_D2"],
    ["S1_J1", "J1_J4", "J4_J7", "J7_J8", "J8_J9", "J9_D2"],
    ["S1_J1", "J1_J2", "J2_J5", "J5_J8", "J8_SR1"],
    ["S1_J1", "J1_J2", "J2_J3", "J3_J6", "J6_J9", "J9_SR2"]
  ]

  const SouthwestEdgesAsWritten: seq<seq<string>> := [
    ["S2_J7", "J7_J4", "J4_J1", "J1_J2", "J2_J3", "J3_D1"],
    ["S2_J7", "J7_J8", "J8_J5", "J5_J2", "J2_J3", "J3_D1"],
    ["S2_J7", "J7_J8", "J8_J9", "J9_D2"]
  ]

  const NorthEdgesAsWritten: seq<seq<string>> := [
    ["NR1_J1", "J1_J2", "J2_J3", "J3_D1"],
    ["NR1_J1", "J1_J4", "J4_J7", "J7_J8", "J8_J9", "J9_D2"],
    ["NR1_J1", "J1_J4", "J4_J5", "J5_J8", "J8_SR1"],
    ["NR2_J2", "J2_J3", "J3_D1"],
    ["NR2_J2", "J2_J5", "J5_J8", "J8_J9", "J9_D2"],
    ["NR2_J2", "J2_J5", "J5_J8", "J8_SR1"],
    ["NR3_J3", "J3_D1"],
    ["NR3_J3", "J3_J6", "J6_J9", "J9_D2"],
    ["NR3_J3", "J3_J6", "J6_J9", "J9_SR2"]
  ]

  // One lemma per route of `ROUTES`: its junction path spells the edge
  // string written for it.

  lemma West0AsWritten()
    ensures WestRoutes[0].edges() == WestEdgesAsWritten[0]
  {
    EdgesSpell(["S1", "J1", "J2", "J3", "D1"],
      ["S1_J1", "J1_J2", "J2_J3", "J3_D1"]);
  }

  lemma West1AsWritten()
    ensures WestRoutes[1].edges() == WestEdgesAsWritten[1]
  {
    EdgesSpell(["S1", "J1", "J4", "J5", "J6", "J3", "D1"],
      ["S1_J1", "J1_J4", "J4_J5", "J5_J6", "J6_J3", "J3_D1"]);
  }

  lemma West2AsWritten()
    ensures WestRoutes[2].edges() == WestEdgesAsWritten[2]
  {
    EdgesSpell(["S1", "J1", "J4", "J7", "J8", "J9", "J6", "J3", "D1"],
      ["S1_J1", "J1_J4", "J4_J7", "J7_J8", "J8_J9", "J9_J6", "J6_J3", "J3_D1"]);
  }

  lemma West3AsWritten()
    ensures WestRoutes[3].edges() == WestEdgesAsWritten[3]
  {
    EdgesSpell(["S1", "J1", "J2", "J5", "J8", "J9", "D2"],
      ["S1_J1", "J1_J2", "J2_J5", "J5_J8", "J8_J9", "J9_D2"]);
  }

  lemma West4AsWritten()
    ensures WestRoutes[4].edges() == WestEdgesAsWritten[4]
  {
    EdgesSpell(["S1", "J1", "J4", "J7", "J8", "J9", "D2"],
      ["S1_J1", "J1_J4", "J4_J7", "J7_J8", "J8_J9", "J9_D2"]);
  }

  lemma West5AsWritten()
    ensures WestRoutes[5].edges() == WestEdgesAsWritten[5]
  {
    EdgesSpell(["S1", "J1", "J2", "J5", "J8", "SR1"],
      ["S1_J1", "J1_J2", "J2_J5", "J5_J8", "J8_SR1"]);
  }

  lemma West6AsWritten()
    ensures WestRoutes[6].edges() == WestEdgesAsWritten[6]
  {
    EdgesSpell(["S1", "J1", "J2", "J3", "J6", "J9", "SR2"],
      ["S1_J1", "J1_J2", "J2_J3", "J3_J6", "J6_J9", "J9_SR2"]);
  }

  lemma Southwest0AsWritten()
    ensures SouthwestRoutes[0].edges() == SouthwestEdgesAsWritten[0]
  {
    EdgesSpell(["S2", "J7", "J4", "J1", "J2", "J3", "D1"],
      ["S2_J7", "J7_J4", "J4_J1", "J1_J2", "J2_J3", "J3_D1"]);
  }

  lemma Southwest1AsWritten()
    ensures SouthwestRoutes[1].edges() == SouthwestEdgesAsWritten[1]
  {
    EdgesSpell(["S2", "J7", "J8", "J5", "J2", "J3", "D1"],
      ["S2_J7", "J7_J8", "J8_J5", "J5_J2", "J2_J3", "J3_D1"]);
  }

  lemma Southwest2AsWritten()
    ensures SouthwestRoutes[2].edges() == SouthwestEdgesAsWritten[2]
  {
    EdgesSpell(["S2", "J7", "J8", "J9", "D2"],
      ["S2_J7", "J7_J8", "J8_J9", "J9_D2"]);
  }

  lemma North0AsWritten()
    ensures NorthRoutes[0].edges() == NorthEdgesAsWritten[0]
  {
    EdgesSpell(["NR1", "J1", "J2", "J3", "D1"],
      ["NR1_J1", "J1_J2", "J2_J3", "J3_D1"]);
  }

  lemma North1AsWritten()
    ensures NorthRoutes[1].edges() == NorthEdgesAsWritten[1]
  {
    EdgesSpell(["NR1", "J1", "J4", "J7", "J8", "J9", "D2"],
      ["NR1_J1", "J1_J4", "J4_J7", "J7_J8", "J8_J9", "J9_D2"]);
  }

  lemma North2AsWritten()
    ensures NorthRoutes[2].edges() == NorthEdgesAsWritten[2]
  {
    EdgesSpell(["NR1", "J1", "J4", "J5", "J8", "SR1"],
      ["NR1_J1", "J1_J4", "J4_J5", "J5_J8", "J8_SR1"]);
  }

  lemma North3AsWritten()
    ensures NorthRoutes[3].edges() == NorthEdgesAsWritten[3]
  {
    EdgesSpell(["NR2", "J2", "J3", "D1"],
      ["NR2_J2", "J2_J3", "J3_D1"]);
  }

  lemma North4AsWritten()
    ensures NorthRoutes[4].edges() == NorthEdgesAsWritten[4]
  {
    EdgesSpell(["NR2", "J2", "J5", "J8", "J9", "D2"],
      ["NR2_J2", "J2_J5", "J5_J8", "J8_J9", "J9_D2"]);
  }

  lemma North5AsWritten()
    ensures NorthRoutes[5].edges() == NorthEdgesAsWritten[5]
  {
    EdgesSpell(["NR2", "J2", "J5", "J8", "SR1"],
      ["NR2_J2", "J2_J5", "J5_J8", "J8_SR1"]);
  }

  lemma North6AsWritten()
    ensures NorthRoutes[6].edges() == NorthEdgesAsWritten[6]
  {
    EdgesSpell(["NR3", "J3", "D1"],
      ["NR3_J3", "J3_D1"]);
  }

  lemma North7AsWritten()
    ensures NorthRoutes[7].edges() == NorthEdgesAsWritten[7]
  {
    EdgesSpell(["NR3", "J3", "J6", "J9", "D2"],
      ["NR3_J3", "J3_J6", "J6_J9", "J9_D2"]);
  }

  lemma North8AsWritten()
    ensures NorthRoutes[8].edges() == NorthEdgesAsWritten[8]
  {
    EdgesSpell(["NR3", "J3", "J6", "J9", "SR2"],
      ["NR3_J3", "J3_J6", "J6_J9", "J9_SR2"]);
  }

  /** The west group spells its edge strings as written. */
  lemma WestAsWritten()
    ensures forall k :: 0 <= k < 7 ==> WestRoutes[k].edges() == WestEdgesAsWritten[k]
  {
    forall k | 0 <= k < 7
      ensures WestRoutes[k].edges() == WestEdgesAsWritten[k]
    {
      if k == 0 {
        West0AsWritten();
      } else if k == 1 {
        West1AsWritten();
      } else if k == 2 {
        West2AsWritten();
      } else if k == 3 {
        West3AsWritten();
      } else if k == 4 {
        West4AsWritten();
      } else if k == 5 {
        West5AsWritten();
      } else {
        West6AsWritten();
      }
    }
  }

  /** The southwest group spells its edge strings as written. */
  lemma SouthwestAsWritten()
    ensures forall k :: 0 <= k < 3 ==> SouthwestRoutes[k].edges() == SouthwestEdgesAsWritten[k]
  {
    forall k | 0 <= k < 3
      ensures SouthwestRoutes[k].edges() == SouthwestEdgesAsWritten[k]
    {
      if k == 0 {
        Southwest0AsWritten();
      } else if k == 1 {
        Southwest1AsWritten();
      } else {
        Southwest2AsWritten();
      }
    }
  }

  /** The north group spells its edge strings as written. */
  lemma NorthAsWritten()
    ensures forall k :: 0 <= k < 9 ==> NorthRoutes[k].edges() == NorthEdgesAsWritten[k]
  {
    forall k | 0 <= k < 9
      ensures NorthRoutes[k].edges() == NorthEdgesAsWritten[k]
    {
      if k == 0 {
        North0AsWritten();
      } else if k == 1 {
        North1AsWritten();
      } else if k == 2 {
        North2AsWritten();
      } else if k == 3 {
        North3AsWritten();
      } else if k == 4 {
        North4AsWritten();
      } else if k == 5 {
        North5AsWritten();
      } else if k == 6 {
        North6AsWritten();
      } else if k == 7 {
        North7AsWritten();
      } else {
        North8AsWritten();
      }
    }
  }

  /** Every route of the table spells out exactly the edge string the
      source writes for it. */
  lemma RouteTableAsWritten()
    ensures |AllRoutes()| == |RouteEdgesAsWritten|
    ensures forall k :: 0 <= k < |AllRoutes()| ==> AllRoutes()[k].edges() == RouteEdgesAsWritten[k]
  {
    AllRoutesIsConcatenation();
    WestAsWritten();
    SouthwestAsWritten();
    NorthAsWritten();
    assert AllRoutes() == WestRoutes + SouthwestRoutes + NorthRoutes;
    forall k | 0 <= k < |AllRoutes()|
      ensures AllRoutes()[k].edges() == RouteEdgesAsWritten[k]
    {
      if k < 7 {
        assert AllRoutes()[k] == WestRoutes[k] && RouteEdgesAsWritten[k] == WestEdgesAsWritten[k];
      } else if k < 10 {
        assert AllRoutes()[k] == SouthwestRoutes[k - 7] && RouteEdgesAsWritten[k] == SouthwestEdgesAsWritten[k - 7];
      } else {
        assert AllRoutes()[k] == NorthRoutes[k - 10] && RouteEdgesAsWritten[k] == NorthEdgesAsWritten[k - 10];
      }
    }
  }

  // ---------------------------------------------------------------------------
  // Configuration tables
  // ---------------------------------------------------------------------------

  datatype Density = Density(count: nat, duration: nat)

  /** `DENSITY_CONFIG`, in insertion order. */
  const DensityConfig: seq<(string, Density)> := [
    ("low", Density(15, 200)),
    ("medium", Density(40, 300)),
    ("high", Density(80, 400)),
    ("rush_hour", Density(120, 500))
  ]

  /** `MIX_CONFIG`: for each mix, the ratio of each vehicle type in order. */
  const MixConfig: seq<(string, seq<(string, real)>)> := [
    ("cars_only", [("car", 1.0), ("bus", 0.0), ("truck", 0.0)]),
    ("mixed", [("car", 0.6), ("bus", 0.2), ("truck", 0.2)]),
    ("heavy_commercial", [("car", 0.3), ("bus", 0.3), ("truck", 0.4)])
  ]

  /** The keys of `PATTERN_FN`, in insertion order. */
  const Patterns: seq<string> := ["uniform", "rush_hour", "random"]

  /** The keys of `VTYPES`, in insertion order. */
  const VehicleTypes: seq<string> := ["car", "bus", "truck"]

  // ---------------------------------------------------------------------------
  // Departure schedules
  // ---------------------------------------------------------------------------

  /** A draw of `random.random()`; `random.uniform(a, b)` is `a + (b-a)·u`. */
  type Unit = u: real | 0.0 <= u <= 1.0

  /** The random choices of one generation, as streams: the unit draws used by
      a random schedule, and the indices `random.choice` picks for each
      vehicle's type and route (taken modulo the length of the list). */
  datatype Draws = Draws(unit: nat -> Unit, typePick: nat -> nat, routePick: nat -> nat)

  /** `_uniform_departures`: departure `i` is at `i · duration / count`. The
      first is at 0, they strictly increase, and all lie before `duration`. */
  function UniformDepartures(count: nat, duration: real): (r: seq<real>)
    requires count > 0
    ensures |r| == count
    ensures forall i :: 0 <= i < count ==> r[i] == (i as real) * (duration / count as real)
    ensures r[0] == 0.0
    ensures duration > 0.0 ==> forall i, j :: 0 <= i < j < count ==> r[i] < r[j]
    ensures duration > 0.0 ==> forall i :: 0 <= i < count ==> 0.0 <= r[i] < duration
  {
    var gap := duration / count as real;
    var r := seq(count, i requires 0 <= i < count => (i as real) * gap);
    if duration > 0.0 then UniformFacts(count, duration, r); r else r
  }

  lemma UniformFacts(count: nat, duration: real, r: seq<real>)
    requires count > 0 && duration > 0.0
    requires |r| == count
    requires forall i :: 0 <= i < count ==> r[i] == (i as real) * (duration / count as real)
    ensures forall i, j :: 0 <= i < j < count ==> r[i] < r[j]
    ensures forall i :: 0 <= i < count ==> 0.0 <= r[i] < duration
  {
    var gap := duration / count as real;
    assert gap > 0.0;
    assert (count as real) * gap == duration;
    forall i, j | 0 <= i < j < count
      ensures r[i] < r[j]
    {
      ScaleStrict(i as real, j as real, gap);
    }
    forall i | 0 <= i < count
      ensures 0.0 <= r[i] < duration
    {
      ScaleStrict(i as real, count as real, gap);
      ScaleStrict(0.0, i as real + 1.0, gap);
    }
  }

  /** Multiplying by a positive factor keeps a strict order. */
  lemma ScaleStrict(a: real, b: real, g: real)
    requires a < b && g > 0.0
    ensures a * g < b * g
  {
    assert b * g - a * g == (b - a) * g;
  }

  lemma ScaledUnitWithin(u: Unit, span: real)
    requires span >= 0.0
    ensures 0.0 <= u * span <= span
  {
    assert span - u * span == (1.0 - u) * span;
  }

  /** A random schedule: `count` draws scaled to [0, span], sorted ascending. */
  function RandomSchedule(count: nat, span: real, unit: nat -> Unit): (r: seq<real>)
    requires span >= 0.0
    ensures |r| == count
    ensures Sorted(r)
    ensures AllWithin(r, 0.0, span)
    ensures multiset(r) == multiset(seq(count, i requires 0 <= i < count => unit(i) * span))
  {
    var draws := seq(count, i requires 0 <= i < count => unit(i) * span);
    assert AllWithin(draws, 0.0, span) by {
      forall i | 0 <= i < count
        ensures 0.0 <= draws[i] <= span
      {
        ScaledUnitWithin(unit(i), span);
      }
    }
    var r := Sort(draws);
    PermutationWithin(draws, r, 0.0, span);
    r
  }

  /** `_rush_hour_departures`: sorted draws within the first 40%. */
  function RushHourDepartures(count: nat, duration: real, unit: nat -> Unit): (r: seq<real>)
    requires duration >= 0.0
    ensures |r| == count && Sorted(r) && AllWithin(r, 0.0, duration * 0.4)
  {
    RandomSchedule(count, duration * 0.4, unit)
  }

  /** `_random_departures`: sorted draws within the first 80%. */
  function RandomDepartures(count: nat, duration: real, unit: nat -> Unit): (r: seq<real>)
    requires duration >= 0.0
    ensures |r| == count && Sorted(r) && AllWithin(r, 0.0, duration * 0.8)
  {
    RandomSchedule(count, duration * 0.8, unit)
  }

  /** `PATTERN_FN[pattern](count, duration)`; `None` for an unknown pattern. */
  function Departures(pattern: string, count: nat, duration: real, unit: nat -> Unit): (r: Option<seq<real>>)
    requires count > 0 && duration > 0.0
    ensures r.Some? <==> pattern in Patterns
    ensures r.Some? ==> |r.value| == count && Sorted(r.value) && AllWithin(r.value, 0.0, duration)
  {
    if pattern == "uniform" then
      var r := UniformDepartures(count, duration);
      assert Sorted(r) && AllWithin(r, 0.0, duration);
      Some(r)
    else if pattern == "rush_hour" then
      var r := RushHourDepartures(count, duration, unit);
      assert AllWithin(r, 0.0, duration);
      Some(r)
    else if pattern == "random" then
      var r := RandomDepartures(count, duration, unit);
      assert AllWithin(r, 0.0, duration);
      Some(r)
    else None
  }

  // ---------------------------------------------------------------------------
  // Vehicle-type pool
  // ---------------------------------------------------------------------------

  /** `int(ratio * 100)` copies; `int` truncates towards zero and a list
      repeated a non-positive number of times is empty. */
  function Copies(ratio: real): nat {
    if ratio * 100.0 >= 0.0 then (ratio * 100.0).Floor else 0
  }

  /** Number of occurrences of `x` in `s`. */
  function Occurrences(s: seq<string>, x: string): nat {
    if |s| == 0 then 0 else (if s[0] == x then 1 else 0) + Occurrences(s[1..], x)
  }

  /** Total copies the mix asks for the type `t` (its entries named `t`). */
  function CopiesOf(mix: seq<(string, real)>, t: string): nat {
    if |mix| == 0 then 0 else (if mix[0].0 == t then Copies(mix[0].1) else 0) + CopiesOf(mix[1..], t)
  }

  /** `type_pool`: each type of the mix repeated by its copies, in mix order. */
  function TypePool(mix: seq<(string, real)>): (pool: seq<string>)
    ensures forall i :: 0 <= i < |pool| ==> exists k :: 0 <= k < |mix| && mix[k].0 == pool[i] && Copies(mix[k].1) > 0
  {
    if |mix| == 0 then []
    else
      var rest := TypePool(mix[1..]);
      assert forall i :: 0 <= i < |rest| ==> exists k :: 1 <= k < |mix| && mix[k].0 == rest[i] && Copies(mix[k].1) > 0 by {
        forall i | 0 <= i < |rest|
          ensures exists k :: 1 <= k < |mix| && mix[k].0 == rest[i] && Copies(mix[k].1) > 0
        {
          var k :| 0 <= k < |mix[1..]| && mix[1..][k].0 == rest[i] && Copies(mix[1..][k].1) > 0;
          assert mix[k + 1] == mix[1..][k];
        }
      }
      seq(Copies(mix[0].1), _ => mix[0].0) + rest
  }

  lemma {:induction false} OccurrencesAppend(a: seq<string>, b: seq<string>, x: string)
    ensures Occurrences(a + b, x) == Occurrences(a, x) + Occurrences(b, x)
  {
    if |a| == 0 {
      assert a + b == b;
    } else {
      assert (a + b)[1..] == a[1..] + b;
      OccurrencesAppend(a[1..], b, x);
    }
  }

  lemma {:induction false} OccurrencesOfRepeat(n: nat, y: string, x: string)
    ensures Occurrences(seq(n, _ => y), x) == if x == y then n else 0
  {
    if n > 0 {
      assert seq(n, _ => y)[1..] == seq(n - 1, _ => y);
      OccurrencesOfRepeat(n - 1, y, x);
    }
  }

  /** The pool holds each type exactly as many times as the mix asks, so the
      choice from it is weighted by the ratios. */
  lemma {:induction false} TypePoolCounts(mix: seq<(string, real)>, t: string)
    ensures Occurrences(TypePool(mix), t) == CopiesOf(mix, t)
  {
    if |mix| > 0 {
      OccurrencesAppend(seq(Copies(mix[0].1), _ => mix[0].0), TypePool(mix[1..]), t);
      OccurrencesOfRepeat(Copies(mix[0].1), mix[0].0, t);
      TypePoolCounts(mix[1..], t);
    }
  }

  /** The pools of the three configured mixes: 100 entries each, split
      100/0/0, 60/20/20 and 30/30/40. */
  lemma ConfiguredPools()
    ensures var pool := TypePool(MixConfig[0].1);
      |pool| == 100 && forall i :: 0 <= i < |pool| ==> pool[i] == "car"
    ensures var pool := TypePool(MixConfig[1].1);
      Occurrences(pool, "car") == 60 && Occurrences(pool, "bus") == 20 && Occurrences(pool, "truck") == 20
    ensures var pool := TypePool(MixConfig[2].1);
      Occurrences(pool, "car") == 30 && Occurrences(pool, "bus") == 30 && Occurrences(pool, "truck") == 40
  {
    CarsOnlyPool();
    MixPoolCounts(MixConfig[1].1, "car", "bus", "truck");
    MixPoolCounts(MixConfig[2].1, "car", "bus", "truck");
  }

  lemma CarsOnlyPool()
    ensures var pool := TypePool(MixConfig[0].1);
      |pool| == 100 && forall i :: 0 <= i < |pool| ==> pool[i] == "car"
  {
    var mix := MixConfig[0].1;
    assert Copies(mix[0].1) == 100 && Copies(mix[1].1) == 0 && Copies(mix[2].1) == 0;
    assert TypePool(mix[2..]) == [];
    assert TypePool(mix[1..]) == [];
  }

  /** The pool counts of a three-entry mix of three distinct types. */
  lemma MixPoolCounts(mix: seq<(string, real)>, a: string, b: string, c: string)
    requires |mix| == 3 && mix[0].0 == a && mix[1].0 == b && mix[2].0 == c
    requires a != b && b != c && a != c
    ensures var pool := TypePool(mix);
      && Occurrences(pool, a) == Copies(mix[0].1)
      && Occurrences(pool, b) == Copies(mix[1].1)
      && Occurrences(pool, c) == Copies(mix[2].1)
  {
    TypePoolCounts(mix, a);
    TypePoolCounts(mix, b);
    TypePoolCounts(mix, c);
    var m1 := mix[1..];
    var m2 := m1[1..];
    assert |m2[1..]| == 0;
    assert m1[0] == mix[1] && m2[0] == mix[2];
    assert CopiesOf(m2, a) == 0 && CopiesOf(m2, b) == 0 && CopiesOf(m2, c) == Copies(mix[2].1);
    assert CopiesOf(m1, a) == 0 && CopiesOf(m1, b) == Copies(mix[1].1);
  }

  // ---------------------------------------------------------------------------
  // Generation
  // ---------------------------------------------------------------------------

  /** One `<vehicle>` element: id, type, route id and departure time. */
  datatype Vehicle = Vehicle(id: string, vtype: string, route: string, depart: real)

  /** The generated route file as data, and the simulation duration returned
      with it. The `<vType>` and `<route>` elements are the constant tables. */
  datatype Generated = Generated(vehicles: seq<Vehicle>, duration: nat)

  /** The id of the `i`-th vehicle, `f"v{i}"`. */
  function VehicleId(i: nat): string {
    "v" + NatToString(i)
  }

  /** `generate_scenario(density, vehicle_mix, pattern)`: one vehicle per
      departure, `None` where the source raises `KeyError` on an unknown key
      (or `IndexError` on an empty type pool). */
  function GenerateScenario(density: string, vehicleMix: string, pattern: string, draws: Draws): (r: Option<Generated>)
    ensures density in Keys(DensityConfig) && vehicleMix in Keys(MixConfig) && pattern in Patterns ==> r.Some?
    ensures r.Some? ==> density in Keys(DensityConfig) && vehicleMix in Keys(MixConfig) && pattern in Patterns
    ensures r.Some? ==>
      var cfg := Lookup(DensityConfig, density).value;
      var vs := r.value.vehicles;
      && r.value.duration == cfg.duration
      && |vs| == cfg.count
      && (forall i :: 0 <= i < |vs| ==> vs[i].id == VehicleId(i))
      && (forall i :: 0 <= i < |vs| ==> vs[i].route in RouteIds(AllRoutes()))
      && (forall i :: 0 <= i < |vs| ==> 0.0 <= vs[i].depart <= cfg.duration as real)
      && (forall i, j :: 0 <= i < j < |vs| ==> vs[i].depart <= vs[j].depart)
      && (forall i :: 0 <= i < |vs| ==> vs[i].vtype in TypePool(Lookup(MixConfig, vehicleMix).value))
  {
    var cfg := Lookup(DensityConfig, density);
    var mix := Lookup(MixConfig, vehicleMix);
    if cfg.None? || mix.None? then None
    else
      DensityFacts(density);
      MixPoolsNonEmpty(vehicleMix);
      var pool := TypePool(mix.value);
      match Departures(pattern, cfg.value.count, cfg.value.duration as real, draws.unit)
      case None => None
      case Some(deps) =>
        AllRoutesFacts();
        Some(Assemble(cfg.value, deps, pool, AllRoutes(), draws))
  }

  /** The generated file for one configuration and its departures. */
  function Assemble(cfg: Density, deps: seq<real>, pool: seq<string>, routes: seq<RouteDef>, draws: Draws): (g: Generated)
    requires |pool| > 0 && |routes| > 0
    requires |deps| == cfg.count && Sorted(deps) && AllWithin(deps, 0.0, cfg.duration as real)
    ensures g.duration == cfg.duration && |g.vehicles| == cfg.count
    ensures forall i :: 0 <= i < |g.vehicles| ==> g.vehicles[i].id == VehicleId(i)
    ensures forall i :: 0 <= i < |g.vehicles| ==> g.vehicles[i].route in RouteIds(routes)
    ensures forall i :: 0 <= i < |g.vehicles| ==> 0.0 <= g.vehicles[i].depart <= cfg.duration as real
    ensures forall i, j :: 0 <= i < j < |g.vehicles| ==> g.vehicles[i].depart <= g.vehicles[j].depart
    ensures forall i :: 0 <= i < |g.vehicles| ==> g.vehicles[i].vtype in pool
  {
    var vs := Vehicles(deps, pool, routes, draws);
    assert forall i :: 0 <= i < |vs| ==> 0.0 <= vs[i].depart <= cfg.duration as real;
    Generated(vs, cfg.duration)
  }

  /** The route ids of a table, in order. */
  function RouteIds(rs: seq<RouteDef>): (ids: seq<string>)
    ensures |ids| == |rs| && forall i :: 0 <= i < |rs| ==> ids[i] == rs[i].id
  {
    seq(|rs|, i requires 0 <= i < |rs| => rs[i].id)
  }

  /** The vehicle list: vehicle `i` departs at `deps[i]` with the type and
      route the draws choose. */
  function Vehicles(deps: seq<real>, pool: seq<string>, routes: seq<RouteDef>, draws: Draws): (vs: seq<Vehicle>)
    requires |pool| > 0 && |routes| > 0
    ensures |vs| == |deps|
    ensures forall i :: 0 <= i < |vs| ==> vs[i].id == VehicleId(i) && vs[i].depart == deps[i]
    ensures forall i :: 0 <= i < |vs| ==> vs[i].vtype in pool && vs[i].route in RouteIds(routes)
  {
    var ids := RouteIds(routes);
    seq(|deps|, i requires 0 <= i < |deps| =>
      Vehicle(VehicleId(i), pool[draws.typePick(i) % |pool|], ids[draws.routePick(i) % |ids|], deps[i]))
  }

  /** Every configured density has vehicles and a positive duration. */
  lemma DensityFacts(density: string)
    requires Lookup(DensityConfig, density).Some?
    ensures Lookup(DensityConfig, density).value.count > 0
    ensures Lookup(DensityConfig, density).value.duration > 0
  {
  }

  /** Every configured mix gives a non-empty pool. */
  lemma MixPoolsNonEmpty(vehicleMix: string)
    requires Lookup(MixConfig, vehicleMix).Some?
    ensures |TypePool(Lookup(MixConfig, vehicleMix).value)| > 0
  {
    var mix := Lookup(MixConfig, vehicleMix).value;
    var i :| 0 <= i < |MixConfig| && MixConfig[i] == (vehicleMix, mix);
    assert CopiesOf(mix, "car") > 0;
    TypePoolCounts(mix, "car");
  }

  /** A type whose every ratio gives no copies is never chosen; with
      `cars_only` every vehicle is a car. */
  lemma ZeroRatioNeverChosen(density: string, vehicleMix: string, pattern: string, draws: Draws, t: string)
    requires Lookup(MixConfig, vehicleMix).Some?
    requires CopiesOf(Lookup(MixConfig, vehicleMix).value, t) == 0
    ensures var r := GenerateScenario(density, vehicleMix, pattern, draws);
      r.Some? ==> forall i :: 0 <= i < |r.value.vehicles| ==> r.value.vehicles[i].vtype != t
  {
    var pool := TypePool(Lookup(MixConfig, vehicleMix).value);
    TypePoolCounts(Lookup(MixConfig, vehicleMix).value, t);
    OccurrencesZero(pool, t);
  }

  lemma {:induction false} OccurrencesZero(s: seq<string>, x: string)
    requires Occurrences(s, x) == 0
    ensures x !in s
  {
    if |s| > 0 {
      OccurrencesZero(s[1..], x);
    }
  }
}
