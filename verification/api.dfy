/** The HTTP backend (backend/app/main.py): the options listing, the input
    rejection of `/simulate`, and the summary it builds over the collected
    steps. Transport, CORS and request parsing are not modelled; a handler
    result is a response value. */
module Api {
  import opened Wrappers
  import opened Text
  import opened Traffic
  import Seqs
  import Scenario
  import Collector

  /** `GET /simulate/options`: the option names of each table. */
  datatype Options = Options(density: seq<string>, vehicleMix: seq<string>, pattern: seq<string>)

  /** The request body (`ScenarioRequest`). */
  datatype Request = Request(density: string, vehicleMix: string, pattern: string, seed: int)

  datatype Summary = Summary(totalSteps: nat, totalVehicles: nat, totalCo2: real)

  datatype Body = Body(scenario: Request, summary: Summary, steps: seq<StepRecord>)

  /** A handler result: a JSON body, or an HTTP error status with its detail. */
  datatype Response = Ok(body: Body) | HttpError(status: nat, detail: string)

  /** The detail of the 500 response an unhandled exception becomes. */
  const InternalError: string := "Internal Server Error"

  /** `get_options`: the keys of the three tables, in table order. */
  function GetOptions(): (o: Options)
    ensures o.density == ["low", "medium", "high", "rush_hour"]
    ensures o.vehicleMix == ["cars_only", "mixed", "heavy_commercial"]
    ensures o.pattern == ["uniform", "rush_hour", "random"]
  {
    Options(Seqs.Keys(Scenario.DensityConfig), Seqs.Keys(Scenario.MixConfig), Scenario.Patterns)
  }

  /** An option is offered exactly when the generator accepts it. */
  lemma OptionsAreAccepted(x: string)
    ensures x in GetOptions().density <==> Seqs.Lookup(Scenario.DensityConfig, x).Some?
    ensures x in GetOptions().vehicleMix <==> Seqs.Lookup(Scenario.MixConfig, x).Some?
    ensures x in GetOptions().pattern <==> x in Scenario.Patterns
  {
  }

  /** Python's `repr` of a list of strings without quotes inside them. */
  function ListRepr(items: seq<string>): string {
    "[" + Join(seq(|items|, i requires 0 <= i < |items| => "'" + items[i] + "'"), ", ") + "]"
  }

  /** All three options are known. */
  predicate Accepted(req: Request) {
    && req.density in Seqs.Keys(Scenario.DensityConfig)
    && req.vehicleMix in Seqs.Keys(Scenario.MixConfig)
    && req.pattern in Scenario.Patterns
  }

  /** The rejection of the first unknown option, checked in the order
      density, vehicle mix, pattern; `None` when all are known. */
  function Rejection(req: Request): (r: Option<Response>)
    ensures r.None? <==> Accepted(req)
    ensures req.density !in Seqs.Keys(Scenario.DensityConfig) ==>
      r == Some(HttpError(400, "Invalid density. Options: " + ListRepr(Seqs.Keys(Scenario.DensityConfig))))
    ensures req.density in Seqs.Keys(Scenario.DensityConfig) && req.vehicleMix !in Seqs.Keys(Scenario.MixConfig) ==>
      r == Some(HttpError(400, "Invalid vehicle_mix. Options: " + ListRepr(Seqs.Keys(Scenario.MixConfig))))
    ensures (req.density in Seqs.Keys(Scenario.DensityConfig) && req.vehicleMix in Seqs.Keys(Scenario.MixConfig)
      && req.pattern !in Scenario.Patterns) ==>
      r == Some(HttpError(400, "Invalid pattern. Options: " + ListRepr(Scenario.Patterns)))
  {
    if req.density !in Seqs.Keys(Scenario.DensityConfig) then
      Some(HttpError(400, "Invalid density. Options: " + ListRepr(Seqs.Keys(Scenario.DensityConfig))))
    else if req.vehicleMix !in Seqs.Keys(Scenario.MixConfig) then
      Some(HttpError(400, "Invalid vehicle_mix. Options: " + ListRepr(Seqs.Keys(Scenario.MixConfig))))
    else if req.pattern !in Scenario.Patterns then
      Some(HttpError(400, "Invalid pattern. Options: " + ListRepr(Scenario.Patterns)))
    else None
  }

  // ---------------------------------------------------------------------------
  // Summary
  // ---------------------------------------------------------------------------

  /** Every vehicle entry of every step, step by step. */
  function Entries(steps: seq<StepRecord>): (vs: seq<VehicleRecord>)
  {
    if |steps| == 0 then [] else steps[0].vehicles + Entries(steps[1..])
  }

  /** The entries are exactly the vehicles of the steps. */
  lemma {:induction false} EntriesOfSteps(steps: seq<StepRecord>)
    ensures forall v :: v in Entries(steps) <==> exists s :: 0 <= s < |steps| && v in steps[s].vehicles
  {
    if |steps| > 0 {
      EntriesOfSteps(steps[1..]);
      forall v
        ensures v in Entries(steps) <==> exists s :: 0 <= s < |steps| && v in steps[s].vehicles
      {
        if v in Entries(steps[1..]) {
          var s :| 0 <= s < |steps[1..]| && v in steps[1..][s].vehicles;
          assert v in steps[s + 1].vehicles;
        }
        if exists s :: 0 <= s < |steps| && v in steps[s].vehicles {
          var s :| 0 <= s < |steps| && v in steps[s].vehicles;
          if s > 0 {
            assert steps[s] == steps[1..][s - 1];
          }
        }
      }
    }
  }

  /** The ids of the entries, in order. */
  function Ids(vs: seq<VehicleRecord>): (ids: seq<string>)
    ensures |ids| == |vs| && forall k :: 0 <= k < |vs| ==> ids[k] == vs[k].id
  {
    seq(|vs|, k requires 0 <= k < |vs| => vs[k].id)
  }

  /** The set `all_vehicles` the loop builds by adding each id in turn. */
  function IdSet(ids: seq<string>): (s: set<string>)
    ensures forall x :: x in s <==> x in ids
  {
    if |ids| == 0 then {} else IdSet(ids[..|ids| - 1]) + {ids[|ids| - 1]}
  }

  /** A set built from a list has no more elements than the list. */
  lemma {:induction false} IdSetBound(ids: seq<string>)
    ensures |IdSet(ids)| <= |ids|
  {
    if |ids| > 0 {
      IdSetBound(ids[..|ids| - 1]);
    }
  }

  /** Every entry carries a `co2_emission` value. */
  predicate AllHaveCo2(vs: seq<VehicleRecord>) {
    forall k :: 0 <= k < |vs| ==> vs[k].co2Emission.Some?
  }

  /** The emission an entry carries, 0 when it has none. */
  function Co2Of(v: VehicleRecord): real {
    match v.co2Emission
    case Some(c) => c
    case None => 0.0
  }

  /** The emissions of a run of entries added up from the front. */
  function SumCo2(vs: seq<VehicleRecord>): real {
    if |vs| == 0 then 0.0 else Co2Of(vs[0]) + SumCo2(vs[1..])
  }

  lemma {:induction false} SumCo2Append(a: seq<VehicleRecord>, b: seq<VehicleRecord>)
    ensures SumCo2(a + b) == SumCo2(a) + SumCo2(b)
  {
    if |a| > 0 {
      assert (a + b)[1..] == a[1..] + b;
      SumCo2Append(a[1..], b);
    } else {
      assert a + b == b;
    }
  }

  /** The total the nested loop of `run_simulation` means: per step, the sum
      over that step's vehicles, added over the steps. */
  function StepsCo2(steps: seq<StepRecord>): real {
    if |steps| == 0 then 0.0 else SumCo2(steps[0].vehicles) + StepsCo2(steps[1..])
  }

  /** Summing the flattened entries gives the per-step total. */
  lemma {:induction false} EntriesCo2(steps: seq<StepRecord>)
    ensures SumCo2(Entries(steps)) == StepsCo2(steps)
  {
    if |steps| > 0 {
      EntriesCo2(steps[1..]);
      SumCo2Append(steps[0].vehicles, Entries(steps[1..]));
    }
  }

  /** `total_co2 += v["co2_emission"]` over the entries; `None` when an entry
      has no such key and the lookup raises `KeyError`, otherwise the sum of
      the emissions. */
  function Co2Total(vs: seq<VehicleRecord>): (r: Option<real>)
    ensures r.Some? <==> AllHaveCo2(vs)
    ensures r.Some? ==> r.value == SumCo2(vs)
    ensures |vs| == 0 ==> r == Some(0.0)
  {
    if |vs| == 0 then Some(0.0)
    else
      var init := vs[..|vs| - 1];
      assert vs == init + [vs[|vs| - 1]];
      SumCo2Append(init, [vs[|vs| - 1]]);
      assert SumCo2([vs[|vs| - 1]]) == Co2Of(vs[|vs| - 1]) + SumCo2([]);
      match (Co2Total(init), vs[|vs| - 1].co2Emission)
      case (Some(t), Some(c)) => Some(t + c)
      case (None, _) => None
      case (_, None) => None
  }

  /** The summary block; `None` where the `KeyError` escapes. */
  function Summarize(steps: seq<StepRecord>): (r: Option<Summary>)
    ensures r.Some? <==> AllHaveCo2(Entries(steps))
    ensures r.Some? ==>
      && r.value.totalSteps == |steps|
      && r.value.totalVehicles == |IdSet(Ids(Entries(steps)))|
      && r.value.totalVehicles <= |Entries(steps)|
      && r.value.totalCo2 == StepsCo2(steps)
  {
    var co2 := Co2Total(Entries(steps));
    IdSetBound(Ids(Entries(steps)));
    EntriesCo2(steps);
    if co2.None? then None else Some(Summary(|steps|, |IdSet(Ids(Entries(steps)))|, co2.value))
  }

  /** `total_vehicles` counts a vehicle once however many steps it is in:
      two entries share a count exactly when they share an id. */
  lemma DistinctVehicleCount(steps: seq<StepRecord>, x: string)
    ensures x in IdSet(Ids(Entries(steps))) <==>
      exists s, j :: 0 <= s < |steps| && 0 <= j < |steps[s].vehicles| && steps[s].vehicles[j].id == x
  {
    var vs := Entries(steps);
    EntriesOfSteps(steps);
    if x in IdSet(Ids(vs)) {
      var k :| 0 <= k < |vs| && Ids(vs)[k] == x;
      assert vs[k] in vs;
      var s :| 0 <= s < |steps| && vs[k] in steps[s].vehicles;
      var j :| 0 <= j < |steps[s].vehicles| && steps[s].vehicles[j] == vs[k];
    }
    if exists s, j :: 0 <= s < |steps| && 0 <= j < |steps[s].vehicles| && steps[s].vehicles[j].id == x {
      var s, j :| 0 <= s < |steps| && 0 <= j < |steps[s].vehicles| && steps[s].vehicles[j].id == x;
      var v := steps[s].vehicles[j];
      assert v in steps[s].vehicles;
      assert exists t :: 0 <= t < |steps| && v in steps[t].vehicles;
      assert v in vs;
      var k :| 0 <= k < |vs| && vs[k] == steps[s].vehicles[j];
      assert Ids(vs)[k] == x;
    }
  }

  /** No entry of the collected snapshots carries a CO2 value. */
  lemma CollectedEntriesLackCo2(states: seq<Collector.SimState>, v: VehicleRecord)
    ensures v in Entries(Collector.Kept(states)) ==> v.co2Emission.None?
  {
    Collector.KeptRecordsClean(states);
    var steps := Collector.Kept(states);
    EntriesOfSteps(steps);
    if v in Entries(steps) {
      var s :| 0 <= s < |steps| && v in steps[s].vehicles;
      var j :| 0 <= j < |steps[s].vehicles| && steps[s].vehicles[j] == v;
    }
  }

  /** The collected snapshots carry no CO2 value, so their summary raises as
      soon as one of them lists a vehicle: a summary that succeeds is over
      snapshots without vehicles, and counts none. */
  lemma CollectedSummaryFails(states: seq<Collector.SimState>)
    ensures Summarize(Collector.Kept(states)).Some? ==>
      && (forall s :: 0 <= s < |Collector.Kept(states)| ==> |Collector.Kept(states)[s].vehicles| == 0)
      && |Entries(Collector.Kept(states))| == 0
  {
    var steps := Collector.Kept(states);
    EntriesOfSteps(steps);
    forall s | 0 <= s < |steps|
      ensures |steps[s].vehicles| > 0 ==> !AllHaveCo2(Entries(steps))
    {
      if |steps[s].vehicles| > 0 {
        var v := steps[s].vehicles[0];
        assert v in steps[s].vehicles;
        assert exists t :: 0 <= t < |steps| && v in steps[t].vehicles;
        assert v in Entries(steps);
        CollectedEntriesLackCo2(states, v);
        var k :| 0 <= k < |Entries(steps)| && Entries(steps)[k] == v;
      }
    }
    if |Entries(steps)| > 0 {
      CollectedEntriesLackCo2(states, Entries(steps)[0]);
    }
  }

  /** On states SUMO can report, an active step always lists a vehicle, so
      the summary of the collected snapshots succeeds only when nothing was
      collected. */
  lemma ConsistentSummaryOnlyEmpty(states: seq<Collector.SimState>)
    requires forall k :: 0 <= k < |states| ==> Collector.Consistent(states[k])
    ensures Summarize(Collector.Kept(states)).Some? ==> Collector.Kept(states) == []
  {
    CollectedSummaryFails(states);
    Collector.KeptListVehicles(states);
  }

  /** The same for the snapshots of the first `count` states of a trace
      SUMO can report, which is what the run collects. */
  lemma ConsistentPrefixSummaryOnlyEmpty(trace: seq<Collector.SimState>, count: nat)
    requires count <= |trace|
    requires forall k :: 0 <= k < |trace| ==> Collector.Consistent(trace[k])
    ensures Summarize(Collector.Kept(trace[..count])).Some? ==> Collector.Kept(trace[..count]) == []
  {
    assert forall k :: 0 <= k < count ==> trace[..count][k] == trace[k];
    ConsistentSummaryOnlyEmpty(trace[..count]);
  }

  /** `run_simulation(req)` with the random draws of the generator and what
      the simulator reports as inputs. Unknown options are rejected with 400
      in the order density, vehicle mix, pattern, before anything is
      generated; an exception during the run or the summary becomes a 500.
      Because the collector never writes `co2_emission`, a successful
      response can only carry snapshots without vehicles; on a trace SUMO
      can report, where the active count is the vehicle list's length, it
      carries no snapshot at all. */
  method RunSimulation(req: Request, draws: Scenario.Draws, trace: seq<Collector.SimState>) returns (resp: Response)
    ensures !Accepted(req) ==> Some(resp) == Rejection(req)
    ensures Accepted(req) ==> resp.Ok? || resp == HttpError(500, InternalError)
    ensures resp.Ok? ==>
      && Accepted(req)
      && resp.body.scenario == req
      && resp.body.summary.totalSteps == |resp.body.steps|
      && resp.body.summary.totalVehicles == |IdSet(Ids(Entries(resp.body.steps)))|
      && resp.body.summary.totalVehicles <= |Entries(resp.body.steps)|
      && (forall i :: 0 <= i < |resp.body.steps| ==> resp.body.steps[i].stats.activeVehicles > 0)
      && (forall i :: 0 <= i < |resp.body.steps| ==> |resp.body.steps[i].vehicles| == 0)
      && resp.body.summary.totalVehicles == 0
      && resp.body.summary.totalCo2 == 0.0
    ensures (forall k :: 0 <= k < |trace| ==> Collector.Consistent(trace[k])) && resp.Ok? ==>
      resp.body.steps == [] && resp.body.summary.totalSteps == 0
  {
    var rejection := Rejection(req);
    if rejection.Some? {
      return rejection.value;
    }
    var generated := Scenario.GenerateScenario(req.density, req.vehicleMix, req.pattern, draws);
    var outcome, count, _ := Collector.RunFullSimulation(trace, generated.value.duration);
    if outcome.Raised? {
      return HttpError(500, InternalError);
    }
    var steps := outcome.results;
    var summary := Summarize(steps);
    if summary.None? {
      return HttpError(500, InternalError);
    }
    CollectedSummaryFails(trace[..count]);
    if forall k :: 0 <= k < |trace| ==> Collector.Consistent(trace[k]) {
      ConsistentPrefixSummaryOnlyEmpty(trace, count);
    }
    assert |Ids(Entries(steps))| == 0;
    assert Entries(steps) == [];
    resp := Ok(Body(req, summary.value, steps));
  }
}
