/** The TraCI simulation manager (backend/app/traci/main.py) over an
    abstract simulator: what SUMO reports after each `simulationStep()` is an
    input sequence, one entry per step, and stepping past its end raises as
    the TraCI connection does when the simulation can no longer advance. */
module Collector {
  import opened Wrappers
  import opened Text
  import opened Seqs
  import opened Traffic

  /** What SUMO reports for one vehicle (the `traci.vehicle` getters). */
  datatype VehicleSample = VehicleSample(
    id: string, speed: real, position: Position, road: string,
    lanePosition: real, route: seq<string>, vtype: string)

  /** What SUMO reports after one step. `edges` lists every edge id of the
      network, internal junction edges (ids starting with ':') included. */
  datatype SimState = SimState(
    time: real,
    vehicles: seq<VehicleSample>,
    edges: seq<EdgeRecord>,
    trafficLights: seq<TrafficLight>,
    stats: StepStats)

  /** SUMO counts the active vehicles (`getIDCount`) over the same vehicle
      set that `getIDList` enumerates, so the count is the list's length. */
  predicate Consistent(s: SimState) {
    s.stats.activeVehicles == |s.vehicles|
  }

  /** The commands sent to the simulator, in order. */
  datatype Command = Start(duration: nat) | Step | Close

  /** How `run_full_simulation` ends: with its snapshots, or by propagating
      the exception a step raised (after closing the connection). */
  datatype Outcome = Completed(results: seq<StepRecord>) | Raised

  /** An internal junction edge, which the collector skips. */
  predicate IsInternal(id: string) {
    StartsWith(id, ":")
  }

  predicate NotInternal(e: EdgeRecord) {
    !IsInternal(e.id)
  }

  /** `get_edge_data`: the non-internal edges, in the simulator's order. The
      two-decimal rounding of the speed, occupancy and waiting time is not
      modelled: the records are kept as the simulator reports them. */
  function EdgeData(all: seq<EdgeRecord>): (r: seq<EdgeRecord>)
    ensures forall i :: 0 <= i < |r| ==> !IsInternal(r[i].id) && r[i] in all
    ensures forall i :: 0 <= i < |all| && !IsInternal(all[i].id) ==> all[i] in r
    ensures Subsequence(r, all)
  {
    FilterIsSubsequence(all, NotInternal);
    Filter(all, NotInternal)
  }

  /** `get_vehicle_data` for one vehicle. The record has no `co2_emission`.
      The two-decimal rounding of the speed and positions is not modelled. */
  function VehicleData(v: VehicleSample): (r: VehicleRecord)
    ensures r.id == v.id && r.co2Emission.None?
  {
    VehicleRecord(v.id, v.speed, v.position, v.road, v.lanePosition, v.route, v.vtype, None)
  }

  /** `step_and_collect` after the step: the snapshot of the state. */
  function Collect(s: SimState): (r: StepRecord)
    ensures r.time == s.time && r.stats == s.stats && r.trafficLights == s.trafficLights
    ensures |r.vehicles| == |s.vehicles|
    ensures forall i :: 0 <= i < |r.vehicles| ==> r.vehicles[i] == VehicleData(s.vehicles[i])
    ensures r.edges == EdgeData(s.edges)
  {
    StepRecord(s.time, seq(|s.vehicles|, i requires 0 <= i < |s.vehicles| => VehicleData(s.vehicles[i])),
      EdgeData(s.edges), s.trafficLights, s.stats)
  }

  /** The early-stop test: no active vehicle and time past 10 s. */
  predicate StopsAt(s: SimState) {
    s.stats.activeVehicles == 0 && s.time > 10.0
  }

  predicate HasActive(r: StepRecord) {
    r.stats.activeVehicles > 0
  }

  /** The snapshots kept from a run of states: those with active vehicles. */
  function Kept(states: seq<SimState>): (r: seq<StepRecord>)
    ensures forall i :: 0 <= i < |r| ==> r[i].stats.activeVehicles > 0
  {
    Filter(seq(|states|, i requires 0 <= i < |states| => Collect(states[i])), HasActive)
  }

  /** On states SUMO can report, every kept snapshot lists a vehicle. */
  lemma KeptListVehicles(states: seq<SimState>)
    requires forall k :: 0 <= k < |states| ==> Consistent(states[k])
    ensures forall i :: 0 <= i < |Kept(states)| ==> |Kept(states)[i].vehicles| > 0
  {
    var all := seq(|states|, i requires 0 <= i < |states| => Collect(states[i]));
    forall i | 0 <= i < |Kept(states)|
      ensures |Kept(states)[i].vehicles| > 0
    {
      var r := Kept(states)[i];
      assert r in all;
      var k :| 0 <= k < |all| && all[k] == r;
      assert Consistent(states[k]);
    }
  }

  lemma KeptSnoc(states: seq<SimState>, s: SimState)
    ensures Kept(states + [s]) == Kept(states) + (if s.stats.activeVehicles > 0 then [Collect(s)] else [])
  {
    var all := seq(|states + [s]|, i requires 0 <= i < |states + [s]| => Collect((states + [s])[i]));
    var front := seq(|states|, i requires 0 <= i < |states| => Collect(states[i]));
    assert all == front + [Collect(s)];
    FilterAppend(front, [Collect(s)], HasActive);
  }

  /** Every kept snapshot came from some state: it has active vehicles, no
      internal edge, and no vehicle record with a CO2 value. */
  lemma KeptRecordsClean(states: seq<SimState>)
    ensures forall i :: 0 <= i < |Kept(states)| ==>
      var r := Kept(states)[i];
      && r.stats.activeVehicles > 0
      && (forall j :: 0 <= j < |r.edges| ==> !IsInternal(r.edges[j].id))
      && (forall j :: 0 <= j < |r.vehicles| ==> r.vehicles[j].co2Emission.None?)
  {
    var all := seq(|states|, i requires 0 <= i < |states| => Collect(states[i]));
    forall i | 0 <= i < |Kept(states)|
      ensures forall j :: 0 <= j < |Kept(states)[i].edges| ==> !IsInternal(Kept(states)[i].edges[j].id)
      ensures forall j :: 0 <= j < |Kept(states)[i].vehicles| ==> Kept(states)[i].vehicles[j].co2Emission.None?
    {
      var r := Kept(states)[i];
      assert r in all;
      var k :| 0 <= k < |all| && all[k] == r;
    }
  }

  /** A state with no active vehicle at or before 10 s is neither kept nor a
      reason to stop. */
  lemma EarlyQuietStepSkipped(s: SimState)
    requires s.stats.activeVehicles == 0 && s.time <= 10.0
    ensures !StopsAt(s) && Kept([s]) == []
  {
    var all := seq(1, i requires 0 <= i < 1 => Collect([s][i]));
    assert !HasActive(all[0]);
  }

  /** `[Start(duration), Step, ..., Step]` with `n` steps. */
  function StepLog(duration: nat, n: nat): (log: seq<Command>)
    ensures |log| == n + 1 && log[0] == Start(duration)
    ensures forall i :: 1 <= i <= n ==> log[i] == Step
  {
    [Start(duration)] + seq(n, _ => Step)
  }

  /** `run_full_simulation(route_xml, duration)`. Besides the outcome it
      returns the number of steps it asked the simulator for and the log of
      commands sent: the connection is opened first and closed last on both
      the normal and the exceptional exit (the `finally` clause). At most
      `duration` steps are taken; the loop stops after the first state with
      no active vehicle past 10 s; the snapshots are those of the states
      stepped through that have active vehicles, in order. Stepping past the
      last state the simulator can give raises. */
  method RunFullSimulation(trace: seq<SimState>, duration: nat) returns (outcome: Outcome, steps: nat, log: seq<Command>)
    ensures log == StepLog(duration, steps) + [Close]
    ensures steps <= duration
    ensures forall k :: 0 <= k < steps - 1 ==> k < |trace| && !StopsAt(trace[k])
    ensures outcome.Raised? <==> duration > |trace| && forall k :: 0 <= k < |trace| ==> !StopsAt(trace[k])
    ensures outcome.Raised? ==> steps == |trace| + 1
    ensures outcome.Completed? ==>
      && steps <= |trace|
      && outcome.results == Kept(trace[..steps])
      && (steps == duration || (steps > 0 && StopsAt(trace[steps - 1])))
  {
    log := StepLog(duration, 0);
    var results: seq<StepRecord> := [];
    var i := 0;
    var stopped := false;
    var raised := false;
    while i < duration && !stopped && !raised
      invariant i <= duration
      invariant raised ==> i == |trace| + 1 && !stopped
      invariant !raised ==> i <= |trace| && results == Kept(trace[..i])
      invariant forall k :: 0 <= k < i - 1 ==> k < |trace| && !StopsAt(trace[k])
      invariant stopped <==> !raised && i > 0 && StopsAt(trace[i - 1])
      invariant log == StepLog(duration, i)
      decreases duration - i
    {
      assert StepLog(duration, i) + [Step] == StepLog(duration, i + 1);
      log := log + [Step];
      if i >= |trace| {
        raised := true;
      } else {
        var data := Collect(trace[i]);
        KeptSnoc(trace[..i], trace[i]);
        assert trace[..i + 1] == trace[..i] + [trace[i]];
        if data.stats.activeVehicles > 0 {
          results := results + [data];
        }
        if data.stats.activeVehicles == 0 && data.time > 10.0 {
          stopped := true;
        }
      }
      i := i + 1;
    }
    log := log + [Close];
    steps := i;
    if raised {
      outcome := Raised;
    } else {
      outcome := Completed(results);
    }
  }
}
