/** The per-step records the simulation backend produces and the dashboard
    consumes (the JSON objects built in backend/app/traci/main.py). */
module Traffic {
  import opened Wrappers

  /** Statistics of one road edge in one step (`get_edge_data`). */
  datatype EdgeRecord = EdgeRecord(
    id: string,
    vehicleCount: nat,
    meanSpeed: real,
    occupancy: real,
    waitingTime: real)

  datatype Position = Position(x: real, y: real)

  /** One active vehicle in one step (`get_vehicle_data`). The backend's
      summary reads a `co2_emission` key that the collector never writes, so
      the field is optional and `None` on every record the collector builds. */
  datatype VehicleRecord = VehicleRecord(
    id: string,
    speed: real,
    position: Position,
    road: string,
    lanePosition: real,
    route: seq<string>,
    vtype: string,
    co2Emission: Option<real>)

  datatype TrafficLight = TrafficLight(id: string, phase: nat, state: string, program: string)

  datatype StepStats = StepStats(activeVehicles: nat, departed: nat, arrived: nat)

  /** One simulation step (`step_and_collect`). */
  datatype StepRecord = StepRecord(
    time: real,
    vehicles: seq<VehicleRecord>,
    edges: seq<EdgeRecord>,
    trafficLights: seq<TrafficLight>,
    stats: StepStats)
}
