# genVANET core in Dafny

genVANET is a traffic-simulation dashboard. It has two halves, and this project models the pure logic of both.

**Python backend (Dafny modules `Scenario`, `Collector`, `Api`, `AiModel`, `Validator`):**
- `Scenario`: generates a SUMO route scenario from a density, a vehicle mix and a departure pattern.
- `Collector`: steps the simulator through TraCI and keeps per-step snapshots.
- `Api`: summarises a run over HTTP.
- `AiModel`: turns a language model's free-text answer into a route prediction. It fills every gap from per-route statistics.
- `Validator`: corrects the prediction with five ordered rules.

**React frontend (Dafny modules `Dashboard`, `EdgeTable`, `RouteCard`, `NetworkMap`, `PredictionPanel`):** the submit lifecycle and step cursor of the dashboard, plus four components that derive what they draw from that data.

Every operation is a pure Dafny function, except the simulation loop, which is a method with loop invariants.

The external parts are turned into inputs:
- The language model's answer is a string parameter.
- The simulator is a trace of per-step states (`Collector.SimState`). Running past the end of the trace is the simulator raising an error.
- Python's random draws are a `Scenario.Draws` record: unit draws in [0, 1] (`random.uniform` may return its end point) and choice indices.
- The iteration order of the set `VALID_ROUTES` is an `order` parameter that enumerates the three names.
- How a browser or Python prints a float is a `showReal` parameter.

Shared modules:
- `Wrappers`: `Option` and `Result`.
- `Text`: Python's `isspace`, `strip`, `lower` and `in`, plus decimal rendering of integers.
- `Seqs`: filter, insertion sort, first arg-max, and key lookup over sequences of pairs, which is how ordered dictionaries are represented.
- `Rounding`: Python's `round` to an integer (ties to even) and JavaScript's `Math.round` (ties upwards).
- `Traffic`: the step, edge and vehicle records the backend returns.

## Behaviour of the code worth knowing

- **Overlapping submits.** `App.jsx` (frontend/src/App.jsx:22-35) keeps no request token, so a response that arrives late is never discarded: the submit that settles last decides the state (`Dashboard.LastSettlementWins`).
- **Step cursor.** The only bound on the step cursor is the range input, whose maximum is `steps.length - 1` (frontend/src/App.jsx:66-71, `Dashboard.SliderValue`); no other code clamps it.
- **Empty results.** Every successful result holds no steps at all. The active-vehicle count (`getIDCount`, backend/app/traci/main.py:106) and the vehicle list (`getIDList`, line 54) come from the same vehicle set, so every kept snapshot lists a vehicle, and the CO2 summary below raises on it. A 200 response therefore carries `steps == []` and `total_steps == 0`, and the dashboard never has a step to show (`Api.ConsistentSummaryOnlyEmpty`, `Api.RunSimulation`). The simulator's reports are a parameter of the model; `Collector.Consistent` states this agreement, and the contracts that need it assume it explicitly.
- **CO2 summary.** The summary reads `co2_emission` from every vehicle entry (backend/app/main.py:75). The collector never writes that key (backend/app/traci/main.py:56-64). So every run in which any snapshot lists a vehicle ends in `KeyError`, which is an HTTP 500. `Api.CollectedSummaryFails` and `Api.RunSimulation` state this outcome.
- **Route count.** The route table's heading comment says 20 routes, but the table has 19 (`Scenario.AllRoutesIsConcatenation`).
- **Bar percentage.** `Math.min((value / max) * 100, 100)` (frontend/src/components/RouteCard.jsx:35) caps the width at 100 and has no lower bound, so a negative value draws a negative width (`RouteCard.Pct`).

## Modelling notes

- **Scenario route table.** It is stored as junction paths, and each route's edge ids `X_Y` are derived from its path. The edge strings as the table writes them are kept beside it, and every route is proved to spell its string (`Scenario.RouteTableAsWritten`). The first three routes are proved to give exactly the edge lists of the prediction side's `ROUTES` (`Scenario.PredictionRoutesInTable`).
- **Type pool sizes.** `int(ratio * 100)` is computed on exact reals. For the configured ratios this gives the same counts Python does: 100/0/0, 60/20/20 and 30/30/40.
- **Response parser.** `parse_response` is modelled as the regular expressions actually match:
  - the label letters are compared ASCII case-insensitively;
  - `[_\s]` and `\s*` use Python's whitespace set;
  - `(.+)` is greedy up to the end of the line and backtracks off trailing newlines;
  - `re.search` takes the leftmost match;
  - the delay is the value of the first run of ASCII digits. This is what `int(float(...))` gives for an integer part below 2^53 whose fraction does not round the double up; the other cases are listed under "Left out" (`AiModel.FirstNumber`).
- **Edge lookup.** For duplicate edge ids the last record wins, as a dict comprehension does.
- **Best route.** `_pick_best_route` keeps the first maximum because it uses a strict `>`.
- **Congestion fallback.** `max(..., key=...)` returns the first maximum.

## Model

| member | source | states |
|---|---|---|
| AiModel.LookupStat | backend/app/ai_model.py:109 | the statistics of a label are found iff the table has an entry with that label, and are that entry's |
| AiModel.LastIndexOf | backend/app/ai_model.py:53 | the index found holds the id and no later record does; -1 iff no record has the id |
| AiModel.LookupSkipsOtherId | backend/app/ai_model.py:53 | inserting an edge record leaves the lookup of every other id unchanged |
| AiModel.LookupShadowed | backend/app/ai_model.py:53 | a record followed later by a record with the same id is invisible to every lookup |
| AiModel.LastDuplicateWins | backend/app/ai_model.py:53-67 | for a duplicated edge id the route statistics are those computed without the earlier record |
| AiModel.OffRouteEdgeIgnored | backend/app/ai_model.py:53-67 | a record of an edge no route uses does not change any route statistic |
| AiModel.PresentEdgesDependOnLookup | backend/app/ai_model.py:56-63 | the records visited for a route depend only on the lookup of the route's edge ids |
| AiModel.StatsDependOnLookup | backend/app/ai_model.py:53-77 | two edge lists whose lookups agree on every route edge give the same statistics |
| AiModel.PositiveSpeeds | backend/app/ai_model.py:64-65 | the speeds kept are exactly the strictly positive ones: each is positive, every positive speed of a record is kept, and every kept value is some record's speed |
| AiModel.PositiveSpeedsAppend | backend/app/ai_model.py:61-65 | the speeds of a concatenation are those of each part in order |
| AiModel.PositiveSpeedsOne | backend/app/ai_model.py:64-65 | one record contributes its speed exactly when it is positive |
| AiModel.MeanTimesCount | backend/app/ai_model.py:69 | `sum(speeds)/len(speeds)` times the count gives the sum back |
| AiModel.MeanWithin | backend/app/ai_model.py:69 | the average lies between the smallest and the largest averaged speed |
| AiModel.AvgSpeed | backend/app/ai_model.py:69 | `sum(speeds)/len(speeds) if speeds else 0`: 0 iff no speed, otherwise average times count is the sum and it lies among the speeds |
| AiModel.SumVehiclesAppend | backend/app/ai_model.py:66 | the vehicle total of two runs of records is the sum of their totals |
| AiModel.SumWaitingAppend | backend/app/ai_model.py:67 | the waiting total of two runs of records is the sum of their totals |
| AiModel.PresentEdgesAppend | backend/app/ai_model.py:61-63 | the records visited along two runs of edge ids are those of each run, absent ids skipped |
| AiModel.RouteStatFor | backend/app/ai_model.py:56-75 | edge_count is the route's edge count, vehicles is non-negative, avg_speed is 0 iff no positive speed is present and otherwise the sum of the positive speeds over their count, lying among them |
| AiModel.RouteStatSplit | backend/app/ai_model.py:61-67 | splitting a route anywhere: vehicles and waiting time add up and the positive speeds concatenate |
| AiModel.RouteStatOfOneEdge | backend/app/ai_model.py:61-69 | one edge id contributes its record's vehicles, waiting time and positive speed, and nothing when the input lacks the edge |
| AiModel.CalcRouteStats | backend/app/ai_model.py:47-77 | exactly the three labels in table order with edge counts 4, 6 and 8, each computed from that route's edges |
| AiModel.PickBestRoute | backend/app/ai_model.py:80-100 | the label of the first entry whose score is maximal (strict `>`), "Route A" for an empty table or an empty label, never "" |
| AiModel.PickBestIsALabel | backend/app/ai_model.py:96-100 | on a non-empty table with non-empty labels the choice is a key of the table |
| AiModel.PickBestIndex | backend/app/ai_model.py:96-100 | the choice is the label of some entry of the table |
| AiModel.DelaySeconds | backend/app/ai_model.py:103-115 | an unknown label gives 4·150/5 = 120 s; a known one lies between its waiting time and 150 s per edge plus waiting |
| AiModel.DelayFloorsAndDecreasesWithSpeed | backend/app/ai_model.py:110-115 | a faster route never gets a longer delay, and speeds up to 1 all count as 1 |
| AiModel.EstimateDelay | backend/app/ai_model.py:116 | the rounded delay is within one half of the unrounded delay; 120 for an unknown label |
| AiModel.LineEnd | backend/app/ai_model.py:201-205 | the greedy `.+` runs to the next newline or the end of the text |
| AiModel.LastNonNewline | backend/app/ai_model.py:201-205 | the backtracking point of `(.+)`: the last non-newline position, or none |
| AiModel.ColonAfterLabel | backend/app/ai_model.py:201-205 | a colon found after the label and `\s*` really is a colon of the text |
| AiModel.CaptureAfterColon | backend/app/ai_model.py:201-205 | the captured group is non-empty, part of the text and holds no newline |
| AiModel.Search | backend/app/ai_model.py:209 | a found group is a non-empty single line of the answer |
| AiModel.SearchFindsFirst | backend/app/ai_model.py:209 | the search returns the group of the leftmost match |
| AiModel.LineEndOfLine | backend/app/ai_model.py:201 | a capture stops at the first newline after it |
| AiModel.TextFieldIsSingleLine | backend/app/ai_model.py:209-217 | every text field is a single line without surrounding whitespace |
| AiModel.StripOfStripped | backend/app/ai_model.py:211 | stripping a stripped line changes nothing |
| AiModel.FirstDigit | backend/app/ai_model.py:214-215 | the first digit at or after a position, or none when no digit follows |
| AiModel.DigitRunEnd | backend/app/ai_model.py:214-215 | the greedy `\d+` ends at the first non-digit |
| AiModel.FirstNumberOfRendered | backend/app/ai_model.py:214-215 | the first number of a rendered natural number below 2^53 (where the double conversion is exact) is that number |
| AiModel.ParseResponse | backend/app/ai_model.py:185-219 | raw_response kept verbatim, no route_stats, delay a non-negative integer, each text field one stripped line |
| AiModel.TextFieldDefault | backend/app/ai_model.py:190-197 | a field whose label never occurs keeps its default "" |
| AiModel.ParseResponseDefaults | backend/app/ai_model.py:190-217 | missing labels keep "" and 0, and an answer without digits has delay 0 |
| AiModel.DelayFromDigits | backend/app/ai_model.py:212-215 | a delay other than 0 needs a digit in the answer |
| AiModel.LabelledLineRoundTrip | backend/app/ai_model.py:200-217 | a line `LABEL: v` not preceded by another match of the label is read back as exactly `v` |
| AiModel.ParsePredictionLine | backend/app/ai_model.py:201-217 | a `PREDICTION: v` line is read back verbatim |
| AiModel.DelayFieldOfLine | backend/app/ai_model.py:204-215 | the delay of an answer starting with a delay line is the first number on that line |
| AiModel.ParseDelayLine | backend/app/ai_model.py:204-215 | `EXPECTED_DELAY: n` is read back as n for every n below 2^53 |
| AiModel.LabelsMentionRoute | backend/app/ai_model.py:15-34 | every route label contains "route" once lower-cased |
| AiModel.BestOfComputedStats | backend/app/ai_model.py:228-239 | the best route of the computed statistics is one of the labels, present in the table and mentioning "route" |
| AiModel.BestOfLabelledTable | backend/app/ai_model.py:236-239 | the same for any table with the three labels in order |
| AiModel.FallbackPrediction | backend/app/ai_model.py:244-250 | the generated forecast has at least 10 characters |
| AiModel.FallbackCongestion | backend/app/ai_model.py:252-258 | the generated note names the first route with the most vehicles (none has more, every earlier one has fewer) and its vehicle count |
| AiModel.FallbackExplanation | backend/app/ai_model.py:260-265 | the generated explanation has at least 10 characters |
| AiModel.FillRoute | backend/app/ai_model.py:238-239 | the route kept is the model's or the best one, and mentions "route" |
| AiModel.FillGaps | backend/app/ai_model.py:236-268 | after the fallbacks: route mentions "route", forecast and explanation are at least 10 long, congestion non-empty, raw answer kept, statistics attached |
| AiModel.GeneratePrediction | backend/app/ai_model.py:222-270 | the same guarantees for the whole call, with the statistics of the given edges |
| AiModel.GeneratePredictionKeeps | backend/app/ai_model.py:236-242 | the model's route survives iff it mentions "route"; a delay below 10 is replaced by the best route's estimate, not the recommended route's; an empty congestion note is replaced by one naming the first most congested route |
| Validator.FirstNamed | backend/app/validator.py:30-35 | the first name in iteration order contained in the route, or none when no name is contained |
| Validator.EnumerationCoversNames | backend/app/validator.py:30-37 | under any iteration order a name is found iff the route contains one of the three names |
| Validator.ClampDelay | backend/app/validator.py:42-48 | the delay is clamped into [10, 3600], unchanged inside the range |
| Validator.Errors | backend/app/validator.py:24-67 | errors are appended in rule order, with a model error last |
| Validator.ErrorsAreWarranted | backend/app/validator.py:28-67 | an error is in the list iff its rule's condition holds for the input |
| Validator.Validate | backend/app/validator.py:16-73 | route canonical and a contained name (else "Route A"), delay clamped, blank explanation replaced, other fields kept, errors exactly the warranted ones in rule order, "ERROR:" raw answers last and invalid, is_valid iff no error |
| Validator.NameNamesItself | backend/app/validator.py:31 | every name contains itself, ignoring case |
| Validator.ValidNamesApart | backend/app/validator.py:9 | no valid name contains another one |
| Validator.SingleNameNormalised | backend/app/validator.py:30-35 | a route naming exactly one valid route becomes that name with no route error |
| Validator.ValidateIdempotent | backend/app/validator.py:16-73 | validating a corrected prediction again leaves it unchanged |
| Validator.Message | backend/app/validator.py:38-62 | only a model error's text starts with "ERROR:"; a route error quotes the route |
| Scenario.Flatten | backend/app/traci/scenario.py:41-43 | every route of every group is in the flattened list and nothing else is |
| Scenario.Edges | backend/app/traci/scenario.py:13-39 | one edge id `X_Y` per consecutive pair of junctions |
| Scenario.EdgeParts | backend/app/traci/scenario.py:13-39 | an edge id splits back into the junctions it joins |
| Scenario.EdgesChain | backend/app/traci/scenario.py:13-39 | along a path every edge ends where the next begins |
| Scenario.RouteTableAsWritten | backend/app/traci/scenario.py:13-43 | each of the 19 routes of ALL_ROUTES, in order, has through its junction path exactly the edge string written for it in ROUTES |
| Scenario.AllRoutesIsConcatenation | backend/app/traci/scenario.py:12-43 | ALL_ROUTES is the three groups in order and has 19 entries, not the 20 the comment says |
| Scenario.TableJunctions | backend/app/traci/scenario.py:13-39 | every route passes at least two junctions, all of them junction names |
| Scenario.UniqueConcat3 | backend/app/traci/scenario.py:41-43 | concatenating lists with pairwise distinct ids keeps the ids distinct |
| Scenario.RouteIdsUnique | backend/app/traci/scenario.py:13-43 | the 19 route ids are distinct |
| Scenario.AllRoutesFacts | backend/app/traci/scenario.py:13-43 | 19 routes, distinct ids, every route's edges non-empty and chained |
| Scenario.PredictionRoutesInTable | backend/app/traci/scenario.py:15-17 | the first three routes have the ids and edge lists of the prediction side's ROUTES |
| Scenario.WestComesFirst | backend/app/traci/scenario.py:41-43 | the west group opens ALL_ROUTES |
| Scenario.EdgesSpell | backend/app/traci/scenario.py:13-39 | a path whose consecutive pairs spell given ids has exactly those edges |
| Scenario.UniformDepartures | backend/app/traci/scenario.py:68-71 | count values, the i-th equal to i·duration/count; they start at 0, strictly increase and stay below duration |
| Scenario.UniformFacts | backend/app/traci/scenario.py:68-71 | evenly spaced values strictly increase and stay in [0, duration) |
| Scenario.ScaledUnitWithin | backend/app/traci/scenario.py:77 | a uniform draw scaled to a span lies within it |
| Scenario.RandomSchedule | backend/app/traci/scenario.py:77-83 | count sorted values within the span, a permutation of the scaled draws |
| Scenario.RushHourDepartures | backend/app/traci/scenario.py:74-78 | count sorted values in [0, 0.4·duration] |
| Scenario.RandomDepartures | backend/app/traci/scenario.py:81-84 | count sorted values in [0, 0.8·duration] |
| Scenario.Departures | backend/app/traci/scenario.py:87-91 | a schedule exactly for the three known patterns: count sorted values within the duration |
| Scenario.TypePool | backend/app/traci/scenario.py:115-117 | every pool entry is a type of the mix whose ratio gives at least one copy |
| Scenario.OccurrencesAppend | backend/app/traci/scenario.py:117 | extending the pool adds the occurrences of the added list |
| Scenario.OccurrencesOfRepeat | backend/app/traci/scenario.py:117 | `[vtype] * n` holds vtype n times and nothing else |
| Scenario.TypePoolCounts | backend/app/traci/scenario.py:115-117 | each type occurs exactly int(ratio·100) times, summed over its entries |
| Scenario.ConfiguredPools | backend/app/traci/scenario.py:60-64 | cars_only gives 100 cars; mixed gives 60/20/20; heavy_commercial gives 30/30/40 |
| Scenario.MixPoolCounts | backend/app/traci/scenario.py:115-117 | a mix of three distinct types gives each its own number of copies |
| Scenario.Vehicles | backend/app/traci/scenario.py:134-141 | one vehicle per departure, id v0, v1, …, departing at its time, type from the pool, route from the table |
| Scenario.Assemble | backend/app/traci/scenario.py:134-148 | the configured duration, count vehicles with ids in order, sorted departures within the duration, pool types and table routes |
| Scenario.GenerateScenario | backend/app/traci/scenario.py:94-148 | generation succeeds iff all three keys are known; then count vehicles v0…, sorted departures in [0, duration], routes of ALL_ROUTES, types of the pool, and the density's duration |
| Scenario.DensityFacts | backend/app/traci/scenario.py:53-58 | every density has vehicles and a positive duration |
| Scenario.MixPoolsNonEmpty | backend/app/traci/scenario.py:60-64 | every configured mix gives a non-empty pool |
| Scenario.ZeroRatioNeverChosen | backend/app/traci/scenario.py:115-135 | a type with no copies never appears in the vehicle list |
| Collector.EdgeData | backend/app/traci/main.py:68-81 | the non-internal edges, in the simulator's order; every non-internal edge is kept |
| Collector.VehicleData | backend/app/traci/main.py:51-65 | the vehicle record keeps the id and has no co2_emission |
| Collector.Collect | backend/app/traci/main.py:97-110 | a snapshot keeps time, statistics and lights, one record per vehicle, and the filtered edges |
| Collector.Kept | backend/app/traci/main.py:124-126 | every kept snapshot has active vehicles |
| Collector.KeptListVehicles | backend/app/traci/main.py:51-54 | when the active count is the vehicle list's length (both from the same TraCI vehicle set, lines 54 and 106), every kept snapshot lists a vehicle |
| Collector.KeptSnoc | backend/app/traci/main.py:124-126 | one more state appends its snapshot exactly when it has active vehicles, so order is kept |
| Collector.KeptRecordsClean | backend/app/traci/main.py:51-81 | kept snapshots have active vehicles, no internal edge and no CO2 value |
| Collector.EarlyQuietStepSkipped | backend/app/traci/main.py:125-129 | a quiet step at or before 10 s is neither kept nor a stop |
| Collector.RunFullSimulation | backend/app/traci/main.py:113-133 | at most duration steps; stops at the first quiet step past 10 s; raises iff the simulator runs out first; keeps the snapshots with active vehicles in order; always closes the simulator |
| Api.GetOptions | backend/app/main.py:33-40 | the keys of the three tables in table order |
| Api.OptionsAreAccepted | backend/app/main.py:33-56 | an option is listed iff the request validation accepts it |
| Api.Rejection | backend/app/main.py:50-56 | no rejection iff all three options are known; otherwise 400 naming the first unknown one, in the order density, vehicle_mix, pattern |
| Api.EntriesOfSteps | backend/app/main.py:72-73 | the entries visited are exactly the vehicles of the steps |
| Api.IdSet | backend/app/main.py:70-74 | the set holds exactly the listed ids |
| Api.IdSetBound | backend/app/main.py:70-86 | the distinct count is at most the number of entries |
| Api.Co2Total | backend/app/main.py:71-75 | the sum exists iff every entry has a co2_emission, and then it is the sum of the emissions; 0 for no entries |
| Api.SumCo2Append | backend/app/main.py:71-75 | the emission sum of two runs of entries is the sum of their sums |
| Api.EntriesCo2 | backend/app/main.py:71-75 | summing the flattened entries gives the step-by-step nested total of the loop |
| Api.Summarize | backend/app/main.py:69-88 | succeeds iff every entry has CO2; then total_steps is the step count, total_vehicles the distinct id count (at most the entry count) and total_co2 the nested sum of the emissions over steps and vehicles |
| Api.DistinctVehicleCount | backend/app/main.py:70-74 | an id is counted iff some step lists a vehicle with it |
| Api.CollectedEntriesLackCo2 | backend/app/main.py:75 | no entry of the collected snapshots has a CO2 value |
| Api.CollectedSummaryFails | backend/app/main.py:72-75 | on collected snapshots the summary succeeds only when no snapshot lists a vehicle |
| Api.ConsistentSummaryOnlyEmpty | backend/app/main.py:69-75 | on states SUMO can report, the summary of the collected snapshots succeeds only when no snapshot was collected |
| Api.ConsistentPrefixSummaryOnlyEmpty | backend/app/traci/main.py:113-126 | the same for the snapshots collected from the first steps of a trace SUMO can report |
| Api.RunSimulation | backend/app/main.py:43-90 | unknown options get their 400; otherwise the body, or 500 when the run or the summary raises; a body echoes the request, counts its steps and distinct vehicles, and holds only snapshots without vehicles, so its CO2 total is 0; on a trace SUMO can report, every 200 body has no steps and total_steps 0 |
| Dashboard.Fetched | frontend/src/App.jsx:26-31 | a 2xx response gives its body; any other gives the "Simulation failed" error |
| Dashboard.EventsTouchOwnFields | frontend/src/App.jsx:16-35 | each field changes only through its own setters; a submit sets loading and clears error and result, and settling clears loading |
| Dashboard.SubmitCycle | frontend/src/App.jsx:22-35 | a settled submit shows exactly its outcome: result from step 0, or error without result, and no spinner |
| Dashboard.LastSettlementWins | frontend/src/App.jsx:22-35 | of two overlapping submits the later settlement decides, and a late failure leaves the earlier result on screen |
| Dashboard.SliderMax | frontend/src/App.jsx:66-71 | the slider range ends at steps.length − 1, or 0 without steps |
| Dashboard.SliderValue | frontend/src/App.jsx:66-71 | the reported value lies in the slider range and equals the position inside it |
| Dashboard.CursorMovesOnlyBySubmitOrSlider | frontend/src/App.jsx:29 | stepIndex changes only by a successful submit's reset to 0 or by the slider |
| Dashboard.ApplyKeepsCursor | frontend/src/App.jsx:22-71 | every event keeps the cursor non-negative and within the shown result |
| Dashboard.RunKeepsCursor | frontend/src/App.jsx:22-71 | any sequence of events keeps the cursor valid |
| Dashboard.CurrentStep | frontend/src/App.jsx:37 | the step at the cursor, or none without a result or outside the steps |
| Dashboard.ValidCursorHasStep | frontend/src/App.jsx:37 | with a valid cursor a result with steps always has a current step |
| Dashboard.Render | frontend/src/App.jsx:49-77 | error banner iff a non-empty error, spinner iff loading, results iff a result; without a current step the time is 0 and the lists are empty |
| Dashboard.OptionsFailureShown | frontend/src/App.jsx:16-20 | a failed options load leaves the options empty and shows the connection message |
| EdgeTable.ActiveEdges | frontend/src/components/EdgeTable.jsx:3 | the order-preserving subsequence of the edges with vehicles: every such edge and nothing else |
| EdgeTable.ActiveEdgesIdempotent | frontend/src/components/EdgeTable.jsx:3 | filtering the active edges again changes nothing |
| EdgeTable.Render | frontend/src/components/EdgeTable.jsx:5-40 | the empty message iff no edge has vehicles; otherwise one row per active edge |
| EdgeTable.HeaderCountsRows | frontend/src/components/EdgeTable.jsx:17 | the number in the header reads back as the row count |
| RouteCard.MetaOf | frontend/src/components/RouteCard.jsx:1-5 | the meta entry stored under the label |
| RouteCard.MetaMatchesBackend | frontend/src/components/RouteCard.jsx:1-54 | a label has meta iff it is a backend route label, and its colour has a COLOR_MAP entry |
| RouteCard.Pct | frontend/src/components/RouteCard.jsx:35 | 0 for max ≤ 0, never above 100, 100 from max upwards, value/max·100 up to max, non-negative for non-negative values |
| RouteCard.PctMonotone | frontend/src/components/RouteCard.jsx:35 | a larger value never draws a shorter bar |
| RouteCard.FieldMax | frontend/src/components/RouteCard.jsx:57-59 | at least 1, at least every value, and either 1 or one of the values |
| RouteCard.ScaleOf | frontend/src/components/RouteCard.jsx:57-59 | each of the three maxima is at least 1 and at least every route's value |
| RouteCard.TravelSeconds | frontend/src/components/RouteCard.jsx:93 | 150 per edge over the speed floored at 1, between 0 and 150 per edge |
| RouteCard.TravelEstimate | frontend/src/components/RouteCard.jsx:93 | the rounded travel time is within one half of the unrounded one |
| RouteCard.TravelMatchesBackendDelay | frontend/src/components/RouteCard.jsx:93 | the card's travel time is the backend delay without waiting; with no waiting the two rounded numbers differ by at most 1 |
| RouteCard.Render | frontend/src/components/RouteCard.jsx:52-97 | badge iff recommended, title and meta from the table, bars at most 100 and non-negative for non-negative values, edge count and travel estimate shown |
| RouteCard.MemberBarsUnclipped | frontend/src/components/RouteCard.jsx:57-88 | a card scaled against a table it belongs to is never capped, and the busiest route fills its vehicle bar |
| NetworkMap.PointOf | frontend/src/components/NetworkMap.jsx:43 | the position stored under the junction |
| NetworkMap.TablesUseJunctions | frontend/src/components/NetworkMap.jsx:1-37 | every node of every route path and grid line is a JUNCTIONS key |
| NetworkMap.Command | frontend/src/components/NetworkMap.jsx:44 | "M" for the first node, "L" after it, then a space |
| NetworkMap.CommandLetters | frontend/src/components/NetworkMap.jsx:44 | a command holds exactly one command letter |
| NetworkMap.PathCommands | frontend/src/components/NetworkMap.jsx:40-47 | the path holds one M and one L per later node, and starts with M |
| NetworkMap.Routes | frontend/src/components/NetworkMap.jsx:68-84 | one drawn route per ROUTE_PATHS entry, wide iff recommended, dashed iff not |
| NetworkMap.LabelsOfPaths | frontend/src/components/NetworkMap.jsx:16-20 | the map's labels are the backend's, in order, all distinct |
| NetworkMap.AtMostOneHighlighted | frontend/src/components/NetworkMap.jsx:69 | at most one route is highlighted, and one is iff the recommendation is a known label |
| NetworkMap.LegendText | frontend/src/components/NetworkMap.jsx:113-126 | starts with the label; the stats part appears iff the stats have the label; the star iff recommended |
| NetworkMap.StarMarksRecommended | frontend/src/components/NetworkMap.jsx:115-122 | a legend line carries the star iff its route is recommended |
| NetworkMap.PathsMatchBackend | frontend/src/components/NetworkMap.jsx:16-26 | each drawn path's node pairs spell the backend's edge ids for the same label, and it is the scenario table's route |
| NetworkMap.PathsMatchCards | frontend/src/components/NetworkMap.jsx:16-20 | each route card prints the same nodes joined by arrows |
| PredictionPanel.Render | frontend/src/components/PredictionPanel.jsx:1-65 | "Validated" iff validation is_valid; corrections shown iff errors exist, in order; fields shown verbatim |
| PredictionPanel.BadgeExcludesCorrections | frontend/src/components/PredictionPanel.jsx:10-61 | on validator output "Validated" and the corrections block exclude each other; the route is valid and the delay text reads back as the delay |
| PredictionPanel.AbsentValidation | frontend/src/components/PredictionPanel.jsx:2-17 | without a validation the badge says "Corrected" and no corrections show |
| Text.Strip | backend/app/ai_model.py:211 | the slice left after the leading whitespace with only whitespace after it; it neither starts nor ends with whitespace, and is empty iff the text is blank |
| Text.NatToString | frontend/src/components/EdgeTable.jsx:17 | at least one decimal digit, with no leading zero unless the number is 0 |
| Text.DigitsValueOfNatToString | frontend/src/components/EdgeTable.jsx:17 | reading the rendered digits back gives the number |
| Seqs.Sort | backend/app/traci/scenario.py:77 | `sorted`: an ascending permutation of its input |
| Seqs.FirstMax | backend/app/ai_model.py:254 | the index of a maximal element with no earlier maximal element |
| Rounding.RoundHalfEven | backend/app/ai_model.py:116 | the nearest integer, ties to the even one |
| Rounding.JsRound | frontend/src/components/RouteCard.jsx:93 | the nearest integer, ties upwards |

## Left out

- HTTP transport, CORS, pydantic parsing and the fetch wrappers of `api.js`: transport only. Only the failure message "Simulation failed" of `runSimulation` is kept, in `Dashboard.Fetched`.
- `query_model` and `build_prompt`: a network call to Ollama and the prompt text. The answer is a parameter of `AiModel.GeneratePrediction`.
- `random.seed`, `random.uniform` and `random.choice`: the draws are a `Draws` parameter with the bounds the functions guarantee.
- XML serialisation, the `VTYPES` attributes and the temporary route files of `generate_scenario` and `start_simulation`: the model is the vehicle list.
- SUMO process control (`start_simulation`, `stop_simulation`, the `traci` getters): the simulator is a trace of states plus a log of the commands sent to it. The traffic-light getters are copied into the snapshot unchanged.
- Unicode case folding and whitespace beyond Python's `isspace`: `lower()` is modelled on ASCII letters.
- Float formatting (`f"{x}"`, `toFixed`, `${value}`): a `showReal` parameter.
- The rendering of the form components (`ScenarioForm`, `PredictForm`, `Summary`, `VehicleTable`, `StepSlider` beyond its range), icons, colour classes and SVG coordinates beyond their use as data: presentation only.
- AiModel.CalcRouteStats: the rounding is not modelled: the source rounds `avg_speed` to 2 decimals (backend/app/ai_model.py:69) and `waiting_time` to 1 decimal (line 73) and leaves `vehicles` unrounded; the model keeps exact reals. Rounding can create ties that change `_pick_best_route` (line 91 scores `avg_speed - 0.5 * edge_count`): with average speeds 10.001 on Route A (4 edges) and 11.004 on Route B (6 edges) the source scores both 8.0 and its strict `>` keeps Route A, while the model scores 8.001 against 8.004 and picks Route B.
- AiModel.FirstNumber: reads the first run of ASCII digits exactly, whereas the source converts the matched text with `float` and then `int`. They differ when the fraction rounds the double up to the next integer ("9.99999999999999999" gives 10 in the source, 9 here), for integer parts from 2^53 on (`float` loses precision), for a run of about 309 or more digits (`int(inf)` raises `OverflowError`), and for non-ASCII decimal digits, which Python's `\d` matches and `float` accepts. `AiModel.FirstNumberOfRendered` and `AiModel.ParseDelayLine` are stated only below 2^53 for this reason.
- AiModel.ParseResponse: inherits the `AiModel.FirstNumber` differences for `expected_delay`; an `OverflowError` there is not modelled as an escaping exception.
- Scenario.UniformDepartures: `round(i * gap, 2)` is not modelled; the departures are exact reals, and the two-decimal rounding of the random schedules is left out as well.
- Api.Summarize: `round(total_co2, 2)` is not modelled; the CO2 total is an exact real.
- Collector.VehicleData: `round(..., 2)` on `speed`, `position.x`, `position.y` and `lane_position` (backend/app/traci/main.py:58-61) is not modelled; the record copies the simulator's values as they are, so these fields equal the source's only when the simulator already reports two-decimal values.
- Collector.EdgeData: `round(..., 2)` on `mean_speed`, `occupancy` and `waiting_time` (backend/app/traci/main.py:77-79) is not modelled; a kept record is the simulator's record unchanged, which the source's is only up to that rounding.
- Collector.Collect: inherits the unmodelled two-decimal rounding of `Collector.VehicleData` and `Collector.EdgeData`.
- Collector.RunFullSimulation: the exception raised inside the loop is modelled only as the simulator running out of states.
