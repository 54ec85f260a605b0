/** The simulation dashboard (frontend/src/App.jsx) as a state machine: the
    options load, the submit lifecycle and the step cursor, and the view the
    state renders. Awaited calls are split into the event that starts them
    and the event that resolves them, so any interleaving of overlapping
    submits is a sequence of events. */
module Dashboard {
  import opened Wrappers
  import opened Traffic
  import Api
  import EdgeTable

  /** The message of a failed options load. */
  const ConnectionError: string := "Cannot connect to backend. Is the server running on port 8000?"

  /** The message `runSimulation` throws on a non-2xx response. */
  const SimulationFailed: string := "Simulation failed"

  /** The component's state hooks. `options == None` is the initial `{}`. */
  datatype State = State(
    options: Option<Api.Options>,
    loading: bool,
    error: Option<string>,
    result: Option<Api.Body>,
    stepIndex: int)

  function Initial(): State {
    State(None, false, None, None, 0)
  }

  /** `runSimulation(params)` as the dashboard sees it: the body of a 2xx
      response, or the thrown error's message. */
  function Fetched(resp: Api.Response): (r: Result<Api.Body, string>)
    ensures r.Success? <==> resp.Ok?
    ensures r.Success? ==> r.value == resp.body
    ensures r.Failure? ==> r.error == SimulationFailed
  {
    match resp
    case Ok(body) => Success(body)
    case HttpError(_, _) => Failure(SimulationFailed)
  }

  /** The events that change the state: the options request settling, a
      submit starting (the three setters before the `await`), a submit
      settling, and the slider moving to a position. */
  datatype Event =
    | OptionsLoaded(o: Api.Options)
    | OptionsFailed
    | SubmitStarted
    | SubmitSettled(outcome: Result<Api.Body, string>)
    | SliderMoved(position: int)

  /** The largest index the slider offers: `max` is `totalSteps - 1`, and a
      range input whose maximum is below its minimum of 0 offers only 0. */
  function SliderMax(steps: seq<StepRecord>): (m: nat)
    ensures |steps| > 0 ==> m == |steps| - 1
    ensures |steps| == 0 ==> m == 0
  {
    if |steps| == 0 then 0 else |steps| - 1
  }

  /** The value a range input reports: the position clamped to its range. */
  function SliderValue(position: int, steps: seq<StepRecord>): (v: nat)
    ensures v <= SliderMax(steps)
    ensures 0 <= position <= SliderMax(steps) ==> v == position
  {
    if position < 0 then 0 else if position > SliderMax(steps) then SliderMax(steps) else position
  }

  /** One event. The slider exists only while a result is shown. */
  function Apply(s: State, e: Event): State
  {
    match e
    case OptionsLoaded(o) => s.(options := Some(o))
    case OptionsFailed => s.(error := Some(ConnectionError))
    case SubmitStarted => s.(loading := true, error := None, result := None)
    case SubmitSettled(outcome) =>
      if outcome.Success? then s.(loading := false, result := Some(outcome.value), stepIndex := 0)
      else s.(loading := false, error := Some(outcome.error))
    case SliderMoved(position) =>
      if s.result.None? then s else s.(stepIndex := SliderValue(position, s.result.value.steps))
  }

  /** Each piece of state has its own setters: the options change only when
      they load, the spinner and the result only with a submit, the error
      only with a failed load, a started submit or a failed one. */
  lemma EventsTouchOwnFields(s: State, e: Event)
    ensures Apply(s, e).options != s.options ==> e.OptionsLoaded?
    ensures Apply(s, e).loading != s.loading ==> e.SubmitStarted? || e.SubmitSettled?
    ensures Apply(s, e).result != s.result ==> e.SubmitStarted? || (e.SubmitSettled? && e.outcome.Success?)
    ensures Apply(s, e).error != s.error ==>
      e.OptionsFailed? || e.SubmitStarted? || (e.SubmitSettled? && e.outcome.Failure?)
    ensures e.SubmitStarted? ==> Apply(s, e).loading && Apply(s, e).error.None? && Apply(s, e).result.None?
    ensures e.SubmitSettled? ==> !Apply(s, e).loading
  {
  }

  function Run(s: State, es: seq<Event>): State
    decreases |es|
  {
    if |es| == 0 then s else Run(Apply(s, es[0]), es[1..])
  }

  /** A submit that settles before any other event: the spinner is gone, and
      exactly the outcome is shown — the new result from its first step, or
      the error with no result. */
  lemma SubmitCycle(s: State, outcome: Result<Api.Body, string>)
    ensures var t := Apply(Apply(s, SubmitStarted), SubmitSettled(outcome));
      && !t.loading
      && t.options == s.options
      && (outcome.Success? ==> t.result == Some(outcome.value) && t.error.None? && t.stepIndex == 0)
      && (outcome.Failure? ==> t.result.None? && t.error == Some(outcome.error))
  {
  }

  /** There is no guard against a stale response: of two overlapping submits
      the one that settles last decides the state, and when it fails after
      the other succeeded, the earlier result stays on screen beside the
      later error. */
  lemma LastSettlementWins(s: State, first: Result<Api.Body, string>, second: Result<Api.Body, string>)
    ensures var t := Run(s, [SubmitStarted, SubmitStarted, SubmitSettled(first), SubmitSettled(second)]);
      && !t.loading
      && (second.Success? ==> t.result == Some(second.value) && t.stepIndex == 0)
      && (second.Failure? ==> t.error == Some(second.error))
      && (first.Success? && second.Failure? ==> t.result == Some(first.value))
  {
    var es := [SubmitStarted, SubmitStarted, SubmitSettled(first), SubmitSettled(second)];
    var s1 := Apply(s, SubmitStarted);
    var s2 := Apply(s1, SubmitStarted);
    var s3 := Apply(s2, SubmitSettled(first));
    var s4 := Apply(s3, SubmitSettled(second));
    assert Run(s, es) == Run(s1, es[1..]);
    assert Run(s1, es[1..]) == Run(s2, es[2..]);
    assert Run(s2, es[2..]) == Run(s3, es[3..]);
    assert Run(s3, es[3..]) == Run(s4, es[4..]);
  }

  // ---------------------------------------------------------------------------
  // The step cursor
  // ---------------------------------------------------------------------------

  /** The cursor is never negative, and while a result is shown it is within
      the slider's range. */
  predicate CursorValid(s: State) {
    && s.stepIndex >= 0
    && (s.result.Some? ==> s.stepIndex <= SliderMax(s.result.value.steps))
  }

  /** Only a successful submit (back to 0) and the slider move the cursor. */
  lemma CursorMovesOnlyBySubmitOrSlider(s: State, e: Event)
    ensures Apply(s, e).stepIndex != s.stepIndex ==>
      (e.SubmitSettled? && e.outcome.Success? && Apply(s, e).stepIndex == 0) || e.SliderMoved?
  {
  }

  lemma ApplyKeepsCursor(s: State, e: Event)
    requires CursorValid(s)
    ensures CursorValid(Apply(s, e))
  {
  }

  /** From the initial state, every sequence of events keeps the cursor
      within range. */
  lemma {:induction false} RunKeepsCursor(s: State, es: seq<Event>)
    requires CursorValid(s)
    ensures CursorValid(Run(s, es))
    decreases |es|
  {
    if |es| > 0 {
      ApplyKeepsCursor(s, es[0]);
      RunKeepsCursor(Apply(s, es[0]), es[1..]);
    }
  }

  /** `result?.steps?.[stepIndex]`: `undefined` without a result or outside
      the steps. */
  function CurrentStep(s: State): (r: Option<StepRecord>)
    ensures r.Some? <==> s.result.Some? && 0 <= s.stepIndex < |s.result.value.steps|
    ensures r.Some? ==> r.value == s.result.value.steps[s.stepIndex]
  {
    if s.result.Some? && 0 <= s.stepIndex < |s.result.value.steps| then Some(s.result.value.steps[s.stepIndex])
    else None
  }

  /** With a valid cursor, a result with steps always has a current step, so
      the fallbacks only show for a result without steps. */
  lemma ValidCursorHasStep(s: State)
    requires CursorValid(s) && s.result.Some? && |s.result.value.steps| > 0
    ensures CurrentStep(s) == Some(s.result.value.steps[s.stepIndex])
  {
  }

  // ---------------------------------------------------------------------------
  // The view
  // ---------------------------------------------------------------------------

  /** The result section: summary, slider and the two tables. */
  datatype ResultView = ResultView(
    summary: Api.Summary,
    scenario: Api.Request,
    stepIndex: int,
    totalSteps: nat,
    time: real,
    vehicles: seq<VehicleRecord>,
    edges: EdgeTable.View)

  datatype View = View(errorBanner: Option<string>, spinner: bool, results: Option<ResultView>)

  /** What `App` renders. The error banner needs a non-empty message, as
      `error && ...` skips the empty string. */
  function Render(s: State): (v: View)
    ensures v.spinner <==> s.loading
    ensures v.errorBanner.Some? <==> s.error.Some? && s.error.value != ""
    ensures v.errorBanner.Some? ==> v.errorBanner == s.error
    ensures v.results.Some? <==> s.result.Some?
    ensures v.results.Some? ==>
      var r := v.results.value;
      && r.summary == s.result.value.summary && r.scenario == s.result.value.scenario
      && r.totalSteps == |s.result.value.steps| && r.stepIndex == s.stepIndex
      && (CurrentStep(s).None? ==> r.time == 0.0 && r.vehicles == [] && r.edges == EdgeTable.NoTraffic)
      && (CurrentStep(s).Some? ==>
            r.time == CurrentStep(s).value.time && r.vehicles == CurrentStep(s).value.vehicles
            && r.edges == EdgeTable.Render(CurrentStep(s).value.edges))
  {
    var banner := if s.error.Some? && s.error.value != "" then s.error else None;
    var results :=
      if s.result.None? then None
      else
        var step := CurrentStep(s);
        var time := if step.Some? then step.value.time else 0.0;
        var vehicles := if step.Some? then step.value.vehicles else [];
        var edges := if step.Some? then step.value.edges else [];
        Some(ResultView(s.result.value.summary, s.result.value.scenario, s.stepIndex, |s.result.value.steps|,
          time, vehicles, EdgeTable.Render(edges)));
    View(banner, s.loading, results)
  }

  /** A failed options load leaves the options empty and shows the
      connection message. */
  lemma OptionsFailureShown()
    ensures var t := Apply(Initial(), OptionsFailed);
      t.options.None? && Render(t).errorBanner == Some(ConnectionError)
  {
  }
}
