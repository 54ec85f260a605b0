/** The rule-based safety net applied to a generated prediction
    (`validate_prediction`): five rules in order, each possibly appending an
    error and correcting a field of a copy of the prediction. */
module Validator {
  import opened Wrappers
  import opened Text
  import AiModel

  type Prediction = AiModel.Prediction

  /** `VALID_ROUTES`. */
  const ValidRoutes: set<string> := {"Route A", "Route B", "Route C"}
  const MinDelay: int := 10
  const MaxDelay: int := 3600
  /** The sentence that replaces a blank explanation. */
  const FallbackExplanation: string := "AI could not generate a clear explanation."

  /** One appended error, carrying the value its message interpolates. */
  datatype ValidationError =
    | InvalidRoute(route: string)
    | DelayTooLow(delay: int)
    | DelayTooHigh(delay: int)
    | EmptyPrediction
    | MissingExplanation
    | ModelError(raw: string)

  /** The dictionary `validate_prediction` returns. */
  datatype Validation = Validation(isValid: bool, errors: seq<ValidationError>, prediction: Prediction)

  /** Python iterates the set `VALID_ROUTES` in an order the code does not
      fix; the model takes that order as a parameter, which must list each
      valid route exactly once. */
  predicate IsEnumeration(order: seq<string>) {
    && |order| == 3
    && (forall n :: n in ValidRoutes ==> n in order)
    && (forall i :: 0 <= i < |order| ==> order[i] in ValidRoutes)
    && (forall i, j :: 0 <= i < j < |order| ==> order[i] != order[j])
  }

  /** `valid_route.lower() in route.lower()`. */
  predicate Names(route: string, name: string) {
    Contains(Lower(route), Lower(name))
  }

  /** Some valid route name occurs in `route`, ignoring case. */
  predicate NamesSomeRoute(route: string) {
    Names(route, "Route A") || Names(route, "Route B") || Names(route, "Route C")
  }

  /** The first name in iteration order that `route` contains, if any. */
  function FirstNamed(route: string, order: seq<string>): (r: Option<string>)
    ensures r.Some? ==> r.value in order && Names(route, r.value)
    ensures r.None? ==> forall i :: 0 <= i < |order| ==> !Names(route, order[i])
  {
    if |order| == 0 then None
    else if Names(route, order[0]) then Some(order[0])
    else FirstNamed(route, order[1..])
  }

  /** The specification of the error list: which errors the input warrants,
      independently of how the list is built. */
  predicate Warranted(p: Prediction, e: ValidationError) {
    match e
    case InvalidRoute(r) => r == p.recommendedRoute && !NamesSomeRoute(p.recommendedRoute)
    case DelayTooLow(d) => d == p.expectedDelay && d < MinDelay
    case DelayTooHigh(d) => d == p.expectedDelay && d > MaxDelay
    case EmptyPrediction => IsBlank(p.prediction)
    case MissingExplanation => IsBlank(p.explanation)
    case ModelError(raw) => raw == p.rawResponse && StartsWith(raw, "ERROR:")
  }

  /** The position of each rule in the order the rules run. */
  function Rank(e: ValidationError): nat {
    match e
    case InvalidRoute(_) => 0
    case DelayTooLow(_) => 1
    case DelayTooHigh(_) => 1
    case EmptyPrediction => 2
    case MissingExplanation => 3
    case ModelError(_) => 4
  }

  /** The delay clamped into [MinDelay, MaxDelay]. */
  function ClampDelay(d: int): (c: int)
    ensures MinDelay <= c <= MaxDelay
    ensures MinDelay <= d <= MaxDelay ==> c == d
    ensures d < MinDelay ==> c == MinDelay
    ensures d > MaxDelay ==> c == MaxDelay
  {
    if d < MinDelay then MinDelay else if d > MaxDelay then MaxDelay else d
  }

  lemma EnumerationCoversNames(route: string, order: seq<string>)
    requires IsEnumeration(order)
    ensures NamesSomeRoute(route) <==> FirstNamed(route, order).Some?
    ensures FirstNamed(route, order).Some? ==> FirstNamed(route, order).value in ValidRoutes
  {
    if NamesSomeRoute(route) {
      assert "Route A" in order && "Route B" in order && "Route C" in order;
    }
  }

  /** The errors of rules 1 to 5, appended in rule order; `routeValid`
      records whether rule 1 found a valid name. */
  function Errors(p: Prediction, routeValid: bool): (errs: seq<ValidationError>)
    ensures forall i, j :: 0 <= i < j < |errs| ==> Rank(errs[i]) < Rank(errs[j])
    ensures StartsWith(p.rawResponse, "ERROR:") ==> |errs| > 0 && errs[|errs| - 1] == ModelError(p.rawResponse)
  {
    var routeErrors := if routeValid then [] else [InvalidRoute(p.recommendedRoute)];
    var delayErrors :=
      if p.expectedDelay < MinDelay then [DelayTooLow(p.expectedDelay)]
      else if p.expectedDelay > MaxDelay then [DelayTooHigh(p.expectedDelay)]
      else [];
    var predictionErrors := if IsBlank(p.prediction) then [EmptyPrediction] else [];
    var explanationErrors := if IsBlank(p.explanation) then [MissingExplanation] else [];
    var rawErrors := if StartsWith(p.rawResponse, "ERROR:") then [ModelError(p.rawResponse)] else [];
    routeErrors + delayErrors + predictionErrors + explanationErrors + rawErrors
  }

  /** The errors appended are exactly the warranted ones. */
  lemma ErrorsAreWarranted(p: Prediction)
    ensures forall e :: e in Errors(p, NamesSomeRoute(p.recommendedRoute)) <==> Warranted(p, e)
  {
    var errs := Errors(p, NamesSomeRoute(p.recommendedRoute));
    forall e
      ensures e in errs <==> Warranted(p, e)
    {
      match e
      case InvalidRoute(_) =>
      case DelayTooLow(_) =>
      case DelayTooHigh(_) =>
      case EmptyPrediction =>
      case MissingExplanation =>
      case ModelError(_) =>
    }
  }

  /** `validate_prediction(prediction)`. Every rule reads the input's fields,
      corrections go to a copy, and the raw-error rule's early return builds
      the same dictionary as the final one except that it says invalid, which
      the non-empty error list says anyway. */
  function Validate(p: Prediction, order: seq<string>): (v: Validation)
    requires IsEnumeration(order)
    ensures v.prediction.recommendedRoute in ValidRoutes
    ensures NamesSomeRoute(p.recommendedRoute) ==> Names(p.recommendedRoute, v.prediction.recommendedRoute)
    ensures !NamesSomeRoute(p.recommendedRoute) ==> v.prediction.recommendedRoute == "Route A"
    ensures v.prediction.expectedDelay == ClampDelay(p.expectedDelay)
    ensures v.prediction.prediction == p.prediction
    ensures v.prediction.explanation == (if IsBlank(p.explanation) then FallbackExplanation else p.explanation)
    ensures v.prediction.congestion == p.congestion
    ensures v.prediction.rawResponse == p.rawResponse && v.prediction.routeStats == p.routeStats
    ensures forall e :: e in v.errors <==> Warranted(p, e)
    ensures forall i, j :: 0 <= i < j < |v.errors| ==> Rank(v.errors[i]) < Rank(v.errors[j])
    ensures StartsWith(p.rawResponse, "ERROR:") ==>
      |v.errors| > 0 && v.errors[|v.errors| - 1] == ModelError(p.rawResponse) && !v.isValid
    ensures v.isValid <==> |v.errors| == 0
  {
    EnumerationCoversNames(p.recommendedRoute, order);
    ErrorsAreWarranted(p);
    var named := FirstNamed(p.recommendedRoute, order);
    var route := if named.None? then "Route A" else named.value;
    var explanation := if IsBlank(p.explanation) then FallbackExplanation else p.explanation;
    var errors := Errors(p, named.Some?);
    var corrected := p.(recommendedRoute := route, expectedDelay := ClampDelay(p.expectedDelay),
                        explanation := explanation);
    if StartsWith(p.rawResponse, "ERROR:") then Validation(false, errors, corrected)
    else Validation(|errors| == 0, errors, corrected)
  }

  lemma NameNamesItself(n: string)
    ensures Names(n, n)
  {
    assert Lower(n)[0..|n|] == Lower(n);
    assert OccursAt(Lower(n), Lower(n), 0);
  }

  /** A valid name contains no other valid name: they differ in the last letter. */
  lemma ValidNamesApart(a: string, b: string)
    requires a in ValidRoutes && b in ValidRoutes && a != b
    ensures !Names(a, b)
  {
    var la := Lower(a);
    var lb := Lower(b);
    assert |la| == 7 == |lb|;
    assert la[6] != lb[6];
    assert la[0..7][6] == la[6];
  }

  /** A route naming exactly one valid route is normalised to that name,
      whatever the set's iteration order. */
  lemma SingleNameNormalised(p: Prediction, order: seq<string>, n: string)
    requires IsEnumeration(order)
    requires n in ValidRoutes && Names(p.recommendedRoute, n)
    requires forall m :: m in ValidRoutes && m != n ==> !Names(p.recommendedRoute, m)
    ensures Validate(p, order).prediction.recommendedRoute == n
    ensures forall e :: e in Validate(p, order).errors ==> !e.InvalidRoute?
  {
    var r := Validate(p, order).prediction.recommendedRoute;
    assert NamesSomeRoute(p.recommendedRoute);
    assert Names(p.recommendedRoute, r);
  }

  /** The corrected prediction is a fixed point: validating it again
      corrects nothing further. */
  lemma {:induction false} ValidateIdempotent(p: Prediction, order: seq<string>)
    requires IsEnumeration(order)
    ensures var q := Validate(p, order).prediction;
      Validate(q, order).prediction == q
  {
    var q := Validate(p, order).prediction;
    var n := q.recommendedRoute;
    NameNamesItself(n);
    forall m | m in ValidRoutes && m != n
      ensures !Names(n, m)
    {
      ValidNamesApart(n, m);
    }
    SingleNameNormalised(q, order, n);
    assert FallbackExplanation[0] == 'A';
    assert !IsBlank(FallbackExplanation);
  }

  /** `repr(VALID_ROUTES)` for the given iteration order: `{'Route A', ...}`. */
  function SetRepr(order: seq<string>): string {
    "{" + Join(seq(|order|, i requires 0 <= i < |order| => "'" + order[i] + "'"), ", ") + "}"
  }

  /** The text appended for each error (the f-strings of rules 1 to 5). Only
      a model error can start with "ERROR:", and a route error quotes the
      route verbatim. */
  function Message(e: ValidationError, order: seq<string>): (m: string)
    ensures e.ModelError? ==> m == e.raw
    ensures !e.ModelError? ==> !StartsWith(m, "ERROR:")
    ensures e.InvalidRoute? ==> Contains(m, e.route)
  {
    match e
    case InvalidRoute(r) =>
      var m := "Invalid route '" + r + "'. Must be one of " + SetRepr(order);
      assert m[15..15 + |r|] == r;
      assert OccursAt(m, r, 15);
      assert m[1] == 'n';
      m
    case DelayTooLow(d) =>
      var m := "Delay " + IntToString(d) + "s is too low (min " + IntToString(MinDelay) + "s)";
      assert m[0] == 'D';
      m
    case DelayTooHigh(d) =>
      var m := "Delay " + IntToString(d) + "s exceeds maximum (max " + IntToString(MaxDelay) + "s)";
      assert m[0] == 'D';
      m
    case EmptyPrediction =>
      var m := "Empty prediction generated";
      assert m[1] == 'm';
      m
    case MissingExplanation =>
      var m := "No explanation provided";
      assert m[0] == 'N';
      m
    case ModelError(raw) => raw
  }

  /** The error texts, one per error, in order. */
  function Messages(v: Validation, order: seq<string>): (ms: seq<string>)
    ensures |ms| == |v.errors|
    ensures forall i :: 0 <= i < |ms| ==> ms[i] == Message(v.errors[i], order)
  {
    seq(|v.errors|, i requires 0 <= i < |v.errors| => Message(v.errors[i], order))
  }
}
