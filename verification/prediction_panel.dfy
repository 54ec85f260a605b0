/** The prediction panel (frontend/src/components/PredictionPanel.jsx): the
    validated prediction's fields, a "Validated"/"Corrected" badge, and the
    list of corrections the validator applied. */
module PredictionPanel {
  import opened Wrappers
  import opened Text
  import AiModel
  import Validator

  /** The `validation` prop: `is_valid` and the error texts. */
  datatype ValidationJson = ValidationJson(isValid: bool, errors: seq<string>)

  /** The validator's dictionary as JSON: each error becomes its message. */
  function ToJson(v: Validator.Validation, order: seq<string>): (j: ValidationJson)
    ensures j.isValid == v.isValid && |j.errors| == |v.errors|
    ensures forall i :: 0 <= i < |j.errors| ==> j.errors[i] == Validator.Message(v.errors[i], order)
  {
    ValidationJson(v.isValid, Validator.Messages(v, order))
  }

  const Validated: string := "Validated"
  const Corrected: string := "Corrected"

  /** What the panel shows. `corrections` is `None` when the block is not
      rendered. */
  datatype Panel = Panel(
    badge: string,
    prediction: string,
    route: string,
    delay: string,
    congestion: string,
    explanation: string,
    corrections: Option<seq<string>>)

  /** `PredictionPanel({ prediction, validation })`; `validation` may be
      absent. */
  function Render(p: AiModel.Prediction, validation: Option<ValidationJson>): (v: Panel)
    ensures v.badge == Validated <==> validation.Some? && validation.value.isValid
    ensures v.badge == Validated || v.badge == Corrected
    ensures v.corrections.Some? <==> validation.Some? && |validation.value.errors| > 0
    ensures v.corrections.Some? ==> v.corrections.value == validation.value.errors
    ensures v.prediction == p.prediction && v.route == p.recommendedRoute
    ensures v.congestion == p.congestion && v.explanation == p.explanation
    ensures v.delay == IntToString(p.expectedDelay) + "s"
  {
    var isValid := validation.Some? && validation.value.isValid;
    var corrections := if validation.Some? && |validation.value.errors| > 0 then Some(validation.value.errors) else None;
    Panel(if isValid then Validated else Corrected,
      p.prediction, p.recommendedRoute, IntToString(p.expectedDelay) + "s", p.congestion, p.explanation,
      corrections)
  }

  /** On the validator's output the badge and the corrections block exclude
      each other: "Validated" exactly when no correction is listed. The route
      shown is a valid one and the delay text reads back as the clamped
      delay. */
  lemma BadgeExcludesCorrections(p: AiModel.Prediction, order: seq<string>)
    requires Validator.IsEnumeration(order)
    ensures var v := Validator.Validate(p, order);
      var panel := Render(v.prediction, Some(ToJson(v, order)));
      && (panel.badge == Validated <==> panel.corrections.None?)
      && panel.route in Validator.ValidRoutes
      && |panel.delay| >= 2 && panel.delay[|panel.delay| - 1] == 's'
      && (forall i :: 0 <= i < |panel.delay| - 1 ==> IsDigit(panel.delay[i]))
      && DigitsValue(panel.delay[..|panel.delay| - 1]) == v.prediction.expectedDelay
  {
    var v := Validator.Validate(p, order);
    var d := v.prediction.expectedDelay;
    assert d >= Validator.MinDelay;
    var t := IntToString(d) + "s";
    assert t[..|t| - 1] == NatToString(d);
    DigitsValueOfNatToString(d);
  }

  /** Without a validation the panel says "Corrected" and lists nothing. */
  lemma AbsentValidation(p: AiModel.Prediction)
    ensures Render(p, None).badge == Corrected && Render(p, None).corrections.None?
  {
  }
}
