/**
 * The form validation rule of the workout tracker (`App._validate`).
 *
 * Form fields reach the rule as JavaScript numbers (`+input.value`), which may
 * be NaN or an infinity; parsing the field text is not part of this model.
 */
module Validation {
  import opened Wrappers

  /** A JavaScript number: a finite value, NaN, or one of the two infinities. */
  datatype Number = Finite(value: real) | NaN | Infinity(positive: bool)

  /** `Number.isFinite(x)` */
  predicate IsFinite(x: Number) {
    x.Finite?
  }

  /** JavaScript's `x > 0`: false for NaN and for -Infinity, true for +Infinity. */
  predicate GreaterThanZero(x: Number) {
    match x
    case Finite(v) => v > 0.0
    case NaN => false
    case Infinity(positive) => positive
  }

  /** The `every` test of the form rule that all given numbers are finite. */
  function AllFinite(xs: seq<Number>): (b: bool)
    ensures b <==> forall i :: 0 <= i < |xs| ==> xs[i].Finite?
  {
    if xs == [] then true else IsFinite(xs[0]) && AllFinite(xs[1..])
  }

  /** The `every` test of the form rule that all given numbers compare greater than zero. */
  function AllPositive(xs: seq<Number>): (b: bool)
    ensures b <==> forall i :: 0 <= i < |xs| ==> GreaterThanZero(xs[i])
  {
    if xs == [] then true else GreaterThanZero(xs[0]) && AllPositive(xs[1..])
  }

  /** The four values `_validate` destructures: the type, distance, duration and cadence-or-elevation. */
  datatype FormInfo = FormInfo(kind: string, distance: Number, duration: Number, cadElev: Number)

  /** The raw form: the type selector and the four numeric inputs. */
  datatype Form = Form(kind: string, distance: Number, duration: Number, cadence: Number, elevation: Number)

  /** What `_newWorkout` hands to `_validate`: cadence for a run, elevation for anything else. */
  function Info(f: Form): FormInfo {
    FormInfo(f.kind, f.distance, f.duration, if f.kind == "running" then f.cadence else f.elevation)
  }

  /**
   * `_validate`: Some(true) or Some(false) for the two known types, None for
   * any other type (the JavaScript function falls off its end and yields undefined).
   */
  function Validate(info: FormInfo): (r: Option<bool>)
    ensures r == None <==> info.kind != "running" && info.kind != "cycling"
  {
    var numbers := [info.distance, info.duration, info.cadElev];
    if info.kind == "running" then
      Some(AllFinite(numbers) && AllPositive(numbers))
    else if info.kind == "cycling" then
      Some(AllFinite(numbers) && AllPositive([info.distance, info.duration]))
    else
      None
  }

  /** The submit handlers go on only when `_validate`'s result is truthy. */
  function Accepted(info: FormInfo): (b: bool)
    ensures b ==> info.kind == "running" || info.kind == "cycling"
    ensures b ==> GreaterThanZero(info.distance) && GreaterThanZero(info.duration)
  {
    var numbers, positives := [info.distance, info.duration, info.cadElev], [info.distance, info.duration];
    assert numbers[0] == positives[0] == info.distance && numbers[1] == positives[1] == info.duration;
    Validate(info) == Some(true)
  }

  /** A run is accepted exactly when all three numbers are finite and strictly positive. */
  lemma RunningAcceptance(distance: Number, duration: Number, cadence: Number)
    ensures Accepted(FormInfo("running", distance, duration, cadence)) <==>
      distance.Finite? && duration.Finite? && cadence.Finite? &&
      distance.value > 0.0 && duration.value > 0.0 && cadence.value > 0.0
  {
    var numbers := [distance, duration, cadence];
    assert numbers[0] == distance && numbers[1] == duration && numbers[2] == cadence;
  }

  /** A ride is accepted exactly when all three are finite and distance and duration are positive; elevation may have any sign. */
  lemma CyclingAcceptance(distance: Number, duration: Number, elevation: Number)
    ensures Accepted(FormInfo("cycling", distance, duration, elevation)) <==>
      distance.Finite? && duration.Finite? && elevation.Finite? &&
      distance.value > 0.0 && duration.value > 0.0
  {
    var numbers := [distance, duration, elevation];
    assert numbers[0] == distance && numbers[1] == duration && numbers[2] == elevation;
    var positives := [distance, duration];
    assert positives[0] == distance && positives[1] == duration;
  }

  /** Any other type yields undefined and is therefore rejected. */
  lemma OtherKindsRejected(info: FormInfo)
    requires info.kind != "running" && info.kind != "cycling"
    ensures Validate(info) == None && !Accepted(info)
  {
  }

  /**
   * Acceptance stated on the raw form: a run needs all three numbers finite
   * and positive, a ride needs all three finite and a positive distance and
   * duration, and every other type is refused.
   */
  lemma FormAcceptance(f: Form)
    ensures Accepted(Info(f)) <==>
      (f.kind == "running" &&
        f.distance.Finite? && f.duration.Finite? && f.cadence.Finite? &&
        f.distance.value > 0.0 && f.duration.value > 0.0 && f.cadence.value > 0.0) ||
      (f.kind == "cycling" &&
        f.distance.Finite? && f.duration.Finite? && f.elevation.Finite? &&
        f.distance.value > 0.0 && f.duration.value > 0.0)
  {
    if f.kind == "running" {
      RunningAcceptance(f.distance, f.duration, f.cadence);
    } else if f.kind == "cycling" {
      CyclingAcceptance(f.distance, f.duration, f.elevation);
    }
  }

  /** What an accepted form guarantees to the workout constructors. */
  lemma AcceptedMeansUsable(info: FormInfo)
    requires Accepted(info)
    ensures info.kind == "running" || info.kind == "cycling"
    ensures info.distance.Finite? && info.duration.Finite? && info.cadElev.Finite?
    ensures info.distance.value > 0.0 && info.duration.value > 0.0
    ensures info.kind == "running" ==> info.cadElev.value > 0.0
  {
    if info.kind == "running" {
      RunningAcceptance(info.distance, info.duration, info.cadElev);
    } else {
      CyclingAcceptance(info.distance, info.duration, info.cadElev);
    }
  }
}
