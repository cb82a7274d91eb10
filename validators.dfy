/**
 * The two validators of src/app/customers/customer.component.ts: the
 * email/confirm-email matcher and the rating range factory, plus the
 * `required` rule that the component attaches to and removes from phone.
 */
module Validators {
  import opened Wrappers

  /** A failing validator's error object, as the ordered list of its keys
      (each key maps to `true`); `None` is the `null` that means "valid". */
  type ErrorKeys = seq<string>

  const MATCH_KEY := "match"
  const RANGE_KEY := "range"
  const REQUIRED_KEY := "required"

  /** The part of a form control the component reads: its value, its
      pristine and touched flags and its current error object. */
  datatype Control = Control(value: string, pristine: bool, touched: bool, errors: Option<ErrorKeys>)
  {
    /** A control is dirty exactly when it is not pristine. */
    predicate Dirty() { !pristine }
  }

  /** A form group, seen through `get(name)`, which yields `null` for a
      name the group does not hold. */
  datatype Group = Group(controls: map<string, Control>)
  {
    function Get(name: string): Option<Control> {
      if name in controls then Some(controls[name]) else None
    }
  }

  /** `c?.pristine` as a condition: a missing control gives `undefined`,
      which is falsy. */
  predicate PristineIfPresent(c: Option<Control>) {
    c.Some? && c.value.pristine
  }

  /** `c?.value`: a missing control gives `undefined`. */
  function ValueIfPresent(c: Option<Control>): Option<string> {
    if c.Some? then Some(c.value.value) else None
  }

  /** The group-level validator of the email group. It reports a mismatch
      only once both controls have been edited and their values differ. */
  function EmailMatcher(g: Group): (r: Option<ErrorKeys>)
    ensures r == None || r == Some([MATCH_KEY])
    ensures PristineIfPresent(g.Get("email")) || PristineIfPresent(g.Get("confirmEmail")) ==> r == None
    ensures "email" in g.controls && "confirmEmail" in g.controls
            && g.controls["email"].Dirty() && g.controls["confirmEmail"].Dirty() ==>
              (r == Some([MATCH_KEY]) <==> g.controls["email"].value != g.controls["confirmEmail"].value)
  {
    var emailControl := g.Get("email");
    var confirmControl := g.Get("confirmEmail");
    if PristineIfPresent(emailControl) || PristineIfPresent(confirmControl) then
      None
    else if ValueIfPresent(emailControl) == ValueIfPresent(confirmControl) then
      None
    else
      Some([MATCH_KEY])
  }

  /** A group that lacks one of the two controls: the missing one counts as
      neither pristine nor equal to a present value, so an edited control
      facing a missing sibling is reported as a mismatch, and a group with
      neither control passes. */
  lemma EmailMatcherMissingControl(g: Group)
    ensures "email" !in g.controls && "confirmEmail" !in g.controls ==> EmailMatcher(g) == None
    ensures "email" in g.controls && "confirmEmail" !in g.controls && g.controls["email"].Dirty() ==>
              EmailMatcher(g) == Some([MATCH_KEY])
    ensures "email" !in g.controls && "confirmEmail" in g.controls && g.controls["confirmEmail"].Dirty() ==>
              EmailMatcher(g) == Some([MATCH_KEY])
  {
  }

  /** A rating control's value as JavaScript's numeric coercion sees it:
      `null`, a number, or something that coerces to NaN. */
  datatype RatingValue = Null | Num(x: real) | NonNumeric

  /** The validator factory: the returned validator lets `null` through and
      fails with `range` on a non-numeric value or one outside [min, max],
      both bounds included. */
  function RatingRange(min: real, max: real): (validator: RatingValue -> Option<ErrorKeys>)
    ensures validator(Null) == None
    ensures validator(NonNumeric) == Some([RANGE_KEY])
    ensures forall x: real :: validator(Num(x)) == if min <= x <= max then None else Some([RANGE_KEY])
  {
    (value: RatingValue) =>
      if value != Null && (value == NonNumeric || value.x < min || value.x > max) then
        Some([RANGE_KEY])
      else
        None
  }

  /** The validator the form attaches to its rating control accepts exactly
      null and the numbers from 1 to 5 inclusive. */
  lemma RatingValidatorAccepts(value: RatingValue)
    ensures RatingRange(1.0, 5.0)(value) == None <==> value == Null || (value.Num? && 1.0 <= value.x <= 5.0)
  {
  }

  /** The built-in rules the form's schema attaches to its text controls.
      Only `Required` is evaluated by the model: the others are library
      rules whose behaviour the component never inspects. */
  datatype Rule = Required | MinLength(n: nat) | MaxLength(n: nat) | EmailFormat

  /** Runs a control's active rules on a text value, for a control whose
      only possible rule is `Required`: the empty text fails it. */
  function RequiredErrors(rules: set<Rule>, value: string): (r: Option<ErrorKeys>)
    requires rules <= {Required}
    ensures r.Some? <==> Required in rules && value == ""
    ensures r.Some? ==> r.value == [REQUIRED_KEY]
  {
    if Required in rules && |value| == 0 then Some([REQUIRED_KEY]) else None
  }
}
