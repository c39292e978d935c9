/** The express-validator chain shared by both POST routes of riskRoutes.ts:
    `isInt` with inclusive bounds for age and blood pressures, `isIn` for gender,
    `isFloat({ min: 0 })` for cholesterol and `isBoolean` for diabetes. */
module Validation {
  import opened Wrappers

  /** A JSON body field as it arrives: a number, a string, a boolean, or missing/null. */
  datatype Raw = Number(n: real) | Text(s: string) | Flag(b: bool) | Absent

  datatype Body = Body(age: Raw, gender: Raw, systolicBP: Raw, diastolicBP: Raw,
                       cholesterol: Raw, diabetes: Raw)

  datatype Gender = Male | Female | Other

  /** A body that passed validation, with its fields at their checked types. */
  datatype AssessmentInput = AssessmentInput(age: int, gender: Gender, systolicBP: int,
                                             diastolicBP: int, cholesterol: real, diabetes: bool)

  /** One entry of `validationResult(req).array()`. */
  datatype FieldError = FieldError(path: string, value: Raw, msg: string)

  const InvalidValue := "Invalid value"

  predicate IsWhole(r: real) {
    r == r.Floor as real
  }

  /** `isInt({ min: lo, max: hi })`, bounds inclusive. */
  predicate IsIntIn(v: Raw, lo: int, hi: int) {
    v.Number? && IsWhole(v.n) && lo <= v.n.Floor <= hi
  }

  /** `isIn(['Male', 'Female', 'Other'])`. */
  predicate IsGender(v: Raw) {
    v.Text? && v.s in {"Male", "Female", "Other"}
  }

  /** `isFloat({ min: 0 })`. */
  predicate IsNonNegative(v: Raw) {
    v.Number? && v.n >= 0.0
  }

  /** `isBoolean()`. */
  predicate IsBool(v: Raw) {
    v.Flag?
  }

  /** The six rules in chain order: field name, value, verdict. */
  function Rules(b: Body): (rules: seq<(string, Raw, bool)>)
    ensures |rules| == 6
  {
    [("age", b.age, IsIntIn(b.age, 1, 150)),
     ("gender", b.gender, IsGender(b.gender)),
     ("systolicBP", b.systolicBP, IsIntIn(b.systolicBP, 50, 250)),
     ("diastolicBP", b.diastolicBP, IsIntIn(b.diastolicBP, 30, 200)),
     ("cholesterol", b.cholesterol, IsNonNegative(b.cholesterol)),
     ("diabetes", b.diabetes, IsBool(b.diabetes))]
  }

  /** One error per failing rule, in chain order. */
  function Failing(rules: seq<(string, Raw, bool)>): (errs: seq<FieldError>)
    ensures |errs| <= |rules|
    ensures forall e :: e in errs ==> exists i :: 0 <= i < |rules| && !rules[i].2 && e == FieldError(rules[i].0, rules[i].1, InvalidValue)
    ensures forall i :: 0 <= i < |rules| && !rules[i].2 ==> FieldError(rules[i].0, rules[i].1, InvalidValue) in errs
    ensures errs == [] <==> forall i :: 0 <= i < |rules| ==> rules[i].2
  {
    if rules == [] then []
    else
      var tail := Failing(rules[1..]);
      assert forall i :: 1 <= i < |rules| ==> rules[i] == rules[1..][i - 1];
      if rules[0].2 then tail else [FieldError(rules[0].0, rules[0].1, InvalidValue)] + tail
  }

  /** Failing distributes over concatenation: the errors of earlier rules come first, in the
      order of the rules, so the 400 reply lists its fields in chain order. */
  lemma {:induction false} FailingAppend(a: seq<(string, Raw, bool)>, b: seq<(string, Raw, bool)>)
    ensures Failing(a + b) == Failing(a) + Failing(b)
  {
    if a == [] {
      assert a + b == b;
    } else {
      assert (a + b)[1..] == a[1..] + b;
      FailingAppend(a[1..], b);
    }
  }

  function GenderOf(s: string): Gender
    requires s in {"Male", "Female", "Other"}
  {
    if s == "Male" then Male else if s == "Female" then Female else Other
  }

  /** The fields' bounds, as the validators enforce them. */
  predicate InRange(x: AssessmentInput) {
    1 <= x.age <= 150 && 50 <= x.systolicBP <= 250 && 30 <= x.diastolicBP <= 200 && x.cholesterol >= 0.0
  }

  /** The chain followed by `validationResult`: the typed input when every rule passes,
      otherwise the errors of all failing fields (the chain does not stop at the first). */
  function Validate(b: Body): (r: Result<AssessmentInput, seq<FieldError>>)
    ensures r.Ok? ==> InRange(r.value)
    ensures r.Err? ==> r.error == Failing(Rules(b)) && r.error != []
  {
    var errs := Failing(Rules(b));
    if errs != [] then Err(errs)
    else
      assert Rules(b)[0].2 && Rules(b)[1].2 && Rules(b)[2].2 && Rules(b)[3].2 && Rules(b)[4].2 && Rules(b)[5].2;
      Ok(AssessmentInput(b.age.n.Floor, GenderOf(b.gender.s), b.systolicBP.n.Floor,
                         b.diastolicBP.n.Floor, b.cholesterol.n, b.diabetes.b))
  }

  /** A body is accepted exactly when all six rules pass; when it is refused, every failing
      field is reported (with its value and "Invalid value") and nothing else is. */
  lemma ValidateReportsFailingFields(b: Body)
    ensures Validate(b).Ok? <==> forall i :: 0 <= i < 6 ==> Rules(b)[i].2
    ensures Validate(b).Err? ==>
              forall i :: 0 <= i < 6 && !Rules(b)[i].2 ==>
                FieldError(Rules(b)[i].0, Rules(b)[i].1, InvalidValue) in Validate(b).error
    ensures Validate(b).Err? ==>
              forall e :: e in Validate(b).error ==>
                exists i :: 0 <= i < 6 && !Rules(b)[i].2 && e.path == Rules(b)[i].0
  {
  }

  function GenderName(g: Gender): string {
    match g
    case Male => "Male"
    case Female => "Female"
    case Other => "Other"
  }

  /** The JSON body a client sends for a typed input. */
  function ToBody(x: AssessmentInput): Body {
    Body(Number(x.age as real), Text(GenderName(x.gender)), Number(x.systolicBP as real),
         Number(x.diastolicBP as real), Number(x.cholesterol), Flag(x.diabetes))
  }

  /** Every input within the bounds is accepted from its body and read back unchanged;
      with `Validate`'s own `InRange` guarantee, the bounds are exactly what is accepted. */
  lemma ValidateToBody(x: AssessmentInput)
    requires InRange(x)
    ensures Validate(ToBody(x)) == Ok(x)
  {
  }

  /** Validation refuses the body and its errors name the field. */
  predicate Names(b: Body, field: string) {
    Validate(b).Err? && exists e :: e in Validate(b).error && e.path == field
  }

  /** Each field one step outside its bound, or off its list, is named in the errors,
      whatever the other fields hold. */
  lemma RejectsJustOutside(b: Body)
    ensures b.age == Number(0.0) || b.age == Number(151.0) ==> Names(b, "age")
    ensures b.gender == Text("X") ==> Names(b, "gender")
    ensures b.systolicBP == Number(49.0) || b.systolicBP == Number(251.0) ==> Names(b, "systolicBP")
    ensures b.diastolicBP == Number(29.0) || b.diastolicBP == Number(201.0) ==> Names(b, "diastolicBP")
    ensures b.cholesterol == Number(-1.0) ==> Names(b, "cholesterol")
    ensures b.diabetes.Text? ==> Names(b, "diabetes")
  {
    if !Rules(b)[0].2 { NamesFailing(b, 0); }
    if !Rules(b)[1].2 { NamesFailing(b, 1); }
    if !Rules(b)[2].2 { NamesFailing(b, 2); }
    if !Rules(b)[3].2 { NamesFailing(b, 3); }
    if !Rules(b)[4].2 { NamesFailing(b, 4); }
    if !Rules(b)[5].2 { NamesFailing(b, 5); }
  }

  lemma NamesFailing(b: Body, i: nat)
    requires i < 6 && !Rules(b)[i].2
    ensures Names(b, Rules(b)[i].0)
  {
  }
}
