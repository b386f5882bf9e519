/** The clinical data form: a closed schema of sixteen numeric fields with
    inclusive ranges, the built-in default values, the completion
    percentage, and the live risk heuristic shown beside the form.

    Field values are JavaScript numbers; they are modelled as `real`, since
    the schema accepts any number in range, not only integers. */
module PatientForm {
  import opened Common

  datatype Field =
    | Age | Gender | Bmi | Systolic | Diastolic | Cholesterol | Glucose
    | Smoking | FamilyHistory | SymptomsSeverity
    | AlcoholConsumption | ExerciseFrequency | DiabetesHistory
    | HeartDiseaseHistory | MedicationUsage | StressLevel

  /** The schema's fields in declaration order. */
  const FieldOrder: seq<Field> := [
    Age, Gender, Bmi, Systolic, Diastolic, Cholesterol, Glucose,
    Smoking, FamilyHistory, SymptomsSeverity,
    AlcoholConsumption, ExerciseFrequency, DiabetesHistory,
    HeartDiseaseHistory, MedicationUsage, StressLevel]

  /** Where a field sits in `FieldOrder`: every field is listed. */
  function Position(f: Field): (i: nat)
    ensures i < |FieldOrder| && FieldOrder[i] == f
  {
    match f
    case Age => 0
    case Gender => 1
    case Bmi => 2
    case Systolic => 3
    case Diastolic => 4
    case Cholesterol => 5
    case Glucose => 6
    case Smoking => 7
    case FamilyHistory => 8
    case SymptomsSeverity => 9
    case AlcoholConsumption => 10
    case ExerciseFrequency => 11
    case DiabetesHistory => 12
    case HeartDiseaseHistory => 13
    case MedicationUsage => 14
    case StressLevel => 15
  }

  /** Inclusive lower bound of each field's range. */
  function Min(f: Field): real {
    match f
    case Age => 0.0
    case Gender => 0.0
    case Bmi => 10.0
    case Systolic => 70.0
    case Diastolic => 40.0
    case Cholesterol => 100.0
    case Glucose => 50.0
    case Smoking => 0.0
    case FamilyHistory => 0.0
    case SymptomsSeverity => 1.0
    case AlcoholConsumption => 0.0
    case ExerciseFrequency => 0.0
    case DiabetesHistory => 0.0
    case HeartDiseaseHistory => 0.0
    case MedicationUsage => 0.0
    case StressLevel => 1.0
  }

  /** Inclusive upper bound of each field's range. */
  function Max(f: Field): real {
    match f
    case Age => 120.0
    case Gender => 1.0
    case Bmi => 60.0
    case Systolic => 250.0
    case Diastolic => 150.0
    case Cholesterol => 400.0
    case Glucose => 300.0
    case Smoking => 1.0
    case FamilyHistory => 1.0
    case SymptomsSeverity => 10.0
    case AlcoholConsumption => 2.0
    case ExerciseFrequency => 3.0
    case DiabetesHistory => 1.0
    case HeartDiseaseHistory => 1.0
    case MedicationUsage => 2.0
    case StressLevel => 5.0
  }

  /** A record that passed the schema. */
  datatype PatientData = PatientData(
    age: real, gender: real, bmi: real, systolic: real, diastolic: real,
    cholesterol: real, glucose: real, smoking: real, familyHistory: real,
    symptomsSeverity: real, alcoholConsumption: real, exerciseFrequency: real,
    diabetesHistory: real, heartDiseaseHistory: real, medicationUsage: real,
    stressLevel: real)

  function Value(p: PatientData, f: Field): real {
    match f
    case Age => p.age
    case Gender => p.gender
    case Bmi => p.bmi
    case Systolic => p.systolic
    case Diastolic => p.diastolic
    case Cholesterol => p.cholesterol
    case Glucose => p.glucose
    case Smoking => p.smoking
    case FamilyHistory => p.familyHistory
    case SymptomsSeverity => p.symptomsSeverity
    case AlcoholConsumption => p.alcoholConsumption
    case ExerciseFrequency => p.exerciseFrequency
    case DiabetesHistory => p.diabetesHistory
    case HeartDiseaseHistory => p.heartDiseaseHistory
    case MedicationUsage => p.medicationUsage
    case StressLevel => p.stressLevel
  }

  /** The values currently in the form; a field with no value is absent. */
  type Form = map<Field, real>

  /** The schema's test for one field: present, and within its range. */
  predicate Accepted(form: Form, f: Field) {
    f in form && Min(f) <= form[f] <= Max(f)
  }

  /** A record every field of which lies within its range. */
  predicate InSchema(p: PatientData) {
    forall f :: Min(f) <= Value(p, f) <= Max(f)
  }

  /** The fields of `fs` that fail the schema, in order. */
  function Rejected(form: Form, fs: seq<Field>): (bad: seq<Field>)
    ensures forall f :: f in bad <==> f in fs && !Accepted(form, f)
  {
    if fs == [] then []
    else if Accepted(form, fs[0]) then Rejected(form, fs[1..])
    else [fs[0]] + Rejected(form, fs[1..])
  }

  function FromForm(form: Form): (p: PatientData)
    requires forall f :: f in form
  {
    PatientData(
      form[Age], form[Gender], form[Bmi], form[Systolic], form[Diastolic],
      form[Cholesterol], form[Glucose], form[Smoking], form[FamilyHistory],
      form[SymptomsSeverity], form[AlcoholConsumption], form[ExerciseFrequency],
      form[DiabetesHistory], form[HeartDiseaseHistory], form[MedicationUsage],
      form[StressLevel])
  }

  /** Schema validation: the record is accepted iff every field is present
      and in range, and then carries exactly the entered values (nothing is
      clamped); otherwise the failing fields are reported, and only those. */
  function Validate(form: Form): (r: Result<PatientData, seq<Field>>)
    ensures r.Ok? <==> forall f :: Accepted(form, f)
    ensures r.Ok? ==> forall f :: f in form && Value(r.value, f) == form[f]
    ensures r.Ok? ==> InSchema(r.value)
    ensures r.Err? ==> r.error != [] && forall f :: f in r.error <==> !Accepted(form, f)
  {
    var bad := Rejected(form, FieldOrder);
    if bad == [] then
      assert forall f :: f in form && Accepted(form, f) by {
        forall f ensures f in form && Accepted(form, f) {
          assert FieldOrder[Position(f)] == f;
          assert f in FieldOrder && f !in bad;
        }
      }
      Ok(FromForm(form))
    else
      assert forall f :: f in bad <==> !Accepted(form, f) by {
        forall f ensures f in bad <==> !Accepted(form, f) {
          assert FieldOrder[Position(f)] == f;
        }
      }
      assert !Accepted(form, bad[0]);
      Err(bad)
  }

  /** The form's built-in starting value of each field. */
  function DefaultValue(f: Field): real {
    match f
    case Age => 30.0
    case Gender => 1.0
    case Bmi => 22.0
    case Systolic => 120.0
    case Diastolic => 80.0
    case Cholesterol => 180.0
    case Glucose => 90.0
    case Smoking => 0.0
    case FamilyHistory => 0.0
    case SymptomsSeverity => 1.0
    case AlcoholConsumption => 0.0
    case ExerciseFrequency => 2.0
    case DiabetesHistory => 0.0
    case HeartDiseaseHistory => 0.0
    case MedicationUsage => 0.0
    case StressLevel => 2.0
  }

  /** The defaults as a form with every field filled. */
  function DefaultValues(): (form: Form)
    ensures forall f :: f in form && form[f] == DefaultValue(f)
  {
    var m := map f | f in FieldOrder :: DefaultValue(f);
    assert forall f :: f in m by {
      forall f ensures f in m {
        assert FieldOrder[Position(f)] == f;
      }
    }
    m
  }

  /** The starting values: the defaults, overridden field by field by the
      values the caller passes in. */
  function InitialValues(overrides: Form): (form: Form)
    ensures forall f :: f in form
    ensures forall f :: form[f] == if f in overrides then overrides[f] else DefaultValue(f)
  {
    DefaultValues() + overrides
  }

  /** The built-in defaults all satisfy the schema. */
  lemma DefaultsAccepted()
    ensures Validate(DefaultValues()).Ok?
  {
    var d := DefaultValues();
    forall f ensures Accepted(d, f) {
      DefaultInRange(f);
    }
  }

  /** Each built-in default lies within its field's range. */
  lemma DefaultInRange(f: Field)
    ensures Min(f) <= DefaultValue(f) <= Max(f)
  {
    match f
    case Age =>
    case Gender =>
    case Bmi =>
    case Systolic =>
    case Diastolic =>
    case Cholesterol =>
    case Glucose =>
    case Smoking =>
    case FamilyHistory =>
    case SymptomsSeverity =>
    case AlcoholConsumption =>
    case ExerciseFrequency =>
    case DiabetesHistory =>
    case HeartDiseaseHistory =>
    case MedicationUsage =>
    case StressLevel =>
  }

  /** How many of `fs` have a value. */
  function Filled(form: Form, fs: seq<Field>): (n: nat)
    ensures n <= |fs|
    ensures n == |fs| <==> forall f :: f in fs ==> f in form
  {
    if fs == [] then 0
    else (if fs[0] in form then 1 else 0) + Filled(form, fs[1..])
  }

  /** Completion percentage: filled fields over the sixteen schema fields,
      rounded to the nearest integer. */
  function Progress(form: Form): (pct: nat)
    ensures pct <= 100
    ensures pct == 100 <==> forall f :: f in form
  {
    var n := Filled(form, FieldOrder);
    assert (forall f :: f in form) <==> n == 16 by {
      if n == 16 {
        forall f ensures f in form {
          assert FieldOrder[Position(f)] == f;
        }
      }
    }
    RoundHalfUp(100 * n, |FieldOrder|)
  }

  /** A form started from the defaults is always complete. */
  lemma InitialFormComplete(overrides: Form)
    ensures Progress(InitialValues(overrides)) == 100
  {
  }

  // Risk heuristic.

  /** A field's value for scoring; an absent field takes the heuristic's own
      default, which is 0 for every field except stress level (1). */
  function ScoreInput(form: Form, f: Field): real {
    if f in form then form[f] else if f == StressLevel then 1.0 else 0.0
  }

  function AgePoints(age: real): (p: nat)
    ensures p <= 3
  {
    if age > 65.0 then 3 else if age > 50.0 then 2 else if age > 35.0 then 1 else 0
  }

  function BmiPoints(bmi: real): (p: nat)
    ensures p <= 3
  {
    if bmi > 35.0 then 3 else if bmi > 30.0 then 2 else if bmi > 25.0 then 1 else 0
  }

  function SystolicPoints(systolic: real): (p: nat)
    ensures p <= 3
  {
    if systolic > 160.0 then 3 else if systolic > 140.0 then 2 else if systolic > 130.0 then 1 else 0
  }

  /** Points for a yes/no history field; only exactly 1 counts as yes. */
  function FlagPoints(value: real, weight: nat): (p: nat)
    ensures p == if value == 1.0 then weight else 0
  {
    if value == 1.0 then weight else 0
  }

  /** Points for a 0/1/2 field where 2 is worst (alcohol, medication). */
  function GradedPoints(value: real): (p: nat)
    ensures p <= 2
  {
    if value == 2.0 then 2 else if value == 1.0 then 1 else 0
  }

  /** No exercise adds 2, low exercise 1. */
  function ExercisePoints(frequency: real): (p: nat)
    ensures p <= 2
  {
    if frequency == 0.0 then 2 else if frequency == 1.0 then 1 else 0
  }

  /** Stress 4 or above adds 2, exactly 3 adds 1. */
  function StressPoints(stress: real): (p: nat)
    ensures p <= 2
  {
    if stress >= 4.0 then 2 else if stress == 3.0 then 1 else 0
  }

  /** The risk score of the current form values: the sum of the
      per-factor points, never more than the sum of their maxima. */
  function RiskScore(form: Form): (s: nat)
    ensures s <= 27
  {
    AgePoints(ScoreInput(form, Age))
    + BmiPoints(ScoreInput(form, Bmi))
    + SystolicPoints(ScoreInput(form, Systolic))
    + FlagPoints(ScoreInput(form, Smoking), 3)
    + GradedPoints(ScoreInput(form, AlcoholConsumption))
    + ExercisePoints(ScoreInput(form, ExerciseFrequency))
    + FlagPoints(ScoreInput(form, FamilyHistory), 2)
    + FlagPoints(ScoreInput(form, DiabetesHistory), 2)
    + FlagPoints(ScoreInput(form, HeartDiseaseHistory), 3)
    + GradedPoints(ScoreInput(form, MedicationUsage))
    + StressPoints(ScoreInput(form, StressLevel))
  }

  datatype RiskCategory = Low | LowMedium | Medium | High | Critical

  /** Badge variants used to colour the category. */
  datatype BadgeVariant = DefaultBadge | OutlineBadge | SecondaryBadge | DestructiveBadge

  /** Position of a category from least (0) to most (4) severe. */
  function Severity(c: RiskCategory): nat {
    match c
    case Low => 0
    case LowMedium => 1
    case Medium => 2
    case High => 3
    case Critical => 4
  }

  function Category(score: nat): RiskCategory {
    if score >= 10 then Critical
    else if score >= 7 then High
    else if score >= 4 then Medium
    else if score >= 2 then LowMedium
    else Low
  }

  function Label(c: RiskCategory): string {
    match c
    case Low => "Low"
    case LowMedium => "Low-Medium"
    case Medium => "Medium"
    case High => "High"
    case Critical => "Critical"
  }

  function Colour(c: RiskCategory): BadgeVariant {
    match c
    case Low => DefaultBadge
    case LowMedium => OutlineBadge
    case Medium => SecondaryBadge
    case High => DestructiveBadge
    case Critical => DestructiveBadge
  }

  /** A higher score never gives a less severe category. */
  lemma CategoryMonotone(s: nat, t: nat)
    requires s <= t
    ensures Severity(Category(s)) <= Severity(Category(t))
  {
  }

  /** The badge is destructive exactly from a score of 7 on, and each
      category's lowest score is its threshold. */
  lemma CategoryThresholds(s: nat)
    ensures Colour(Category(s)) == DestructiveBadge <==> s >= 7
    ensures Severity(Category(s)) == 4 <==> s >= 10
    ensures Severity(Category(s)) >= 2 <==> s >= 4
    ensures Category(s) == Low <==> s < 2
  {
  }

  /** Two forms that give the same scoring input for every field but `g`. */
  predicate AgreeExcept(a: Form, b: Form, g: Field) {
    forall f :: f != g ==> ScoreInput(a, f) == ScoreInput(b, f)
  }

  lemma UpdateAgrees(form: Form, g: Field, x: real, y: real)
    ensures AgreeExcept(form[g := x], form[g := y], g)
    ensures ScoreInput(form[g := x], g) == x && ScoreInput(form[g := y], g) == y
  {
  }

  /** With everything else fixed, a smoker scores 3 more than a non-smoker. */
  lemma SmokingAddsThree(form: Form)
    ensures RiskScore(form[Smoking := 1.0]) == RiskScore(form[Smoking := 0.0]) + 3
  {
    UpdateAgrees(form, Smoking, 1.0, 0.0);
  }

  /** With everything else fixed, heart disease history adds 3. */
  lemma HeartDiseaseAddsThree(form: Form)
    ensures RiskScore(form[HeartDiseaseHistory := 1.0]) == RiskScore(form[HeartDiseaseHistory := 0.0]) + 3
  {
    UpdateAgrees(form, HeartDiseaseHistory, 1.0, 0.0);
  }

  /** With everything else fixed, family history adds 2. */
  lemma FamilyHistoryAddsTwo(form: Form)
    ensures RiskScore(form[FamilyHistory := 1.0]) == RiskScore(form[FamilyHistory := 0.0]) + 2
  {
    UpdateAgrees(form, FamilyHistory, 1.0, 0.0);
  }

  /** With everything else fixed, diabetes history adds 2. */
  lemma DiabetesAddsTwo(form: Form)
    ensures RiskScore(form[DiabetesHistory := 1.0]) == RiskScore(form[DiabetesHistory := 0.0]) + 2
  {
    UpdateAgrees(form, DiabetesHistory, 1.0, 0.0);
  }

  /** Band limits are exclusive: the boundary value falls in the lower band. */
  lemma StrictBands()
    ensures AgePoints(65.0) == 2 && AgePoints(66.0) == 3
    ensures BmiPoints(30.0) == 1 && BmiPoints(30.1) == 2
    ensures SystolicPoints(140.0) == 1 && SystolicPoints(140.5) == 2
  {
  }

  /** An empty form is not neutral: missing exercise counts as none. */
  lemma EmptyFormIsLowMedium()
    ensures RiskScore(map[]) == 2
    ensures Category(RiskScore(map[])) == LowMedium
  {
  }

  /** The built-in defaults score 0, the lowest category. */
  lemma DefaultsScoreLow(form: Form)
    requires forall f :: f in form && form[f] == DefaultValue(f)
    ensures RiskScore(form) == 0
    ensures Category(RiskScore(form)) == Low
  {
    assert ScoreInput(form, ExerciseFrequency) == 2.0;
    assert ScoreInput(form, StressLevel) == 2.0;
  }

  /** An older smoker with obesity, hypertension, family history and no
      exercise is critical. */
  lemma HighRiskScenario()
    ensures var form := DefaultValues()[Age := 70.0][Bmi := 36.0][Systolic := 165.0]
                         [Smoking := 1.0][FamilyHistory := 1.0][ExerciseFrequency := 0.0];
      RiskScore(form) == 16 && Category(RiskScore(form)) == Critical
  {
    var d := DefaultValues();
    var form := d[Age := 70.0][Bmi := 36.0][Systolic := 165.0]
                 [Smoking := 1.0][FamilyHistory := 1.0][ExerciseFrequency := 0.0];
    assert ScoreInput(form, Age) == 70.0 && ScoreInput(form, Bmi) == 36.0;
    assert ScoreInput(form, Systolic) == 165.0 && ScoreInput(form, Smoking) == 1.0;
    assert ScoreInput(form, FamilyHistory) == 1.0 && ScoreInput(form, ExerciseFrequency) == 0.0;
    assert ScoreInput(form, AlcoholConsumption) == d[AlcoholConsumption] == 0.0;
    assert ScoreInput(form, DiabetesHistory) == d[DiabetesHistory] == 0.0;
    assert ScoreInput(form, HeartDiseaseHistory) == d[HeartDiseaseHistory] == 0.0;
    assert ScoreInput(form, MedicationUsage) == d[MedicationUsage] == 0.0;
    assert ScoreInput(form, StressLevel) == d[StressLevel] == 2.0;
  }
}
