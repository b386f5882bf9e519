/** The prediction wizard: four steps (clinical data, image, review,
    results) over a session holding the entered data, the image payload,
    the prediction result and the last error.

    Each handler is a transition on `Session`; the `PredictWizard` class
    holds the same fields and applies the transitions in place. Timers and
    the awaited mutation are explicit events: the one-second advance after
    an image is chosen is `AdvanceToReview`, and a submission is split into
    `BeginSubmit` (before the await) and `FinishSubmit` (after it). */
module PredictPage {
  import opened Common
  import opened Client
  import opened Services
  import opened Hooks
  import PatientForm

  datatype Step = ClinicalDataStep | ImageUploadStep | ReviewStep | ResultsStep

  /** The steps in display order. */
  const Steps: seq<Step> := [ClinicalDataStep, ImageUploadStep, ReviewStep, ResultsStep]

  /** `steps.findIndex(step => step.id === currentStep)` */
  function StepIndex(step: Step): (i: nat)
    ensures i < |Steps| && Steps[i] == step
  {
    match step
    case ClinicalDataStep => 0
    case ImageUploadStep => 1
    case ReviewStep => 2
    case ResultsStep => 3
  }

  /** Percentage shown in the progress bar: `(index + 1) / 4 * 100`. */
  function StepProgress(step: Step): (pct: nat)
    ensures pct * |Steps| == (StepIndex(step) + 1) * 100
  {
    (StepIndex(step) + 1) * 25
  }

  /** Later steps show more progress, and the last shows 100%. */
  lemma StepProgressIncreases(i: nat, j: nat)
    requires i < j < |Steps|
    ensures StepProgress(Steps[i]) < StepProgress(Steps[j]) <= 100
    ensures StepProgress(Steps[0]) == 25 && StepProgress(Steps[|Steps| - 1]) == 100
  {
    assert StepIndex(Steps[i]) == i && StepIndex(Steps[j]) == j;
  }

  type PredictionResult = Decoded<PredictionResponse>

  datatype Session = Session(
    step: Step,
    clinicalData: Option<PatientForm.PatientData>,
    imageBase64: Option<string>,
    results: Option<PredictionResult>,
    error: Option<string>)

  const FailedMessage: string := "Failed to get prediction"

  function Initial(): (s: Session)
    ensures s.step == ClinicalDataStep
    ensures s.clinicalData.None? && s.imageBase64.None? && s.results.None? && s.error.None?
  {
    Session(ClinicalDataStep, None, None, None, None)
  }

  /** The form was submitted: keep its data and move to the image step. */
  function ClinicalSubmit(s: Session, data: PatientForm.PatientData): Session {
    s.(clinicalData := Some(data), step := ImageUploadStep)
  }

  /** The clinical form was submitted: its submit handler runs the schema
      first and calls `ClinicalSubmit` only with a record that passed; a
      form that fails leaves the session as it was. */
  function SubmitForm(s: Session, form: PatientForm.Form): (t: Session)
    ensures PatientForm.Validate(form).Ok? ==> t == ClinicalSubmit(s, PatientForm.Validate(form).value)
    ensures PatientForm.Validate(form).Err? ==> t == s
    ensures t.clinicalData.Some? && t.clinicalData != s.clinicalData ==> PatientForm.InSchema(t.clinicalData.value)
  {
    match PatientForm.Validate(form)
    case Ok(data) => ClinicalSubmit(s, data)
    case Err(_) => s
  }

  /** The upload component handed over a payload (absent when the data URL
      had no comma); the step is left alone until the timer fires. */
  function ImageSelect(s: Session, image: Option<string>): Session {
    s.(imageBase64 := image)
  }

  /** The timer set on image selection fires: the step becomes review,
      whatever it is now and whatever the session holds. */
  function AdvanceToReview(s: Session): Session {
    s.(step := ReviewStep)
  }

  /** The ten clinical fields the backend takes; the six lifestyle fields
      of the form are not sent. */
  function BackendRecord(p: PatientForm.PatientData): ClinicalRecord {
    ClinicalRecord(p.age, p.gender, p.bmi, p.systolic, p.diastolic,
                   p.cholesterol, p.glucose, p.smoking, p.familyHistory,
                   p.symptomsSeverity)
  }

  /** The backend field a form field is sent as, if it is sent. */
  function Sent(c: ClinicalRecord, f: PatientForm.Field): Option<real> {
    match f
    case Age => Some(c.age)
    case Gender => Some(c.gender)
    case Bmi => Some(c.bmi)
    case Systolic => Some(c.systolic)
    case Diastolic => Some(c.diastolic)
    case Cholesterol => Some(c.cholesterol)
    case Glucose => Some(c.glucose)
    case Smoking => Some(c.smoking)
    case FamilyHistory => Some(c.familyHistory)
    case SymptomsSeverity => Some(c.symptomsSeverity)
    case _ => None
  }

  /** Every field that is sent carries exactly the entered value; exactly
      the six lifestyle fields are dropped. */
  lemma BackendRecordCopiesTenFields(p: PatientForm.PatientData, f: PatientForm.Field)
    ensures Sent(BackendRecord(p), f).Some? ==> Sent(BackendRecord(p), f).value == PatientForm.Value(p, f)
    ensures Sent(BackendRecord(p), f).None? <==>
      f in {PatientForm.AlcoholConsumption, PatientForm.ExerciseFrequency, PatientForm.DiabetesHistory,
            PatientForm.HeartDiseaseHistory, PatientForm.MedicationUsage, PatientForm.StressLevel}
  {
  }

  /** Records that differ only in lifestyle fields give the same request. */
  lemma LifestyleNotSent(p: PatientForm.PatientData, q: PatientForm.PatientData)
    requires forall f :: Sent(BackendRecord(p), f).Some? ==> PatientForm.Value(p, f) == PatientForm.Value(q, f)
    ensures BackendRecord(p) == BackendRecord(q)
  {
    assert PatientForm.Value(p, PatientForm.Age) == PatientForm.Value(q, PatientForm.Age);
    assert PatientForm.Value(p, PatientForm.Gender) == PatientForm.Value(q, PatientForm.Gender);
    assert PatientForm.Value(p, PatientForm.Bmi) == PatientForm.Value(q, PatientForm.Bmi);
    assert PatientForm.Value(p, PatientForm.Systolic) == PatientForm.Value(q, PatientForm.Systolic);
    assert PatientForm.Value(p, PatientForm.Diastolic) == PatientForm.Value(q, PatientForm.Diastolic);
    assert PatientForm.Value(p, PatientForm.Cholesterol) == PatientForm.Value(q, PatientForm.Cholesterol);
    assert PatientForm.Value(p, PatientForm.Glucose) == PatientForm.Value(q, PatientForm.Glucose);
    assert PatientForm.Value(p, PatientForm.Smoking) == PatientForm.Value(q, PatientForm.Smoking);
    assert PatientForm.Value(p, PatientForm.FamilyHistory) == PatientForm.Value(q, PatientForm.FamilyHistory);
    assert PatientForm.Value(p, PatientForm.SymptomsSeverity) == PatientForm.Value(q, PatientForm.SymptomsSeverity);
  }

  /** The submit guard: clinical data present and a non-empty image. */
  predicate ReadyToSubmit(s: Session) {
    s.clinicalData.Some? && Truthy(s.imageBase64)
  }

  /** The request a submission sends, if the guard lets it through. */
  function SubmitRequest(s: Session): (r: Option<PredictionRequest>)
    ensures r.Some? <==> ReadyToSubmit(s)
    ensures r.Some? ==> r.value.imageBase64 == s.imageBase64.value != ""
    ensures r.Some? ==> r.value.clinicalData == BackendRecord(s.clinicalData.value)
  {
    if ReadyToSubmit(s) then Some(PredictionRequest(BackendRecord(s.clinicalData.value), s.imageBase64.value))
    else None
  }

  /** Before the await: a guarded-out submission changes nothing; otherwise
      the previous error is cleared. */
  function BeginSubmit(s: Session): (t: Session)
    ensures !ReadyToSubmit(s) ==> t == s
    ensures ReadyToSubmit(s) ==> t == s.(error := None)
  {
    if ReadyToSubmit(s) then s.(error := None) else s
  }

  /** After the await, applied to the session as it is then: a result is
      stored and shown; a failure stores its message (or the generic one
      for a thrown non-`Error`) and keeps the step. */
  function FinishSubmit(s: Session, outcome: Result<PredictionResult, Thrown>): (t: Session)
    ensures outcome.Ok? ==> t == s.(results := Some(outcome.value), step := ResultsStep)
    ensures outcome.Err? ==> t == s.(error := Some(MessageOr(outcome.error, FailedMessage)))
  {
    match outcome
    case Ok(v) => s.(results := Some(v), step := ResultsStep)
    case Err(t) => s.(error := Some(MessageOr(t, FailedMessage)))
  }

  /** Start over: back to the first step with an empty session. */
  function Reset(): Session {
    Initial()
  }

  /** Whether the current step's "next" action is available. */
  predicate CanProceedToNext(s: Session) {
    match s.step
    case ClinicalDataStep => s.clinicalData.Some?
    case ImageUploadStep => Truthy(s.imageBase64)
    case ReviewStep => s.clinicalData.Some? && Truthy(s.imageBase64)
    case ResultsStep => false
  }

  /** On the review step the submit button is enabled exactly when the
      submission guard would let the request through. */
  lemma ReviewButtonMatchesGuard(s: Session)
    requires s.step == ReviewStep
    ensures CanProceedToNext(s) <==> SubmitRequest(s).Some?
  {
  }

  /** The results step never proceeds. */
  lemma ResultsIsFinal(s: Session)
    requires s.step == ResultsStep
    ensures !CanProceedToNext(s)
  {
  }

  /** A prediction rejected as invalid shows the doubled prefix on the
      wizard, and keeps the review step. */
  lemma ValidationErrorShownDoubled(s: Session, body: ResponseBody<PredictionResponse>, now: string)
    ensures var t := FinishSubmit(s, PredictAttempt(Responded(422, body), now));
      t.step == s.step && t.error.Some? && DoubledValidationPrefix <= t.error.value
  {
    PredictionValidationPrefixDoubled(body, now);
  }

  /** What can happen to a session: the handlers, the timer, and the
      settling of an awaited submission. */
  datatype Event =
    | SubmitClinical(form: PatientForm.Form)
    | SelectImage(image: Option<string>)
    | TimerFires
    | StartSubmit
    | Settle(outcome: Result<PredictionResult, Thrown>)
    | ResetPressed

  function Apply(s: Session, e: Event): Session {
    match e
    case SubmitClinical(form) => SubmitForm(s, form)
    case SelectImage(img) => ImageSelect(s, img)
    case TimerFires => AdvanceToReview(s)
    case StartSubmit => BeginSubmit(s)
    case Settle(o) => FinishSubmit(s, o)
    case ResetPressed => Reset()
  }

  function Run(s: Session, events: seq<Event>): Session
    decreases |events|
  {
    if events == [] then s else Run(Apply(s, events[0]), events[1..])
  }

  /** What holds in every reachable session: the results step always has a
      result to show, the image step is only reached with clinical data, and
      the clinical data held always satisfies the schema. */
  predicate Consistent(s: Session) {
    && (s.step == ResultsStep ==> s.results.Some?)
    && (s.step == ImageUploadStep ==> s.clinicalData.Some?)
    && (s.clinicalData.Some? ==> PatientForm.InSchema(s.clinicalData.value))
  }

  lemma ApplyKeepsConsistent(s: Session, e: Event)
    requires Consistent(s)
    ensures Consistent(Apply(s, e))
  {
  }

  lemma {:induction false} RunKeepsConsistent(s: Session, events: seq<Event>)
    requires Consistent(s)
    ensures Consistent(Run(s, events))
    decreases |events|
  {
    if events != [] {
      ApplyKeepsConsistent(s, events[0]);
      RunKeepsConsistent(Apply(s, events[0]), events[1..]);
    }
  }

  /** Every session reachable from the initial one is consistent. */
  lemma ReachableConsistent(events: seq<Event>)
    ensures Consistent(Run(Initial(), events))
  {
    RunKeepsConsistent(Initial(), events);
  }

  /** The reset button stays enabled while a submission is awaited, and the
      awaited result is applied to whatever the session is by then: after a
      reset the wizard shows results with no clinical data or image. */
  lemma ResetDuringSubmitShowsResults(form: PatientForm.Form, image: string, v: PredictionResult)
    requires PatientForm.Validate(form).Ok? && image != ""
    ensures var s := Run(Initial(), [SubmitClinical(form), SelectImage(Some(image)), TimerFires,
                                     StartSubmit, ResetPressed, Settle(Ok(v))]);
      s.step == ResultsStep && s.results == Some(v) && s.clinicalData.None? && s.imageBase64.None?
  {
    var e1, e2, e3 := SubmitClinical(form), SelectImage(Some(image)), TimerFires;
    var e4, e5, e6 := StartSubmit, ResetPressed, Settle(Ok(v));
    var s1 := Apply(Initial(), e1);
    var s2 := Apply(s1, e2);
    var s3 := Apply(s2, e3);
    var s4 := Apply(s3, e4);
    var s5 := Apply(s4, e5);
    assert Run(s5, [e6]) == Apply(s5, e6);
    assert Run(s4, [e5, e6]) == Run(s5, [e6]) by { assert [e5, e6][1..] == [e6]; }
    assert Run(s3, [e4, e5, e6]) == Run(s4, [e5, e6]) by { assert [e4, e5, e6][1..] == [e5, e6]; }
    assert Run(s2, [e3, e4, e5, e6]) == Run(s3, [e4, e5, e6]) by { assert [e3, e4, e5, e6][1..] == [e4, e5, e6]; }
    assert Run(s1, [e2, e3, e4, e5, e6]) == Run(s2, [e3, e4, e5, e6]) by {
      assert [e2, e3, e4, e5, e6][1..] == [e3, e4, e5, e6];
    }
    assert Run(Initial(), [e1, e2, e3, e4, e5, e6]) == Run(s1, [e2, e3, e4, e5, e6]) by {
      assert [e1, e2, e3, e4, e5, e6][1..] == [e2, e3, e4, e5, e6];
    }
  }

  /** The advance timer is not cancelled by a reset: it moves an emptied
      session to the review step, where the submit guard keeps it from
      sending anything. */
  lemma StaleTimerReachesEmptyReview(form: PatientForm.Form, image: string)
    ensures var s := Run(Initial(), [SubmitClinical(form), SelectImage(Some(image)), ResetPressed, TimerFires]);
      s.step == ReviewStep && s.clinicalData.None? && s.imageBase64.None?
      && !CanProceedToNext(s) && SubmitRequest(s).None?
  {
    var e1, e2, e3, e4 := SubmitClinical(form), SelectImage(Some(image)), ResetPressed, TimerFires;
    var s1 := Apply(Initial(), e1);
    var s2 := Apply(s1, e2);
    var s3 := Apply(s2, e3);
    assert Run(s3, [e4]) == Apply(s3, e4);
    assert Run(s2, [e3, e4]) == Run(s3, [e4]) by { assert [e3, e4][1..] == [e4]; }
    assert Run(s1, [e2, e3, e4]) == Run(s2, [e3, e4]) by { assert [e2, e3, e4][1..] == [e3, e4]; }
    assert Run(Initial(), [e1, e2, e3, e4]) == Run(s1, [e2, e3, e4]) by {
      assert [e1, e2, e3, e4][1..] == [e2, e3, e4];
    }
  }

  /** A payload delivered after a reset is kept even though no clinical
      data is held any more. */
  lemma LateImageAfterReset(form: PatientForm.Form, image: string)
    ensures var s := Run(Initial(), [SubmitClinical(form), ResetPressed, SelectImage(Some(image))]);
      s.imageBase64 == Some(image) && s.clinicalData.None? && s.step == ClinicalDataStep
  {
    var e1, e2, e3 := SubmitClinical(form), ResetPressed, SelectImage(Some(image));
    var s1 := Apply(Initial(), e1);
    var s2 := Apply(s1, e2);
    assert Run(s2, [e3]) == Apply(s2, e3);
    assert Run(s1, [e2, e3]) == Run(s2, [e3]) by { assert [e2, e3][1..] == [e3]; }
    assert Run(Initial(), [e1, e2, e3]) == Run(s1, [e2, e3]) by { assert [e1, e2, e3][1..] == [e2, e3]; }
  }

  class PredictWizard {
    var step: Step
    var clinicalData: Option<PatientForm.PatientData>
    var imageBase64: Option<string>
    var results: Option<PredictionResult>
    var error: Option<string>

    function Snapshot(): Session
      reads this
    {
      Session(step, clinicalData, imageBase64, results, error)
    }

    /** Percentage for the progress bar at the current step. */
    function Progress(): (pct: nat)
      reads this
      ensures pct * |Steps| == (StepIndex(step) + 1) * 100
    {
      StepProgress(step)
    }

    predicate CanProceed()
      reads this
    {
      CanProceedToNext(Snapshot())
    }

    constructor ()
      ensures Snapshot() == Initial()
    {
      step := ClinicalDataStep;
      clinicalData := None;
      imageBase64 := None;
      results := None;
      error := None;
    }

    method HandleClinicalDataSubmit(data: PatientForm.PatientData)
      modifies this
      ensures Snapshot() == ClinicalSubmit(old(Snapshot()), data)
    {
      clinicalData := Some(data);
      step := ImageUploadStep;
    }

    /** The form's submit handler: the schema runs first, and only a record
        that passes reaches `HandleClinicalDataSubmit`. */
    method SubmitClinicalForm(form: PatientForm.Form)
      modifies this
      ensures Snapshot() == SubmitForm(old(Snapshot()), form)
    {
      var checked := PatientForm.Validate(form);
      if checked.Ok? {
        HandleClinicalDataSubmit(checked.value);
      }
    }

    method HandleImageSelect(image: Option<string>)
      modifies this
      ensures Snapshot() == ImageSelect(old(Snapshot()), image)
    {
      imageBase64 := image;
    }

    /** The delayed callback scheduled by image selection. */
    method AdvanceTimerFired()
      modifies this
      ensures Snapshot() == AdvanceToReview(old(Snapshot()))
    {
      step := ReviewStep;
    }

    /** The part of the submit handler before the await; returns the request
        to send, or nothing when the guard returns early. */
    method BeginSubmitPrediction() returns (request: Option<PredictionRequest>)
      modifies this
      ensures request == SubmitRequest(old(Snapshot()))
      ensures Snapshot() == BeginSubmit(old(Snapshot()))
    {
      if clinicalData.None? || !Truthy(imageBase64) {
        return None;
      }
      error := None;
      request := Some(PredictionRequest(BackendRecord(clinicalData.value), imageBase64.value));
    }

    /** The part of the submit handler after the await. */
    method FinishSubmitPrediction(outcome: Result<PredictionResult, Thrown>)
      modifies this
      ensures Snapshot() == FinishSubmit(old(Snapshot()), outcome)
    {
      match outcome {
        case Ok(v) =>
          results := Some(v);
          step := ResultsStep;
        case Err(t) =>
          error := Some(MessageOr(t, FailedMessage));
      }
    }

    method HandleReset()
      modifies this
      ensures Snapshot() == Reset()
    {
      clinicalData := None;
      imageBase64 := None;
      results := None;
      error := None;
      step := ClinicalDataStep;
    }
  }
}
