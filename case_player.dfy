/**
  The learner's side of a case: a five-step form whose state is the current
  step, the answers collected so far and a loading flag raised while a
  submission is in flight. Rendering, routing and the network are not
  modelled; the state changes each control makes are.
 */
module CasePlayer {
  import opened Wrappers
  import opened Json
  import opened AttemptRequest

  const StepCount := 5

  /** The fields of a differential entry the form lets the learner type into. */
  datatype Field = Name | Justification

  function BlankEntry(rank: real): Diagnosis
  {
    Diagnosis("", rank, "")
  }

  /** Three empty entries ranked 1, 2 and 3. */
  const BlankDifferential: seq<Diagnosis> := [BlankEntry(1.0), BlankEntry(2.0), BlankEntry(3.0)]

  /** The answers a fresh form starts from: every text empty, both differentials blank. */
  const InitialAnswers: UserAnswers :=
    UserAnswers("", BlankDifferential, "", Some(""), Some(BlankDifferential), "", "")

  /** Entries hold ranks 1, 2, 3 in order, as the form lays them out. */
  predicate RanksOneTwoThree(ds: seq<Diagnosis>)
  {
    |ds| == 3 && forall i :: 0 <= i < 3 ==> ds[i].rank == (i + 1) as real
  }

  /** `{ ...entry, [field]: value }` */
  function WithField(d: Diagnosis, field: Field, value: string): (r: Diagnosis)
    ensures r.rank == d.rank
    ensures field == Name ==> r.name == value && r.justification == d.justification
    ensures field == Justification ==> r.justification == value && r.name == d.name
  {
    match field
    case Name => d.(name := value)
    case Justification => d.(justification := value)
  }

  /** `'step2'` selects the step-2 list; any other tag selects the step-4 list. */
  predicate SelectsStep2(step: string)
  {
    step == "step2"
  }

  /** The list a tag selects; an absent step-4 list reads as empty. */
  function Selected(a: UserAnswers, step: string): seq<Diagnosis>
  {
    if SelectsStep2(step) then a.step2Differential
    else if a.step4UpdatedDifferential.Some? then a.step4UpdatedDifferential.value
    else []
  }

  /** The answers with the selected list replaced by `ds`. */
  function WithSelected(a: UserAnswers, step: string, ds: seq<Diagnosis>): UserAnswers
  {
    if SelectsStep2(step) then a.(step2Differential := ds) else a.(step4UpdatedDifferential := Some(ds))
  }

  class Player {
    const caseId: string
    var currentStep: int
    var loading: bool
    var answers: UserAnswers

    /** The step stays within 1..5 and both differentials keep their three ranked entries. */
    ghost predicate Valid()
      reads this
    {
      && 1 <= currentStep <= StepCount
      && RanksOneTwoThree(answers.step2Differential)
      && answers.step4UpdatedDifferential.Some?
      && RanksOneTwoThree(answers.step4UpdatedDifferential.value)
    }

    constructor(caseId: string)
      ensures Valid()
      ensures this.caseId == caseId
      ensures currentStep == 1 && !loading && answers == InitialAnswers
    {
      this.caseId := caseId;
      currentStep := 1;
      loading := false;
      answers := InitialAnswers;
    }

    /** The Previous button: one step back, never below step 1. */
    method Previous()
      requires Valid()
      modifies this
      ensures Valid()
      ensures currentStep == if old(currentStep) > 1 then old(currentStep) - 1 else 1
      ensures answers == old(answers) && loading == old(loading)
    {
      currentStep := if currentStep - 1 > 1 then currentStep - 1 else 1;
    }

    /** The Next button: one step forward, never past the last step. */
    method Next()
      requires Valid()
      modifies this
      ensures Valid()
      ensures currentStep == if old(currentStep) < StepCount then old(currentStep) + 1 else StepCount
      ensures answers == old(answers) && loading == old(loading)
    {
      currentStep := if currentStep + 1 < StepCount then currentStep + 1 else StepCount;
    }

    predicate PreviousDisabled()
      reads this
    {
      currentStep == 1
    }

    /** Next is offered on steps 1 to 4; Submit takes its place on the last step. */
    predicate ShowsNext()
      reads this
    {
      currentStep < StepCount
    }

    predicate ShowsSubmit()
      reads this
    {
      !ShowsNext()
    }

    /** On a valid form exactly one of Next and Submit is shown, and Submit only on step 5. */
    lemma NavigationShown()
      requires Valid()
      ensures ShowsSubmit() <==> currentStep == 5
      ensures ShowsNext() <==> 1 <= currentStep <= 4
      ensures PreviousDisabled() ==> ShowsNext()
    {
    }

    /**
      `updateDifferential`: copy the selected list, overwrite one field of the
      entry at `index`, and store the copy back. Nothing else changes.
     */
    method UpdateDifferential(index: nat, field: Field, value: string, step: string)
      requires Valid()
      requires index < |Selected(answers, step)|
      modifies this
      ensures Valid()
      ensures answers == WithSelected(old(answers), step,
        old(Selected(answers, step))[index := WithField(old(Selected(answers, step))[index], field, value)])
      ensures step == "step2" ==> answers.step4UpdatedDifferential == old(answers.step4UpdatedDifferential)
      ensures step != "step2" ==> answers.step2Differential == old(answers.step2Differential)
      ensures currentStep == old(currentStep) && loading == old(loading)
    {
      var current := Selected(answers, step);
      var differential := new Diagnosis[|current|](i requires 0 <= i < |current| => current[i]);
      differential[index] := WithField(differential[index], field, value);
      assert differential[..] == current[index := WithField(current[index], field, value)];
      assert forall j :: 0 <= j < |current| ==> differential[j].rank == current[j].rank;
      answers := WithSelected(answers, step, differential[..]);
    }

    method SetProblemRepresentation(value: string)
      requires Valid()
      modifies this
      ensures Valid()
      ensures answers == old(answers).(step1ProblemRepresentation := value)
      ensures currentStep == old(currentStep) && loading == old(loading)
    {
      answers := answers.(step1ProblemRepresentation := value);
    }

    method SetNextStep(value: string)
      requires Valid()
      modifies this
      ensures Valid()
      ensures answers == old(answers).(step3NextStep := value)
      ensures currentStep == old(currentStep) && loading == old(loading)
    {
      answers := answers.(step3NextStep := value);
    }

    method SetInterpretation(value: string)
      requires Valid()
      modifies this
      ensures Valid()
      ensures answers == old(answers).(step4Interpretation := Some(value))
      ensures currentStep == old(currentStep) && loading == old(loading)
    {
      answers := answers.(step4Interpretation := Some(value));
    }

    method SetFinalDiagnosis(value: string)
      requires Valid()
      modifies this
      ensures Valid()
      ensures answers == old(answers).(step5FinalDiagnosis := value)
      ensures currentStep == old(currentStep) && loading == old(loading)
    {
      answers := answers.(step5FinalDiagnosis := value);
    }

    method SetManagement(value: string)
      requires Valid()
      modifies this
      ensures Valid()
      ensures answers == old(answers).(step5Management := value)
      ensures currentStep == old(currentStep) && loading == old(loading)
    {
      answers := answers.(step5Management := value);
    }

    /** Submit: raise the loading flag and send the case id with the answers as they stand. */
    method BeginSubmit() returns (request: Json)
      requires Valid()
      modifies this
      ensures Valid()
      ensures loading
      ensures request == RequestToJson(AttemptRequest(caseId, answers))
      ensures answers == old(answers) && currentStep == old(currentStep)
    {
      loading := true;
      request := RequestToJson(AttemptRequest(caseId, answers));
    }

    /**
      The submission's end: on success the page navigates away with the flag
      still raised; on any failure the flag is lowered so the learner can retry.
     */
    method FinishSubmit(succeeded: bool)
      requires Valid()
      modifies this
      ensures Valid()
      ensures loading == (old(loading) && succeeded)
      ensures answers == old(answers) && currentStep == old(currentStep)
    {
      if !succeeded {
        loading := false;
      }
    }
  }

  /**
    Whatever else the learner filled in, a submission whose step-4 list still
    has an entry with an empty name is refused by the request schema.
   */
  lemma UnfilledStep4Rejected(caseId: string, a: UserAnswers, i: nat)
    requires a.step4UpdatedDifferential.Some?
    requires i < |a.step4UpdatedDifferential.value| && a.step4UpdatedDifferential.value[i].name == ""
    ensures ParseRequest(RequestToJson(AttemptRequest(caseId, a))).Failure?
  {
    RequestRoundTrip(AttemptRequest(caseId, a));
    assert !ValidDiagnosis(a.step4UpdatedDifferential.value[i]);
  }

  /** In particular, leaving the step-4 list as the form first shows it makes the submission fail. */
  lemma UntouchedStep4Rejected(caseId: string, a: UserAnswers)
    requires a.step4UpdatedDifferential == InitialAnswers.step4UpdatedDifferential
    ensures ParseRequest(RequestToJson(AttemptRequest(caseId, a))).Failure?
  {
    UnfilledStep4Rejected(caseId, a, 0);
  }

  /**
    The ranks the form lays out never stand in the way of a submission: once
    every text is filled in, answers whose differentials keep ranks 1, 2, 3
    (as `Valid` guarantees for the whole session) are accepted unchanged.
   */
  lemma FilledFormAccepted(caseId: string, a: UserAnswers)
    requires IsUuid(caseId)
    requires RanksOneTwoThree(a.step2Differential)
    requires a.step4UpdatedDifferential.Some? && RanksOneTwoThree(a.step4UpdatedDifferential.value)
    requires forall d <- a.step2Differential :: |d.name| > 0 && |d.justification| > 0
    requires forall d <- a.step4UpdatedDifferential.value :: |d.name| > 0 && |d.justification| > 0
    requires |a.step1ProblemRepresentation| > 0 && |a.step3NextStep| > 0
    requires |a.step5FinalDiagnosis| > 0 && |a.step5Management| > 0
    ensures ParseRequest(RequestToJson(AttemptRequest(caseId, a))) == Success(AttemptRequest(caseId, a))
  {
    RanksAreValid(a.step2Differential);
    RanksAreValid(a.step4UpdatedDifferential.value);
    RequestRoundTrip(AttemptRequest(caseId, a));
  }

  lemma RanksAreValid(ds: seq<Diagnosis>)
    requires RanksOneTwoThree(ds)
    requires forall d <- ds :: |d.name| > 0 && |d.justification| > 0
    ensures ValidDiagnoses(ds)
  {
    forall i | 0 <= i < 3 ensures ValidDiagnosis(ds[i]) {
      assert ds[i] in ds;
      assert ds[i].rank == (i + 1) as real;
      assert IsInteger((i + 1) as real);
    }
  }

}
