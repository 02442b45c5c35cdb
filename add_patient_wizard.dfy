/**
 * The add-patient wizard's state: the current step (1 to 4), the list of
 * uploaded images (at most 5), the generated plan and the regeneration
 * options.
 */
module AddPatientWizard {
  import opened Wrappers
  import opened TreatmentPlan

  const TotalSteps := 4
  const MaxImages := 5

  // ---------------------------------------------------------------------
  // Steps

  /** `handleNext`: one step on, except at the last step. */
  function NextStep(step: int): (r: int)
    ensures 1 <= step <= TotalSteps ==> 1 <= r <= TotalSteps && r >= step
  {
    if step < TotalSteps then step + 1 else step
  }

  /** `handlePrevious`: one step back, except at the first step. */
  function PreviousStep(step: int): (r: int)
    ensures 1 <= step <= TotalSteps ==> 1 <= r <= TotalSteps && r <= step
  {
    if step > 1 then step - 1 else step
  }

  /** The Previous button is disabled on the first step. */
  predicate PreviousDisabled(step: int) {
    step == 1
  }

  /** Next is offered before the last step; at the last step Complete is shown instead. */
  predicate ShowsNext(step: int) {
    step < TotalSteps
  }

  /** The step buttons, in order. */
  const StepButtons: seq<int> := [1, 2, 3, 4]

  /** Next and Previous keep the step within 1..4, and are no-ops at the ends. */
  lemma StepsStayInRange(step: int)
    requires 1 <= step <= TotalSteps
    ensures 1 <= NextStep(step) <= TotalSteps && 1 <= PreviousStep(step) <= TotalSteps
    ensures NextStep(step) == step <==> step == TotalSteps
    ensures PreviousStep(step) == step <==> step == 1
  {
  }

  /** Previous undoes Next below the last step, and Next undoes Previous above the first. */
  lemma NextPreviousRoundTrip(step: int)
    requires 1 <= step <= TotalSteps
    ensures step < TotalSteps ==> PreviousStep(NextStep(step)) == step
    ensures step > 1 ==> NextStep(PreviousStep(step)) == step
  {
  }

  /** Previous is enabled exactly when it moves, and Next is offered exactly when it moves. */
  lemma ButtonsMatchMoves(step: int)
    requires 1 <= step <= TotalSteps
    ensures !PreviousDisabled(step) <==> PreviousStep(step) != step
    ensures ShowsNext(step) <==> NextStep(step) != step
  {
  }

  /** Every step button jumps to a step in 1..4, and each step has a button. */
  lemma StepButtonsInRange()
    ensures forall k :: 0 <= k < |StepButtons| ==> 1 <= StepButtons[k] <= TotalSteps && StepButtons[k] == k + 1
    ensures |StepButtons| == TotalSteps
  {
  }

  // ---------------------------------------------------------------------
  // Images

  /** The end index `Array.prototype.slice(0, end)` uses on a list of length `len`. */
  function SliceEnd(len: nat, end: int): (r: nat)
    ensures r <= len
  {
    if end < 0 then (if len + end > 0 then len + end else 0)
    else if end < len then end else len
  }

  /** `Array.from(files).slice(0, 5 - current)`: the files an upload adds. */
  function FilesToAdd(current: nat, files: seq<string>): (r: seq<string>)
    ensures |r| <= |files| && r == files[..|r|]
  {
    files[..SliceEnd(|files|, MaxImages - current)]
  }

  /**
   * An upload adds the first files, min(#files, 5 - current) of them while
   * there are at most 5 images, so the list never grows past 5.
   */
  lemma UploadCount(current: nat, files: seq<string>)
    requires current <= MaxImages
    ensures var added := FilesToAdd(current, files);
      && |added| == (if |files| < MaxImages - current then |files| else MaxImages - current)
      && added == files[..|added|]
      && current + |added| <= MaxImages
  {
  }

  /** With more than 5 images (never reached from 5 or fewer), the negative end drops files from the back. */
  lemma UploadCountOverfull(current: nat, files: seq<string>)
    requires current > MaxImages
    ensures |FilesToAdd(current, files)| == if |files| > current - MaxImages then |files| - (current - MaxImages) else 0
  {
  }

  /** The file inputs are enabled while there are fewer than 5 images. */
  predicate UploadEnabled(images: seq<string>) {
    |images| < MaxImages
  }

  /** From a full list nothing would be added, and the inputs are disabled. */
  lemma FullListAddsNothing(images: seq<string>, files: seq<string>)
    requires |images| == MaxImages
    ensures FilesToAdd(|images|, files) == [] && !UploadEnabled(images)
  {
  }

  /** `images.filter((_, i) => i !== index)`. */
  function RemoveIndex(images: seq<string>, index: int): (r: seq<string>)
    ensures r == if 0 <= index < |images| then images[..index] + images[index + 1..] else images
  {
    if images == [] then []
    else (if index == 0 then [] else [images[0]]) + RemoveIndex(images[1..], index - 1)
  }

  /** Removing a valid index shortens the list by one and keeps the rest in order; any other index changes nothing. */
  lemma RemoveIndexEffect(images: seq<string>, index: int)
    ensures 0 <= index < |images| ==>
      && |RemoveIndex(images, index)| == |images| - 1
      && (forall k :: 0 <= k < index ==> RemoveIndex(images, index)[k] == images[k])
      && (forall k :: index <= k < |images| - 1 ==> RemoveIndex(images, index)[k] == images[k + 1])
    ensures !(0 <= index < |images|) ==> RemoveIndex(images, index) == images
  {
    if 0 <= index < |images| {
      var r, front, back := RemoveIndex(images, index), images[..index], images[index + 1..];
      assert r == front + back;
      forall k | index <= k < |images| - 1 ensures r[k] == images[k + 1] {
        assert r[k] == back[k - index];
      }
    }
  }

  // ---------------------------------------------------------------------
  // The wizard

  class Wizard {
    var currentStep: int
    var firstName: string
    var motivators: string
    var concerns: string
    var questionsFromPatient: string
    var uploadedImages: seq<string>
    var generatedPlan: Option<string>
    var showRegenOptions: bool
    var extraInfo: string
    var regenTone: string
    var regenLength: string

    /** The step is one of 1..4 and there are at most 5 images. */
    predicate Valid()
      reads this
    {
      1 <= currentStep <= TotalSteps && |uploadedImages| <= MaxImages
    }

    constructor ()
      ensures Valid()
      ensures currentStep == 1 && uploadedImages == [] && generatedPlan == None && !showRegenOptions
      ensures firstName == "" && motivators == "" && concerns == "" && questionsFromPatient == ""
      ensures extraInfo == "" && regenTone == "professional" && regenLength == "standard"
    {
      currentStep := 1;
      firstName, motivators, concerns, questionsFromPatient := "", "", "", "";
      uploadedImages := [];
      generatedPlan := None;
      showRegenOptions := false;
      extraInfo, regenTone, regenLength := "", "professional", "standard";
    }

    method HandleNext()
      requires Valid()
      modifies this`currentStep
      ensures Valid()
      ensures currentStep == NextStep(old(currentStep))
    {
      if currentStep < TotalSteps {
        currentStep := currentStep + 1;
      }
    }

    method HandlePrevious()
      requires Valid()
      modifies this`currentStep
      ensures Valid()
      ensures currentStep == PreviousStep(old(currentStep))
    {
      if currentStep > 1 {
        currentStep := currentStep - 1;
      }
    }

    /** A step button: jump straight to `step`, which is one of the buttons' numbers. */
    method JumpToStep(step: int)
      requires Valid()
      requires step in StepButtons
      modifies this`currentStep
      ensures Valid()
      ensures currentStep == step
    {
      currentStep := step;
    }

    /**
     * `handleImageUpload`: with a file list, append the files the free
     * slots allow, one at a time, in order; without one, nothing.
     */
    method HandleImageUpload(files: Option<seq<string>>)
      requires Valid()
      modifies this`uploadedImages
      ensures Valid()
      ensures uploadedImages == old(uploadedImages) +
        (if files.Some? then FilesToAdd(|old(uploadedImages)|, files.value) else [])
    {
      if files.Some? {
        var toAdd := FilesToAdd(|uploadedImages|, files.value);
        UploadCount(|uploadedImages|, files.value);
        var i := 0;
        while i < |toAdd|
          invariant 0 <= i <= |toAdd|
          invariant uploadedImages == old(uploadedImages) + toAdd[..i]
        {
          uploadedImages := uploadedImages + [toAdd[i]];
          i := i + 1;
          assert toAdd[..i] == toAdd[..i - 1] + [toAdd[i - 1]];
        }
        assert toAdd[..i] == toAdd;
      }
    }

    /** `handleRemoveImage`: drop the image at `index`. */
    method HandleRemoveImage(index: int)
      requires Valid()
      modifies this`uploadedImages
      ensures Valid()
      ensures uploadedImages == RemoveIndex(old(uploadedImages), index)
    {
      uploadedImages := RemoveIndex(uploadedImages, index);
    }

    /** `handleGeneratePlan`: the plan from the current inputs. */
    method HandleGeneratePlan()
      modifies this`generatedPlan
      ensures generatedPlan == Some(GeneratePlan(firstName, motivators, concerns, questionsFromPatient))
    {
      var plan := GeneratePlan(firstName, motivators, concerns, questionsFromPatient);
      generatedPlan := Some(plan);
    }

    /** The Regenerate button shows or hides the regeneration options. */
    method ToggleRegenOptions()
      modifies this`showRegenOptions
      ensures showRegenOptions == !old(showRegenOptions)
    {
      showRegenOptions := !showRegenOptions;
    }

    /** `handleRegeneratePlan`: the plan from the chosen tone, length and extra information; the options close. */
    method HandleRegeneratePlan()
      modifies this`generatedPlan, this`showRegenOptions
      ensures generatedPlan == Some(RegeneratePlan(regenTone, regenLength, extraInfo))
      ensures !showRegenOptions
    {
      var plan := RegeneratePlan(regenTone, regenLength, extraInfo);
      generatedPlan := Some(plan);
      showRegenOptions := false;
    }
    /** The first-name input. */
    method SetFirstName(v: string)
      modifies this`firstName
      ensures firstName == v
    {
      firstName := v;
    }

    /** The motivators input. */
    method SetMotivators(v: string)
      modifies this`motivators
      ensures motivators == v
    {
      motivators := v;
    }

    /** The concerns input. */
    method SetConcerns(v: string)
      modifies this`concerns
      ensures concerns == v
    {
      concerns := v;
    }

    /** The questions input. */
    method SetQuestions(v: string)
      modifies this`questionsFromPatient
      ensures questionsFromPatient == v
    {
      questionsFromPatient := v;
    }

    /** The extra-information input of the regeneration options. */
    method SetExtraInfo(v: string)
      modifies this`extraInfo
      ensures extraInfo == v
    {
      extraInfo := v;
    }

    /** The tone select of the regeneration options. */
    method SetRegenTone(v: string)
      modifies this`regenTone
      ensures regenTone == v
    {
      regenTone := v;
    }

    /** The length select of the regeneration options. */
    method SetRegenLength(v: string)
      modifies this`regenLength
      ensures regenLength == v
    {
      regenLength := v;
    }
  }
}
