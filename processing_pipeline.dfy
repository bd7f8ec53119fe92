/** The pipeline card (`ProcessingPipeline`): the six display rows, the
    status each row shows for the hook's step, processing flag and error,
    and the progress bar that ramps towards a target for the current step. */
module Pipeline {
  import opened Platform

  datatype StepStatus = Pending | Processing | Completed | Error

  /** One row of the table; `title` holds the row's `label`, a word Dafny
      reserves. */
  datatype StepInfo = StepInfo(id: string, title: string, detail: string)

  /** The `STEPS` table, in display order. */
  const Steps: seq<StepInfo> := [
    StepInfo("download", "Downloading Song", "Fetching audio from source"),
    StepInfo("convert", "Converting to WAV", "Preparing audio format"),
    StepInfo("separate", "Separating Vocals", "Using AI to isolate voice"),
    StepInfo("clone", "Cloning Voice", "Applying your voice signature"),
    StepInfo("merge", "Merging Audio", "Combining vocals with music"),
    StepInfo("export", "Exporting", "Creating final MP3")
  ]

  /** The table has six rows and no two share an id. */
  lemma StepsTable()
    ensures |Steps| == 6
    ensures forall i, j :: 0 <= i < j < |Steps| ==> Steps[i].id != Steps[j].id
  {
    assert Steps[1].id[1] != Steps[3].id[1];
  }

  /** The `error` prop is truthy: present and not the empty string. */
  predicate Truthy(error: Option<string>)
  {
    error.Some? && error.value != ""
  }

  /** `getStepStatus`: error first, then completed, then processing, else
      pending. Each status in terms of the inputs alone: the error row is
      the current one when an error is shown; every row before the current
      one is completed whatever the error; the processing row is the
      current one while processing without a shown error; the rest are
      pending. */
  function GetStepStatus(index: int, currentStep: int, isProcessing: bool, error: Option<string>): (st: StepStatus)
    ensures st == Error <==> Truthy(error) && index == currentStep
    ensures st == Completed <==> index < currentStep
    ensures st == Processing <==> index == currentStep && isProcessing && !Truthy(error)
    ensures st == Pending <==> index > currentStep || (index == currentStep && !isProcessing && !Truthy(error))
  {
    if Truthy(error) && index == currentStep then Error
    else if index < currentStep then Completed
    else if index == currentStep && isProcessing then Processing
    else Pending
  }

  /** At most one row shows an error and at most one shows processing. */
  lemma AtMostOneErrorAndProcessing(currentStep: int, isProcessing: bool, error: Option<string>, i: int, j: int)
    ensures (GetStepStatus(i, currentStep, isProcessing, error) == Error &&
             GetStepStatus(j, currentStep, isProcessing, error) == Error) ==> i == j
    ensures (GetStepStatus(i, currentStep, isProcessing, error) == Processing &&
             GetStepStatus(j, currentStep, isProcessing, error) == Processing) ==> i == j
  {
  }

  /** After a successful run the hook reports step 5, so the first five rows
      are completed and the last row, "export", stays pending. */
  lemma RowsAfterSuccess(index: int)
    requires 0 <= index < |Steps|
    ensures GetStepStatus(index, 5, false, None) == if index < 5 then Completed else Pending
  {
  }

  /** The bar's target while step k runs: (k + 1) / 6 of the way, less ten
      points. Over the five stages the hook runs it stays strictly between
      0 and 75 per cent. */
  function Target(currentStep: int): (t: real)
    ensures 0 <= currentStep < 5 ==> 0.0 < t < 75.0
  {
    (currentStep + 1) as real / |Steps| as real * 100.0 - 10.0
  }

  /** The targets rise with the step. */
  lemma TargetRange(k: int, k': int)
    ensures k < k' ==> Target(k) < Target(k')
  {
  }

  /** One interval tick of the functional update: it never lowers the bar,
      adds at most one, leaves the bar alone exactly when it has reached
      the target, and never carries it a whole point past the target. */
  function Tick(progress: real, target: real): (p: real)
    ensures progress <= p <= progress + 1.0
    ensures p == progress <==> progress >= target
    ensures progress < target ==> p < target + 1.0
  {
    if progress < target then progress + 1.0 else progress
  }

  /** The progress after n ticks towards one target: never lower, at most
      one more per tick, never a whole point past a target it started
      below, and unchanged from a start at or above the target. */
  function Ramp(progress: real, target: real, n: nat): (p: real)
    ensures progress <= p <= progress + n as real
    ensures progress < target ==> p < target + 1.0
    ensures progress >= target ==> p == progress
  {
    if n == 0 then progress else Tick(Ramp(progress, target, n - 1), target)
  }

  /** More ticks never give less progress. */
  lemma {:induction false} RampMonotone(progress: real, target: real, m: nat, n: nat)
    requires m <= n
    ensures Ramp(progress, target, m) <= Ramp(progress, target, n)
    decreases n
  {
    if m < n {
      RampMonotone(progress, target, m, n - 1);
    }
  }

  /** Every tick below the target adds one: starting at or below the target
      less n, n ticks add exactly n. */
  lemma {:induction false} RampExact(progress: real, target: real, n: nat)
    requires progress + n as real <= target
    ensures Ramp(progress, target, n) == progress + n as real
  {
    if n > 0 {
      RampExact(progress, target, n - 1);
    }
  }

  class PipelineView {
    var progress: real
    /** The target of the running interval, if one is running. */
    var interval: Option<real>

    constructor ()
      ensures progress == 0.0 && interval == None
    {
      progress := 0.0;
      interval := None;
    }

    /** The effect on `[isProcessing, currentStep]`: its cleanup stops the
        previous interval; while processing it starts one towards the
        step's target, otherwise at the last step it fills the bar. */
    method Effect(isProcessing: bool, currentStep: int)
      modifies this
      ensures interval == if isProcessing then Some(Target(currentStep)) else None
      ensures progress == if !isProcessing && currentStep == |Steps| - 1 then 100.0 else old(progress)
    {
      interval := None;
      if isProcessing {
        interval := Some(Target(currentStep));
      } else if currentStep == |Steps| - 1 {
        progress := 100.0;
      }
    }

    /** One firing of the running interval. */
    method IntervalTick()
      requires interval.Some?
      modifies this`progress
      ensures progress == Tick(old(progress), interval.value)
      ensures progress >= old(progress)
    {
      if progress < interval.value {
        progress := progress + 1.0;
      }
    }

    /** n firings of the running interval in a row. */
    method IntervalTicks(n: nat)
      requires interval.Some?
      modifies this`progress
      ensures progress == Ramp(old(progress), interval.value, n)
      ensures old(progress) <= progress <= old(progress) + n as real
    {
      var k := 0;
      while k < n
        invariant 0 <= k <= n
        invariant progress == Ramp(old(progress), interval.value, k)
      {
        IntervalTick();
        k := k + 1;
      }
    }
  }
}
