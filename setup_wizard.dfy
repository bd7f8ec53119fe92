/** The setup wizard (`SetupWizard`): six numbered steps, the list of steps
    marked complete, the current step, the Previous button, and the
    connection test that completes the last step and schedules the
    wizard's completion. */
module Setup {
  import opened Platform
  import IndexPage

  datatype WizardStep = WizardStep(id: int, title: string)

  /** The `steps` table. */
  const Steps: seq<WizardStep> := [
    WizardStep(1, "Install Python 3.10+"),
    WizardStep(2, "Install FFmpeg"),
    WizardStep(3, "Download Backend Files"),
    WizardStep(4, "Install Dependencies"),
    WizardStep(5, "Start the Server"),
    WizardStep(6, "Connect")
  ]

  /** The step ids are 1 to 6, in order. */
  lemma StepIds()
    ensures |Steps| == 6
    ensures forall i :: 0 <= i < |Steps| ==> Steps[i].id == i + 1
  {
  }

  predicate NoDuplicates(s: seq<int>)
  {
    forall i, j :: 0 <= i < j < |s| ==> s[i] != s[j]
  }

  predicate IsStepId(id: int) { 1 <= id <= |Steps| }

  /** `markComplete`'s list update: append the id unless it is already
      there. It keeps the earlier entries in order, adds exactly the id, and
      keeps the list free of duplicates. */
  function WithCompleted(done: seq<int>, id: int): (r: seq<int>)
    ensures done <= r
    ensures forall x :: x in r <==> x in done || x == id
    ensures NoDuplicates(done) ==> NoDuplicates(r)
  {
    if id in done then done else done + [id]
  }

  /** Marking the same id again changes nothing. */
  lemma MarkTwice(done: seq<int>, id: int)
    ensures WithCompleted(WithCompleted(done, id), id) == WithCompleted(done, id)
  {
  }

  /** The list after marking ids in the given order. */
  function CompleteAll(done: seq<int>, ids: seq<int>): seq<int>
    decreases |ids|
  {
    if ids == [] then done else CompleteAll(WithCompleted(done, ids[0]), ids[1..])
  }

  /** Any run of marks leaves a duplicate-free list holding exactly the
      earlier entries and the marked ids, never longer than the two lists. */
  lemma {:induction false} CompleteAllProps(done: seq<int>, ids: seq<int>)
    requires NoDuplicates(done)
    ensures NoDuplicates(CompleteAll(done, ids))
    ensures forall x :: x in CompleteAll(done, ids) <==> x in done || x in ids
    ensures |CompleteAll(done, ids)| <= |done| + |ids|
    decreases |ids|
  {
    if ids != [] {
      var next := WithCompleted(done, ids[0]);
      CompleteAllProps(next, ids[1..]);
      assert forall x :: x in ids <==> x == ids[0] || x in ids[1..];
    }
  }

  /** Where `markComplete(id)` moves the current step: to the next id,
      except from the last step, which stays put. From a step of the table
      it stays in the table, and a move goes one past the marked id. */
  function NextStep(current: int, id: int): (next: int)
    ensures IsStepId(current) && IsStepId(id) ==> IsStepId(next)
    ensures next != current ==> next == id + 1 && id < |Steps|
  {
    if id < |Steps| then id + 1 else current
  }

  class SetupWizard {
    var currentStep: int
    var completedSteps: seq<int>
    var isConnecting: bool
    /** `setTimeout(onComplete, 1000)` was issued and has not fired. */
    var completionScheduled: bool
    const apiUrl: string
    /** Every URL probed, in order. */
    ghost var probes: seq<string>
    const page: IndexPage.Index

    ghost predicate Valid()
      reads this
    {
      IsStepId(currentStep) && NoDuplicates(completedSteps) &&
      forall i :: 0 <= i < |completedSteps| ==> IsStepId(completedSteps[i])
    }

    constructor (apiUrl: string, page: IndexPage.Index)
      ensures Valid() && this.apiUrl == apiUrl && this.page == page
      ensures currentStep == 1 && completedSteps == [] && !isConnecting
      ensures !completionScheduled && probes == []
    {
      this.apiUrl := apiUrl;
      this.page := page;
      currentStep := 1;
      completedSteps := [];
      isConnecting := false;
      completionScheduled := false;
      probes := [];
    }

    /** `markComplete(stepId)`, called with a step id. */
    method MarkComplete(id: int)
      requires Valid() && IsStepId(id)
      modifies this`completedSteps, this`currentStep
      ensures Valid()
      ensures completedSteps == WithCompleted(old(completedSteps), id)
      ensures currentStep == NextStep(old(currentStep), id)
    {
      if !(id in completedSteps) {
        completedSteps := completedSteps + [id];
      }
      if id < |Steps| {
        currentStep := id + 1;
      }
    }

    /** "Mark Complete & Next", shown only before the last step. */
    method MarkCurrentComplete()
      requires Valid() && currentStep < |Steps|
      modifies this`completedSteps, this`currentStep
      ensures Valid()
      ensures completedSteps == WithCompleted(old(completedSteps), old(currentStep))
      ensures currentStep == old(currentStep) + 1
    {
      MarkComplete(currentStep);
    }

    /** Previous is disabled on the first step. */
    function PreviousDisabled(): bool
      reads this
    {
      currentStep == 1
    }

    /** Previous: one step back, never below the first. */
    method Previous()
      requires Valid()
      modifies this`currentStep
      ensures Valid()
      ensures currentStep == if old(currentStep) > 1 then old(currentStep) - 1 else 1
      ensures old(PreviousDisabled()) ==> currentStep == old(currentStep)
    {
      currentStep := if currentStep - 1 > 1 then currentStep - 1 else 1;
    }

    /** `testConnection`: probe `apiUrl/health`; on an ok reply complete
        step 6 and schedule the completion callback; on anything else
        complete nothing. `isConnecting` ends false either way. */
    method TestConnection(reply: Reply)
      requires Valid()
      modifies this`completedSteps, this`currentStep, this`isConnecting, this`completionScheduled, this`probes
      ensures Valid() && !isConnecting
      ensures probes == old(probes) + [apiUrl + "/health"]
      ensures reply == Ok ==>
        completedSteps == WithCompleted(old(completedSteps), |Steps|) &&
        currentStep == old(currentStep) && completionScheduled
      ensures reply != Ok ==>
        completedSteps == old(completedSteps) && currentStep == old(currentStep) &&
        completionScheduled == old(completionScheduled)
    {
      isConnecting := true;
      probes := probes + [apiUrl + "/health"];
      if reply == Ok {
        MarkComplete(|Steps|);
        completionScheduled := true;
      }
      isConnecting := false;
    }

    /** The scheduled completion fires and runs the page's `onComplete`. */
    method CompletionFires()
      requires completionScheduled
      modifies this`completionScheduled, page`showSetupWizard, page`isConnected
      ensures !completionScheduled && page.isConnected && !page.showSetupWizard
    {
      completionScheduled := false;
      page.WizardComplete();
    }
  }
}
