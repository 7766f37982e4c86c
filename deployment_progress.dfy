/**
 * The deployment progress screen: six simulated steps with estimated
 * durations, advanced one at a time by a timer, and the percentage bar
 * computed from the durations of the finished steps. The timer is a
 * field recording the pending callback; its firing is a method.
 */
module DeploymentProgress {
  import opened Common

  datatype StepStatus = Pending | InProgress | Completed | Failed

  /** A step of the screen; `duration` is its estimate in seconds. */
  datatype DeploymentStep = DeploymentStep(id: string, caption: string, status: StepStatus, duration: Option<nat>)

  /** `DEPLOYMENT_STEPS`, all pending. */
  const DeploymentSteps: seq<DeploymentStep> := [
    DeploymentStep("verify", "Verifying payment", Pending, Some(2)),
    DeploymentStep("subscription", "Creating subscription", Pending, Some(3)),
    DeploymentStep("provision", "Provisioning server", Pending, Some(15)),
    DeploymentStep("configure", "Configuring AI assistant", Pending, Some(10)),
    DeploymentStep("deploy", "Deploying to production", Pending, Some(8)),
    DeploymentStep("ready", "AI Employee ready!", Pending, Some(2))]

  /** `step.duration || 0`. */
  function DurationOf(step: DeploymentStep): nat {
    step.duration.GetOr(0)
  }

  /** The `reduce` summing the steps' durations. */
  function SumDurations(steps: seq<DeploymentStep>): (total: nat)
    ensures |steps| == 0 ==> total == 0
  {
    if |steps| == 0 then 0 else SumDurations(steps[..|steps| - 1]) + DurationOf(steps[|steps| - 1])
  }

  lemma SumPrefixStep(steps: seq<DeploymentStep>, k: nat)
    requires k < |steps|
    ensures SumDurations(steps[..k + 1]) == SumDurations(steps[..k]) + DurationOf(steps[k])
  {
    assert steps[..k + 1][..k] == steps[..k];
  }

  /** A longer prefix never sums to less. */
  lemma {:induction false} SumPrefixMonotone(steps: seq<DeploymentStep>, i: nat, j: nat)
    requires i <= j <= |steps|
    ensures SumDurations(steps[..i]) <= SumDurations(steps[..j])
    decreases j - i
  {
    if i < j {
      SumPrefixStep(steps, i);
      SumPrefixMonotone(steps, i + 1, j);
    }
  }

  /** Steps alike but for their statuses. */
  predicate SameShape(steps: seq<DeploymentStep>, reference: seq<DeploymentStep>) {
    |steps| == |reference|
    && forall i :: 0 <= i < |steps| ==>
      steps[i].id == reference[i].id && steps[i].caption == reference[i].caption && steps[i].duration == reference[i].duration
  }

  /** Statuses play no part in the sums. */
  lemma {:induction false} SumSameShape(steps: seq<DeploymentStep>, reference: seq<DeploymentStep>)
    requires SameShape(steps, reference)
    ensures SumDurations(steps) == SumDurations(reference)
    decreases |steps|
  {
    if |steps| > 0 {
      var n := |steps| - 1;
      assert SameShape(steps[..n], reference[..n]);
      SumSameShape(steps[..n], reference[..n]);
    }
  }

  /** `totalDuration`. */
  const TotalDuration := 40

  /** The completed durations after each number of finished steps. */
  lemma {:induction false} CompletedSums()
    ensures SumDurations(DeploymentSteps) == TotalDuration
    ensures SumDurations(DeploymentSteps[..0]) == 0
    ensures SumDurations(DeploymentSteps[..1]) == 2
    ensures SumDurations(DeploymentSteps[..2]) == 5
    ensures SumDurations(DeploymentSteps[..3]) == 20
    ensures SumDurations(DeploymentSteps[..4]) == 30
    ensures SumDurations(DeploymentSteps[..5]) == 38
    ensures SumDurations(DeploymentSteps[..6]) == 40
  {
    var d := DeploymentSteps;
    SumPrefixStep(d, 0);
    SumPrefixStep(d, 1);
    SumPrefixStep(d, 2);
    SumPrefixStep(d, 3);
    SumPrefixStep(d, 4);
    SumPrefixStep(d, 5);
    assert d[..6] == d;
  }

  /** The durations of the first `index` steps: `steps.slice(0, index)` clamps to the list. */
  function CompletedDuration(steps: seq<DeploymentStep>, index: nat): nat {
    SumDurations(steps[..if index < |steps| then index else |steps|])
  }

  /** `Math.min(100, Math.round(completed / total * 100))`, rounding halves up. */
  function Percent(completed: nat, total: nat): (p: nat)
    requires total > 0
    ensures p <= 100
    ensures p * 2 * total <= 200 * completed + total
    ensures p < 100 ==> 200 * completed + total < (p + 1) * 2 * total
  {
    var rounded := (200 * completed + total) / (2 * total);
    if rounded < 100 then rounded else 100
  }

  /** The bar's value for `index` finished steps of the shipped list. */
  function Progress(index: nat): (p: nat)
    ensures p <= 100
  {
    Percent(CompletedDuration(DeploymentSteps, index), TotalDuration)
  }

  /** The bar never moves back as steps finish. */
  lemma ProgressMonotone(i: nat, j: nat)
    requires i <= j
    ensures Progress(i) <= Progress(j)
  {
    var ci := if i < 6 then i else 6;
    var cj := if j < 6 then j else 6;
    SumPrefixMonotone(DeploymentSteps, ci, cj);
  }

  /** The bar shows 100 exactly when all six steps are done. */
  lemma ProgressFull(index: nat)
    ensures Progress(index) == 100 <==> index >= 6
  {
    CompletedSums();
    if index < 6 {
      SumPrefixMonotone(DeploymentSteps, index, 5);
    }
  }

  /** The values along the way: 0, 5, 13, 50, 75, 95, 100. */
  lemma ProgressValues()
    ensures Progress(0) == 0 && Progress(1) == 5 && Progress(2) == 13 && Progress(3) == 50
    ensures Progress(4) == 75 && Progress(5) == 95 && Progress(6) == 100
  {
    CompletedSums();
  }

  /** The steps with the one at `index` given `status`; `map` over the list with `idx === index`. */
  function MarkAt(steps: seq<DeploymentStep>, index: nat, status: StepStatus): (r: seq<DeploymentStep>)
    ensures SameShape(r, steps)
    ensures forall i :: 0 <= i < |steps| && i != index ==> r[i] == steps[i]
    ensures index < |steps| ==> r[index].status == status
  {
    seq(|steps|, i requires 0 <= i < |steps| => if i == index then steps[i].(status := status) else steps[i])
  }

  /** The pending `setTimeout` of the effect: the step it will finish and its delay. */
  datatype Timer = Timer(stepIndex: nat, delayMs: nat)

  /** `(currentStep.duration || 5) * 1000`. */
  function DelayMs(step: DeploymentStep): (ms: nat)
    ensures step.duration.Some? && step.duration.value != 0 ==> ms == step.duration.value * 1000
    ensures step.duration.None? || step.duration == Some(0) ==> ms == 5000
  {
    (if step.duration.Some? && step.duration.value != 0 then step.duration.value else 5) * 1000
  }

  /**
   * Steps before `index` completed, steps after it pending, and the step at
   * `index` pending or in progress.
   */
  ghost predicate Staged(steps: seq<DeploymentStep>, index: nat) {
    forall i :: 0 <= i < |steps| ==>
      (i < index ==> steps[i].status == Completed)
      && (i > index ==> steps[i].status == Pending)
      && (i == index ==> steps[i].status == Pending || steps[i].status == InProgress)
  }

  /** Completing the current step moves the stage on by one. */
  lemma CompleteStaged(steps: seq<DeploymentStep>, index: nat)
    requires Staged(steps, index) && index < |steps|
    ensures Staged(MarkAt(steps, index, Completed), index + 1)
  {
  }

  /** Starting the current step keeps the stage. */
  lemma StartStaged(steps: seq<DeploymentStep>, index: nat)
    requires Staged(steps, index) && index < |steps|
    ensures Staged(MarkAt(steps, index, InProgress), index)
  {
  }

  class Tracker {
    var steps: seq<DeploymentStep>
    var currentStepIndex: nat
    var error: Option<string>
    var timer: Option<Timer>
    var completionScheduled: bool

    /**
     * The shipped steps; those before the current one completed, those
     * after it pending; a pending timer belongs to the current step,
     * which is then in progress.
     */
    ghost predicate Valid()
      reads this
    {
      && SameShape(steps, DeploymentSteps)
      && currentStepIndex <= |steps|
      && Staged(steps, currentStepIndex)
      && (timer.Some? ==>
            timer.value.stepIndex == currentStepIndex < |steps| && steps[currentStepIndex].status == InProgress)
    }

    constructor()
      ensures Valid() && steps == DeploymentSteps && currentStepIndex == 0
      ensures error.None? && timer.None? && !completionScheduled
    {
      steps := DeploymentSteps;
      currentStepIndex := 0;
      error, timer := None, None;
      completionScheduled := false;
    }

    /** The bar's value for the current state. */
    function ProgressNow(): (p: nat)
      requires Valid()
      reads this
      ensures p == Progress(currentStepIndex)
    {
      SumSameShape(steps[..currentStepIndex], DeploymentSteps[..currentStepIndex]);
      Percent(CompletedDuration(steps, currentStepIndex), TotalDuration)
    }

    /**
     * The effect: past the last step it schedules `onComplete` and stops;
     * while an error is set only the previous run's cleanup happens, which
     * cancels a pending timer; otherwise it marks the
     * current step in progress and arms the timer that will finish it.
     */
    method RunEffect()
      requires Valid()
      modifies this
      ensures Valid() && currentStepIndex == old(currentStepIndex) && error == old(error)
      ensures old(currentStepIndex) >= |old(steps)| ==>
        completionScheduled && steps == old(steps) && timer == old(timer)
      ensures old(currentStepIndex) < |old(steps)| && error.Some? && error.value != "" ==>
        steps == old(steps) && timer.None? && completionScheduled == old(completionScheduled)
      ensures old(currentStepIndex) < |old(steps)| && !(error.Some? && error.value != "") ==>
        && steps == MarkAt(old(steps), currentStepIndex, InProgress)
        && timer == Some(Timer(currentStepIndex, DelayMs(old(steps)[currentStepIndex])))
        && completionScheduled == old(completionScheduled)
    {
      if currentStepIndex >= |steps| {
        completionScheduled := true;
        return;
      }
      if error.Some? && error.value != "" {
        timer := None;
        return;
      }
      var delay := DelayMs(steps[currentStepIndex]);
      StartStaged(steps, currentStepIndex);
      steps := MarkAt(steps, currentStepIndex, InProgress);
      timer := Some(Timer(currentStepIndex, delay));
    }

    /** The timer's callback: its step completes and the index moves on by one. */
    method TimerFired()
      requires Valid()
      modifies this
      ensures Valid() && error == old(error) && completionScheduled == old(completionScheduled)
      ensures old(timer).None? ==> steps == old(steps) && currentStepIndex == old(currentStepIndex) && timer.None?
      ensures old(timer).Some? ==>
        && steps == MarkAt(old(steps), old(timer).value.stepIndex, Completed)
        && currentStepIndex == old(currentStepIndex) + 1
        && timer.None?
      ensures ProgressNow() >= old(ProgressNow())
    {
      if timer.None? {
        return;
      }
      CompleteStaged(steps, currentStepIndex);
      ProgressMonotone(currentStepIndex, currentStepIndex + 1);
      steps := MarkAt(steps, timer.value.stepIndex, Completed);
      currentStepIndex := currentStepIndex + 1;
      timer := None;
    }
  }
}
