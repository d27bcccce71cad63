/** The processing screen's five-step progress display. */
module Pipeline {
  import opened Types

  /** The order of all stages, as the display ranks them. */
  const StageOrder: seq<PipelineStage> :=
    [Idle, YoloDetection, Cropping, TrocrRecognition, LlmStructuring, DbFilling, Complete]

  /** The steps the display shows, in display order. */
  const DisplayedSteps: seq<PipelineStage> :=
    [YoloDetection, Cropping, TrocrRecognition, LlmStructuring, DbFilling]

  /** Linear search from position `from`, as `Array.indexOf` does. */
  function FindFrom(s: seq<PipelineStage>, x: PipelineStage, from: nat): (i: int)
    requires from <= |s|
    ensures i == -1 || (from <= i < |s| && s[i] == x)
    ensures i == -1 <==> forall j :: from <= j < |s| ==> s[j] != x
    ensures i != -1 ==> forall j :: from <= j < i ==> s[j] != x
    decreases |s| - from
  {
    if from == |s| then -1
    else if s[from] == x then from
    else FindFrom(s, x, from + 1)
  }

  /** The order lists every stage. */
  lemma EveryStageListed(stage: PipelineStage)
    ensures stage in StageOrder
  {
    match stage
    case Idle =>
    case YoloDetection =>
    case Cropping =>
    case TrocrRecognition =>
    case LlmStructuring =>
    case DbFilling =>
    case Complete =>
  }

  /** `stageOrder.indexOf(stage)`: every stage is listed, so the search never fails. */
  function IndexOf(stage: PipelineStage): (i: nat)
    ensures i < |StageOrder| && StageOrder[i] == stage
  {
    EveryStageListed(stage);
    FindFrom(StageOrder, stage, 0)
  }

  /** The order is strict: the stages are listed once each, so positions identify stages. */
  lemma IndexOfPosition(k: nat)
    requires k < |StageOrder|
    ensures IndexOf(StageOrder[k]) == k
  {
  }

  lemma IndexOfInjective(a: PipelineStage, b: PipelineStage)
    requires IndexOf(a) == IndexOf(b)
    ensures a == b
  {
  }

  datatype StepStatus = Pending | Active | Completed

  /** getStepStatus: completed before the current stage, active at it, pending after it. */
  function StatusOf(current: PipelineStage, step: PipelineStage): (s: StepStatus)
    ensures s == Completed <==> IndexOf(current) > IndexOf(step)
    ensures s == Active <==> current == step
    ensures s == Pending <==> IndexOf(current) < IndexOf(step)
  {
    var currentIndex := IndexOf(current);
    var stepIndex := IndexOf(step);
    if currentIndex > stepIndex then Completed
    else if currentIndex == stepIndex then Active
    else Pending
  }

  function Rank(s: StepStatus): nat {
    match s
    case Pending => 0
    case Active => 1
    case Completed => 2
  }

  /** At most one displayed step is active, whatever the current stage. */
  lemma AtMostOneActive(current: PipelineStage, i: nat, j: nat)
    requires i < |DisplayedSteps| && j < |DisplayedSteps|
    requires StatusOf(current, DisplayedSteps[i]) == Active && StatusOf(current, DisplayedSteps[j]) == Active
    ensures i == j
  {
  }

  /** Before processing every step is pending; once complete every step is completed. */
  lemma EndpointsOfDisplay()
    ensures forall i :: 0 <= i < |DisplayedSteps| ==> StatusOf(Idle, DisplayedSteps[i]) == Pending
    ensures forall i :: 0 <= i < |DisplayedSteps| ==> StatusOf(Complete, DisplayedSteps[i]) == Completed
  {
  }

  /** The k-th displayed step is the stage at position k + 1 of the order. */
  lemma DisplayedIndex(k: nat)
    requires k < |DisplayedSteps|
    ensures IndexOf(DisplayedSteps[k]) == k + 1
  {
    assert DisplayedSteps[k] == StageOrder[k + 1];
    IndexOfPosition(k + 1);
  }

  /** The completed steps form a prefix of the display. */
  lemma CompletedArePrefix(current: PipelineStage, i: nat, j: nat)
    requires i <= j < |DisplayedSteps|
    requires StatusOf(current, DisplayedSteps[j]) == Completed
    ensures StatusOf(current, DisplayedSteps[i]) == Completed
  {
    DisplayedIndex(i);
    DisplayedIndex(j);
  }

  /** As the current stage advances, a step only moves pending, then active, then completed. */
  lemma StatusIsMonotone(earlier: PipelineStage, later: PipelineStage, step: PipelineStage)
    requires IndexOf(earlier) <= IndexOf(later)
    ensures Rank(StatusOf(earlier, step)) <= Rank(StatusOf(later, step))
  {
  }
}
