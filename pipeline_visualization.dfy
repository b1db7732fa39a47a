/** frontend/src/components/PipelineVisualization.tsx: the three-step
    indicator the chat panel shows while a query is in flight. */
module PipelineVisualization {
  import opened Wrappers
  import Chat

  datatype Step = Step(id: int, name: string)

  /** `steps` */
  const Steps := [Step(1, "Routing"), Step(2, "Retrieving"), Step(3, "Synthesizing")]

  /** Purple and enlarged, green, or dimmed grey. */
  datatype Status = Active | Completed | Pending

  /** One rendered step: its label, its status, and, for every step but the
      last, whether the connector line after it is filled. */
  datatype StepView = StepView(id: int, name: string, status: Status, connectorFilled: Option<bool>)

  function StatusOf(id: int, currentStep: int): Status {
    if id == currentStep then Active
    else if id < currentStep then Completed
    else Pending
  }

  function ViewOf(index: nat, currentStep: int): StepView
    requires index < |Steps|
  {
    var step := Steps[index];
    var status := StatusOf(step.id, currentStep);
    StepView(step.id, step.name, status,
             if index < |Steps| - 1 then Some(status != Pending) else None)
  }

  /** `PipelineVisualization({ currentStep })`: nothing at step 0; otherwise
      the three steps in order, the one equal to `currentStep` active, those
      below it completed, those above it pending, and a filled connector
      after every step that is not pending. */
  function Render(currentStep: int): (v: Option<seq<StepView>>)
    ensures v.None? <==> currentStep == 0
    ensures v.Some? ==> |v.value| == |Steps| == 3
    ensures v.Some? ==> forall i :: 0 <= i < 3 ==>
      v.value[i].id == i + 1 && v.value[i].name == Steps[i].name
      && (v.value[i].status == Active <==> i + 1 == currentStep)
      && (v.value[i].status == Completed <==> i + 1 < currentStep)
      && (v.value[i].connectorFilled.Some? <==> i < 2)
      && (i < 2 ==> (v.value[i].connectorFilled.value <==> i + 1 <= currentStep))
  {
    if currentStep == 0 then None
    else Some(seq(|Steps|, i requires 0 <= i < |Steps| => ViewOf(i, currentStep)))
  }

  function CountStatus(views: seq<StepView>, status: Status): nat {
    if views == [] then 0
    else CountStatus(views[..|views| - 1], status) + (if views[|views| - 1].status == status then 1 else 0)
  }

  /** While a query is in flight (steps 1 to 3) exactly one step is active
      and the steps before it are all completed; a step number past the end
      (or below 1) shows no active step at all. */
  lemma ActiveStepCounts(currentStep: int)
    requires currentStep != 0
    ensures 1 <= currentStep <= 3 ==> CountStatus(Render(currentStep).value, Active) == 1
    ensures 1 <= currentStep <= 3 ==> CountStatus(Render(currentStep).value, Completed) == currentStep - 1
    ensures !(1 <= currentStep <= 3) ==> CountStatus(Render(currentStep).value, Active) == 0
  {
    var v := Render(currentStep).value;
    CountOfThree(v, Active);
    CountOfThree(v, Completed);
  }

  function Indicator(b: bool): nat {
    if b then 1 else 0
  }

  lemma CountOfThree(v: seq<StepView>, status: Status)
    requires |v| == 3
    ensures CountStatus(v, status) == Indicator(v[0].status == status) + Indicator(v[1].status == status) + Indicator(v[2].status == status)
  {
    assert v[..|v| - 1] == v[..2];
    assert v[..2][..|v[..2]| - 1] == v[..1];
    assert v[..1][..|v[..1]| - 1] == [];
    assert CountStatus(v[..1], status) == Indicator(v[0].status == status);
    assert CountStatus(v[..2], status) == Indicator(v[0].status == status) + Indicator(v[1].status == status);
  }

  /** The indicator as the chat panel drives it: the steps 1, 2 and 3 that a
      submit sets show Routing, Retrieving and Synthesizing active in turn,
      and the final 0 hides it. */
  lemma SubmitDrivesIndicator()
    ensures forall k :: 0 <= k < 3 ==>
              Render(Chat.PipelineSteps[k]).Some?
              && Render(Chat.PipelineSteps[k]).value[k].status == Active
              && Render(Chat.PipelineSteps[k]).value[k].name == Steps[k].name
    ensures Render(Chat.PipelineSteps[3]).None?
  {
  }
}
