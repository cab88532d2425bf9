/** The six-step progress bar and the flags the current route gives each step. */
module ProgressStepper {

  datatype Icon = MapPin | Trash2 | Package | CheckSquare | Calendar | CreditCard

  datatype BaseStep = BaseStep(id: int, caption: string, icon: Icon)

  datatype Step = Step(id: int, caption: string, icon: Icon, completed: bool, current: bool)

  const PermitCheckRoute: string := "/permit-check"

  const BaseSteps: seq<BaseStep> := [
    BaseStep(1, "Postcode", MapPin),
    BaseStep(2, "Waste Type", Trash2),
    BaseStep(3, "Select Skip", Package),
    BaseStep(4, "Permit Check", CheckSquare),
    BaseStep(5, "Choose Date", Calendar),
    BaseStep(6, "Payment", CreditCard)
  ]

  /** The flags for one step: `{ ...step, completed, current }`. */
  function MarkStep(b: BaseStep, location: string): Step
  {
    if location == PermitCheckRoute then
      Step(b.id, b.caption, b.icon, b.id <= 3, b.id == 4)
    else
      Step(b.id, b.caption, b.icon, b.id <= 2, b.id == 3)
  }

  /** `baseSteps.map(...)`. */
  function MarkSteps(bs: seq<BaseStep>, location: string): (r: seq<Step>)
    ensures |r| == |bs|
    ensures forall i :: 0 <= i < |bs| ==>
      r[i].id == bs[i].id && r[i].caption == bs[i].caption && r[i].icon == bs[i].icon &&
      r[i] == MarkStep(bs[i], location)
  {
    if bs == [] then [] else [MarkStep(bs[0], location)] + MarkSteps(bs[1..], location)
  }

  /** `getSteps`: six steps, ids 1..6 in order, captions (the source's `label`) and icons as listed. */
  function GetSteps(location: string): (r: seq<Step>)
    ensures |r| == 6
    ensures forall i :: 0 <= i < 6 ==>
      r[i].id == i + 1 && r[i].caption == BaseSteps[i].caption && r[i].icon == BaseSteps[i].icon
  {
    MarkSteps(BaseSteps, location)
  }

  /** The id of the step the route is on. */
  function CurrentStepId(location: string): int
  {
    if location == PermitCheckRoute then 4 else 3
  }

  /** On the permit-check route steps 1..3 are done and 4 is current; elsewhere 1..2 and 3. */
  lemma StepFlags(location: string)
    ensures var r := GetSteps(location);
      forall i :: 0 <= i < 6 ==>
        && (location == PermitCheckRoute ==> (r[i].completed <==> r[i].id <= 3) && (r[i].current <==> r[i].id == 4))
        && (location != PermitCheckRoute ==> (r[i].completed <==> r[i].id <= 2) && (r[i].current <==> r[i].id == 3))
  {
  }

  /** Exactly one step is current, and no step is both completed and current. */
  lemma ExactlyOneCurrent(location: string)
    ensures var r := GetSteps(location);
      && (exists i :: 0 <= i < 6 && r[i].current)
      && (forall i, j :: 0 <= i < 6 && 0 <= j < 6 && r[i].current && r[j].current ==> i == j)
      && (forall i :: 0 <= i < 6 ==> !(r[i].completed && r[i].current))
  {
    var r := GetSteps(location);
    assert r[CurrentStepId(location) - 1].current;
  }

  /** The completed steps are exactly those before the current one. */
  lemma CompletedBeforeCurrent(location: string)
    ensures var r := GetSteps(location);
      forall i, j :: 0 <= i < 6 && 0 <= j < 6 && r[j].current ==> (r[i].completed <==> r[i].id < r[j].id)
  {
  }
}
