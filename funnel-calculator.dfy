/** The funnel calculator's state and its engine operations. Editing,
    deleting, switching and the lead effect build a new step sequence from a
    copy of the current one, run the recalculation sweep over the part that
    may have changed and commit the result, as the component does with
    `setSteps`; adding a step appends without a sweep and reset assigns the
    template. */
module FunnelCalculator {
  import opened FunnelSteps
  import Decimal

  /** One edit of a step, as the two inputs of a step's edit form issue it:
      either a new conversion rate or a new name. */
  datatype Edit = SetRate(rate: real) | SetName(name: string)

  /** What an edit did; every value but Updated is a rejection that the
      component reports with a toast. */
  datatype UpdateOutcome = Updated | RateBelowZero | RateAboveHundred | NameTooLong

  /** How a new lead count was taken: as given, or clamped with a warning. */
  datatype LeadsOutcome = LeadsAccepted | LeadsNegative | LeadsTooLarge

  function Applied(edit: Edit, c: StepConfig): StepConfig {
    match edit
    case SetRate(rate) => c.(conversionRate := rate)
    case SetName(name) => c.(name := name)
  }

  /** The name `addStep` gives the step that becomes the n-th. */
  function StepName(n: nat): string {
    "Step " + Decimal.NatToString(n)
  }

  /** The lead count the component stores for an input: the input clamped to
      [0, MAX_LEADS]. */
  function ClampLeads(value: real): (r: real)
    ensures 0.0 <= r <= MAX_LEADS
    ensures 0.0 <= value <= MAX_LEADS ==> r == value
    ensures value < 0.0 ==> r == 0.0
    ensures value > MAX_LEADS ==> r == MAX_LEADS
  {
    if value < 0.0 then 0.0 else if value > MAX_LEADS then MAX_LEADS else value
  }

  class Funnel {
    var initialLeads: real
    var steps: seq<Step>

    ghost predicate Valid()
      reads this
    {
      Consistent(steps, initialLeads)
    }

    /** The calculator as it first renders: the template with 1000 leads. */
    constructor ()
      ensures Valid()
      ensures initialLeads == INITIAL_LEADS && steps == TEMPLATE
    {
      initialLeads := INITIAL_LEADS;
      steps := TEMPLATE;
      TemplateConsistent();
    }

    /** `updateStep`: a rate outside [0, 100] or a name longer than 50
        characters is rejected before anything is written. Otherwise the step
        at `index` takes the edit and the sweep runs from `index`. */
    method UpdateStep(index: nat, edit: Edit) returns (outcome: UpdateOutcome)
      requires Valid() && index < |steps|
      modifies this
      ensures Valid() && initialLeads == old(initialLeads)
      ensures outcome == RateBelowZero <==> edit.SetRate? && edit.rate < 0.0
      ensures outcome == RateAboveHundred <==> edit.SetRate? && edit.rate > 100.0
      ensures outcome == NameTooLong <==> edit.SetName? && |edit.name| > MAX_NAME_LENGTH
      ensures outcome != Updated ==> steps == old(steps)
      ensures outcome == Updated ==>
        |steps| == |old(steps)| &&
        Configs(steps) == Configs(old(steps))[index := Applied(edit, old(steps)[index].Config())] &&
        steps[..index] == old(steps)[..index] &&
        (index == 0 ==> steps[0].value == initialLeads) &&
        ChainFrom(steps, initialLeads, index)
      ensures outcome == Updated && edit.SetName? ==>
        steps == old(steps)[index := old(steps)[index].(name := edit.name)]
    {
      var newSteps := steps;
      match edit {
        case SetRate(rate) =>
          if rate < 0.0 {
            return RateBelowZero;
          } else if rate > 100.0 {
            return RateAboveHundred;
          }
          newSteps := newSteps[index := newSteps[index].(conversionRate := rate)];
        case SetName(name) =>
          if |name| > MAX_NAME_LENGTH {
            return NameTooLong;
          }
          newSteps := newSteps[index := newSteps[index].(name := name)];
      }
      assert edit.SetName? ==> ChainFrom(newSteps, initialLeads, index);
      newSteps := Recalculate(newSteps, initialLeads, index);
      ChainFromPrefix(steps, newSteps, initialLeads, index);
      assert steps[..index] == newSteps[..index];
      steps := newSteps;
      outcome := Updated;
    }

    /** `deleteStep` for a stage other than the first: the step at `index`
        is removed and the sweep runs from `index`, whose new occupant now
        follows the stage at `index - 1`. */
    method DeleteStep(index: nat)
      requires Valid() && 1 <= index < |steps|
      modifies this
      ensures Valid() && initialLeads == old(initialLeads)
      ensures |steps| == |old(steps)| - 1
      ensures Configs(steps) == Configs(Without(old(steps), index))
      ensures steps[..index] == old(steps)[..index]
    {
      var newSteps := Without(steps, index);
      newSteps := Recalculate(newSteps, initialLeads, index);
      ChainFromPrefix(steps, newSteps, initialLeads, index);
      assert steps[..index] == newSteps[..index];
      steps := newSteps;
    }

    /** `addStep` below the 20-step limit: appends "Step n+1" with rate 100
        and the value of the current last step, which keeps the chain. */
    method AddStep()
      requires Valid() && |steps| < MAX_STEPS
      modifies this
      ensures Valid() && initialLeads == old(initialLeads)
      ensures steps == old(steps) +
        [Step(StepName(|old(steps)| + 1), 100.0, old(steps)[|old(steps)| - 1].value, true)]
    {
      var newSteps := steps;
      newSteps := newSteps + [Step(StepName(|newSteps| + 1), 100.0, newSteps[|newSteps| - 1].value, true)];
      steps := newSteps;
    }

    /** `switchStep` for a stage other than the first: nothing happens when
        the step would move onto stage 0 or below the last stage; otherwise
        it trades places with its neighbour and the sweep runs from index 1. */
    method SwitchStep(index: nat, up: bool) returns (moved: bool)
      requires Valid() && 1 <= index < |steps|
      modifies this
      ensures Valid() && initialLeads == old(initialLeads)
      ensures moved <==> !((index <= 1 && up) || (index == |old(steps)| - 1 && !up))
      ensures !moved ==> steps == old(steps)
      ensures moved ==>
        Configs(steps) == Configs(Swapped(old(steps), index, if up then index - 1 else index + 1)) &&
        steps[0] == old(steps)[0]
    {
      if index <= 1 && up {
        return false;
      }
      if index == |steps| - 1 && !up {
        return false;
      }
      var other := if up then index - 1 else index + 1;
      var newSteps := steps;
      var temp := newSteps[index];
      newSteps := newSteps[index := newSteps[other]];
      newSteps := newSteps[other := temp];
      assert newSteps == Swapped(steps, index, other);
      newSteps := Recalculate(newSteps, initialLeads, 1);
      ChainFromPrefix(steps, newSteps, initialLeads, 1);
      steps := newSteps;
      moved := true;
    }

    /** `resetSteps`: from any state, the template and the default lead count
        come back. */
    method ResetSteps()
      modifies this
      ensures Valid()
      ensures steps == TEMPLATE && initialLeads == INITIAL_LEADS
    {
      steps := TEMPLATE;
      initialLeads := INITIAL_LEADS;
      TemplateConsistent();
    }

    /** `updateInitialLeads` followed by the recalculation it triggers: the
        lead count is clamped to [0, 999999], stage 0 takes it and the sweep
        runs from index 1. */
    method UpdateInitialLeads(value: real) returns (outcome: LeadsOutcome)
      requires Valid()
      modifies this
      ensures Valid()
      ensures outcome == LeadsNegative <==> value < 0.0
      ensures outcome == LeadsTooLarge <==> value > MAX_LEADS
      ensures initialLeads == ClampLeads(value)
      ensures Configs(steps) == Configs(old(steps))
    {
      if value < 0.0 {
        initialLeads := 0.0;
        outcome := LeadsNegative;
      } else if value > MAX_LEADS {
        initialLeads := MAX_LEADS;
        outcome := LeadsTooLarge;
      } else {
        initialLeads := value;
        outcome := LeadsAccepted;
      }
      ghost var before := steps;
      OnInitialLeadsChanged();
      SameConfigs(steps, before);
    }

    /** The effect that runs when the lead count changes: stage 0 takes the
        lead count and every later stage is recomputed from its predecessor. */
    method OnInitialLeadsChanged()
      requires 1 <= |steps|
      modifies this
      ensures initialLeads == old(initialLeads)
      ensures Configs(steps) == Configs(old(steps))
      ensures Chain(steps, initialLeads)
      ensures old(Chain(steps, initialLeads)) ==> steps == old(steps)
    {
      var newSteps := steps;
      newSteps := newSteps[0 := newSteps[0].(value := initialLeads)];
      newSteps := Recalculate(newSteps, initialLeads, 1);
      steps := newSteps;
    }
  }
}
