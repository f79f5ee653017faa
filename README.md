# Sales funnel calculator — verified model of the funnel engine

The calculator keeps an initial lead count and an ordered list of at most 20
funnel steps. Each step has a name, a conversion rate (a percentage of the
previous step) and a derived value. Stage 0 holds the initial leads. Every
later stage holds `conversionRate / 100` times the value of the stage before
it. This is the "chain". The engine functions edit a step's rate or name,
delete a step, append a step, swap a step with a neighbour, reset to the
default template and change the lead count. Editing, deleting, switching and
changing the lead count rebuild the chain with a forward sweep; adding a step
and resetting do not need one.

The model has three modules.

- `Decimal` (`decimal.dfy`): the decimal numeral that goes into the name
  `"Step N"` of an added step, with a reader that proves the numeral is right.
- `FunnelSteps` (`funnel-steps.dfy`): the `Step` record, the six-step template,
  the chain predicates, and a reference definition `CascadeValue` that computes
  every value from the leads and the rates alone. It also holds the sweep
  `Recalculate`, written as a loop over a sequence. The four sweep loops of the
  component are this one method. Its `i == 0` branch is only reached when the
  sweep starts at 0, which only `updateStep` does.
- `FunnelCalculator` (`funnel-calculator.dfy`): the class `Funnel` with fields
  `initialLeads: real` and `steps: seq<Step>`. It has one method per engine
  function. `UpdateStep`, `DeleteStep`, `SwitchStep` and
  `OnInitialLeadsChanged` copy `steps`, edit the copy, run the sweep and assign
  the result, as the component does before `setSteps`. `AddStep` appends
  without a sweep and `ResetSteps` assigns the template, as `addStep` and
  `resetSteps` do. `UpdateInitialLeads` clamps the lead count and then runs
  `OnInitialLeadsChanged`. The invariant `Valid()` is
  `Consistent(steps, initialLeads)`:
  - there are 1 to 20 steps;
  - the leads lie in [0, 999999];
  - every rate lies in [0, 100];
  - only stage 0 is locked;
  - the chain holds.

`funnel-scenarios.dfy` holds client methods. They derive the worked examples
from the contracts alone: the 20% to 50% edit that gives 350 and 70, the
delete of stage 1, a seventh step, a refused move and a negative lead count.

Values, rates and leads are `real`: the arithmetic is exact, not floating
point. The default template is exactly chain-consistent: 1000, 700, 140, 28,
19.6, 5.88.

Some guards live only in the UI, so they are preconditions here:

- `DeleteStep` and `SwitchStep` require `1 <= index`. Stage 0 is not editable,
  so the UI hides its controls.
- `AddStep` requires fewer than 20 steps. The "Add step" button is only shown
  below 20.

The component's own data and UI show what is meant: the template's stage 0
has rate 100 and `isEditable: false` (src/components/funnel-calculator.tsx:34),
the move, edit and delete controls are hidden for a step with
`isEditable: false` (src/components/funnel-calculator.tsx:306), and "Add step"
is shown only below 20 steps (src/components/funnel-calculator.tsx:179). The
engine functions themselves do less, and the model follows them:

- Name edits also run the sweep in the code. `UpdateStep` proves that this
  sweep changes no value.
- The code has no capacity check in `addStep` and no index-0 check in
  `deleteStep`. Only the UI guards stand in for them.
- `updateStep` accepts index 0, and a rate edit there changes stage 0's rate.
  Nothing in the engine keeps stage 0's rate at 100. Stage 0's value is still
  the leads.

## Model

| member | source | states |
|---|---|---|
| `FunnelSteps.TemplateConsistent` | src/components/funnel-calculator.tsx:32-40 | the six-step template with 1000 leads satisfies the chain, has rates in [0,100] and only stage 0 locked |
| `FunnelSteps.Recalculate` | src/components/funnel-calculator.tsx:70-76 | the sweep from `from` on keeps the length, every name, rate and lock flag, and every step before `from`; afterwards the chain holds from `from` to the end; on a funnel already chained from `from` it returns the input unchanged (idempotence) |
| `FunnelSteps.ChainIffCascade` | src/components/funnel-calculator.tsx:139-141 | the chain holds if and only if every value equals the reference value computed from the leads and rates 1..i alone |
| `FunnelSteps.ChainUnique` | src/components/funnel-calculator.tsx:135-145 | two funnels with equal configurations whose chains hold for the same leads are equal, so a recalculation's result is a function of leads and rates |
| `FunnelSteps.ChainBounds` | src/components/funnel-calculator.tsx:74 | with leads >= 0 and rates in [0,100], every value lies in [0, leads] and values never increase along the funnel |
| `Decimal.NatToString` | src/components/funnel-calculator.tsx:95 | the numeral in an added step's name is non-empty, all digits, with a leading zero only for 0 |
| `Decimal.StringToNatInverse` | src/components/funnel-calculator.tsx:95 | reading the numeral back gives the step count it was made from |
| `FunnelCalculator.ClampLeads` | src/components/funnel-calculator.tsx:123-133 | the stored lead count lies in [0, 999999], equals the input when the input is in range, is 0 below and 999999 above |
| `FunnelCalculator.Funnel.constructor` | src/components/funnel-calculator.tsx:43-45 | the calculator starts with the template and 1000 leads, which is a consistent state |
| `FunnelCalculator.Funnel.UpdateStep` | src/components/funnel-calculator.tsx:48-79 | rate < 0, rate > 100 and name longer than 50 are each reported and leave steps unchanged. A successful edit changes exactly the edited field of step `index`, keeps all steps before `index`, chains from `index` on (value[0] = leads when index is 0) and keeps the invariant. A name edit changes nothing but that name |
| `FunnelCalculator.Funnel.DeleteStep` | src/components/funnel-calculator.tsx:81-90 | for 1 <= index < n: the length drops by one, the configurations are the old ones with position `index` removed, the prefix before `index` is unchanged and the invariant (chain included) holds again |
| `FunnelCalculator.Funnel.AddStep` | src/components/funnel-calculator.tsx:92-100 | below 20 steps: the old steps followed by `"Step " + (n+1)` with rate 100, the old last value and editable; the chain still holds |
| `FunnelCalculator.Funnel.SwitchStep` | src/components/funnel-calculator.tsx:102-116 | a no-op exactly when moving up from index <= 1 or down from the last index; otherwise the configurations at `index` and its neighbour are swapped, stage 0 is unchanged and the chain holds again |
| `FunnelCalculator.Funnel.ResetSteps` | src/components/funnel-calculator.tsx:118-121 | from any state, the template and 1000 leads come back, which is consistent |
| `FunnelCalculator.Funnel.UpdateInitialLeads` | src/components/funnel-calculator.tsx:123-133 | the stored leads are the clamped input, each clamp is reported, configurations are unchanged and the following recalculation leaves the whole chain, stage 0 included, consistent with the new leads |
| `FunnelCalculator.Funnel.OnInitialLeadsChanged` | src/components/funnel-calculator.tsx:135-145 | the lead effect sets value[0] to the leads and rebuilds the chain for i >= 1 without touching configurations; on an already chained funnel it changes nothing |

## Left out

- Shared step objects: the component copies only the array (`[...steps]`), so its edits also change the step objects of the previous state and of the template `STEPS`. The model uses value semantics instead, and "every operation preserves the chain" holds for this model, not for the component. In the component, `deleteStep(1)` on the template rewrites the shared template objects "Replied", "Meetings booked", "Meetings held" and "Closed/won" to 200, 40, 28 and 8.4, while "Qualified leads" keeps 700. A later `resetSteps` brings back `STEPS` with those values; the leads are already 1000, so the lead effect does not run, and "Replied" shows 200 where 20% of 700 is 140. The model does not capture this broken chain.
- Funnel.UpdateStep: takes one `Edit`, either a rate or a name, as both call sites pass exactly one. So the source's combined rate+name call is not modelled. If that call's name check fails, the source keeps the rate it already wrote through the shared object; the model cannot show this.
- Funnel.UpdateInitialLeads: React runs the lead effect only when the stored value actually changes. The model always runs it, synchronously. `OnInitialLeadsChanged` proves this changes nothing on a chained funnel, so the two agree.
- Toasts are returned as `UpdateOutcome` / `LeadsOutcome` values. Their text and display are not modelled.
- Persistence (the `localStorage` load and save, `JSON.parse`) is I/O on untrusted data and is not modelled. Restored data need not satisfy the invariant.
- Rendering, icons, rainbow colours (`Math.random`), `calculateFunnelWidth`, the per-row editing flag and `toFixed(0)` display rounding are presentation only.
- Floating point and the `NaN` that `Number(...)` can yield are not modelled; numbers are exact reals.
- Name length is counted in Unicode scalar values. JavaScript counts UTF-16 code units, so names with characters outside the Basic Multilingual Plane can differ.
- An omitted `isEditable` is modelled as `true`, which is how the UI's `isEditable !== false` test reads it.
- `src/app/layout.tsx`, `src/app/page.tsx` and `next.config.ts` are page chrome and build configuration and are not part of this model.
