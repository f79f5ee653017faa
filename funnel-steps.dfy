/** The funnel's data: the step record, the default template, the cascade
    ("chain") that ties every step's value to the initial leads and the
    conversion rates, and the forward recalculation sweep that restores it. */
module FunnelSteps {

  const MAX_STEPS: nat := 20
  const MAX_NAME_LENGTH: nat := 50
  const INITIAL_LEADS: real := 1000.0
  const MAX_LEADS: real := 999999.0

  /** One stage of the funnel. `isEditable` is false only for the first stage
      of the template; a step that leaves the flag out counts as editable. */
  datatype Step = Step(name: string, conversionRate: real, value: real, isEditable: bool)
  {
    /** Everything the user chooses about a step, that is all but the derived value. */
    function Config(): StepConfig {
      StepConfig(name, conversionRate, isEditable)
    }
  }

  datatype StepConfig = StepConfig(name: string, conversionRate: real, isEditable: bool)

  function Configs(s: seq<Step>): seq<StepConfig> {
    seq(|s|, k requires 0 <= k < |s| => s[k].Config())
  }

  /** The six stages the calculator starts with and returns to on reset. */
  const TEMPLATE: seq<Step> := [
    Step("Initial leads", 100.0, INITIAL_LEADS, false),
    Step("Qualified leads", 70.0, 700.0, true),
    Step("Replied", 20.0, 140.0, true),
    Step("Meetings booked", 20.0, 28.0, true),
    Step("Meetings held", 70.0, 19.6, true),
    Step("Closed/won", 30.0, 5.88, true)
  ]

  /** The share `rate` percent of the previous stage's value. */
  function Converted(rate: real, previous: real): real {
    rate / 100.0 * previous
  }

  /** The cascade holds at every index in [from, to): index 0 carries the
      initial leads, every later index the converted value of its predecessor. */
  predicate ChainBetween(s: seq<Step>, leads: real, from: nat, to: nat) {
    (from == 0 < to && |s| > 0 ==> s[0].value == leads) &&
    forall i :: from <= i < to && 1 <= i < |s| ==>
      s[i].value == Converted(s[i].conversionRate, s[i - 1].value)
  }

  /** The cascade holds from index `from` to the end. */
  predicate ChainFrom(s: seq<Step>, leads: real, from: nat) {
    ChainBetween(s, leads, from, |s|)
  }

  /** The funnel invariant: a first stage exists and the cascade holds throughout. */
  predicate Chain(s: seq<Step>, leads: real) {
    |s| >= 1 && ChainFrom(s, leads, 0)
  }

  predicate RatesInRange(s: seq<Step>) {
    forall k :: 0 <= k < |s| ==> 0.0 <= s[k].conversionRate <= 100.0
  }

  /** Only the first stage is locked; it is also what the UI's index guards protect. */
  predicate OnlyFirstLocked(s: seq<Step>) {
    |s| >= 1 && !s[0].isEditable && forall k :: 1 <= k < |s| ==> s[k].isEditable
  }

  /** The state every engine operation starts from and returns to. */
  predicate Consistent(s: seq<Step>, leads: real) {
    1 <= |s| <= MAX_STEPS && 0.0 <= leads <= MAX_LEADS &&
    RatesInRange(s) && OnlyFirstLocked(s) && Chain(s, leads)
  }

  /** Reference definition: the value of stage `i`, computed from the initial
      leads and the rates of stages 1..i alone. */
  function CascadeValue(s: seq<Step>, leads: real, i: nat): real
    requires i < |s|
  {
    if i == 0 then leads else Converted(s[i].conversionRate, CascadeValue(s, leads, i - 1))
  }

  /** The chain holds exactly when every stored value is its reference value,
      so the values are a function of the leads and the rates. */
  lemma {:induction false} ChainIffCascade(s: seq<Step>, leads: real)
    requires |s| >= 1
    ensures Chain(s, leads) <==> forall i :: 0 <= i < |s| ==> s[i].value == CascadeValue(s, leads, i)
  {
    if Chain(s, leads) {
      forall i | 0 <= i < |s| ensures s[i].value == CascadeValue(s, leads, i) {
        ChainAt(s, leads, i);
      }
    }
  }

  lemma {:induction false} ChainAt(s: seq<Step>, leads: real, i: nat)
    requires Chain(s, leads) && i < |s|
    ensures s[i].value == CascadeValue(s, leads, i)
  {
    if i > 0 {
      ChainAt(s, leads, i - 1);
    }
  }

  /** Two funnels with the same configurations whose chains both hold for the
      same leads are the same funnel: the values are determined. */
  lemma {:induction false} ChainUnique(a: seq<Step>, b: seq<Step>, leads: real)
    requires Chain(a, leads) && Chain(b, leads) && Configs(a) == Configs(b)
    ensures a == b
  {
    assert |Configs(a)| == |a| && |Configs(b)| == |b|;
    forall k | 0 <= k < |a| ensures a[k].Config() == b[k].Config() {
      assert Configs(a)[k] == a[k].Config() && Configs(b)[k] == b[k].Config();
    }
    forall i | 0 <= i < |a| ensures a[i] == b[i] {
      ChainAt(a, leads, i);
      ChainAt(b, leads, i);
      CascadeSameRates(a, b, leads, i);
    }
  }

  lemma {:induction false} CascadeSameRates(a: seq<Step>, b: seq<Step>, leads: real, i: nat)
    requires i < |a| == |b|
    requires forall k :: 0 <= k < |a| ==> a[k].conversionRate == b[k].conversionRate
    ensures CascadeValue(a, leads, i) == CascadeValue(b, leads, i)
  {
    if i > 0 {
      CascadeSameRates(a, b, leads, i - 1);
    }
  }

  /** With non-negative leads and rates in [0, 100], every value lies in
      [0, leads] and no stage holds more than a stage before it. */
  lemma {:induction false} ChainBounds(s: seq<Step>, leads: real)
    requires Chain(s, leads) && RatesInRange(s) && leads >= 0.0
    ensures forall i :: 0 <= i < |s| ==> 0.0 <= s[i].value <= leads
    ensures forall i, j :: 0 <= i <= j < |s| ==> s[j].value <= s[i].value
  {
    forall j | 0 <= j < |s| ensures 0.0 <= s[j].value && forall i :: 0 <= i <= j ==> s[j].value <= s[i].value {
      ChainDecreasing(s, leads, j);
    }
  }

  lemma {:induction false} ChainDecreasing(s: seq<Step>, leads: real, j: nat)
    requires Chain(s, leads) && RatesInRange(s) && leads >= 0.0 && j < |s|
    ensures 0.0 <= s[j].value
    ensures forall i :: 0 <= i <= j ==> s[j].value <= s[i].value
  {
    if j > 0 {
      ChainDecreasing(s, leads, j - 1);
      var r, p := s[j].conversionRate / 100.0, s[j - 1].value;
      assert s[j].value == r * p;
      assert 0.0 <= r <= 1.0 && 0.0 <= p;
      assert r * p <= p by {
        assert p - r * p == (1.0 - r) * p;
      }
    }
  }

  /** The template is a consistent state for the default of 1000 leads:
      1000, 700, 140, 28, 19.6, 5.88 is its cascade. */
  lemma TemplateConsistent()
    ensures |TEMPLATE| == 6
    ensures Consistent(TEMPLATE, INITIAL_LEADS)
  {
  }

  /** The recalculation sweep: rewrites the value of every step from index
      `from` on, left to right, stage 0 from the leads and every later stage
      from its already rewritten predecessor. Nothing but values changes, and
      nothing before `from`; on a funnel whose chain already holds from `from`
      it changes nothing (the sweep is idempotent). */
  method Recalculate(s: seq<Step>, leads: real, from: nat) returns (r: seq<Step>)
    ensures |r| == |s|
    ensures forall k :: 0 <= k < |s| ==> r[k].Config() == s[k].Config()
    ensures forall k :: 0 <= k < |s| && k < from ==> r[k] == s[k]
    ensures ChainFrom(r, leads, from)
    ensures ChainFrom(s, leads, from) ==> r == s
  {
    r := s;
    var i := from;
    while i < |r|
      invariant |r| == |s| && from <= i
      invariant forall k :: 0 <= k < |s| ==> r[k].Config() == s[k].Config()
      invariant forall k :: 0 <= k < |s| && (k < from || i <= k) ==> r[k] == s[k]
      invariant ChainBetween(r, leads, from, i)
      invariant ChainFrom(s, leads, from) ==> r == s
    {
      var v := if i == 0 then leads else Converted(r[i].conversionRate, r[i - 1].value);
      r := r[i := r[i].(value := v)];
      i := i + 1;
    }
  }

  /** A cascade that held on a prefix of `prior` and holds on `r` from `from`
      on holds on all of `r` when `r` keeps that prefix. */
  lemma ChainFromPrefix(prior: seq<Step>, r: seq<Step>, leads: real, from: nat)
    requires Chain(prior, leads) && from <= |prior| && from <= |r| && |r| >= 1
    requires forall k :: 0 <= k < from ==> r[k] == prior[k]
    requires ChainFrom(r, leads, from)
    ensures Chain(r, leads)
  {
  }

  /** Rates and lock flags are part of a step's configuration, so two
      funnels with the same configurations agree on both invariants. */
  lemma SameConfigs(a: seq<Step>, b: seq<Step>)
    requires Configs(a) == Configs(b)
    ensures |a| == |b|
    ensures RatesInRange(a) == RatesInRange(b)
    ensures OnlyFirstLocked(a) == OnlyFirstLocked(b)
  {
    assert |Configs(a)| == |a| && |Configs(b)| == |b|;
    assert forall k :: 0 <= k < |a| ==> Configs(a)[k] == a[k].Config();
    assert forall k :: 0 <= k < |b| ==> Configs(b)[k] == b[k].Config();
  }

  /** The sequence `s` with position `i` removed, as `splice(i, 1)` leaves it. */
  function Without(s: seq<Step>, i: nat): seq<Step>
    requires i < |s|
  {
    s[..i] + s[i + 1..]
  }

  /** The sequence `s` with the entries at `i` and `j` exchanged. */
  function Swapped(s: seq<Step>, i: nat, j: nat): seq<Step>
    requires i < |s| && j < |s|
  {
    s[i := s[j]][j := s[i]]
  }
}
