/** Worked examples of the calculator, derived from the operations'
    contracts alone. */
module FunnelScenarios {
  import opened FunnelSteps
  import opened FunnelCalculator

  /** Raising stage 2 of the template from 20% to 50% gives it half of
      stage 1's 700, and stage 3 keeps its 20% of the new value. */
  method EditRateOfTemplate() {
    var f := new Funnel();
    var outcome := f.UpdateStep(2, SetRate(50.0));
    assert outcome == Updated;
    assert f.steps[1] == TEMPLATE[1];
    assert Configs(f.steps)[2] == f.steps[2].Config();
    assert Configs(f.steps)[3] == f.steps[3].Config();
    assert f.steps[2].value == 350.0;
    assert f.steps[3].value == 70.0;
  }

  /** A rate above 100% is refused and the template stays as it was. */
  method RejectRateOfTemplate() {
    var f := new Funnel();
    var outcome := f.UpdateStep(3, SetRate(120.0));
    assert outcome == RateAboveHundred && f.steps == TEMPLATE;
  }

  /** Deleting stage 1 of the template moves "Replied" up, and it now takes
      its 20% directly from the 1000 initial leads. */
  method DeleteFirstEditableStep() {
    var f := new Funnel();
    f.DeleteStep(1);
    assert Configs(f.steps)[1] == Configs(Without(TEMPLATE, 1))[1];
    assert f.steps[1].name == "Replied";
    assert f.steps[1].value == 200.0;
  }

  /** A seventh stage added to the template carries the last stage's 5.88. */
  method AddSeventhStep() {
    var f := new Funnel();
    f.AddStep();
    assert |f.steps| == 7 && f.steps[6].value == 5.88 && f.steps[6].conversionRate == 100.0;
  }

  /** Moving stage 1 up is refused: it would take the place of stage 0. */
  method MoveOntoFirstStage() {
    var f := new Funnel();
    var moved := f.SwitchStep(1, true);
    assert !moved && f.steps == TEMPLATE;
  }

  /** A negative lead count is stored as 0, and every stage follows it to 0. */
  method NegativeLeads() {
    var f := new Funnel();
    var outcome := f.UpdateInitialLeads(-5.0);
    assert outcome == LeadsNegative && f.initialLeads == 0.0;
    ChainBounds(f.steps, f.initialLeads);
    assert forall i :: 0 <= i < |f.steps| ==> f.steps[i].value == 0.0;
  }
}
