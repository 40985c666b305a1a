/** The snowball demonstration script: the record it fills in, the task
    descriptors it builds, and the loop that asks for each greek in turn. */
module SnowballDemo {
  import opened Fields
  import opened SnowballConfig
  import opened SnowballJson
  import opened Schedules
  import opened Surface
  import opened Tasks

  const FuncCalcCoupon := 1
  const FuncCalcPayoff := 2
  const FuncCalcGreeks := 3

  /** The trading days on which knock-out is observed: months 3 to 24. */
  const KnockODays: seq<int> := [61, 81, 101, 122, 142, 162, 183, 203, 223, 244, 264,
                                 284, 305, 325, 345, 366, 386, 406, 427, 447, 467, 488]

  /** The record after the script's assignments. Assignments that store the
      value a fresh record already holds are left out; knock_o_rate and
      calc_price are the lists the script computes. */
  ghost function DemoConfig(): Config {
    Default().(
      randRows := 50000, randCols := 500, randSeed := [0, 1, 2, 3, 4, 5, 6, 7],
      runsSize := 100000, runsStep := 488, yearDays := 244,
      sigma := 0.16, riskFreeRate := 0.03, basisRate := 0.05, priceLimitRatio := 0.1,
      notional := 100000.0, startPrice := 100.0, strikePrice := 100.0,
      knockORatio := 1.0, knockIRatio := 0.7, knockIMaxLoss := 1.0, couponRate := 0.11,
      marginRate := 1.0, marginInterest := 0.03, optionFeeInterest := 0.03,
      knockODays := KnockODays,
      knockORate := LinearStepDown(22, 1.0, 0.0),
      calcPrice := Arange(65.0, 105.0 + 1.0, 1.0).value,
      runDays := 1)
  }

  /** The script's set-up of the record: field assignments, the knock-out
      ratios built with the in-place step-down loop, and the price grid. */
  method BuildDemoConfig() returns (config: Config)
    ensures config == DemoConfig()
  {
    config := Default();
    config := config.(randRows := 50000, randCols := 500, randQuasi := false,
                      randSeed := [0, 1, 2, 3, 4, 5, 6, 7]);
    config := config.(dualSmooth := true, runsSize := 100000, runsStep := 488, yearDays := 244,
                      sigma := 0.16, riskFreeRate := 0.03, basisRate := 0.05,
                      priceLimitRatio := 0.1, priceLimitStyle := 0);
    config := config.(notional := 100000.0, tradeLong := false, startPrice := 100.0,
                      strikePrice := 100.0, knockORatio := 1.0, knockIRatio := 0.7,
                      knockOSteps := 0.0, knockIValid := true, knockIOccur := false,
                      knockIMaxLoss := 1.0, knockIMarginCall := true, knockIOnlyAtEnd := false,
                      knockIAboveGet := false, couponRate := 0.11, isFutures := false,
                      isForeign := false, marginRate := 1.0, marginInterest := 0.03,
                      useOptionFee := false, optionFee := 0.0, optionFeeInterest := 0.03,
                      backEndLoad := false, discountPayoff := false, discountMargin := false,
                      discountOptionFee := false, compoundOptionFee := false,
                      extendEndDays := 0, marketClose := false);
    config := config.(ukiukoCoupon := 0.0, ukiukoCouponAnn := false, ukiukoCouponUse := false,
                      knockOPRate := 0.0, knockOPNeed := false);
    config := config.(prefixRebateAnnRate := 0.0, prefixRebateAnnNeed := false,
                      prefixRebateAbsRate := 0.0, prefixRebateAbsNeed := false,
                      suffixRebateAnnRate := 0.0, suffixRebateAnnNeed := false,
                      suffixRebateAbsRate := 0.0, suffixRebateAbsNeed := false,
                      discountRebate := false, compoundRebate := false);
    config := config.(payoffCalcMethod := 0);
    config := config.(knockODays := KnockODays);
    var rates := BuildKnockORate(|KnockODays|, config.knockORatio, config.knockOSteps);
    config := config.(knockORate := rates);
    var prices := Arange(65.0, 105.0 + 1.0, 1.0);
    config := config.(calcPrice := prices.value);
    config := config.(runFrom := 0, runDays := 1);
  }

  /** The script's main sequence once the record is built. A descriptor
      (tasker.Tasker()) names the snowball plugin, runs locally
      (distribute_type 0), waits up to an hour and carries the record. Its
      method is set to coupon, then to payoff, and the greeks loop follows;
      the submissions after each step are commented out in the script, so
      this returns the descriptors they would send. The constructor's own
      initial method is not part of this model and is overwritten at once. */
  method RunScript() returns (coupon: Tasker<Config>, payoff: Tasker<Config>, sent: seq<Tasker<Config>>)
    ensures coupon.pluginId == "derivx_autocall_snowball_gpu" && coupon.distributeType == 0
    ensures coupon.timeoutWait == 3600 && coupon.methodId == FuncCalcCoupon
    ensures coupon.commonArgs == DemoConfig()
    ensures payoff == coupon.(methodId := FuncCalcPayoff)
    ensures |sent| == 5
    ensures forall i :: 0 <= i < |sent| ==>
              && sent[i].pluginId == "derivx_autocall_snowball_gpu" && sent[i].distributeType == 0
              && sent[i].timeoutWait == 3600 && sent[i].methodId == FuncCalcGreeks
              && sent[i].commonArgs == DemoConfig().(calcGreek := GreekFlags[i])
  {
    var config := BuildDemoConfig();
    var tasker := Tasker("derivx_autocall_snowball_gpu", 0, 0, 3600, config);
    tasker := tasker.(methodId := FuncCalcCoupon);
    coupon := tasker;
    tasker := tasker.(methodId := FuncCalcPayoff);
    payoff := tasker;
    config, tasker, sent := RunGreeks(config, tasker);
  }

  /** The facts about the demonstration data: 22 observation dates, strictly
      ascending, the last on the final simulated day; 22 knock-out ratios, all
      at knock_o_ratio since knock_o_steps is 0; 41 prices from 65 to 105 in
      steps of 1; so the expected surface is 41 rows by 488 days, and the
      export window of day 1 lies inside it. */
  lemma DemoConfigFacts()
    ensures var c := DemoConfig();
            && |c.knockODays| == |c.knockORate| == 22
            && (forall i, j :: 0 <= i < j < 22 ==> c.knockODays[i] < c.knockODays[j])
            && c.knockODays[21] == c.runsStep == 488
            && (forall i :: 0 <= i < 22 ==> c.knockORate[i] == c.knockORatio)
            && |c.calcPrice| == 41 && c.calcPrice[0] == 65.0 && c.calcPrice[40] == 105.0
            && (forall i, j :: 0 <= i < j < 41 ==> c.calcPrice[i] < c.calcPrice[j])
            && 0 <= c.runFrom && c.runFrom + c.runDays <= c.runsStep
  {
    var c := DemoConfig();
    LinearStepDownShape(22, 1.0, 0.0);
    ArangeIncludesBounds(65.0, 105.0, 1.0, 40);
    assert forall i :: 0 <= i < 21 ==> KnockODays[i] < KnockODays[i + 1];
    AscendingByNeighbours(KnockODays);
  }

  lemma AscendingByNeighbours(s: seq<int>)
    requires forall i :: 0 <= i < |s| - 1 ==> s[i] < s[i + 1]
    ensures forall i, j :: 0 <= i < j < |s| ==> s[i] < s[j]
  {
    if |s| > 1 {
      AscendingByNeighbours(s[1..]);
      forall i, j | 0 <= i < j < |s| ensures s[i] < s[j] {
        if i > 0 {
          assert s[i] == s[1..][i - 1] && s[j] == s[1..][j - 1];
        } else if j > 1 {
          assert s[j] == s[1..][j - 1] && s[1] == s[1..][0];
        }
      }
    }
  }

  /** The commented-out MakeStepDown calls: a 24-month product observed from
      month 3 with the step-down from month 4 gets 22 ratios, one per
      observation date above; a 36-month product observed from month 6 with
      the step-down from month 9 gets 31. */
  lemma CommentedStepDowns()
    ensures |StepDown(24, 3, 1.0, 4, 0.01)| == |KnockODays|
    ensures |StepDown(36, 6, 1.0, 9, 0.005)| == 31
  {
    StepDownCoversObservations(24, 3, 1.0, 4, 0.01);
    StepDownCoversObservations(36, 6, 1.0, 9, 0.005);
  }

  /** The greeks loop of this script: calc_greek is set on the record. Each
      descriptor sent carries the demonstration's record with calc_greek set
      to that iteration's flag and nothing else changed, so its serialised
      arguments differ from the first record's at the key calc_greek alone;
      the loop ends on the last flag, "r". */
  method RunGreeks(config0: Config, tasker0: Tasker<Config>)
    returns (config: Config, tasker: Tasker<Config>, sent: seq<Tasker<Config>>)
    ensures |sent| == |GreekFlags| == 5
    ensures forall i :: 0 <= i < |sent| ==>
              && sent[i].commonArgs == config0.(calcGreek := GreekFlags[i])
              && Encode(sent[i].commonArgs) == Encode(config0)[TextKey(CalcGreek) := Str(GreekFlags[i])]
              && sent[i].methodId == FuncCalcGreeks
              && sent[i].pluginId == tasker0.pluginId
              && sent[i].distributeType == tasker0.distributeType
              && sent[i].timeoutWait == tasker0.timeoutWait
    ensures config == config0.(calcGreek := "r") && tasker == sent[4]
  {
    config, tasker, sent := GreeksLoop(config0, tasker0, FuncCalcGreeks, GreekFlags,
                                       (c: Config, g: string) => c.(calcGreek := g));
    ghost var payloads := seq(|sent|, i requires 0 <= i < |sent| => sent[i].commonArgs);
    GreeksPayloads(config0, GreekFlags, payloads);
  }

  /** Records produced by setting calc_greek again and again on config0 are
      config0 with only the latest flag set; their serialisations differ from
      config0's at calc_greek alone. */
  lemma GreeksPayloads(config0: Config, flags: seq<string>, payloads: seq<Config>)
    requires |payloads| == |flags|
    requires |payloads| > 0 ==> payloads[0] == config0.(calcGreek := flags[0])
    requires forall i :: 0 < i < |payloads| ==> payloads[i] == payloads[i - 1].(calcGreek := flags[i])
    ensures forall i :: 0 <= i < |payloads| ==>
              && payloads[i] == config0.(calcGreek := flags[i])
              && Encode(payloads[i]) == Encode(config0)[TextKey(CalcGreek) := Str(flags[i])]
  {
    forall i | 0 <= i < |payloads|
      ensures payloads[i] == config0.(calcGreek := flags[i])
      ensures Encode(payloads[i]) == Encode(config0)[TextKey(CalcGreek) := Str(flags[i])]
    {
      PayloadAt(config0, flags, payloads, i);
      EncodeSetGreek(config0, flags[i]);
    }
  }

  lemma {:induction false} PayloadAt(config0: Config, flags: seq<string>, payloads: seq<Config>, i: nat)
    requires |payloads| == |flags| && i < |payloads|
    requires |payloads| > 0 ==> payloads[0] == config0.(calcGreek := flags[0])
    requires forall i :: 0 < i < |payloads| ==> payloads[i] == payloads[i - 1].(calcGreek := flags[i])
    ensures payloads[i] == config0.(calcGreek := flags[i])
  {
    if i > 0 {
      PayloadAt(config0, flags, payloads, i - 1);
      SetGreekTwice(config0, flags[i - 1], flags[i]);
    }
  }

  /** Setting calc_greek twice is setting it once, to the second value. */
  lemma SetGreekTwice(c: Config, a: string, b: string)
    ensures c.(calcGreek := a).(calcGreek := b) == c.(calcGreek := b)
  {
  }
}
