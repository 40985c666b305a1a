/** The sharkfin demonstration script, the same in Python and JavaScript: the
    option and barrier codes, the record it fills in, the task descriptors it
    builds, and the loop that asks for each greek in turn. */
module SharkfinDemo {
  import opened Fields
  import opened SharkfinConfig
  import opened SharkfinJson
  import opened Schedules
  import opened Tasks

  const FuncCalcPrice := 1
  const FuncCalcPayoff := 2
  const FuncCalcGreeks := 3

  /** When the holder may exercise: at expiry only, or at any time. */
  datatype Exercise = European | American

  /** Which barriers knock the option out: up-and-out call, down-and-out put,
      or both (the double sharkfin). */
  datatype Fin = UpCall | DownPut | UpCallDownPut

  /** The option_type code of each exercise style. */
  function ExerciseCode(e: Exercise): int {
    match e
    case European => 1
    case American => 2
  }

  /** The barrier_type code of each sharkfin. */
  function FinCode(f: Fin): int {
    match f
    case UpCall => 1
    case DownPut => 2
    case UpCallDownPut => 3
  }

  /** The exercise style an option_type code stands for, if any. */
  function ExerciseOf(code: int): (r: Option<Exercise>)
    ensures r.Some? <==> code == 1 || code == 2
    ensures r.Some? ==> ExerciseCode(r.value) == code
  {
    if code == 1 then Some(European) else if code == 2 then Some(American) else None
  }

  /** The sharkfin a barrier_type code stands for, if any. */
  function FinOf(code: int): (r: Option<Fin>)
    ensures r.Some? <==> 1 <= code <= 3
    ensures r.Some? ==> FinCode(r.value) == code
  {
    if code == 1 then Some(UpCall)
    else if code == 2 then Some(DownPut)
    else if code == 3 then Some(UpCallDownPut)
    else None
  }

  /** Every style and every sharkfin has its own code, and reading a code
      back gives what was coded; the three method codes differ. */
  lemma CodesRoundTrip()
    ensures forall e :: ExerciseOf(ExerciseCode(e)) == Some(e)
    ensures forall f :: FinOf(FinCode(f)) == Some(f)
    ensures FuncCalcPrice != FuncCalcPayoff && FuncCalcPayoff != FuncCalcGreeks && FuncCalcPrice != FuncCalcGreeks
  {
    forall e: Exercise ensures ExerciseOf(ExerciseCode(e)) == Some(e) {
      match e
      case European =>
      case American =>
    }
    forall f: Fin ensures FinOf(FinCode(f)) == Some(f) {
      match f
      case UpCall =>
      case DownPut =>
      case UpCallDownPut =>
    }
  }

  /** The 0 a fresh record holds in option_type and barrier_type names no
      style and no sharkfin, so the script has to set both. */
  lemma FreshRecordUncoded()
    ensures var c := Default(); ExerciseOf(c.optionType) == None && FinOf(c.barrierType) == None
  {
    Uncoded(Default());
  }

  lemma Uncoded(c: Config)
    requires c.optionType == 0 && c.barrierType == 0
    ensures ExerciseOf(c.optionType) == None && FinOf(c.barrierType) == None
  {
  }

  /** The record after the script's assignments. Assignments that store the
      value a fresh record already holds are left out; calc_price is the list
      the script computes. */
  ghost function DemoConfig(): Config {
    Default().(
      randRows := 50000, randCols := 250, randSeed := [0, 1, 2, 3, 4, 5, 6, 7],
      runsSize := 100000, runsStep := 244, yearDays := 244,
      sigma := 0.16, basisRate := 0.06, riskFreeRate := 0.03, priceLimitRatio := 0.1,
      notional := 100000.0, optionType := ExerciseCode(American), barrierType := FinCode(UpCallDownPut),
      startPrice := 100.0, hL := 0.95, hH := 1.05, kL := 0.99, kH := 1.01,
      xL := 0.035, xH := 0.035, pL := 1.0, pH := 1.0,
      optionFee := 0.035, optionFeeInterest := 0.03, isKopDelay := true,
      calcPrice := Arange(90.0, 110.0 + 1.0, 1.0).value,
      runDays := 1)
  }

  /** The script's set-up of the record: field assignments and the price grid. */
  method BuildDemoConfig() returns (config: Config)
    ensures config == DemoConfig()
  {
    config := Default();
    config := config.(randRows := 50000, randCols := 250, randQuasi := false,
                      randSeed := [0, 1, 2, 3, 4, 5, 6, 7]);
    config := config.(dualSmooth := true, runsSize := 100000, runsStep := 244, yearDays := 244,
                      sigma := 0.16, basisRate := 0.06, riskFreeRate := 0.03,
                      priceLimitRatio := 0.1, priceLimitStyle := 0);
    config := config.(notional := 100000.0, tradeLong := false, optionType := ExerciseCode(American),
                      barrierType := FinCode(UpCallDownPut), reverseKnockOut := false,
                      strikePayoffAbs := false, startPrice := 100.0, hL := 0.95, hH := 1.05,
                      kL := 0.99, kH := 1.01, xL := 0.035, xH := 0.035, pL := 1.0, pH := 1.0);
    config := config.(optionFee := 0.035, optionFeeInterest := 0.03, backEndLoad := false,
                      isKopDelay := true, knockOOccur := false, knockOPoint := 0.0,
                      isFutures := false, isForeign := false, marginRate := 0.0,
                      marginInterest := 0.0, discountPayoff := false, discountMargin := false,
                      discountOptionFee := false, compoundOptionFee := false,
                      extendEndDays := 0, marketClose := false);
    config := config.(consumedOptionFeeRate := 0.0, occupiedOptionFeeRate := 0.0);
    config := config.(prefixRebateAnnRate := 0.0, prefixRebateAnnNeed := false,
                      prefixRebateAbsRate := 0.0, prefixRebateAbsNeed := false,
                      suffixRebateAnnRate := 0.0, suffixRebateAnnNeed := false,
                      suffixRebateAbsRate := 0.0, suffixRebateAbsNeed := false,
                      discountRebate := false, compoundRebate := false);
    config := config.(payoffCalcMethod := 0);
    var prices := Arange(90.0, 110.0 + 1.0, 1.0);
    config := config.(calcPrice := prices.value);
    config := config.(runFrom := 0, runDays := 1);
  }

  /** The script's main sequence once the record is built. A descriptor
      (tasker.Tasker()) names the sharkfin plugin, runs locally
      (distribute_type 0), waits up to an hour and carries the record. Its
      method is set to price, then to payoff, and the greeks loop follows;
      the submissions after each step are commented out in the script, so
      this returns the descriptors they would send. The constructor's own
      initial method is not part of this model and is overwritten at once. */
  method RunScript() returns (price: Tasker<Config>, payoff: Tasker<Config>, sent: seq<Tasker<Config>>)
    ensures price.pluginId == "derivx_barrier_sharkfin" && price.distributeType == 0
    ensures price.timeoutWait == 3600 && price.methodId == FuncCalcPrice
    ensures price.commonArgs == DemoConfig()
    ensures payoff == price.(methodId := FuncCalcPayoff)
    ensures |sent| == 5
    ensures forall i :: 0 <= i < |sent| ==>
              && sent[i].pluginId == "derivx_barrier_sharkfin" && sent[i].distributeType == 0
              && sent[i].timeoutWait == 3600 && sent[i].methodId == FuncCalcGreeks
              && sent[i].commonArgs == DemoConfig().(calcGreek := GreekFlags[i])
  {
    var config := BuildDemoConfig();
    var tasker := Tasker("derivx_barrier_sharkfin", 0, 0, 3600, config);
    tasker := tasker.(methodId := FuncCalcPrice);
    price := tasker;
    tasker := tasker.(methodId := FuncCalcPayoff);
    payoff := tasker;
    config, tasker, sent := RunGreeks(config, tasker);
  }

  /** The facts about the demonstration data: an American double sharkfin
      whose strikes lie strictly inside its barriers and whose start price
      lies between the barrier prices; 21 prices from 90 to 110 in steps of
      1, so the expected surface is 21 rows by 244 days, and the export
      window of day 1 lies inside it. */
  lemma DemoConfigFacts()
    ensures var c := DemoConfig();
            && ExerciseOf(c.optionType) == Some(American)
            && FinOf(c.barrierType) == Some(UpCallDownPut)
            && c.hL < c.kL <= c.kH < c.hH
            && c.hL * c.startPrice < c.startPrice < c.hH * c.startPrice
            && |c.calcPrice| == 21 && c.calcPrice[0] == 90.0 && c.calcPrice[20] == 110.0
            && (forall i, j :: 0 <= i < j < 21 ==> c.calcPrice[i] < c.calcPrice[j])
            && 0 <= c.runFrom && c.runFrom + c.runDays <= c.runsStep
  {
    ArangeIncludesBounds(90.0, 110.0, 1.0, 20);
  }

  /** The greeks loop of this script: calc_greek is set on the record. Each
      descriptor sent carries the demonstration's record with calc_greek set
      to that iteration's flag and nothing else changed, so its serialised
      arguments differ from the first record's at the key calc_greek alone;
      the loop ends on the last flag, "r". */
  method RunGreeks(config0: Config, tasker0: Tasker<Config>)
    returns (config: Config, tasker: Tasker<Config>, sent: seq<Tasker<Config>>)
    ensures |sent| == |GreekFlags| == 5
    ensures forall i :: 0 <= i < |sent| ==>
              && sent[i].commonArgs == config0.(calcGreek := GreekFlags[i])
              && Encode(sent[i].commonArgs) == Encode(config0)[TextKey(CalcGreek) := Str(GreekFlags[i])]
              && sent[i].methodId == FuncCalcGreeks
              && sent[i].pluginId == tasker0.pluginId
              && sent[i].distributeType == tasker0.distributeType
              && sent[i].timeoutWait == tasker0.timeoutWait
    ensures config == config0.(calcGreek := "r") && tasker == sent[4]
  {
    config, tasker, sent := GreeksLoop(config0, tasker0, FuncCalcGreeks, GreekFlags,
                                       (c: Config, g: string) => c.(calcGreek := g));
    ghost var payloads := seq(|sent|, i requires 0 <= i < |sent| => sent[i].commonArgs);
    GreeksPayloads(config0, GreekFlags, payloads);
  }

  /** Records produced by setting calc_greek again and again on config0 are
      config0 with only the latest flag set; their serialisations differ from
      config0's at calc_greek alone. */
  lemma GreeksPayloads(config0: Config, flags: seq<string>, payloads: seq<Config>)
    requires |payloads| == |flags|
    requires |payloads| > 0 ==> payloads[0] == config0.(calcGreek := flags[0])
    requires forall i :: 0 < i < |payloads| ==> payloads[i] == payloads[i - 1].(calcGreek := flags[i])
    ensures forall i :: 0 <= i < |payloads| ==>
              && payloads[i] == config0.(calcGreek := flags[i])
              && Encode(payloads[i]) == Encode(config0)[TextKey(CalcGreek) := Str(flags[i])]
  {
    forall i | 0 <= i < |payloads|
      ensures payloads[i] == config0.(calcGreek := flags[i])
      ensures Encode(payloads[i]) == Encode(config0)[TextKey(CalcGreek) := Str(flags[i])]
    {
      PayloadAt(config0, flags, payloads, i);
      EncodeSetGreek(config0, flags[i]);
    }
  }

  lemma {:induction false} PayloadAt(config0: Config, flags: seq<string>, payloads: seq<Config>, i: nat)
    requires |payloads| == |flags| && i < |payloads|
    requires |payloads| > 0 ==> payloads[0] == config0.(calcGreek := flags[0])
    requires forall i :: 0 < i < |payloads| ==> payloads[i] == payloads[i - 1].(calcGreek := flags[i])
    ensures payloads[i] == config0.(calcGreek := flags[i])
  {
    if i > 0 {
      PayloadAt(config0, flags, payloads, i - 1);
      SetGreekTwice(config0, flags[i - 1], flags[i]);
    }
  }

  /** Setting calc_greek twice is setting it once, to the second value. */
  lemma SetGreekTwice(c: Config, a: string, b: string)
    ensures c.(calcGreek := a).(calcGreek := b) == c.(calcGreek := b)
  {
  }
}
