/** The autocallable snowball configuration record: its attribute inventory,
    its initial values, and its serialisation as a flat field map. */
module SnowballConfig {
  import opened Fields

  // The attributes of the record, grouped by the kind of value each holds;
  // within a group they keep the order in which the snowball Config declares them.

  datatype IntField =
      RandRows | RandCols | RunsSize | RunsStep
    | YearDays | PriceLimitStyle | ExtendEndDays | PayoffCalcMethod
    | RunFrom | RunDays | RunsStepN | YearDaysN

  datatype RealField =
      Sigma | RiskFreeRate | BasisRate | PriceLimitRatio
    | Notional | StartPrice | StrikePrice | KnockORatio
    | KnockIRatio | KnockOSteps | KnockIMaxLoss | CouponRate
    | MarginRate | MarginInterest | OptionFee | OptionFeeInterest
    | UkiukoCoupon | KnockOPRate | PrefixRebateAnnRate | PrefixRebateAbsRate
    | SuffixRebateAnnRate | SuffixRebateAbsRate

  datatype BoolField =
      RandQuasi | DualSmooth | TradeLong | KnockIValid
    | KnockIOccur | KnockIMarginCall | KnockIOnlyAtEnd | KnockIAboveGet
    | IsFutures | IsForeign | UseOptionFee | BackEndLoad
    | DiscountPayoff | DiscountMargin | DiscountOptionFee | CompoundOptionFee
    | MarketClose | UkiukoCouponAnn | UkiukoCouponUse | KnockOPNeed
    | PrefixRebateAnnNeed | PrefixRebateAbsNeed | SuffixRebateAnnNeed | SuffixRebateAbsNeed
    | DiscountRebate | CompoundRebate

  datatype TextField =
      CalcGreek

  datatype IntsField =
      RandSeed | KnockODays | KnockODaysN | TradingDaysN

  datatype RealsField =
      CalcPrice | KnockORate

  /** An attribute of the record; its kind is fixed by its group. */
  datatype Key =
    | IntKey(intField: IntField)
    | RealKey(realField: RealField)
    | BoolKey(boolField: BoolField)
    | TextKey(textField: TextField)
    | IntsKey(intsField: IntsField)
    | RealsKey(realsField: RealsField)

  /** The record that the snowball Config object holds; one field per attribute, in declaration order. */
  datatype Config = Config(
    randRows: int,
    randCols: int,
    randQuasi: bool,
    randSeed: seq<int>,
    dualSmooth: bool,
    runsSize: int,
    runsStep: int,
    yearDays: int,
    sigma: real,
    riskFreeRate: real,
    basisRate: real,
    priceLimitRatio: real,
    priceLimitStyle: int,
    notional: real,
    tradeLong: bool,
    startPrice: real,
    strikePrice: real,
    knockORatio: real,
    knockIRatio: real,
    knockOSteps: real,
    knockIValid: bool,
    knockIOccur: bool,
    knockIMaxLoss: real,
    knockIMarginCall: bool,
    knockIOnlyAtEnd: bool,
    knockIAboveGet: bool,
    couponRate: real,
    isFutures: bool,
    isForeign: bool,
    marginRate: real,
    marginInterest: real,
    useOptionFee: bool,
    optionFee: real,
    optionFeeInterest: real,
    backEndLoad: bool,
    discountPayoff: bool,
    discountMargin: bool,
    discountOptionFee: bool,
    compoundOptionFee: bool,
    extendEndDays: int,
    marketClose: bool,
    ukiukoCoupon: real,
    ukiukoCouponAnn: bool,
    ukiukoCouponUse: bool,
    knockOPRate: real,
    knockOPNeed: bool,
    prefixRebateAnnRate: real,
    prefixRebateAnnNeed: bool,
    prefixRebateAbsRate: real,
    prefixRebateAbsNeed: bool,
    suffixRebateAnnRate: real,
    suffixRebateAnnNeed: bool,
    suffixRebateAbsRate: real,
    suffixRebateAbsNeed: bool,
    discountRebate: bool,
    compoundRebate: bool,
    payoffCalcMethod: int,
    calcPrice: seq<real>,
    runFrom: int,
    runDays: int,
    knockODays: seq<int>,
    knockORate: seq<real>,
    runsStepN: int,
    yearDaysN: int,
    knockODaysN: seq<int>,
    tradingDaysN: seq<int>,
    calcGreek: string
  )

  function IntAt(c: Config, f: IntField): int {
    match f
    case RandRows => c.randRows
    case RandCols => c.randCols
    case RunsSize => c.runsSize
    case RunsStep => c.runsStep
    case YearDays => c.yearDays
    case PriceLimitStyle => c.priceLimitStyle
    case ExtendEndDays => c.extendEndDays
    case PayoffCalcMethod => c.payoffCalcMethod
    case RunFrom => c.runFrom
    case RunDays => c.runDays
    case RunsStepN => c.runsStepN
    case YearDaysN => c.yearDaysN
  }

  function RealAt(c: Config, f: RealField): real {
    match f
    case Sigma => c.sigma
    case RiskFreeRate => c.riskFreeRate
    case BasisRate => c.basisRate
    case PriceLimitRatio => c.priceLimitRatio
    case Notional => c.notional
    case StartPrice => c.startPrice
    case StrikePrice => c.strikePrice
    case KnockORatio => c.knockORatio
    case KnockIRatio => c.knockIRatio
    case KnockOSteps => c.knockOSteps
    case KnockIMaxLoss => c.knockIMaxLoss
    case CouponRate => c.couponRate
    case MarginRate => c.marginRate
    case MarginInterest => c.marginInterest
    case OptionFee => c.optionFee
    case OptionFeeInterest => c.optionFeeInterest
    case UkiukoCoupon => c.ukiukoCoupon
    case KnockOPRate => c.knockOPRate
    case PrefixRebateAnnRate => c.prefixRebateAnnRate
    case PrefixRebateAbsRate => c.prefixRebateAbsRate
    case SuffixRebateAnnRate => c.suffixRebateAnnRate
    case SuffixRebateAbsRate => c.suffixRebateAbsRate
  }

  function BoolAt(c: Config, f: BoolField): bool {
    match f
    case RandQuasi => c.randQuasi
    case DualSmooth => c.dualSmooth
    case TradeLong => c.tradeLong
    case KnockIValid => c.knockIValid
    case KnockIOccur => c.knockIOccur
    case KnockIMarginCall => c.knockIMarginCall
    case KnockIOnlyAtEnd => c.knockIOnlyAtEnd
    case KnockIAboveGet => c.knockIAboveGet
    case IsFutures => c.isFutures
    case IsForeign => c.isForeign
    case UseOptionFee => c.useOptionFee
    case BackEndLoad => c.backEndLoad
    case DiscountPayoff => c.discountPayoff
    case DiscountMargin => c.discountMargin
    case DiscountOptionFee => c.discountOptionFee
    case CompoundOptionFee => c.compoundOptionFee
    case MarketClose => c.marketClose
    case UkiukoCouponAnn => c.ukiukoCouponAnn
    case UkiukoCouponUse => c.ukiukoCouponUse
    case KnockOPNeed => c.knockOPNeed
    case PrefixRebateAnnNeed => c.prefixRebateAnnNeed
    case PrefixRebateAbsNeed => c.prefixRebateAbsNeed
    case SuffixRebateAnnNeed => c.suffixRebateAnnNeed
    case SuffixRebateAbsNeed => c.suffixRebateAbsNeed
    case DiscountRebate => c.discountRebate
    case CompoundRebate => c.compoundRebate
  }

  function TextAt(c: Config, f: TextField): string {
    match f
    case CalcGreek => c.calcGreek
  }

  function IntsAt(c: Config, f: IntsField): seq<int> {
    match f
    case RandSeed => c.randSeed
    case KnockODays => c.knockODays
    case KnockODaysN => c.knockODaysN
    case TradingDaysN => c.tradingDaysN
  }

  function RealsAt(c: Config, f: RealsField): seq<real> {
    match f
    case CalcPrice => c.calcPrice
    case KnockORate => c.knockORate
  }

  /** The attribute's name: its key in the serialised record. */
  function Name(k: Key): string {
    match k
    case IntKey(RandRows) => "rand_rows"
    case IntKey(RandCols) => "rand_cols"
    case IntKey(RunsSize) => "runs_size"
    case IntKey(RunsStep) => "runs_step"
    case IntKey(YearDays) => "year_days"
    case IntKey(PriceLimitStyle) => "price_limit_style"
    case IntKey(ExtendEndDays) => "extend_end_days"
    case IntKey(PayoffCalcMethod) => "payoff_calc_method"
    case IntKey(RunFrom) => "run_from"
    case IntKey(RunDays) => "run_days"
    case IntKey(RunsStepN) => "runs_step_n"
    case IntKey(YearDaysN) => "year_days_n"
    case RealKey(Sigma) => "sigma"
    case RealKey(RiskFreeRate) => "risk_free_rate"
    case RealKey(BasisRate) => "basis_rate"
    case RealKey(PriceLimitRatio) => "price_limit_ratio"
    case RealKey(Notional) => "notional"
    case RealKey(StartPrice) => "start_price"
    case RealKey(StrikePrice) => "strike_price"
    case RealKey(KnockORatio) => "knock_o_ratio"
    case RealKey(KnockIRatio) => "knock_i_ratio"
    case RealKey(KnockOSteps) => "knock_o_steps"
    case RealKey(KnockIMaxLoss) => "knock_i_max_loss"
    case RealKey(CouponRate) => "coupon_rate"
    case RealKey(MarginRate) => "margin_rate"
    case RealKey(MarginInterest) => "margin_interest"
    case RealKey(OptionFee) => "option_fee"
    case RealKey(OptionFeeInterest) => "option_fee_interest"
    case RealKey(UkiukoCoupon) => "ukiuko_coupon"
    case RealKey(KnockOPRate) => "knock_o_p_rate"
    case RealKey(PrefixRebateAnnRate) => "prefix_rebate_ann_rate"
    case RealKey(PrefixRebateAbsRate) => "prefix_rebate_abs_rate"
    case RealKey(SuffixRebateAnnRate) => "suffix_rebate_ann_rate"
    case RealKey(SuffixRebateAbsRate) => "suffix_rebate_abs_rate"
    case BoolKey(RandQuasi) => "rand_quasi"
    case BoolKey(DualSmooth) => "dual_smooth"
    case BoolKey(TradeLong) => "trade_long"
    case BoolKey(KnockIValid) => "knock_i_valid"
    case BoolKey(KnockIOccur) => "knock_i_occur"
    case BoolKey(KnockIMarginCall) => "knock_i_margin_call"
    case BoolKey(KnockIOnlyAtEnd) => "knock_i_only_at_end"
    case BoolKey(KnockIAboveGet) => "knock_i_above_get"
    case BoolKey(IsFutures) => "is_futures"
    case BoolKey(IsForeign) => "is_foreign"
    case BoolKey(UseOptionFee) => "use_option_fee"
    case BoolKey(BackEndLoad) => "back_end_load"
    case BoolKey(DiscountPayoff) => "discount_payoff"
    case BoolKey(DiscountMargin) => "discount_margin"
    case BoolKey(DiscountOptionFee) => "discount_option_fee"
    case BoolKey(CompoundOptionFee) => "compound_option_fee"
    case BoolKey(MarketClose) => "market_close"
    case BoolKey(UkiukoCouponAnn) => "ukiuko_coupon_ann"
    case BoolKey(UkiukoCouponUse) => "ukiuko_coupon_use"
    case BoolKey(KnockOPNeed) => "knock_o_p_need"
    case BoolKey(PrefixRebateAnnNeed) => "prefix_rebate_ann_need"
    case BoolKey(PrefixRebateAbsNeed) => "prefix_rebate_abs_need"
    case BoolKey(SuffixRebateAnnNeed) => "suffix_rebate_ann_need"
    case BoolKey(SuffixRebateAbsNeed) => "suffix_rebate_abs_need"
    case BoolKey(DiscountRebate) => "discount_rebate"
    case BoolKey(CompoundRebate) => "compound_rebate"
    case TextKey(CalcGreek) => "calc_greek"
    case IntsKey(RandSeed) => "rand_seed"
    case IntsKey(KnockODays) => "knock_o_days"
    case IntsKey(KnockODaysN) => "knock_o_days_n"
    case IntsKey(TradingDaysN) => "trading_days_n"
    case RealsKey(CalcPrice) => "calc_price"
    case RealsKey(KnockORate) => "knock_o_rate"
  }

  function KindOf(k: Key): Kind {
    match k
    case IntKey(_) => IntKind
    case RealKey(_) => RealKind
    case BoolKey(_) => BoolKind
    case TextKey(_) => StrKind
    case IntsKey(_) => IntsKind
    case RealsKey(_) => RealsKind
  }

  /** The current value of attribute k, as the serialised record holds it. */
  function Get(c: Config, k: Key): Value {
    match k
    case IntKey(f) => Int(IntAt(c, f))
    case RealKey(f) => Real(RealAt(c, f))
    case BoolKey(f) => Bool(BoolAt(c, f))
    case TextKey(f) => Str(TextAt(c, f))
    case IntsKey(f) => Ints(IntsAt(c, f))
    case RealsKey(f) => Reals(RealsAt(c, f))
  }

  /** The boolean attributes that a fresh record sets to true. */
  const TrueAtStart: set<BoolField> := {DualSmooth, KnockIValid, KnockIMarginCall}

  /** The record a fresh Config() holds: every number 0, every list empty,
      the string empty, and no boolean true except those in TrueAtStart. */
  function Default(): (c: Config)
    ensures forall f :: IntAt(c, f) == 0
    ensures forall f :: RealAt(c, f) == 0.0
    ensures forall f :: BoolAt(c, f) <==> f in TrueAtStart
    ensures forall f :: TextAt(c, f) == ""
    ensures forall f :: IntsAt(c, f) == []
    ensures forall f :: RealsAt(c, f) == []
  {
    Config(
      0,
      0,
      false,
      [],
      true,
      0,
      0,
      0,
      0.0,
      0.0,
      0.0,
      0.0,
      0,
      0.0,
      false,
      0.0,
      0.0,
      0.0,
      0.0,
      0.0,
      true,
      false,
      0.0,
      true,
      false,
      false,
      0.0,
      false,
      false,
      0.0,
      0.0,
      false,
      0.0,
      0.0,
      false,
      false,
      false,
      false,
      false,
      0,
      false,
      0.0,
      false,
      false,
      0.0,
      false,
      0.0,
      false,
      0.0,
      false,
      0.0,
      false,
      0.0,
      false,
      false,
      false,
      0,
      [],
      0,
      0,
      [],
      [],
      0,
      0,
      [],
      [],
      ""
    )
  }

}

/** ToJson and its inverse for the snowball record. A serialised record is
    modelled as a map from attribute to value; the text encoding itself is not
    modelled. */
module SnowballJson {
  import opened Fields
  import opened SnowballConfig


  /** Every attribute present, each holding a value of its own kind. */
  ghost predicate WellTyped(m: imap<Key, Value>) {
    forall k :: k in m && m[k].KindOf() == KindOf(k)
  }

  /** ToJson: one entry per attribute, holding its current value. */
  ghost function Encode(c: Config): (m: imap<Key, Value>)
    ensures WellTyped(m)
  {
    imap k | true :: Get(c, k)
  }

  /** Reads a record back from a field map; None when an attribute is missing
      or holds a value of the wrong kind. */
  ghost function Decode(m: imap<Key, Value>): (r: Option<Config>)
    ensures r.Some? <==> WellTyped(m)
  {
    if WellTyped(m) then Some(Read(m)) else None
  }

  /** The record whose attributes hold the values m gives them. */
  ghost function Read(m: imap<Key, Value>): Config {
    Config(
      IntOf(m, RandRows),
      IntOf(m, RandCols),
      BoolOf(m, RandQuasi),
      IntsOf(m, RandSeed),
      BoolOf(m, DualSmooth),
      IntOf(m, RunsSize),
      IntOf(m, RunsStep),
      IntOf(m, YearDays),
      RealOf(m, Sigma),
      RealOf(m, RiskFreeRate),
      RealOf(m, BasisRate),
      RealOf(m, PriceLimitRatio),
      IntOf(m, PriceLimitStyle),
      RealOf(m, Notional),
      BoolOf(m, TradeLong),
      RealOf(m, StartPrice),
      RealOf(m, StrikePrice),
      RealOf(m, KnockORatio),
      RealOf(m, KnockIRatio),
      RealOf(m, KnockOSteps),
      BoolOf(m, KnockIValid),
      BoolOf(m, KnockIOccur),
      RealOf(m, KnockIMaxLoss),
      BoolOf(m, KnockIMarginCall),
      BoolOf(m, KnockIOnlyAtEnd),
      BoolOf(m, KnockIAboveGet),
      RealOf(m, CouponRate),
      BoolOf(m, IsFutures),
      BoolOf(m, IsForeign),
      RealOf(m, MarginRate),
      RealOf(m, MarginInterest),
      BoolOf(m, UseOptionFee),
      RealOf(m, OptionFee),
      RealOf(m, OptionFeeInterest),
      BoolOf(m, BackEndLoad),
      BoolOf(m, DiscountPayoff),
      BoolOf(m, DiscountMargin),
      BoolOf(m, DiscountOptionFee),
      BoolOf(m, CompoundOptionFee),
      IntOf(m, ExtendEndDays),
      BoolOf(m, MarketClose),
      RealOf(m, UkiukoCoupon),
      BoolOf(m, UkiukoCouponAnn),
      BoolOf(m, UkiukoCouponUse),
      RealOf(m, KnockOPRate),
      BoolOf(m, KnockOPNeed),
      RealOf(m, PrefixRebateAnnRate),
      BoolOf(m, PrefixRebateAnnNeed),
      RealOf(m, PrefixRebateAbsRate),
      BoolOf(m, PrefixRebateAbsNeed),
      RealOf(m, SuffixRebateAnnRate),
      BoolOf(m, SuffixRebateAnnNeed),
      RealOf(m, SuffixRebateAbsRate),
      BoolOf(m, SuffixRebateAbsNeed),
      BoolOf(m, DiscountRebate),
      BoolOf(m, CompoundRebate),
      IntOf(m, PayoffCalcMethod),
      RealsOf(m, CalcPrice),
      IntOf(m, RunFrom),
      IntOf(m, RunDays),
      IntsOf(m, KnockODays),
      RealsOf(m, KnockORate),
      IntOf(m, RunsStepN),
      IntOf(m, YearDaysN),
      IntsOf(m, KnockODaysN),
      IntsOf(m, TradingDaysN),
      TextOf(m, CalcGreek)
    )
  }

  ghost function IntOf(m: imap<Key, Value>, f: IntField): int {
    if IntKey(f) in m && m[IntKey(f)].Int? then m[IntKey(f)].i else 0
  }

  ghost function RealOf(m: imap<Key, Value>, f: RealField): real {
    if RealKey(f) in m && m[RealKey(f)].Real? then m[RealKey(f)].r else 0.0
  }

  ghost function BoolOf(m: imap<Key, Value>, f: BoolField): bool {
    if BoolKey(f) in m && m[BoolKey(f)].Bool? then m[BoolKey(f)].b else false
  }

  ghost function TextOf(m: imap<Key, Value>, f: TextField): string {
    if TextKey(f) in m && m[TextKey(f)].Str? then m[TextKey(f)].s else ""
  }

  ghost function IntsOf(m: imap<Key, Value>, f: IntsField): seq<int> {
    if IntsKey(f) in m && m[IntsKey(f)].Ints? then m[IntsKey(f)].ints else []
  }

  ghost function RealsOf(m: imap<Key, Value>, f: RealsField): seq<real> {
    if RealsKey(f) in m && m[RealsKey(f)].Reals? then m[RealsKey(f)].reals else []
  }

  /** Decoding what ToJson produced gives back the same record. */
  lemma DecodeEncode(c: Config)
    ensures Decode(Encode(c)) == Some(c)
  {
    var m := Encode(c);
    IntRound(c);
    ReadInts(m);
    IntFields1(c);
    IntFields2(c);
    IntFields3(c);
    RealRound(c);
    ReadReals(m);
    RealFields1(c);
    RealFields2(c);
    RealFields3(c);
    RealFields4(c);
    RealFields5(c);
    RealFields6(c);
    BoolRound(c);
    ReadBools(m);
    BoolFields1(c);
    BoolFields2(c);
    BoolFields3(c);
    BoolFields4(c);
    BoolFields5(c);
    BoolFields6(c);
    BoolFields7(c);
    TextRound(c);
    ReadTexts(m);
    TextFields(c);
    IntsRound(c);
    ReadIntss(m);
    IntsFields(c);
    RealsRound(c);
    ReadRealss(m);
    RealsFields(c);
  }

  /** ToJson loses nothing: distinct records serialise differently. */
  lemma EncodeInjective(c: Config, d: Config)
    ensures Encode(c) == Encode(d) <==> c == d
  {
    if Encode(c) == Encode(d) {
      SameEncoding(c, d);
    }
  }

  lemma SameEncoding(c: Config, d: Config)
    requires Encode(c) == Encode(d)
    ensures c == d
  {
    DecodeEncode(c);
    DecodeEncode(d);
  }

  /** Setting calc_greek, as the greeks loop does before each submission,
      changes that attribute and no other. */
  lemma SetGreekChangesOnlyGreek(c: Config, greek: string)
    ensures forall k :: Get(c.(calcGreek := greek), k) ==
                          if k == TextKey(CalcGreek) then Str(greek) else Get(c, k)
  {

    forall k ensures Get(c.(calcGreek := greek), k) ==
      if k == TextKey(CalcGreek) then Str(greek) else Get(c, k)
    {
      match k
      case IntKey(f) => IntKept(c, greek, f);
      case RealKey(f) => RealKept(c, greek, f);
      case BoolKey(f) => BoolKept(c, greek, f);
      case TextKey(f) =>
      case IntsKey(f) => IntsKept(c, greek, f);
      case RealsKey(f) => RealsKept(c, greek, f);
    }
  }

  /** So the serialised record changes in exactly one entry. */
  lemma EncodeSetGreek(c: Config, greek: string)
    ensures Encode(c.(calcGreek := greek)) == Encode(c)[TextKey(CalcGreek) := Str(greek)]
  {
    SetGreekChangesOnlyGreek(c, greek);
  }

  // Helpers for the lemmas above: each covers one group of attributes, or a
  // few attributes at once, which keeps every proof obligation small.

  lemma IntKept(c: Config, greek: string, f: IntField)
    ensures IntAt(c.(calcGreek := greek), f) == IntAt(c, f)
  {
    var d := c.(calcGreek := greek);
    match f
    case RandRows => assert d.randRows == c.randRows;
    case RandCols => assert d.randCols == c.randCols;
    case RunsSize => assert d.runsSize == c.runsSize;
    case RunsStep => assert d.runsStep == c.runsStep;
    case YearDays => assert d.yearDays == c.yearDays;
    case PriceLimitStyle => assert d.priceLimitStyle == c.priceLimitStyle;
    case ExtendEndDays => assert d.extendEndDays == c.extendEndDays;
    case PayoffCalcMethod => assert d.payoffCalcMethod == c.payoffCalcMethod;
    case RunFrom => assert d.runFrom == c.runFrom;
    case RunDays => assert d.runDays == c.runDays;
    case RunsStepN => assert d.runsStepN == c.runsStepN;
    case YearDaysN => assert d.yearDaysN == c.yearDaysN;
  }

  lemma RealKept(c: Config, greek: string, f: RealField)
    ensures RealAt(c.(calcGreek := greek), f) == RealAt(c, f)
  {
    var d := c.(calcGreek := greek);
    match f
    case Sigma => assert d.sigma == c.sigma;
    case RiskFreeRate => assert d.riskFreeRate == c.riskFreeRate;
    case BasisRate => assert d.basisRate == c.basisRate;
    case PriceLimitRatio => assert d.priceLimitRatio == c.priceLimitRatio;
    case Notional => assert d.notional == c.notional;
    case StartPrice => assert d.startPrice == c.startPrice;
    case StrikePrice => assert d.strikePrice == c.strikePrice;
    case KnockORatio => assert d.knockORatio == c.knockORatio;
    case KnockIRatio => assert d.knockIRatio == c.knockIRatio;
    case KnockOSteps => assert d.knockOSteps == c.knockOSteps;
    case KnockIMaxLoss => assert d.knockIMaxLoss == c.knockIMaxLoss;
    case CouponRate => assert d.couponRate == c.couponRate;
    case MarginRate => assert d.marginRate == c.marginRate;
    case MarginInterest => assert d.marginInterest == c.marginInterest;
    case OptionFee => assert d.optionFee == c.optionFee;
    case OptionFeeInterest => assert d.optionFeeInterest == c.optionFeeInterest;
    case UkiukoCoupon => assert d.ukiukoCoupon == c.ukiukoCoupon;
    case KnockOPRate => assert d.knockOPRate == c.knockOPRate;
    case PrefixRebateAnnRate => assert d.prefixRebateAnnRate == c.prefixRebateAnnRate;
    case PrefixRebateAbsRate => assert d.prefixRebateAbsRate == c.prefixRebateAbsRate;
    case SuffixRebateAnnRate => assert d.suffixRebateAnnRate == c.suffixRebateAnnRate;
    case SuffixRebateAbsRate => assert d.suffixRebateAbsRate == c.suffixRebateAbsRate;
  }

  lemma BoolKept(c: Config, greek: string, f: BoolField)
    ensures BoolAt(c.(calcGreek := greek), f) == BoolAt(c, f)
  {
    var d := c.(calcGreek := greek);
    match f
    case RandQuasi => assert d.randQuasi == c.randQuasi;
    case DualSmooth => assert d.dualSmooth == c.dualSmooth;
    case TradeLong => assert d.tradeLong == c.tradeLong;
    case KnockIValid => assert d.knockIValid == c.knockIValid;
    case KnockIOccur => assert d.knockIOccur == c.knockIOccur;
    case KnockIMarginCall => assert d.knockIMarginCall == c.knockIMarginCall;
    case KnockIOnlyAtEnd => assert d.knockIOnlyAtEnd == c.knockIOnlyAtEnd;
    case KnockIAboveGet => assert d.knockIAboveGet == c.knockIAboveGet;
    case IsFutures => assert d.isFutures == c.isFutures;
    case IsForeign => assert d.isForeign == c.isForeign;
    case UseOptionFee => assert d.useOptionFee == c.useOptionFee;
    case BackEndLoad => assert d.backEndLoad == c.backEndLoad;
    case DiscountPayoff => assert d.discountPayoff == c.discountPayoff;
    case DiscountMargin => assert d.discountMargin == c.discountMargin;
    case DiscountOptionFee => assert d.discountOptionFee == c.discountOptionFee;
    case CompoundOptionFee => assert d.compoundOptionFee == c.compoundOptionFee;
    case MarketClose => assert d.marketClose == c.marketClose;
    case UkiukoCouponAnn => assert d.ukiukoCouponAnn == c.ukiukoCouponAnn;
    case UkiukoCouponUse => assert d.ukiukoCouponUse == c.ukiukoCouponUse;
    case KnockOPNeed => assert d.knockOPNeed == c.knockOPNeed;
    case PrefixRebateAnnNeed => assert d.prefixRebateAnnNeed == c.prefixRebateAnnNeed;
    case PrefixRebateAbsNeed => assert d.prefixRebateAbsNeed == c.prefixRebateAbsNeed;
    case SuffixRebateAnnNeed => assert d.suffixRebateAnnNeed == c.suffixRebateAnnNeed;
    case SuffixRebateAbsNeed => assert d.suffixRebateAbsNeed == c.suffixRebateAbsNeed;
    case DiscountRebate => assert d.discountRebate == c.discountRebate;
    case CompoundRebate => assert d.compoundRebate == c.compoundRebate;
  }

  lemma IntsKept(c: Config, greek: string, f: IntsField)
    ensures IntsAt(c.(calcGreek := greek), f) == IntsAt(c, f)
  {
    var d := c.(calcGreek := greek);
    match f
    case RandSeed => assert d.randSeed == c.randSeed;
    case KnockODays => assert d.knockODays == c.knockODays;
    case KnockODaysN => assert d.knockODaysN == c.knockODaysN;
    case TradingDaysN => assert d.tradingDaysN == c.tradingDaysN;
  }

  lemma RealsKept(c: Config, greek: string, f: RealsField)
    ensures RealsAt(c.(calcGreek := greek), f) == RealsAt(c, f)
  {
    var d := c.(calcGreek := greek);
    match f
    case CalcPrice => assert d.calcPrice == c.calcPrice;
    case KnockORate => assert d.knockORate == c.knockORate;
  }

  lemma IntRound(c: Config)
    ensures forall f :: IntOf(Encode(c), f) == IntAt(c, f)
  {
  }

  lemma ReadInts(m: imap<Key, Value>)
    ensures Read(m).randRows == IntOf(m, RandRows)
    ensures Read(m).randCols == IntOf(m, RandCols)
    ensures Read(m).runsSize == IntOf(m, RunsSize)
    ensures Read(m).runsStep == IntOf(m, RunsStep)
    ensures Read(m).yearDays == IntOf(m, YearDays)
    ensures Read(m).priceLimitStyle == IntOf(m, PriceLimitStyle)
    ensures Read(m).extendEndDays == IntOf(m, ExtendEndDays)
    ensures Read(m).payoffCalcMethod == IntOf(m, PayoffCalcMethod)
    ensures Read(m).runFrom == IntOf(m, RunFrom)
    ensures Read(m).runDays == IntOf(m, RunDays)
    ensures Read(m).runsStepN == IntOf(m, RunsStepN)
    ensures Read(m).yearDaysN == IntOf(m, YearDaysN)
  {
  }

  lemma IntFields1(c: Config)
    ensures IntAt(c, RandRows) == c.randRows
    ensures IntAt(c, RandCols) == c.randCols
    ensures IntAt(c, RunsSize) == c.runsSize
    ensures IntAt(c, RunsStep) == c.runsStep
  {
  }

  lemma IntFields2(c: Config)
    ensures IntAt(c, YearDays) == c.yearDays
    ensures IntAt(c, PriceLimitStyle) == c.priceLimitStyle
    ensures IntAt(c, ExtendEndDays) == c.extendEndDays
    ensures IntAt(c, PayoffCalcMethod) == c.payoffCalcMethod
  {
  }

  lemma IntFields3(c: Config)
    ensures IntAt(c, RunFrom) == c.runFrom
    ensures IntAt(c, RunDays) == c.runDays
    ensures IntAt(c, RunsStepN) == c.runsStepN
    ensures IntAt(c, YearDaysN) == c.yearDaysN
  {
  }

  lemma RealRound(c: Config)
    ensures forall f :: RealOf(Encode(c), f) == RealAt(c, f)
  {
  }

  lemma ReadReals(m: imap<Key, Value>)
    ensures Read(m).sigma == RealOf(m, Sigma)
    ensures Read(m).riskFreeRate == RealOf(m, RiskFreeRate)
    ensures Read(m).basisRate == RealOf(m, BasisRate)
    ensures Read(m).priceLimitRatio == RealOf(m, PriceLimitRatio)
    ensures Read(m).notional == RealOf(m, Notional)
    ensures Read(m).startPrice == RealOf(m, StartPrice)
    ensures Read(m).strikePrice == RealOf(m, StrikePrice)
    ensures Read(m).knockORatio == RealOf(m, KnockORatio)
    ensures Read(m).knockIRatio == RealOf(m, KnockIRatio)
    ensures Read(m).knockOSteps == RealOf(m, KnockOSteps)
    ensures Read(m).knockIMaxLoss == RealOf(m, KnockIMaxLoss)
    ensures Read(m).couponRate == RealOf(m, CouponRate)
    ensures Read(m).marginRate == RealOf(m, MarginRate)
    ensures Read(m).marginInterest == RealOf(m, MarginInterest)
    ensures Read(m).optionFee == RealOf(m, OptionFee)
    ensures Read(m).optionFeeInterest == RealOf(m, OptionFeeInterest)
    ensures Read(m).ukiukoCoupon == RealOf(m, UkiukoCoupon)
    ensures Read(m).knockOPRate == RealOf(m, KnockOPRate)
    ensures Read(m).prefixRebateAnnRate == RealOf(m, PrefixRebateAnnRate)
    ensures Read(m).prefixRebateAbsRate == RealOf(m, PrefixRebateAbsRate)
    ensures Read(m).suffixRebateAnnRate == RealOf(m, SuffixRebateAnnRate)
    ensures Read(m).suffixRebateAbsRate == RealOf(m, SuffixRebateAbsRate)
  {
  }

  lemma RealFields1(c: Config)
    ensures RealAt(c, Sigma) == c.sigma
    ensures RealAt(c, RiskFreeRate) == c.riskFreeRate
    ensures RealAt(c, BasisRate) == c.basisRate
    ensures RealAt(c, PriceLimitRatio) == c.priceLimitRatio
  {
  }

  lemma RealFields2(c: Config)
    ensures RealAt(c, Notional) == c.notional
    ensures RealAt(c, StartPrice) == c.startPrice
    ensures RealAt(c, StrikePrice) == c.strikePrice
    ensures RealAt(c, KnockORatio) == c.knockORatio
  {
  }

  lemma RealFields3(c: Config)
    ensures RealAt(c, KnockIRatio) == c.knockIRatio
    ensures RealAt(c, KnockOSteps) == c.knockOSteps
    ensures RealAt(c, KnockIMaxLoss) == c.knockIMaxLoss
    ensures RealAt(c, CouponRate) == c.couponRate
  {
  }

  lemma RealFields4(c: Config)
    ensures RealAt(c, MarginRate) == c.marginRate
    ensures RealAt(c, MarginInterest) == c.marginInterest
    ensures RealAt(c, OptionFee) == c.optionFee
    ensures RealAt(c, OptionFeeInterest) == c.optionFeeInterest
  {
  }

  lemma RealFields5(c: Config)
    ensures RealAt(c, UkiukoCoupon) == c.ukiukoCoupon
    ensures RealAt(c, KnockOPRate) == c.knockOPRate
    ensures RealAt(c, PrefixRebateAnnRate) == c.prefixRebateAnnRate
    ensures RealAt(c, PrefixRebateAbsRate) == c.prefixRebateAbsRate
  {
  }

  lemma RealFields6(c: Config)
    ensures RealAt(c, SuffixRebateAnnRate) == c.suffixRebateAnnRate
    ensures RealAt(c, SuffixRebateAbsRate) == c.suffixRebateAbsRate
  {
  }

  lemma BoolRound(c: Config)
    ensures forall f :: BoolOf(Encode(c), f) == BoolAt(c, f)
  {
  }

  lemma ReadBools(m: imap<Key, Value>)
    ensures Read(m).randQuasi == BoolOf(m, RandQuasi)
    ensures Read(m).dualSmooth == BoolOf(m, DualSmooth)
    ensures Read(m).tradeLong == BoolOf(m, TradeLong)
    ensures Read(m).knockIValid == BoolOf(m, KnockIValid)
    ensures Read(m).knockIOccur == BoolOf(m, KnockIOccur)
    ensures Read(m).knockIMarginCall == BoolOf(m, KnockIMarginCall)
    ensures Read(m).knockIOnlyAtEnd == BoolOf(m, KnockIOnlyAtEnd)
    ensures Read(m).knockIAboveGet == BoolOf(m, KnockIAboveGet)
    ensures Read(m).isFutures == BoolOf(m, IsFutures)
    ensures Read(m).isForeign == BoolOf(m, IsForeign)
    ensures Read(m).useOptionFee == BoolOf(m, UseOptionFee)
    ensures Read(m).backEndLoad == BoolOf(m, BackEndLoad)
    ensures Read(m).discountPayoff == BoolOf(m, DiscountPayoff)
    ensures Read(m).discountMargin == BoolOf(m, DiscountMargin)
    ensures Read(m).discountOptionFee == BoolOf(m, DiscountOptionFee)
    ensures Read(m).compoundOptionFee == BoolOf(m, CompoundOptionFee)
    ensures Read(m).marketClose == BoolOf(m, MarketClose)
    ensures Read(m).ukiukoCouponAnn == BoolOf(m, UkiukoCouponAnn)
    ensures Read(m).ukiukoCouponUse == BoolOf(m, UkiukoCouponUse)
    ensures Read(m).knockOPNeed == BoolOf(m, KnockOPNeed)
    ensures Read(m).prefixRebateAnnNeed == BoolOf(m, PrefixRebateAnnNeed)
    ensures Read(m).prefixRebateAbsNeed == BoolOf(m, PrefixRebateAbsNeed)
    ensures Read(m).suffixRebateAnnNeed == BoolOf(m, SuffixRebateAnnNeed)
    ensures Read(m).suffixRebateAbsNeed == BoolOf(m, SuffixRebateAbsNeed)
    ensures Read(m).discountRebate == BoolOf(m, DiscountRebate)
    ensures Read(m).compoundRebate == BoolOf(m, CompoundRebate)
  {
  }

  lemma BoolFields1(c: Config)
    ensures BoolAt(c, RandQuasi) == c.randQuasi
    ensures BoolAt(c, DualSmooth) == c.dualSmooth
    ensures BoolAt(c, TradeLong) == c.tradeLong
    ensures BoolAt(c, KnockIValid) == c.knockIValid
  {
  }

  lemma BoolFields2(c: Config)
    ensures BoolAt(c, KnockIOccur) == c.knockIOccur
    ensures BoolAt(c, KnockIMarginCall) == c.knockIMarginCall
    ensures BoolAt(c, KnockIOnlyAtEnd) == c.knockIOnlyAtEnd
    ensures BoolAt(c, KnockIAboveGet) == c.knockIAboveGet
  {
  }

  lemma BoolFields3(c: Config)
    ensures BoolAt(c, IsFutures) == c.isFutures
    ensures BoolAt(c, IsForeign) == c.isForeign
    ensures BoolAt(c, UseOptionFee) == c.useOptionFee
    ensures BoolAt(c, BackEndLoad) == c.backEndLoad
  {
  }

  lemma BoolFields4(c: Config)
    ensures BoolAt(c, DiscountPayoff) == c.discountPayoff
    ensures BoolAt(c, DiscountMargin) == c.discountMargin
    ensures BoolAt(c, DiscountOptionFee) == c.discountOptionFee
    ensures BoolAt(c, CompoundOptionFee) == c.compoundOptionFee
  {
  }

  lemma BoolFields5(c: Config)
    ensures BoolAt(c, MarketClose) == c.marketClose
    ensures BoolAt(c, UkiukoCouponAnn) == c.ukiukoCouponAnn
    ensures BoolAt(c, UkiukoCouponUse) == c.ukiukoCouponUse
    ensures BoolAt(c, KnockOPNeed) == c.knockOPNeed
  {
  }

  lemma BoolFields6(c: Config)
    ensures BoolAt(c, PrefixRebateAnnNeed) == c.prefixRebateAnnNeed
    ensures BoolAt(c, PrefixRebateAbsNeed) == c.prefixRebateAbsNeed
    ensures BoolAt(c, SuffixRebateAnnNeed) == c.suffixRebateAnnNeed
    ensures BoolAt(c, SuffixRebateAbsNeed) == c.suffixRebateAbsNeed
  {
  }

  lemma BoolFields7(c: Config)
    ensures BoolAt(c, DiscountRebate) == c.discountRebate
    ensures BoolAt(c, CompoundRebate) == c.compoundRebate
  {
  }

  lemma TextRound(c: Config)
    ensures forall f :: TextOf(Encode(c), f) == TextAt(c, f)
  {
  }

  lemma ReadTexts(m: imap<Key, Value>)
    ensures Read(m).calcGreek == TextOf(m, CalcGreek)
  {
  }

  lemma TextFields(c: Config)
    ensures TextAt(c, CalcGreek) == c.calcGreek
  {
  }

  lemma IntsRound(c: Config)
    ensures forall f :: IntsOf(Encode(c), f) == IntsAt(c, f)
  {
  }

  lemma ReadIntss(m: imap<Key, Value>)
    ensures Read(m).randSeed == IntsOf(m, RandSeed)
    ensures Read(m).knockODays == IntsOf(m, KnockODays)
    ensures Read(m).knockODaysN == IntsOf(m, KnockODaysN)
    ensures Read(m).tradingDaysN == IntsOf(m, TradingDaysN)
  {
  }

  lemma IntsFields(c: Config)
    ensures IntsAt(c, RandSeed) == c.randSeed
    ensures IntsAt(c, KnockODays) == c.knockODays
    ensures IntsAt(c, KnockODaysN) == c.knockODaysN
    ensures IntsAt(c, TradingDaysN) == c.tradingDaysN
  {
  }

  lemma RealsRound(c: Config)
    ensures forall f :: RealsOf(Encode(c), f) == RealsAt(c, f)
  {
  }

  lemma ReadRealss(m: imap<Key, Value>)
    ensures Read(m).calcPrice == RealsOf(m, CalcPrice)
    ensures Read(m).knockORate == RealsOf(m, KnockORate)
  {
  }

  lemma RealsFields(c: Config)
    ensures RealsAt(c, CalcPrice) == c.calcPrice
    ensures RealsAt(c, KnockORate) == c.knockORate
  {
  }

}