/** The barrier sharkfin configuration record (the Python and the JavaScript
    demonstrations declare the same one): its attribute inventory, its
    initial values, and its serialisation as a flat field map. */
module SharkfinConfig {
  import opened Fields

  // The attributes of the record, grouped by the kind of value each holds;
  // within a group they keep the order in which the sharkfin Config declares them.

  datatype IntField =
      RandRows | RandCols | RunsSize | RunsStep
    | YearDays | PriceLimitStyle | OptionType | BarrierType
    | ExtendEndDays | PayoffCalcMethod | RunFrom | RunDays
    | RunsStepN | YearDaysN

  datatype RealField =
      Sigma | BasisRate | RiskFreeRate | PriceLimitRatio
    | Notional | StartPrice | HL | HH
    | KL | KH | XL | XH
    | PL | PH | OptionFee | OptionFeeInterest
    | KnockOPoint | MarginRate | MarginInterest | ConsumedOptionFeeRate
    | OccupiedOptionFeeRate | PrefixRebateAnnRate | PrefixRebateAbsRate | SuffixRebateAnnRate
    | SuffixRebateAbsRate

  datatype BoolField =
      RandQuasi | DualSmooth | TradeLong | ReverseKnockOut
    | StrikePayoffAbs | BackEndLoad | IsKopDelay | KnockOOccur
    | IsFutures | IsForeign | DiscountPayoff | DiscountMargin
    | DiscountOptionFee | CompoundOptionFee | MarketClose | PrefixRebateAnnNeed
    | PrefixRebateAbsNeed | SuffixRebateAnnNeed | SuffixRebateAbsNeed | DiscountRebate
    | CompoundRebate

  datatype TextField =
      CalcGreek

  datatype IntsField =
      RandSeed | TradingDaysN

  datatype RealsField =
      CalcPrice

  /** An attribute of the record; its kind is fixed by its group. */
  datatype Key =
    | IntKey(intField: IntField)
    | RealKey(realField: RealField)
    | BoolKey(boolField: BoolField)
    | TextKey(textField: TextField)
    | IntsKey(intsField: IntsField)
    | RealsKey(realsField: RealsField)

  /** The record that the sharkfin Config object holds; one field per attribute, in declaration order. */
  datatype Config = Config(
    randRows: int,
    randCols: int,
    randQuasi: bool,
    randSeed: seq<int>,
    dualSmooth: bool,
    runsSize: int,
    runsStep: int,
    yearDays: int,
    sigma: real,
    basisRate: real,
    riskFreeRate: real,
    priceLimitRatio: real,
    priceLimitStyle: int,
    notional: real,
    tradeLong: bool,
    optionType: int,
    barrierType: int,
    reverseKnockOut: bool,
    strikePayoffAbs: bool,
    startPrice: real,
    hL: real,
    hH: real,
    kL: real,
    kH: real,
    xL: real,
    xH: real,
    pL: real,
    pH: real,
    optionFee: real,
    optionFeeInterest: real,
    backEndLoad: bool,
    isKopDelay: bool,
    knockOOccur: bool,
    knockOPoint: real,
    isFutures: bool,
    isForeign: bool,
    marginRate: real,
    marginInterest: real,
    discountPayoff: bool,
    discountMargin: bool,
    discountOptionFee: bool,
    compoundOptionFee: bool,
    extendEndDays: int,
    marketClose: bool,
    consumedOptionFeeRate: real,
    occupiedOptionFeeRate: real,
    prefixRebateAnnRate: real,
    prefixRebateAnnNeed: bool,
    prefixRebateAbsRate: real,
    prefixRebateAbsNeed: bool,
    suffixRebateAnnRate: real,
    suffixRebateAnnNeed: bool,
    suffixRebateAbsRate: real,
    suffixRebateAbsNeed: bool,
    discountRebate: bool,
    compoundRebate: bool,
    payoffCalcMethod: int,
    calcPrice: seq<real>,
    runFrom: int,
    runDays: int,
    runsStepN: int,
    yearDaysN: int,
    tradingDaysN: seq<int>,
    calcGreek: string
  )

  function IntAt(c: Config, f: IntField): int {
    match f
    case RandRows => c.randRows
    case RandCols => c.randCols
    case RunsSize => c.runsSize
    case RunsStep => c.runsStep
    case YearDays => c.yearDays
    case PriceLimitStyle => c.priceLimitStyle
    case OptionType => c.optionType
    case BarrierType => c.barrierType
    case ExtendEndDays => c.extendEndDays
    case PayoffCalcMethod => c.payoffCalcMethod
    case RunFrom => c.runFrom
    case RunDays => c.runDays
    case RunsStepN => c.runsStepN
    case YearDaysN => c.yearDaysN
  }

  function RealAt(c: Config, f: RealField): real {
    match f
    case Sigma => c.sigma
    case BasisRate => c.basisRate
    case RiskFreeRate => c.riskFreeRate
    case PriceLimitRatio => c.priceLimitRatio
    case Notional => c.notional
    case StartPrice => c.startPrice
    case HL => c.hL
    case HH => c.hH
    case KL => c.kL
    case KH => c.kH
    case XL => c.xL
    case XH => c.xH
    case PL => c.pL
    case PH => c.pH
    case OptionFee => c.optionFee
    case OptionFeeInterest => c.optionFeeInterest
    case KnockOPoint => c.knockOPoint
    case MarginRate => c.marginRate
    case MarginInterest => c.marginInterest
    case ConsumedOptionFeeRate => c.consumedOptionFeeRate
    case OccupiedOptionFeeRate => c.occupiedOptionFeeRate
    case PrefixRebateAnnRate => c.prefixRebateAnnRate
    case PrefixRebateAbsRate => c.prefixRebateAbsRate
    case SuffixRebateAnnRate => c.suffixRebateAnnRate
    case SuffixRebateAbsRate => c.suffixRebateAbsRate
  }

  function BoolAt(c: Config, f: BoolField): bool {
    match f
    case RandQuasi => c.randQuasi
    case DualSmooth => c.dualSmooth
    case TradeLong => c.tradeLong
    case ReverseKnockOut => c.reverseKnockOut
    case StrikePayoffAbs => c.strikePayoffAbs
    case BackEndLoad => c.backEndLoad
    case IsKopDelay => c.isKopDelay
    case KnockOOccur => c.knockOOccur
    case IsFutures => c.isFutures
    case IsForeign => c.isForeign
    case DiscountPayoff => c.discountPayoff
    case DiscountMargin => c.discountMargin
    case DiscountOptionFee => c.discountOptionFee
    case CompoundOptionFee => c.compoundOptionFee
    case MarketClose => c.marketClose
    case PrefixRebateAnnNeed => c.prefixRebateAnnNeed
    case PrefixRebateAbsNeed => c.prefixRebateAbsNeed
    case SuffixRebateAnnNeed => c.suffixRebateAnnNeed
    case SuffixRebateAbsNeed => c.suffixRebateAbsNeed
    case DiscountRebate => c.discountRebate
    case CompoundRebate => c.compoundRebate
  }

  function TextAt(c: Config, f: TextField): string {
    match f
    case CalcGreek => c.calcGreek
  }

  function IntsAt(c: Config, f: IntsField): seq<int> {
    match f
    case RandSeed => c.randSeed
    case TradingDaysN => c.tradingDaysN
  }

  function RealsAt(c: Config, f: RealsField): seq<real> {
    match f
    case CalcPrice => c.calcPrice
  }

  /** The attribute's name: its key in the serialised record. */
  function Name(k: Key): string {
    match k
    case IntKey(RandRows) => "rand_rows"
    case IntKey(RandCols) => "rand_cols"
    case IntKey(RunsSize) => "runs_size"
    case IntKey(RunsStep) => "runs_step"
    case IntKey(YearDays) => "year_days"
    case IntKey(PriceLimitStyle) => "price_limit_style"
    case IntKey(OptionType) => "option_type"
    case IntKey(BarrierType) => "barrier_type"
    case IntKey(ExtendEndDays) => "extend_end_days"
    case IntKey(PayoffCalcMethod) => "payoff_calc_method"
    case IntKey(RunFrom) => "run_from"
    case IntKey(RunDays) => "run_days"
    case IntKey(RunsStepN) => "runs_step_n"
    case IntKey(YearDaysN) => "year_days_n"
    case RealKey(Sigma) => "sigma"
    case RealKey(BasisRate) => "basis_rate"
    case RealKey(RiskFreeRate) => "risk_free_rate"
    case RealKey(PriceLimitRatio) => "price_limit_ratio"
    case RealKey(Notional) => "notional"
    case RealKey(StartPrice) => "start_price"
    case RealKey(HL) => "h_l"
    case RealKey(HH) => "h_h"
    case RealKey(KL) => "k_l"
    case RealKey(KH) => "k_h"
    case RealKey(XL) => "x_l"
    case RealKey(XH) => "x_h"
    case RealKey(PL) => "p_l"
    case RealKey(PH) => "p_h"
    case RealKey(OptionFee) => "option_fee"
    case RealKey(OptionFeeInterest) => "option_fee_interest"
    case RealKey(KnockOPoint) => "knock_o_point"
    case RealKey(MarginRate) => "margin_rate"
    case RealKey(MarginInterest) => "margin_interest"
    case RealKey(ConsumedOptionFeeRate) => "consumed_option_fee_rate"
    case RealKey(OccupiedOptionFeeRate) => "occupied_option_fee_rate"
    case RealKey(PrefixRebateAnnRate) => "prefix_rebate_ann_rate"
    case RealKey(PrefixRebateAbsRate) => "prefix_rebate_abs_rate"
    case RealKey(SuffixRebateAnnRate) => "suffix_rebate_ann_rate"
    case RealKey(SuffixRebateAbsRate) => "suffix_rebate_abs_rate"
    case BoolKey(RandQuasi) => "rand_quasi"
    case BoolKey(DualSmooth) => "dual_smooth"
    case BoolKey(TradeLong) => "trade_long"
    case BoolKey(ReverseKnockOut) => "reverse_knock_out"
    case BoolKey(StrikePayoffAbs) => "strike_payoff_abs"
    case BoolKey(BackEndLoad) => "back_end_load"
    case BoolKey(IsKopDelay) => "is_kop_delay"
    case BoolKey(KnockOOccur) => "knock_o_occur"
    case BoolKey(IsFutures) => "is_futures"
    case BoolKey(IsForeign) => "is_foreign"
    case BoolKey(DiscountPayoff) => "discount_payoff"
    case BoolKey(DiscountMargin) => "discount_margin"
    case BoolKey(DiscountOptionFee) => "discount_option_fee"
    case BoolKey(CompoundOptionFee) => "compound_option_fee"
    case BoolKey(MarketClose) => "market_close"
    case BoolKey(PrefixRebateAnnNeed) => "prefix_rebate_ann_need"
    case BoolKey(PrefixRebateAbsNeed) => "prefix_rebate_abs_need"
    case BoolKey(SuffixRebateAnnNeed) => "suffix_rebate_ann_need"
    case BoolKey(SuffixRebateAbsNeed) => "suffix_rebate_abs_need"
    case BoolKey(DiscountRebate) => "discount_rebate"
    case BoolKey(CompoundRebate) => "compound_rebate"
    case TextKey(CalcGreek) => "calc_greek"
    case IntsKey(RandSeed) => "rand_seed"
    case IntsKey(TradingDaysN) => "trading_days_n"
    case RealsKey(CalcPrice) => "calc_price"
  }

  function KindOf(k: Key): Kind {
    match k
    case IntKey(_) => IntKind
    case RealKey(_) => RealKind
    case BoolKey(_) => BoolKind
    case TextKey(_) => StrKind
    case IntsKey(_) => IntsKind
    case RealsKey(_) => RealsKind
  }

  /** The current value of attribute k, as the serialised record holds it. */
  function Get(c: Config, k: Key): Value {
    match k
    case IntKey(f) => Int(IntAt(c, f))
    case RealKey(f) => Real(RealAt(c, f))
    case BoolKey(f) => Bool(BoolAt(c, f))
    case TextKey(f) => Str(TextAt(c, f))
    case IntsKey(f) => Ints(IntsAt(c, f))
    case RealsKey(f) => Reals(RealsAt(c, f))
  }

  /** The boolean attributes that a fresh record sets to true. */
  const TrueAtStart: set<BoolField> := {DualSmooth}

  /** The record a fresh Config() holds: every number 0, every list empty,
      the string empty, and no boolean true except those in TrueAtStart. */
  function Default(): (c: Config)
    ensures forall f :: IntAt(c, f) == 0
    ensures forall f :: RealAt(c, f) == 0.0
    ensures forall f :: BoolAt(c, f) <==> f in TrueAtStart
    ensures forall f :: TextAt(c, f) == ""
    ensures forall f :: IntsAt(c, f) == []
    ensures forall f :: RealsAt(c, f) == []
  {
    Config(
      0,
      0,
      false,
      [],
      true,
      0,
      0,
      0,
      0.0,
      0.0,
      0.0,
      0.0,
      0,
      0.0,
      false,
      0,
      0,
      false,
      false,
      0.0,
      0.0,
      0.0,
      0.0,
      0.0,
      0.0,
      0.0,
      0.0,
      0.0,
      0.0,
      0.0,
      false,
      false,
      false,
      0.0,
      false,
      false,
      0.0,
      0.0,
      false,
      false,
      false,
      false,
      0,
      false,
      0.0,
      0.0,
      0.0,
      false,
      0.0,
      false,
      0.0,
      false,
      0.0,
      false,
      false,
      false,
      0,
      [],
      0,
      0,
      0,
      0,
      [],
      ""
    )
  }

}

/** ToJson and its inverse for the sharkfin record. A serialised record is
    modelled as a map from attribute to value; the text encoding itself is not
    modelled. */
module SharkfinJson {
  import opened Fields
  import opened SharkfinConfig


  /** Every attribute present, each holding a value of its own kind. */
  ghost predicate WellTyped(m: imap<Key, Value>) {
    forall k :: k in m && m[k].KindOf() == KindOf(k)
  }

  /** ToJson: one entry per attribute, holding its current value. */
  ghost function Encode(c: Config): (m: imap<Key, Value>)
    ensures WellTyped(m)
  {
    imap k | true :: Get(c, k)
  }

  /** Reads a record back from a field map; None when an attribute is missing
      or holds a value of the wrong kind. */
  ghost function Decode(m: imap<Key, Value>): (r: Option<Config>)
    ensures r.Some? <==> WellTyped(m)
  {
    if WellTyped(m) then Some(Read(m)) else None
  }

  /** The record whose attributes hold the values m gives them. */
  ghost function Read(m: imap<Key, Value>): Config {
    Config(
      IntOf(m, RandRows),
      IntOf(m, RandCols),
      BoolOf(m, RandQuasi),
      IntsOf(m, RandSeed),
      BoolOf(m, DualSmooth),
      IntOf(m, RunsSize),
      IntOf(m, RunsStep),
      IntOf(m, YearDays),
      RealOf(m, Sigma),
      RealOf(m, BasisRate),
      RealOf(m, RiskFreeRate),
      RealOf(m, PriceLimitRatio),
      IntOf(m, PriceLimitStyle),
      RealOf(m, Notional),
      BoolOf(m, TradeLong),
      IntOf(m, OptionType),
      IntOf(m, BarrierType),
      BoolOf(m, ReverseKnockOut),
      BoolOf(m, StrikePayoffAbs),
      RealOf(m, StartPrice),
      RealOf(m, HL),
      RealOf(m, HH),
      RealOf(m, KL),
      RealOf(m, KH),
      RealOf(m, XL),
      RealOf(m, XH),
      RealOf(m, PL),
      RealOf(m, PH),
      RealOf(m, OptionFee),
      RealOf(m, OptionFeeInterest),
      BoolOf(m, BackEndLoad),
      BoolOf(m, IsKopDelay),
      BoolOf(m, KnockOOccur),
      RealOf(m, KnockOPoint),
      BoolOf(m, IsFutures),
      BoolOf(m, IsForeign),
      RealOf(m, MarginRate),
      RealOf(m, MarginInterest),
      BoolOf(m, DiscountPayoff),
      BoolOf(m, DiscountMargin),
      BoolOf(m, DiscountOptionFee),
      BoolOf(m, CompoundOptionFee),
      IntOf(m, ExtendEndDays),
      BoolOf(m, MarketClose),
      RealOf(m, ConsumedOptionFeeRate),
      RealOf(m, OccupiedOptionFeeRate),
      RealOf(m, PrefixRebateAnnRate),
      BoolOf(m, PrefixRebateAnnNeed),
      RealOf(m, PrefixRebateAbsRate),
      BoolOf(m, PrefixRebateAbsNeed),
      RealOf(m, SuffixRebateAnnRate),
      BoolOf(m, SuffixRebateAnnNeed),
      RealOf(m, SuffixRebateAbsRate),
      BoolOf(m, SuffixRebateAbsNeed),
      BoolOf(m, DiscountRebate),
      BoolOf(m, CompoundRebate),
      IntOf(m, PayoffCalcMethod),
      RealsOf(m, CalcPrice),
      IntOf(m, RunFrom),
      IntOf(m, RunDays),
      IntOf(m, RunsStepN),
      IntOf(m, YearDaysN),
      IntsOf(m, TradingDaysN),
      TextOf(m, CalcGreek)
    )
  }

  ghost function IntOf(m: imap<Key, Value>, f: IntField): int {
    if IntKey(f) in m && m[IntKey(f)].Int? then m[IntKey(f)].i else 0
  }

  ghost function RealOf(m: imap<Key, Value>, f: RealField): real {
    if RealKey(f) in m && m[RealKey(f)].Real? then m[RealKey(f)].r else 0.0
  }

  ghost function BoolOf(m: imap<Key, Value>, f: BoolField): bool {
    if BoolKey(f) in m && m[BoolKey(f)].Bool? then m[BoolKey(f)].b else false
  }

  ghost function TextOf(m: imap<Key, Value>, f: TextField): string {
    if TextKey(f) in m && m[TextKey(f)].Str? then m[TextKey(f)].s else ""
  }

  ghost function IntsOf(m: imap<Key, Value>, f: IntsField): seq<int> {
    if IntsKey(f) in m && m[IntsKey(f)].Ints? then m[IntsKey(f)].ints else []
  }

  ghost function RealsOf(m: imap<Key, Value>, f: RealsField): seq<real> {
    if RealsKey(f) in m && m[RealsKey(f)].Reals? then m[RealsKey(f)].reals else []
  }

  /** Decoding what ToJson produced gives back the same record. */
  lemma DecodeEncode(c: Config)
    ensures Decode(Encode(c)) == Some(c)
  {
    var m := Encode(c);
    IntRound(c);
    ReadInts(m);
    IntFields1(c);
    IntFields2(c);
    IntFields3(c);
    IntFields4(c);
    RealRound(c);
    ReadReals(m);
    RealFields1(c);
    RealFields2(c);
    RealFields3(c);
    RealFields4(c);
    RealFields5(c);
    RealFields6(c);
    RealFields7(c);
    BoolRound(c);
    ReadBools(m);
    BoolFields1(c);
    BoolFields2(c);
    BoolFields3(c);
    BoolFields4(c);
    BoolFields5(c);
    BoolFields6(c);
    TextRound(c);
    ReadTexts(m);
    TextFields(c);
    IntsRound(c);
    ReadIntss(m);
    IntsFields(c);
    RealsRound(c);
    ReadRealss(m);
    RealsFields(c);
  }

  /** ToJson loses nothing: distinct records serialise differently. */
  lemma EncodeInjective(c: Config, d: Config)
    ensures Encode(c) == Encode(d) <==> c == d
  {
    if Encode(c) == Encode(d) {
      SameEncoding(c, d);
    }
  }

  lemma SameEncoding(c: Config, d: Config)
    requires Encode(c) == Encode(d)
    ensures c == d
  {
    DecodeEncode(c);
    DecodeEncode(d);
  }

  /** Setting calc_greek, as the greeks loop does before each submission,
      changes that attribute and no other. */
  lemma SetGreekChangesOnlyGreek(c: Config, greek: string)
    ensures forall k :: Get(c.(calcGreek := greek), k) ==
                          if k == TextKey(CalcGreek) then Str(greek) else Get(c, k)
  {

    forall k ensures Get(c.(calcGreek := greek), k) ==
      if k == TextKey(CalcGreek) then Str(greek) else Get(c, k)
    {
      match k
      case IntKey(f) => IntKept(c, greek, f);
      case RealKey(f) => RealKept(c, greek, f);
      case BoolKey(f) => BoolKept(c, greek, f);
      case TextKey(f) =>
      case IntsKey(f) => IntsKept(c, greek, f);
      case RealsKey(f) => RealsKept(c, greek, f);
    }
  }

  /** So the serialised record changes in exactly one entry. */
  lemma EncodeSetGreek(c: Config, greek: string)
    ensures Encode(c.(calcGreek := greek)) == Encode(c)[TextKey(CalcGreek) := Str(greek)]
  {
    SetGreekChangesOnlyGreek(c, greek);
  }

  // Helpers for the lemmas above: each covers one group of attributes, or a
  // few attributes at once, which keeps every proof obligation small.

  lemma IntKept(c: Config, greek: string, f: IntField)
    ensures IntAt(c.(calcGreek := greek), f) == IntAt(c, f)
  {
    var d := c.(calcGreek := greek);
    match f
    case RandRows => assert d.randRows == c.randRows;
    case RandCols => assert d.randCols == c.randCols;
    case RunsSize => assert d.runsSize == c.runsSize;
    case RunsStep => assert d.runsStep == c.runsStep;
    case YearDays => assert d.yearDays == c.yearDays;
    case PriceLimitStyle => assert d.priceLimitStyle == c.priceLimitStyle;
    case OptionType => assert d.optionType == c.optionType;
    case BarrierType => assert d.barrierType == c.barrierType;
    case ExtendEndDays => assert d.extendEndDays == c.extendEndDays;
    case PayoffCalcMethod => assert d.payoffCalcMethod == c.payoffCalcMethod;
    case RunFrom => assert d.runFrom == c.runFrom;
    case RunDays => assert d.runDays == c.runDays;
    case RunsStepN => assert d.runsStepN == c.runsStepN;
    case YearDaysN => assert d.yearDaysN == c.yearDaysN;
  }

  lemma RealKept(c: Config, greek: string, f: RealField)
    ensures RealAt(c.(calcGreek := greek), f) == RealAt(c, f)
  {
    var d := c.(calcGreek := greek);
    match f
    case Sigma => assert d.sigma == c.sigma;
    case BasisRate => assert d.basisRate == c.basisRate;
    case RiskFreeRate => assert d.riskFreeRate == c.riskFreeRate;
    case PriceLimitRatio => assert d.priceLimitRatio == c.priceLimitRatio;
    case Notional => assert d.notional == c.notional;
    case StartPrice => assert d.startPrice == c.startPrice;
    case HL => assert d.hL == c.hL;
    case HH => assert d.hH == c.hH;
    case KL => assert d.kL == c.kL;
    case KH => assert d.kH == c.kH;
    case XL => assert d.xL == c.xL;
    case XH => assert d.xH == c.xH;
    case PL => assert d.pL == c.pL;
    case PH => assert d.pH == c.pH;
    case OptionFee => assert d.optionFee == c.optionFee;
    case OptionFeeInterest => assert d.optionFeeInterest == c.optionFeeInterest;
    case KnockOPoint => assert d.knockOPoint == c.knockOPoint;
    case MarginRate => assert d.marginRate == c.marginRate;
    case MarginInterest => assert d.marginInterest == c.marginInterest;
    case ConsumedOptionFeeRate => assert d.consumedOptionFeeRate == c.consumedOptionFeeRate;
    case OccupiedOptionFeeRate => assert d.occupiedOptionFeeRate == c.occupiedOptionFeeRate;
    case PrefixRebateAnnRate => assert d.prefixRebateAnnRate == c.prefixRebateAnnRate;
    case PrefixRebateAbsRate => assert d.prefixRebateAbsRate == c.prefixRebateAbsRate;
    case SuffixRebateAnnRate => assert d.suffixRebateAnnRate == c.suffixRebateAnnRate;
    case SuffixRebateAbsRate => assert d.suffixRebateAbsRate == c.suffixRebateAbsRate;
  }

  lemma BoolKept(c: Config, greek: string, f: BoolField)
    ensures BoolAt(c.(calcGreek := greek), f) == BoolAt(c, f)
  {
    var d := c.(calcGreek := greek);
    match f
    case RandQuasi => assert d.randQuasi == c.randQuasi;
    case DualSmooth => assert d.dualSmooth == c.dualSmooth;
    case TradeLong => assert d.tradeLong == c.tradeLong;
    case ReverseKnockOut => assert d.reverseKnockOut == c.reverseKnockOut;
    case StrikePayoffAbs => assert d.strikePayoffAbs == c.strikePayoffAbs;
    case BackEndLoad => assert d.backEndLoad == c.backEndLoad;
    case IsKopDelay => assert d.isKopDelay == c.isKopDelay;
    case KnockOOccur => assert d.knockOOccur == c.knockOOccur;
    case IsFutures => assert d.isFutures == c.isFutures;
    case IsForeign => assert d.isForeign == c.isForeign;
    case DiscountPayoff => assert d.discountPayoff == c.discountPayoff;
    case DiscountMargin => assert d.discountMargin == c.discountMargin;
    case DiscountOptionFee => assert d.discountOptionFee == c.discountOptionFee;
    case CompoundOptionFee => assert d.compoundOptionFee == c.compoundOptionFee;
    case MarketClose => assert d.marketClose == c.marketClose;
    case PrefixRebateAnnNeed => assert d.prefixRebateAnnNeed == c.prefixRebateAnnNeed;
    case PrefixRebateAbsNeed => assert d.prefixRebateAbsNeed == c.prefixRebateAbsNeed;
    case SuffixRebateAnnNeed => assert d.suffixRebateAnnNeed == c.suffixRebateAnnNeed;
    case SuffixRebateAbsNeed => assert d.suffixRebateAbsNeed == c.suffixRebateAbsNeed;
    case DiscountRebate => assert d.discountRebate == c.discountRebate;
    case CompoundRebate => assert d.compoundRebate == c.compoundRebate;
  }

  lemma IntsKept(c: Config, greek: string, f: IntsField)
    ensures IntsAt(c.(calcGreek := greek), f) == IntsAt(c, f)
  {
    var d := c.(calcGreek := greek);
    match f
    case RandSeed => assert d.randSeed == c.randSeed;
    case TradingDaysN => assert d.tradingDaysN == c.tradingDaysN;
  }

  lemma RealsKept(c: Config, greek: string, f: RealsField)
    ensures RealsAt(c.(calcGreek := greek), f) == RealsAt(c, f)
  {
    var d := c.(calcGreek := greek);
    match f
    case CalcPrice => assert d.calcPrice == c.calcPrice;
  }

  lemma IntRound(c: Config)
    ensures forall f :: IntOf(Encode(c), f) == IntAt(c, f)
  {
  }

  lemma ReadInts(m: imap<Key, Value>)
    ensures Read(m).randRows == IntOf(m, RandRows)
    ensures Read(m).randCols == IntOf(m, RandCols)
    ensures Read(m).runsSize == IntOf(m, RunsSize)
    ensures Read(m).runsStep == IntOf(m, RunsStep)
    ensures Read(m).yearDays == IntOf(m, YearDays)
    ensures Read(m).priceLimitStyle == IntOf(m, PriceLimitStyle)
    ensures Read(m).optionType == IntOf(m, OptionType)
    ensures Read(m).barrierType == IntOf(m, BarrierType)
    ensures Read(m).extendEndDays == IntOf(m, ExtendEndDays)
    ensures Read(m).payoffCalcMethod == IntOf(m, PayoffCalcMethod)
    ensures Read(m).runFrom == IntOf(m, RunFrom)
    ensures Read(m).runDays == IntOf(m, RunDays)
    ensures Read(m).runsStepN == IntOf(m, RunsStepN)
    ensures Read(m).yearDaysN == IntOf(m, YearDaysN)
  {
  }

  lemma IntFields1(c: Config)
    ensures IntAt(c, RandRows) == c.randRows
    ensures IntAt(c, RandCols) == c.randCols
    ensures IntAt(c, RunsSize) == c.runsSize
    ensures IntAt(c, RunsStep) == c.runsStep
  {
  }

  lemma IntFields2(c: Config)
    ensures IntAt(c, YearDays) == c.yearDays
    ensures IntAt(c, PriceLimitStyle) == c.priceLimitStyle
    ensures IntAt(c, OptionType) == c.optionType
    ensures IntAt(c, BarrierType) == c.barrierType
  {
  }

  lemma IntFields3(c: Config)
    ensures IntAt(c, ExtendEndDays) == c.extendEndDays
    ensures IntAt(c, PayoffCalcMethod) == c.payoffCalcMethod
    ensures IntAt(c, RunFrom) == c.runFrom
    ensures IntAt(c, RunDays) == c.runDays
  {
  }

  lemma IntFields4(c: Config)
    ensures IntAt(c, RunsStepN) == c.runsStepN
    ensures IntAt(c, YearDaysN) == c.yearDaysN
  {
  }

  lemma RealRound(c: Config)
    ensures forall f :: RealOf(Encode(c), f) == RealAt(c, f)
  {
  }

  lemma ReadReals(m: imap<Key, Value>)
    ensures Read(m).sigma == RealOf(m, Sigma)
    ensures Read(m).basisRate == RealOf(m, BasisRate)
    ensures Read(m).riskFreeRate == RealOf(m, RiskFreeRate)
    ensures Read(m).priceLimitRatio == RealOf(m, PriceLimitRatio)
    ensures Read(m).notional == RealOf(m, Notional)
    ensures Read(m).startPrice == RealOf(m, StartPrice)
    ensures Read(m).hL == RealOf(m, HL)
    ensures Read(m).hH == RealOf(m, HH)
    ensures Read(m).kL == RealOf(m, KL)
    ensures Read(m).kH == RealOf(m, KH)
    ensures Read(m).xL == RealOf(m, XL)
    ensures Read(m).xH == RealOf(m, XH)
    ensures Read(m).pL == RealOf(m, PL)
    ensures Read(m).pH == RealOf(m, PH)
    ensures Read(m).optionFee == RealOf(m, OptionFee)
    ensures Read(m).optionFeeInterest == RealOf(m, OptionFeeInterest)
    ensures Read(m).knockOPoint == RealOf(m, KnockOPoint)
    ensures Read(m).marginRate == RealOf(m, MarginRate)
    ensures Read(m).marginInterest == RealOf(m, MarginInterest)
    ensures Read(m).consumedOptionFeeRate == RealOf(m, ConsumedOptionFeeRate)
    ensures Read(m).occupiedOptionFeeRate == RealOf(m, OccupiedOptionFeeRate)
    ensures Read(m).prefixRebateAnnRate == RealOf(m, PrefixRebateAnnRate)
    ensures Read(m).prefixRebateAbsRate == RealOf(m, PrefixRebateAbsRate)
    ensures Read(m).suffixRebateAnnRate == RealOf(m, SuffixRebateAnnRate)
    ensures Read(m).suffixRebateAbsRate == RealOf(m, SuffixRebateAbsRate)
  {
  }

  lemma RealFields1(c: Config)
    ensures RealAt(c, Sigma) == c.sigma
    ensures RealAt(c, BasisRate) == c.basisRate
    ensures RealAt(c, RiskFreeRate) == c.riskFreeRate
    ensures RealAt(c, PriceLimitRatio) == c.priceLimitRatio
  {
  }

  lemma RealFields2(c: Config)
    ensures RealAt(c, Notional) == c.notional
    ensures RealAt(c, StartPrice) == c.startPrice
    ensures RealAt(c, HL) == c.hL
    ensures RealAt(c, HH) == c.hH
  {
  }

  lemma RealFields3(c: Config)
    ensures RealAt(c, KL) == c.kL
    ensures RealAt(c, KH) == c.kH
    ensures RealAt(c, XL) == c.xL
    ensures RealAt(c, XH) == c.xH
  {
  }

  lemma RealFields4(c: Config)
    ensures RealAt(c, PL) == c.pL
    ensures RealAt(c, PH) == c.pH
    ensures RealAt(c, OptionFee) == c.optionFee
    ensures RealAt(c, OptionFeeInterest) == c.optionFeeInterest
  {
  }

  lemma RealFields5(c: Config)
    ensures RealAt(c, KnockOPoint) == c.knockOPoint
    ensures RealAt(c, MarginRate) == c.marginRate
    ensures RealAt(c, MarginInterest) == c.marginInterest
    ensures RealAt(c, ConsumedOptionFeeRate) == c.consumedOptionFeeRate
  {
  }

  lemma RealFields6(c: Config)
    ensures RealAt(c, OccupiedOptionFeeRate) == c.occupiedOptionFeeRate
    ensures RealAt(c, PrefixRebateAnnRate) == c.prefixRebateAnnRate
    ensures RealAt(c, PrefixRebateAbsRate) == c.prefixRebateAbsRate
    ensures RealAt(c, SuffixRebateAnnRate) == c.suffixRebateAnnRate
  {
  }

  lemma RealFields7(c: Config)
    ensures RealAt(c, SuffixRebateAbsRate) == c.suffixRebateAbsRate
  {
  }

  lemma BoolRound(c: Config)
    ensures forall f :: BoolOf(Encode(c), f) == BoolAt(c, f)
  {
  }

  lemma ReadBools(m: imap<Key, Value>)
    ensures Read(m).randQuasi == BoolOf(m, RandQuasi)
    ensures Read(m).dualSmooth == BoolOf(m, DualSmooth)
    ensures Read(m).tradeLong == BoolOf(m, TradeLong)
    ensures Read(m).reverseKnockOut == BoolOf(m, ReverseKnockOut)
    ensures Read(m).strikePayoffAbs == BoolOf(m, StrikePayoffAbs)
    ensures Read(m).backEndLoad == BoolOf(m, BackEndLoad)
    ensures Read(m).isKopDelay == BoolOf(m, IsKopDelay)
    ensures Read(m).knockOOccur == BoolOf(m, KnockOOccur)
    ensures Read(m).isFutures == BoolOf(m, IsFutures)
    ensures Read(m).isForeign == BoolOf(m, IsForeign)
    ensures Read(m).discountPayoff == BoolOf(m, DiscountPayoff)
    ensures Read(m).discountMargin == BoolOf(m, DiscountMargin)
    ensures Read(m).discountOptionFee == BoolOf(m, DiscountOptionFee)
    ensures Read(m).compoundOptionFee == BoolOf(m, CompoundOptionFee)
    ensures Read(m).marketClose == BoolOf(m, MarketClose)
    ensures Read(m).prefixRebateAnnNeed == BoolOf(m, PrefixRebateAnnNeed)
    ensures Read(m).prefixRebateAbsNeed == BoolOf(m, PrefixRebateAbsNeed)
    ensures Read(m).suffixRebateAnnNeed == BoolOf(m, SuffixRebateAnnNeed)
    ensures Read(m).suffixRebateAbsNeed == BoolOf(m, SuffixRebateAbsNeed)
    ensures Read(m).discountRebate == BoolOf(m, DiscountRebate)
    ensures Read(m).compoundRebate == BoolOf(m, CompoundRebate)
  {
  }

  lemma BoolFields1(c: Config)
    ensures BoolAt(c, RandQuasi) == c.randQuasi
    ensures BoolAt(c, DualSmooth) == c.dualSmooth
    ensures BoolAt(c, TradeLong) == c.tradeLong
    ensures BoolAt(c, ReverseKnockOut) == c.reverseKnockOut
  {
  }

  lemma BoolFields2(c: Config)
    ensures BoolAt(c, StrikePayoffAbs) == c.strikePayoffAbs
    ensures BoolAt(c, BackEndLoad) == c.backEndLoad
    ensures BoolAt(c, IsKopDelay) == c.isKopDelay
    ensures BoolAt(c, KnockOOccur) == c.knockOOccur
  {
  }

  lemma BoolFields3(c: Config)
    ensures BoolAt(c, IsFutures) == c.isFutures
    ensures BoolAt(c, IsForeign) == c.isForeign
    ensures BoolAt(c, DiscountPayoff) == c.discountPayoff
    ensures BoolAt(c, DiscountMargin) == c.discountMargin
  {
  }

  lemma BoolFields4(c: Config)
    ensures BoolAt(c, DiscountOptionFee) == c.discountOptionFee
    ensures BoolAt(c, CompoundOptionFee) == c.compoundOptionFee
    ensures BoolAt(c, MarketClose) == c.marketClose
    ensures BoolAt(c, PrefixRebateAnnNeed) == c.prefixRebateAnnNeed
  {
  }

  lemma BoolFields5(c: Config)
    ensures BoolAt(c, PrefixRebateAbsNeed) == c.prefixRebateAbsNeed
    ensures BoolAt(c, SuffixRebateAnnNeed) == c.suffixRebateAnnNeed
    ensures BoolAt(c, SuffixRebateAbsNeed) == c.suffixRebateAbsNeed
    ensures BoolAt(c, DiscountRebate) == c.discountRebate
  {
  }

  lemma BoolFields6(c: Config)
    ensures BoolAt(c, CompoundRebate) == c.compoundRebate
  {
  }

  lemma TextRound(c: Config)
    ensures forall f :: TextOf(Encode(c), f) == TextAt(c, f)
  {
  }

  lemma ReadTexts(m: imap<Key, Value>)
    ensures Read(m).calcGreek == TextOf(m, CalcGreek)
  {
  }

  lemma TextFields(c: Config)
    ensures TextAt(c, CalcGreek) == c.calcGreek
  {
  }

  lemma IntsRound(c: Config)
    ensures forall f :: IntsOf(Encode(c), f) == IntsAt(c, f)
  {
  }

  lemma ReadIntss(m: imap<Key, Value>)
    ensures Read(m).randSeed == IntsOf(m, RandSeed)
    ensures Read(m).tradingDaysN == IntsOf(m, TradingDaysN)
  {
  }

  lemma IntsFields(c: Config)
    ensures IntsAt(c, RandSeed) == c.randSeed
    ensures IntsAt(c, TradingDaysN) == c.tradingDaysN
  {
  }

  lemma RealsRound(c: Config)
    ensures forall f :: RealsOf(Encode(c), f) == RealsAt(c, f)
  {
  }

  lemma ReadRealss(m: imap<Key, Value>)
    ensures Read(m).calcPrice == RealsOf(m, CalcPrice)
  {
  }

  lemma RealsFields(c: Config)
    ensures RealsAt(c, CalcPrice) == c.calcPrice
  {
  }

}