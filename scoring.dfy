/**
 * handleSubmit and handleChange of components/WorthMove.jsx: the comparison
 * of an overseas offer with a domestic one on five dimensions of at most 20
 * points each, and the form state that feeds it.
 *
 * Amounts typed into the form arrive already coerced (`parseFloat(x) || 0`),
 * the graduation year as the year parsed from the date (None where the code
 * gets NaN), and the child's age as `parseInt(childAge, 10)` (None for NaN).
 * The subsidy table and the current year are parameters.
 */
module Scoring {
  import opened Wrappers
  import opened RealOps
  import opened TaxEngine
  import opened SocialInsurance
  import opened Subsidy

  // ------------------------------------------------------------------
  // Purchasing power and pay periods
  // ------------------------------------------------------------------

  /** `pppRates`: how many yuan buy in China what one unit of the currency buys at home. */
  function Ppp(currency: string): (rate: Option<real>)
    ensures rate.Some? <==> SupportedCurrency(currency)
    ensures rate.Some? ==> 1.0 <= rate.value
    ensures currency == Renminbi ==> rate == Some(1.0)
  {
    if currency == Renminbi then Some(1.0)
    else if currency == USDollar then Some(4.19)
    else if currency == SingaporeDollar then Some(3.30)
    else if currency == Euro then Some(5.00)
    else if currency == AustralianDollar then Some(3.20)
    else None
  }

  /**
   * `amount * pppRates[currency]` for a currency of the table, written out per
   * currency so that each case multiplies by a constant.
   */
  function ToYuan(amount: real, currency: string): (yuan: real)
    requires SupportedCurrency(currency)
    ensures 0.0 <= amount ==> amount <= yuan
  {
    if currency == Renminbi then amount * 1.0
    else if currency == USDollar then amount * 4.19
    else if currency == SingaporeDollar then amount * 3.30
    else if currency == Euro then amount * 5.00
    else amount * 3.20
  }

  /** ToYuan multiplies by the currency's rate in `pppRates`. */
  lemma ToYuanIsPpp(amount: real, currency: string)
    requires SupportedCurrency(currency)
    ensures ToYuan(amount, currency) == amount * Ppp(currency).value
  {
  }

  const AnnualPay: string := "年薪"
  const WeeklyPay: string := "周薪"
  const MonthlyPay: string := "月薪"

  /** toAnnual: a yearly amount as is, a weekly one times 52, anything else taken as monthly. */
  function ToAnnual(amount: real, period: string): real
  {
    if period == AnnualPay then amount
    else if period == WeeklyPay then amount * 52.0
    else amount * 12.0
  }

  /** toMonthly: a twelfth of the annual amount. */
  function ToMonthly(amount: real, period: string): real
  {
    ToAnnual(amount, period) / 12.0
  }

  /**
   * The periods agree with one another: a monthly amount comes back unchanged
   * as a monthly one and is a twelfth of the same yearly pay, a week is 1/52 of
   * a year, an unknown period counts as monthly, and more pay is never less.
   */
  lemma PeriodsAgree(amount: real, other: real, period: string)
    ensures ToMonthly(amount, MonthlyPay) == amount
    ensures ToAnnual(amount * 12.0, AnnualPay) == ToAnnual(amount, MonthlyPay)
    ensures ToAnnual(amount, WeeklyPay) == ToAnnual(amount * 52.0 / 12.0, MonthlyPay)
    ensures period != AnnualPay && period != WeeklyPay ==> ToAnnual(amount, period) == ToAnnual(amount, MonthlyPay)
    ensures amount <= other ==> ToAnnual(amount, period) <= ToAnnual(other, period)
    ensures 0.0 <= amount ==> amount <= ToAnnual(amount, period)
  {
  }

  // ------------------------------------------------------------------
  // Working hours
  // ------------------------------------------------------------------

  /** `hoursMap`: monthly working hours of each domestic holiday arrangement. */
  const HoursMap: map<string, real> := map[
    "双休+朝九晚五" := 160.0,
    "双休-朝九晚五" := 240.0,
    "大小休+朝九晚五" := 176.0,
    "大小休-朝九晚五" := 264.0,
    "单休+朝九晚五" := 192.0,
    "单休-朝九晚五" := 288.0
  ]

  const StandardArrangement: string := "双休+朝九晚五"

  /** `hoursMap[dHoliday] || standardHours`: an unknown arrangement counts as the standard one. */
  function HoursFor(holiday: string): (hours: real)
    ensures 160.0 <= hours <= 288.0
    ensures holiday !in HoursMap ==> hours == 160.0
  {
    if holiday in HoursMap then HoursMap[holiday] else HoursMap[StandardArrangement]
  }

  /** `dGross * (standardHours / selectedHours)`. */
  function AdjustedForHours(dGross: real, holiday: string): real
  {
    dGross * (HoursFor(StandardArrangement) / HoursFor(holiday))
  }

  /**
   * Longer hours shrink a non-negative domestic income, down to 5/9 of it for
   * the longest week; the standard arrangement leaves it as it is.
   */
  lemma HoursAdjustmentShrinks(dGross: real, holiday: string)
    requires 0.0 <= dGross
    ensures 5.0 / 9.0 * dGross <= AdjustedForHours(dGross, holiday) <= dGross
    ensures HoursFor(holiday) == 160.0 ==> AdjustedForHours(dGross, holiday) == dGross
  {
    var f := 160.0 / HoursFor(holiday);
    assert 5.0 / 9.0 <= f <= 1.0;
    MulLeFactor(dGross, f, 1.0);
    MulLeFactor(dGross, 5.0 / 9.0, f);
  }

  // ------------------------------------------------------------------
  // Net incomes
  // ------------------------------------------------------------------

  /** `annualGrossLocal - calcOverseasTax(annualGrossLocal, currency)`. */
  function OverseasNet(gross: real, currency: string): (net: real)
    requires SupportedCurrency(currency)
  {
    gross - OverseasTax(gross, currency).value
  }

  /** At most 45% of a non-negative gross goes in tax, so the net keeps at least 55% of it. */
  lemma OverseasNetBounds(gross: real, currency: string)
    requires SupportedCurrency(currency)
    requires 0.0 <= gross
    ensures 0.55 * gross <= OverseasNet(gross, currency) <= gross
  {
  }

  /** The monthly gross in yuan minus the contributions when social insurance is paid. */
  function TaxableMonthly(city: string, social: bool, monthlyGross: real): real
  {
    monthlyGross - (if social then Sihf(city, monthlyGross) else 0.0)
  }

  /** `dGross`: twelve taxable months minus calcChinaTax on them. */
  function DomesticNet(city: string, social: bool, monthlyGross: real): real
  {
    var taxable := TaxableMonthly(city, social, monthlyGross) * 12.0;
    taxable - ChinaTax(taxable)
  }

  /**
   * When the contributions do not exceed the gross, the domestic net is 55% to
   * 100% of twelve taxable months; when they do, calcChinaTax charges 3% of a
   * negative amount and the net is 97% of it, below zero.
   */
  lemma DomesticNetBounds(city: string, social: bool, monthlyGross: real)
    ensures var t := TaxableMonthly(city, social, monthlyGross) * 12.0;
            0.0 <= t ==> 0.55 * t <= DomesticNet(city, social, monthlyGross) <= t
    ensures var t := TaxableMonthly(city, social, monthlyGross) * 12.0;
            t < 0.0 ==> DomesticNet(city, social, monthlyGross) == 0.97 * t < 0.0
  {
    var t := TaxableMonthly(city, social, monthlyGross) * 12.0;
    if 0.0 <= t {
      ChinaTaxBounds(t);
    } else {
      ChinaTaxNegative(t);
    }
  }

  // ------------------------------------------------------------------
  // Questionnaire
  // ------------------------------------------------------------------

  /** `qScore`: A 4, B 3, C 2, D 1, and 0 for a missing or unknown answer. */
  function QScore(answer: string): (points: real)
    ensures 0.0 <= points <= 4.0
    ensures points == 0.0 <==> answer !in {"A", "B", "C", "D"}
  {
    if answer == "A" then 4.0
    else if answer == "B" then 3.0
    else if answer == "C" then 2.0
    else if answer == "D" then 1.0
    else 0.0
  }

  /** The `reduce` over the answers, from the left. */
  function QTotal(answers: seq<string>): real
    decreases |answers|
  {
    if |answers| == 0 then 0.0 else QTotal(answers[..|answers| - 1]) + QScore(answers[|answers| - 1])
  }

  /** Every answer adds between 0 and 4 points. */
  lemma {:induction false} QTotalBounds(answers: seq<string>)
    ensures 0.0 <= QTotal(answers) <= 4.0 * |answers| as real
    decreases |answers|
  {
    if |answers| > 0 {
      QTotalBounds(answers[..|answers| - 1]);
    }
  }

  /** Answering D throughout gives one point per question; A throughout, four. */
  lemma {:induction false} QTotalUniform(answers: seq<string>)
    ensures (forall i :: 0 <= i < |answers| ==> answers[i] == "D") ==> QTotal(answers) == |answers| as real
    ensures (forall i :: 0 <= i < |answers| ==> answers[i] == "A") ==> QTotal(answers) == 4.0 * |answers| as real
    decreases |answers|
  {
    if |answers| > 0 {
      QTotalUniform(answers[..|answers| - 1]);
    }
  }

  // ------------------------------------------------------------------
  // Proportional scoring
  // ------------------------------------------------------------------

  /**
   * What the dimensions can yield besides a score. calcOverseasTax's throw
   * (Thrown), a NaN that makes the scores be discarded (NotANumber), and a
   * division of a negative amount by a maximum of 0 (DivisionByZero).
   */
  datatype EvalError = Thrown(error: TaxError) | NotANumber | DivisionByZero

  /** `own === max ? 20 : (own / max) * 20`. */
  function Proportional(own: real, max: real): Result<real, EvalError>
  {
    if own == max then Ok(20.0)
    else if max == 0.0 then Err(DivisionByZero)
    else Ok(own / max * 20.0)
  }

  /** The scores of one dimension. */
  datatype DimPair = DimPair(overseas: real, domestic: real)

  /** Dimensions 1, 3 and 4: each side scored against the larger of the two amounts. */
  function ScorePair(o: real, d: real): Result<DimPair, EvalError>
  {
    var m := Max(o, d);
    match Proportional(o, m)
    case Err(e) => Err(e)
    case Ok(so) =>
      match Proportional(d, m)
      case Err(e) => Err(e)
      case Ok(sd) => Ok(DimPair(so, sd))
  }

  /**
   * The larger amount scores 20, both do on a tie (0 and 0 included), and the
   * smaller scores its share of the larger times 20, which for non-negative
   * amounts lies in [0, 20).
   */
  lemma ScorePairRule(o: real, d: real)
    ensures ScorePair(o, d).Ok? && d <= o ==> ScorePair(o, d).value.overseas == 20.0
    ensures ScorePair(o, d).Ok? && o <= d ==> ScorePair(o, d).value.domestic == 20.0
    ensures ScorePair(o, d).Ok? && o < d ==> ScorePair(o, d).value.overseas == o / d * 20.0
    ensures ScorePair(o, d).Ok? && d < o ==> ScorePair(o, d).value.domestic == d / o * 20.0
    ensures 0.0 <= o && 0.0 <= d ==>
              ScorePair(o, d).Ok? &&
              0.0 <= ScorePair(o, d).value.overseas <= 20.0 && 0.0 <= ScorePair(o, d).value.domestic <= 20.0 &&
              (o < d ==> ScorePair(o, d).value.overseas < 20.0) && (d < o ==> ScorePair(o, d).value.domestic < 20.0)
  {
    if o <= d {
      assert Max(o, d) == d;
      if 0.0 <= o < d {
        ShareBelowTwenty(o, d);
      }
    }
    if d <= o {
      assert Max(o, d) == o;
      if 0.0 <= d < o {
        ShareBelowTwenty(d, o);
      }
    }
  }

  /** The only failure is a negative amount against a maximum of 0, and it is a division by zero. */
  lemma ScorePairFails(o: real, d: real)
    ensures ScorePair(o, d).Err? <==> (o < 0.0 && d == 0.0) || (d < 0.0 && o == 0.0)
    ensures ScorePair(o, d).Err? ==> ScorePair(o, d).error == DivisionByZero
  {
  }

  /** A smaller non-negative amount's share of a larger one, times 20, is in [0, 20). */
  lemma ShareBelowTwenty(own: real, max: real)
    requires 0.0 <= own < max
    ensures 0.0 <= own / max * 20.0 < 20.0
  {
    assert own / max < 1.0;
  }

  // ------------------------------------------------------------------
  // The form and the evaluation
  // ------------------------------------------------------------------

  /** The fields of `form` that handleSubmit reads, with the amounts already coerced to numbers. */
  datatype Form = Form(
    salary: real, currency: string, period: string,
    hasPR: bool, hasChild: bool, childAge: Option<int>, togetherO: bool, under40: bool,
    education: string, gradYear: Option<int>,
    city: string, district: Option<string>,
    dSalary: real, dCurrency: string, dPeriod: string, dHoliday: string,
    social: bool, togetherD: bool, future: bool,
    // q1 to q5: the page always holds exactly five answers.
    answers: seq<string>)

  /** The `useState` initial form, with the empty amounts read as 0 and the five answers unanswered. */
  const InitialForm: Form := Form(
    0.0, Renminbi, MonthlyPay,
    false, false, None, false, false,
    "海外本科", None,
    Hangzhou, None,
    0.0, Renminbi, MonthlyPay, "",
    false, false, false,
    ["", "", "", "", ""])

  /** `parseInt(childAge, 10) < 18`: false when no age parses. */
  predicate ChildUnder18(childAge: Option<int>)
  {
    childAge.Some? && childAge.value < 18
  }

  /** `x *= factor` when the flag is set. */
  function Boost(x: real, flag: bool, factor: real): real
  {
    if flag then x * factor else x
  }

  /** `g * 3 + g * 1.3 * 2`: three years at g and two at 1.3 g. */
  function FiveYear(g: real): real
  {
    g * 3.0 + g * 1.3 * 2.0
  }

  /** `g * 3 + g * 1.3 * 2 + g * 1.5 * 5`: five more years at 1.5 g. */
  function TenYear(g: real): real
  {
    g * 3.0 + g * 1.3 * 2.0 + g * 1.5 * 5.0
  }

  /** `ovGross`: the overseas pay, annualised and converted at purchasing power parity, after tax. */
  function OverseasNetOf(f: Form): real
    requires SupportedCurrency(f.currency)
  {
    OverseasNet(ToYuan(ToAnnual(f.salary, f.period), f.currency), f.currency)
  }

  /** `dGross`: the domestic pay, per month and in yuan, after contributions and tax, over a year. */
  function DomesticNetOf(f: Form): real
    requires SupportedCurrency(f.dCurrency)
  {
    DomesticNet(f.city, f.social, ToYuan(ToMonthly(f.dSalary, f.dPeriod), f.dCurrency))
  }

  /** The six amounts the proportional dimensions compare. */
  datatype Amounts = Amounts(ovVal: real, dVal: real, ov5: real, d5: real, ov10: real, d10: real)

  /** The subsidy query of handleSubmit. */
  function SubsidyQuery(f: Form): Query
  {
    Query(f.city, f.district, f.education, f.gradYear)
  }

  /** `total` of calcSubsidyTotal when the applicant is under 40, otherwise nothing. */
  function SubsidyFor(f: Form, records: seq<SubsidyRecord>, currentYear: int): real
  {
    if f.under40 then SubsidyTotal(SubsidyQuery(f), currentYear, records).total else 0.0
  }

  /** The amounts compared in dimensions 1, 3 and 4, from the two net incomes. */
  function AmountsFrom(f: Form, ovGross: real, dGross: real, subsidy: real): Amounts
  {
    Amounts(
      ovGross,
      AdjustedForHours(dGross, f.dHoliday) + subsidy / 5.0,
      Boost(Boost(FiveYear(ovGross), f.hasPR, 1.1), f.togetherO, 1.1),
      Boost(FiveYear(dGross) + subsidy, f.togetherD, 1.1),
      Boost(Boost(Boost(TenYear(ovGross), f.future, 1.1), f.hasChild && ChildUnder18(f.childAge), 1.2), f.togetherO, 1.1),
      Boost(TenYear(dGross), f.togetherD, 1.1))
  }

  /**
   * The first half of handleSubmit. An overseas currency without a tax regime
   * throws inside calcOverseasTax; a domestic currency without a PPP rate makes
   * every amount NaN.
   */
  function ComparedAmounts(f: Form, records: seq<SubsidyRecord>, currentYear: int): Result<Amounts, EvalError>
  {
    match Ppp(f.currency)
    case None => Err(Thrown(UnsupportedCurrency(f.currency)))
    case Some(oRate) =>
      match Ppp(f.dCurrency)
      case None => Err(NotANumber)
      case Some(dRate) =>
        Ok(AmountsFrom(f, OverseasNetOf(f), DomesticNetOf(f), SubsidyFor(f, records, currentYear)))
  }

  /** The five dimension scores of one side. */
  datatype Side = Side(salary: real, lifestyle: real, shortTerm: real, longTerm: real, family: real)

  function Total(s: Side): real
  {
    s.salary + s.lifestyle + s.shortTerm + s.longTerm + s.family
  }

  /** `{ scoreO, scoreD }` and the dimensions behind the radar chart. */
  datatype Evaluation = Evaluation(scoreO: real, scoreD: real, overseas: Side, domestic: Side)

  /** The second half of handleSubmit: the five dimensions and the two sums. */
  function Score(a: Amounts, answers: seq<string>, togetherO: bool, togetherD: bool): Result<Evaluation, EvalError>
  {
    match ScorePair(a.ovVal, a.dVal)
    case Err(e) => Err(e)
    case Ok(p1) =>
      match ScorePair(a.ov5, a.d5)
      case Err(e) => Err(e)
      case Ok(p3) =>
        match ScorePair(a.ov10, a.d10)
        case Err(e) => Err(e)
        case Ok(p4) =>
          var o2 := QTotal(answers) / 20.0 * 20.0;
          var o := Side(p1.overseas, o2, p3.overseas, p4.overseas, if togetherO then 20.0 else 0.0);
          var d := Side(p1.domestic, 20.0 - o2, p3.domestic, p4.domestic, if togetherD then 20.0 else 0.0);
          Ok(Evaluation(Total(o), Total(d), o, d))
  }

  /** handleSubmit, from the form to the two scores. */
  function Evaluate(f: Form, records: seq<SubsidyRecord>, currentYear: int): Result<Evaluation, EvalError>
  {
    match ComparedAmounts(f, records, currentYear)
    case Err(e) => Err(e)
    case Ok(a) => Score(a, f.answers, f.togetherO, f.togetherD)
  }

  // ------------------------------------------------------------------
  // Properties of the evaluation
  // ------------------------------------------------------------------

  /** Every dimension between 0 and 20. */
  predicate Bounded(s: Side)
  {
    0.0 <= s.salary <= 20.0 && 0.0 <= s.lifestyle <= 20.0 && 0.0 <= s.shortTerm <= 20.0 &&
    0.0 <= s.longTerm <= 20.0 && 0.0 <= s.family <= 20.0
  }

  /**
   * Failures come only from the currencies or from a negative amount: with
   * two supported currencies and non-negative amounts both sides are scored,
   * the lifestyle points split 20 between the sides, the larger amount of each
   * compared pair scores 20, and each score lies in [0, 100].
   */
  lemma ScoreInRange(a: Amounts, answers: seq<string>, togetherO: bool, togetherD: bool)
    requires |answers| <= 5
    requires 0.0 <= a.ovVal && 0.0 <= a.dVal && 0.0 <= a.ov5 && 0.0 <= a.d5 && 0.0 <= a.ov10 && 0.0 <= a.d10
    ensures Score(a, answers, togetherO, togetherD).Ok?
    ensures var e := Score(a, answers, togetherO, togetherD).value;
            Bounded(e.overseas) && Bounded(e.domestic) &&
            0.0 <= e.scoreO <= 100.0 && 0.0 <= e.scoreD <= 100.0
    ensures var e := Score(a, answers, togetherO, togetherD).value;
            (a.dVal <= a.ovVal ==> e.overseas.salary == 20.0) && (a.ovVal <= a.dVal ==> e.domestic.salary == 20.0)
    ensures var e := Score(a, answers, togetherO, togetherD).value;
            (a.d5 <= a.ov5 ==> e.overseas.shortTerm == 20.0) && (a.ov5 <= a.d5 ==> e.domestic.shortTerm == 20.0)
    ensures var e := Score(a, answers, togetherO, togetherD).value;
            (a.d10 <= a.ov10 ==> e.overseas.longTerm == 20.0) && (a.ov10 <= a.d10 ==> e.domestic.longTerm == 20.0)
  {
    ScorePairRule(a.ovVal, a.dVal);
    ScorePairRule(a.ov5, a.d5);
    ScorePairRule(a.ov10, a.d10);
    QTotalBounds(answers);
  }

  /** Dimensions 2 and 5 of a scored comparison, whatever the amounts. */
  lemma ScoreDimensions(a: Amounts, answers: seq<string>, togetherO: bool, togetherD: bool)
    requires Score(a, answers, togetherO, togetherD).Ok?
    ensures var e := Score(a, answers, togetherO, togetherD).value;
            e.overseas.lifestyle == QTotal(answers) && e.overseas.lifestyle + e.domestic.lifestyle == 20.0
    ensures var e := Score(a, answers, togetherO, togetherD).value;
            (e.overseas.family == 20.0 <==> togetherO) && (e.domestic.family == 20.0 <==> togetherD)
    ensures var e := Score(a, answers, togetherO, togetherD).value;
            (!togetherO ==> e.overseas.family == 0.0) && (!togetherD ==> e.domestic.family == 0.0)
  {
  }

  /**
   * Dimension 2: the overseas side gets the questionnaire total and the
   * domestic side the rest of 20, whatever the amounts.
   */
  lemma LifestyleSplit(f: Form, records: seq<SubsidyRecord>, currentYear: int)
    requires Evaluate(f, records, currentYear).Ok?
    ensures var e := Evaluate(f, records, currentYear).value;
            e.overseas.lifestyle == QTotal(f.answers) &&
            e.overseas.lifestyle + e.domestic.lifestyle == 20.0
    ensures var e := Evaluate(f, records, currentYear).value;
            |f.answers| <= 5 ==> 0.0 <= e.overseas.lifestyle <= 20.0 && 0.0 <= e.domestic.lifestyle <= 20.0
  {
    QTotalBounds(f.answers);
    ScoreDimensions(ComparedAmounts(f, records, currentYear).value, f.answers, f.togetherO, f.togetherD);
  }

  /**
   * Dimension 5: a side gets 20 exactly when its "with family" box is ticked,
   * so with the two boxes exclusive at most one side gets it.
   */
  lemma FamilyExclusive(f: Form, records: seq<SubsidyRecord>, currentYear: int)
    requires Evaluate(f, records, currentYear).Ok?
    ensures var e := Evaluate(f, records, currentYear).value;
            (e.overseas.family == 20.0 <==> f.togetherO) && (e.domestic.family == 20.0 <==> f.togetherD)
    ensures var e := Evaluate(f, records, currentYear).value;
            !(f.togetherO && f.togetherD) ==> !(e.overseas.family == 20.0 && e.domestic.family == 20.0)
  {
    ScoreDimensions(ComparedAmounts(f, records, currentYear).value, f.answers, f.togetherO, f.togetherD);
  }

  /** Scoring fails only by a division by zero. */
  lemma ScoreFails(a: Amounts, answers: seq<string>, togetherO: bool, togetherD: bool)
    ensures Score(a, answers, togetherO, togetherD).Err? ==>
              Score(a, answers, togetherO, togetherD).error == DivisionByZero
  {
    ScorePairFails(a.ovVal, a.dVal);
    ScorePairFails(a.ov5, a.d5);
    ScorePairFails(a.ov10, a.d10);
  }

  /** The errors, in the order the code meets them. */
  lemma EvaluateErrors(f: Form, records: seq<SubsidyRecord>, currentYear: int)
    ensures !SupportedCurrency(f.currency) ==>
              Evaluate(f, records, currentYear) == Err(Thrown(UnsupportedCurrency(f.currency)))
    ensures SupportedCurrency(f.currency) && !SupportedCurrency(f.dCurrency) ==>
              Evaluate(f, records, currentYear) == Err(NotANumber)
    ensures Evaluate(f, records, currentYear).Err? && SupportedCurrency(f.currency) && SupportedCurrency(f.dCurrency) ==>
              Evaluate(f, records, currentYear) == Err(DivisionByZero)
  {
    if SupportedCurrency(f.currency) && SupportedCurrency(f.dCurrency) {
      ScoreFails(ComparedAmounts(f, records, currentYear).value, f.answers, f.togetherO, f.togetherD);
    }
  }

  /**
   * Dimensions 3 and 4 use the domestic net before the hours adjustment: the
   * holiday arrangement moves only the domestic amount of dimension 1.
   */
  lemma HolidayOnlyMovesSalaryDimension(f: Form, holiday: string, records: seq<SubsidyRecord>, currentYear: int)
    ensures var a := ComparedAmounts(f, records, currentYear);
            var b := ComparedAmounts(f.(dHoliday := holiday), records, currentYear);
            a.Ok? ==> b.Ok? && b.value == a.value.(dVal := b.value.dVal)
  {
    var g := f.(dHoliday := holiday);
    if ComparedAmounts(f, records, currentYear).Ok? {
      assert OverseasNetOf(g) == OverseasNetOf(f);
      assert DomesticNetOf(g) == DomesticNetOf(f);
      assert SubsidyFor(g, records, currentYear) == SubsidyFor(f, records, currentYear);
    }
  }

  /** Scaling a non-negative amount by a factor of at least 1 keeps it non-negative. */
  lemma BoostNonNegative(x: real, flag: bool, factor: real)
    requires 0.0 <= x && 1.0 <= factor
    ensures x <= Boost(x, flag, factor)
  {
    if flag {
      MulLeFactor(x, 1.0, factor);
    }
  }

  /** Non-negative net incomes and subsidy make every compared amount non-negative. */
  lemma AmountsFromNonNegative(f: Form, ovGross: real, dGross: real, subsidy: real)
    requires 0.0 <= ovGross && 0.0 <= dGross && 0.0 <= subsidy
    ensures var a := AmountsFrom(f, ovGross, dGross, subsidy);
            0.0 <= a.ovVal && 0.0 <= a.dVal && 0.0 <= a.ov5 && 0.0 <= a.d5 && 0.0 <= a.ov10 && 0.0 <= a.d10
  {
    HoursAdjustmentShrinks(dGross, f.dHoliday);
    BoostNonNegative(FiveYear(ovGross), f.hasPR, 1.1);
    BoostNonNegative(Boost(FiveYear(ovGross), f.hasPR, 1.1), f.togetherO, 1.1);
    BoostNonNegative(FiveYear(dGross) + subsidy, f.togetherD, 1.1);
    BoostNonNegative(TenYear(ovGross), f.future, 1.1);
    BoostNonNegative(Boost(TenYear(ovGross), f.future, 1.1), f.hasChild && ChildUnder18(f.childAge), 1.2);
    BoostNonNegative(Boost(Boost(TenYear(ovGross), f.future, 1.1), f.hasChild && ChildUnder18(f.childAge), 1.2),
                     f.togetherO, 1.1);
    BoostNonNegative(TenYear(dGross), f.togetherD, 1.1);
  }

  /** A non-negative overseas salary leaves a non-negative net. */
  lemma OverseasNetOfNonNegative(f: Form)
    requires SupportedCurrency(f.currency) && 0.0 <= f.salary
    ensures 0.0 <= OverseasNetOf(f)
  {
    OverseasNetBounds(ToYuan(ToAnnual(f.salary, f.period), f.currency), f.currency);
  }

  /** The social insurance deducted, if any, does not exceed the domestic monthly gross in yuan. */
  predicate ContributionsCovered(f: Form)
    requires SupportedCurrency(f.dCurrency)
  {
    0.0 <= TaxableMonthly(f.city, f.social, ToYuan(ToMonthly(f.dSalary, f.dPeriod), f.dCurrency))
  }

  /** Without the deduction, a non-negative domestic salary is always covered. */
  lemma NoDeductionCovered(f: Form)
    requires SupportedCurrency(f.dCurrency) && 0.0 <= f.dSalary && !f.social
    ensures ContributionsCovered(f)
  {
  }

  /** When the contributions are covered, the domestic net is non-negative. */
  lemma DomesticNetOfNonNegative(f: Form)
    requires SupportedCurrency(f.dCurrency) && ContributionsCovered(f)
    ensures 0.0 <= DomesticNetOf(f)
  {
    DomesticNetBounds(f.city, f.social, ToYuan(ToMonthly(f.dSalary, f.dPeriod), f.dCurrency));
  }

  /** Over valid records the subsidy added is never negative. */
  lemma SubsidyForNonNegative(f: Form, records: seq<SubsidyRecord>, currentYear: int)
    requires forall i :: 0 <= i < |records| ==> ValidRecord(records[i])
    ensures 0.0 <= SubsidyFor(f, records, currentYear)
  {
    YearTotalNonNegative(SubsidyQuery(f), currentYear, records);
  }

  /**
   * With a non-negative overseas salary, domestic contributions covered by the
   * domestic gross and a table of valid records, every compared amount is
   * non-negative.
   */
  lemma AmountsNonNegative(f: Form, records: seq<SubsidyRecord>, currentYear: int)
    requires SupportedCurrency(f.currency) && SupportedCurrency(f.dCurrency)
    requires 0.0 <= f.salary && ContributionsCovered(f)
    requires forall i :: 0 <= i < |records| ==> ValidRecord(records[i])
    ensures ComparedAmounts(f, records, currentYear).Ok?
    ensures var a := ComparedAmounts(f, records, currentYear).value;
            0.0 <= a.ovVal && 0.0 <= a.dVal && 0.0 <= a.ov5 && 0.0 <= a.d5 && 0.0 <= a.ov10 && 0.0 <= a.d10
  {
    OverseasNetOfNonNegative(f);
    DomesticNetOfNonNegative(f);
    SubsidyForNonNegative(f, records, currentYear);
    AmountsFromNonNegative(f, OverseasNetOf(f), DomesticNetOf(f), SubsidyFor(f, records, currentYear));
  }

  /**
   * Hence the promise of the page: in supported currencies, for a non-negative
   * overseas salary and a domestic gross that covers its contributions (as any
   * non-negative salary without the deduction does, NoDeductionCovered),
   * against valid subsidy records, both scores are computed and lie between 0
   * and 100.
   */
  lemma EvaluateInRange(f: Form, records: seq<SubsidyRecord>, currentYear: int)
    requires SupportedCurrency(f.currency) && SupportedCurrency(f.dCurrency)
    requires 0.0 <= f.salary && ContributionsCovered(f)
    requires forall i :: 0 <= i < |records| ==> ValidRecord(records[i])
    requires |f.answers| <= 5
    ensures Evaluate(f, records, currentYear).Ok?
    ensures var e := Evaluate(f, records, currentYear).value;
            0.0 <= e.scoreO <= 100.0 && 0.0 <= e.scoreD <= 100.0
  {
    AmountsNonNegative(f, records, currentYear);
    ScoreInRange(ComparedAmounts(f, records, currentYear).value, f.answers, f.togetherO, f.togetherD);
  }

  /** ComparedAmounts from net incomes and a subsidy already computed. */
  lemma ComparedAmountsFrom(f: Form, records: seq<SubsidyRecord>, currentYear: int, ovGross: real, dGross: real, subsidy: real)
    requires SupportedCurrency(f.currency) && SupportedCurrency(f.dCurrency)
    requires ovGross == OverseasNetOf(f) && dGross == DomesticNetOf(f) && subsidy == SubsidyFor(f, records, currentYear)
    ensures ComparedAmounts(f, records, currentYear) == Ok(AmountsFrom(f, ovGross, dGross, subsidy))
  {
  }

  /** Evaluate from amounts already compared. */
  lemma EvaluateFrom(f: Form, records: seq<SubsidyRecord>, currentYear: int, a: Amounts)
    requires ComparedAmounts(f, records, currentYear) == Ok(a)
    ensures Evaluate(f, records, currentYear) == Score(a, f.answers, f.togetherO, f.togetherD)
  {
  }

  // ------------------------------------------------------------------
  // handleSubmit, step by step
  // ------------------------------------------------------------------

  /** The questionnaire `reduce` of handleSubmit. */
  method SumAnswers(answers: seq<string>) returns (total: real)
    ensures total == QTotal(answers)
  {
    total := 0.0;
    var i := 0;
    while i < |answers|
      invariant 0 <= i <= |answers|
      invariant total == QTotal(answers[..i])
    {
      assert answers[..i + 1][..i] == answers[..i];
      total := total + QScore(answers[i]);
      i := i + 1;
    }
    assert answers[..i] == answers;
  }

  /** The five dimensions and the two sums, from the compared amounts. */
  method ScoreAmounts(a: Amounts, answers: seq<string>, togetherO: bool, togetherD: bool)
    returns (r: Result<Evaluation, EvalError>)
    ensures r == Score(a, answers, togetherO, togetherD)
  {
    var p1 := ScorePair(a.ovVal, a.dVal);
    if p1.Err? {
      return Err(p1.error);
    }
    var qTotal := SumAnswers(answers);
    var dim2O := qTotal / 20.0 * 20.0;
    var dim2D := 20.0 - dim2O;
    var p3 := ScorePair(a.ov5, a.d5);
    if p3.Err? {
      return Err(p3.error);
    }
    var p4 := ScorePair(a.ov10, a.d10);
    if p4.Err? {
      return Err(p4.error);
    }
    var dim5O := if togetherO then 20.0 else 0.0;
    var dim5D := if togetherD then 20.0 else 0.0;
    var o := Side(p1.value.overseas, dim2O, p3.value.overseas, p4.value.overseas, dim5O);
    var d := Side(p1.value.domestic, dim2D, p3.value.domestic, p4.value.domestic, dim5D);
    r := Ok(Evaluation(Total(o), Total(d), o, d));
  }

  /** The net incomes of dimension 1: `ovGross` and `dGross`. */
  method NetIncomes(f: Form) returns (ovGross: real, dGross: real)
    requires SupportedCurrency(f.currency) && SupportedCurrency(f.dCurrency)
    ensures ovGross == OverseasNetOf(f) && dGross == DomesticNetOf(f)
  {
    var annualGrossLocal := ToYuan(ToAnnual(f.salary, f.period), f.currency);
    var overseasTax := OverseasTax(annualGrossLocal, f.currency).value;
    ovGross := annualGrossLocal - overseasTax;
    var monthlyGrossLocal := ToYuan(ToMonthly(f.dSalary, f.dPeriod), f.dCurrency);
    var sihf := if f.social then Sihf(f.city, monthlyGrossLocal) else 0.0;
    var taxableMonthly := monthlyGrossLocal - sihf;
    var annualTaxChina := ChinaTax(taxableMonthly * 12.0);
    dGross := taxableMonthly * 12.0 - annualTaxChina;
  }

  /** Dimension 3's five-year totals, with the subsidy and the three bonuses applied in turn. */
  method FiveYearTotals(f: Form, ovGross: real, dGross: real, subsidyTotal: real) returns (ov5: real, d5: real)
    ensures ov5 == Boost(Boost(FiveYear(ovGross), f.hasPR, 1.1), f.togetherO, 1.1)
    ensures d5 == Boost(FiveYear(dGross) + subsidyTotal, f.togetherD, 1.1)
  {
    ov5 := ovGross * 3.0 + ovGross * 1.3 * 2.0;
    d5 := dGross * 3.0 + dGross * 1.3 * 2.0;
    d5 := d5 + subsidyTotal;
    if f.hasPR {
      ov5 := ov5 * 1.1;
    }
    if f.togetherO {
      ov5 := ov5 * 1.1;
    }
    if f.togetherD {
      d5 := d5 * 1.1;
    }
  }

  /** Dimension 4's ten-year totals, with the four bonuses applied in turn. */
  method TenYearTotals(f: Form, ovGross: real, dGross: real) returns (ov10: real, d10: real)
    ensures ov10 == Boost(Boost(Boost(TenYear(ovGross), f.future, 1.1), f.hasChild && ChildUnder18(f.childAge), 1.2),
                          f.togetherO, 1.1)
    ensures d10 == Boost(TenYear(dGross), f.togetherD, 1.1)
  {
    ov10 := ovGross * 3.0 + ovGross * 1.3 * 2.0 + ovGross * 1.5 * 5.0;
    d10 := dGross * 3.0 + dGross * 1.3 * 2.0 + dGross * 1.5 * 5.0;
    if f.future {
      ov10 := ov10 * 1.1;
    }
    if f.hasChild && ChildUnder18(f.childAge) {
      ov10 := ov10 * 1.2;
    }
    if f.togetherO {
      ov10 := ov10 * 1.1;
    }
    if f.togetherD {
      d10 := d10 * 1.1;
    }
  }

  // ------------------------------------------------------------------
  // The component's state
  // ------------------------------------------------------------------

  /** The `form` state of the component, updated by handleChange and read by handleSubmit. */
  class FormState {
    var form: Form

    /** The two "with family" boxes are never both ticked. */
    predicate Valid()
      reads this
    {
      !(form.togetherO && form.togetherD)
    }

    constructor ()
      ensures form == InitialForm
      ensures Valid()
    {
      form := InitialForm;
    }

    /** handleChange for the overseas "with family" box: ticking it clears the domestic one. */
    method ChangeTogetherO(checked: bool)
      modifies this
      ensures form == old(form).(togetherO := checked, togetherD := if checked then false else old(form).togetherD)
      ensures Valid()
    {
      form := form.(togetherO := checked, togetherD := if checked then false else form.togetherD);
    }

    /** handleChange for the domestic "with family" box: ticking it clears the overseas one. */
    method ChangeTogetherD(checked: bool)
      modifies this
      ensures form == old(form).(togetherD := checked, togetherO := if checked then false else old(form).togetherO)
      ensures Valid()
    {
      form := form.(togetherD := checked, togetherO := if checked then false else form.togetherO);
    }

    /** handleChange for the district select: the empty choice becomes null. */
    method ChangeDistrict(value: string)
      modifies this
      ensures form == old(form).(district := if value == "" then None else Some(value))
      ensures old(Valid()) ==> Valid()
    {
      form := form.(district := if value == "" then None else Some(value));
    }

    /**
     * handleSubmit: the scores for the current form. Since handleChange keeps
     * the two family boxes exclusive, at most one side gets dimension 5's 20.
     */
    method Submit(records: seq<SubsidyRecord>, currentYear: int) returns (r: Result<Evaluation, EvalError>)
      ensures r == Evaluate(form, records, currentYear)
      ensures Valid() && r.Ok? ==> !(r.value.overseas.family == 20.0 && r.value.domestic.family == 20.0)
    {
      var f := form;
      if !SupportedCurrency(f.currency) {
        return Err(Thrown(UnsupportedCurrency(f.currency)));
      }
      if !SupportedCurrency(f.dCurrency) {
        return Err(NotANumber);
      }
      // Dimension 1: purchasing power, the domestic side adjusted for hours and a fifth of the subsidy.
      var ovGross, dGross := NetIncomes(f);
      var dGrossAdjusted := AdjustedForHours(dGross, f.dHoliday);
      var subsidyTotal := 0.0;
      if f.under40 {
        var t := CalcSubsidyTotal(SubsidyQuery(f), currentYear, records);
        subsidyTotal := t.total;
      }
      assert subsidyTotal == SubsidyFor(f, records, currentYear);
      var dVal := dGrossAdjusted + subsidyTotal / 5.0;
      // Dimensions 3 and 4: five and ten years.
      var ov5, d5 := FiveYearTotals(f, ovGross, dGross, subsidyTotal);
      var ov10, d10 := TenYearTotals(f, ovGross, dGross);
      var a := Amounts(ovGross, dVal, ov5, d5, ov10, d10);
      assert a == AmountsFrom(f, ovGross, dGross, subsidyTotal);
      ComparedAmountsFrom(f, records, currentYear, ovGross, dGross, subsidyTotal);
      EvaluateFrom(f, records, currentYear, a);
      r := ScoreAmounts(a, f.answers, f.togetherO, f.togetherD);
      if r.Ok? {
        FamilyExclusive(f, records, currentYear);
      }
    }
  }
}
