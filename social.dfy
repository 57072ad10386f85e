/**
 * calcSIHF of components/WorthMove.jsx: the employee's monthly social insurance
 * ("five insurances") and housing fund contributions for a city in mainland China.
 *
 * The monthly gross is clamped, separately, into the contribution base range and
 * into the housing fund base range; the first is charged at the sum of the
 * employee-side insurance rates, the second at the fund rate. A city without a
 * profile is charged as 杭州 (Hangzhou).
 */
module SocialInsurance {
  import opened RealOps

  /** One insurance's rates as the pair [employer, employee]. */
  datatype Shares = Shares(employer: real, employee: real)

  /** One entry of CN_SI_HF. */
  datatype Profile = Profile(
    baseMin: real, baseMax: real,
    fundMin: real, fundMax: real, fundRate: real,
    pension: Shares, medical: Shares, unemployment: Shares, injury: Shares, maternity: Shares)

  const Hangzhou: string := "杭州"
  const Suzhou: string := "苏州"
  const Guangzhou: string := "广州"

  const HangzhouProfile: Profile := Profile(
    4411.0, 24066.0, 2480.0, 36675.0, 0.12,
    Shares(0.14, 0.08), Shares(0.095, 0.02), Shares(0.005, 0.005), Shares(0.002, 0.0), Shares(0.0, 0.0))

  const SuzhouProfile: Profile := Profile(
    4494.0, 24420.0, 2490.0, 36300.0, 0.12,
    Shares(0.16, 0.08), Shares(0.07, 0.02), Shares(0.005, 0.005), Shares(0.002, 0.0), Shares(0.008, 0.0))

  const GuangzhouProfile: Profile := Profile(
    5283.0, 26415.0, 2300.0, 38090.0, 0.12,
    Shares(0.14, 0.08), Shares(0.0685, 0.02), Shares(0.008, 0.002), Shares(0.002, 0.0), Shares(0.008, 0.0))

  /** `CN_SI_HF[city] || CN_SI_HF["杭州"]`. */
  function ProfileFor(city: string): Profile
  {
    if city == Suzhou then SuzhouProfile
    else if city == Guangzhou then GuangzhouProfile
    else HangzhouProfile
  }

  /** The employee-side rates (index 1 of each pair) added up. */
  function EmployeeRate(p: Profile): real
  {
    p.pension.employee + p.medical.employee + p.unemployment.employee + p.injury.employee + p.maternity.employee
  }

  /** Bases that form ranges and rates that are fractions. */
  predicate WellFormed(p: Profile)
  {
    0.0 < p.baseMin <= p.baseMax && 0.0 < p.fundMin <= p.fundMax &&
    0.0 <= EmployeeRate(p) <= 1.0 && 0.0 <= p.fundRate <= 1.0
  }

  /** `sb * (employee rates) + hf * fundRate`, for the clamped bases sb and hf. */
  function Charge(p: Profile, sb: real, hf: real): real
  {
    sb * EmployeeRate(p) + hf * p.fundRate
  }

  /** The contribution under one profile, the gross clamped into each base range. */
  function Contribution(p: Profile, gross: real): real
  {
    Charge(p, Clamp(gross, p.baseMin, p.baseMax), Clamp(gross, p.fundMin, p.fundMax))
  }

  /** calcSIHF. */
  function Sihf(city: string, gross: real): real
  {
    Contribution(ProfileFor(city), gross)
  }

  /** The three city profiles are well formed; the employee pays 10.2% of the base in 广州, 10.5% elsewhere. */
  lemma ProfilesWellFormed(city: string)
    ensures WellFormed(ProfileFor(city))
    ensures EmployeeRate(ProfileFor(city)) == if city == Guangzhou then 0.102 else 0.105
  {
  }

  /** A city other than 苏州 and 广州 is charged exactly as 杭州. */
  lemma SihfFallback(city: string, gross: real)
    requires city != Suzhou && city != Guangzhou
    ensures Sihf(city, gross) == Sihf(Hangzhou, gross)
  {
  }

  /** Changing only the employer-side rates changes nothing: the employer's part is not deducted. */
  lemma EmployerSharesIgnored(p: Profile, q: Profile, gross: real)
    requires q.baseMin == p.baseMin && q.baseMax == p.baseMax
    requires q.fundMin == p.fundMin && q.fundMax == p.fundMax && q.fundRate == p.fundRate
    requires q.pension.employee == p.pension.employee && q.medical.employee == p.medical.employee
    requires q.unemployment.employee == p.unemployment.employee && q.injury.employee == p.injury.employee
    requires q.maternity.employee == p.maternity.employee
    ensures Contribution(q, gross) == Contribution(p, gross)
  {
  }

  /** Scaling a clamped difference by a non-negative rate keeps it non-negative. */
  lemma ScaledStep(cx: real, cy: real, r: real)
    requires cx <= cy && 0.0 <= r
    ensures 0.0 <= cy * r - cx * r == (cy - cx) * r
  {
    MulNonNegative(cy - cx, r);
  }

  /** Two bases that each move by at most d raise the charge by at most the two rates times d. */
  lemma ChargeStep(p: Profile, sx: real, sy: real, hx: real, hy: real, d: real)
    requires WellFormed(p)
    requires 0.0 <= sy - sx <= d && 0.0 <= hy - hx <= d
    ensures 0.0 <= Charge(p, sy, hy) - Charge(p, sx, hx) <= (EmployeeRate(p) + p.fundRate) * d
  {
    var e, f := EmployeeRate(p), p.fundRate;
    ScaledStep(sx, sy, e);
    ScaledStep(hx, hy, f);
    MulLeFactor(e, sy - sx, d);
    MulLeFactor(f, hy - hx, d);
    assert e * (sy - sx) == (sy - sx) * e && f * (hy - hx) == (hy - hx) * f;
    assert (e + f) * d == e * d + f * d;
  }

  /**
   * A higher gross never lowers the contribution, and each extra unit of gross
   * adds at most the employee rate plus the fund rate.
   */
  lemma ContributionSteady(p: Profile, x: real, y: real)
    requires WellFormed(p)
    requires x <= y
    ensures 0.0 <= Contribution(p, y) - Contribution(p, x) <= (EmployeeRate(p) + p.fundRate) * (y - x)
  {
    ClampMonotone(x, y, p.baseMin, p.baseMax);
    ClampMonotone(x, y, p.fundMin, p.fundMax);
    ChargeStep(p, Clamp(x, p.baseMin, p.baseMax), Clamp(y, p.baseMin, p.baseMax),
               Clamp(x, p.fundMin, p.fundMax), Clamp(y, p.fundMin, p.fundMax), y - x);
  }

  /** Bases inside their ranges are charged between the charges at the range ends. */
  lemma ChargeBetween(p: Profile, sb: real, hf: real)
    requires WellFormed(p)
    requires p.baseMin <= sb <= p.baseMax && p.fundMin <= hf <= p.fundMax
    ensures Charge(p, p.baseMin, p.fundMin) <= Charge(p, sb, hf) <= Charge(p, p.baseMax, p.fundMax)
  {
    ScaledStep(p.baseMin, sb, EmployeeRate(p));
    ScaledStep(sb, p.baseMax, EmployeeRate(p));
    ScaledStep(p.fundMin, hf, p.fundRate);
    ScaledStep(hf, p.fundMax, p.fundRate);
  }

  /** The contribution lies between its values at the lower and at the upper clamp limits. */
  lemma ContributionBounded(p: Profile, gross: real)
    requires WellFormed(p)
    ensures p.baseMin * EmployeeRate(p) + p.fundMin * p.fundRate <= Contribution(p, gross)
    ensures Contribution(p, gross) <= p.baseMax * EmployeeRate(p) + p.fundMax * p.fundRate
  {
    ChargeBetween(p, Clamp(gross, p.baseMin, p.baseMax), Clamp(gross, p.fundMin, p.fundMax));
  }

  /** At or below both lower limits the contribution is the floor; at or above both upper limits, the ceiling. */
  lemma ContributionFlatOutside(p: Profile, gross: real)
    requires WellFormed(p)
    ensures gross <= Min(p.baseMin, p.fundMin) ==>
              Contribution(p, gross) == p.baseMin * EmployeeRate(p) + p.fundMin * p.fundRate
    ensures Max(p.baseMax, p.fundMax) <= gross ==>
              Contribution(p, gross) == p.baseMax * EmployeeRate(p) + p.fundMax * p.fundRate
  {
  }

  /** calcSIHF for any city: non-decreasing in gross, by at most 22.5% of each extra unit. */
  lemma SihfSteady(city: string, x: real, y: real)
    requires x <= y
    ensures 0.0 <= Sihf(city, y) - Sihf(city, x) <= 0.225 * (y - x)
  {
    ProfilesWellFormed(city);
    ContributionSteady(ProfileFor(city), x, y);
    MulLeFactor(y - x, EmployeeRate(ProfileFor(city)) + 0.12, 0.225);
    assert (y - x) * 0.225 == 0.225 * (y - x);
  }

  /**
   * In 杭州 (and every city without a profile) the contribution runs from
   * 760.755 to 6927.93 a month, and both ends are reached.
   */
  lemma HangzhouRange(gross: real)
    ensures 760.755 <= Sihf(Hangzhou, gross) <= 6927.93
    ensures Sihf(Hangzhou, 2480.0) == 760.755 && Sihf(Hangzhou, 36675.0) == 6927.93
  {
    ProfilesWellFormed(Hangzhou);
    ContributionBounded(HangzhouProfile, gross);
  }
}
