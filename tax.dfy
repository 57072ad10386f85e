/**
 * The tax engine of components/WorthMove.jsx: two marginal slab walks over
 * bracket tables (Singapore, United States 2024 single filer), two hand-unrolled
 * piecewise formulas (Australia 2023-24, Germany simplified), the Chinese
 * quick-deduction lookup, and the dispatcher keyed by currency.
 *
 * Every calculator is tied to one reference definition, `Marginal`: each bracket
 * taxes the part of the income lying between its lower and upper thresholds.
 * The properties (zero below the tax-free floor, non-decreasing, changing by at
 * most the top rate per unit of income, brackets above the income irrelevant)
 * are proved once about `Marginal` and then carried to each calculator.
 */
module TaxEngine {
  import opened Wrappers
  import opened RealOps

  /** Upper end of a bracket: an inclusive finite threshold, or JavaScript's `Infinity`. */
  datatype Limit = UpTo(bound: real) | Unbounded

  datatype Bracket = Bracket(limit: Limit, rate: real)

  // ------------------------------------------------------------------
  // Bracket tables
  // ------------------------------------------------------------------

  /** SINGAPORE_TAX_BRACKETS. */
  const SingaporeBrackets: seq<Bracket> := [
    Bracket(UpTo(20000.0), 0.0),
    Bracket(UpTo(30000.0), 0.02),
    Bracket(UpTo(40000.0), 0.035),
    Bracket(UpTo(80000.0), 0.07),
    Bracket(UpTo(120000.0), 0.115),
    Bracket(UpTo(160000.0), 0.15),
    Bracket(UpTo(200000.0), 0.18),
    Bracket(UpTo(240000.0), 0.19),
    Bracket(UpTo(280000.0), 0.195),
    Bracket(UpTo(320000.0), 0.20),
    Bracket(UpTo(500000.0), 0.22),
    Bracket(UpTo(1000000.0), 0.23),
    Bracket(Unbounded, 0.24)
  ]

  /** US_TAX_BRACKETS_2024. */
  const USBrackets2024: seq<Bracket> := [
    Bracket(UpTo(11600.0), 0.10),
    Bracket(UpTo(47150.0), 0.12),
    Bracket(UpTo(100525.0), 0.22),
    Bracket(UpTo(191950.0), 0.24),
    Bracket(UpTo(243725.0), 0.32),
    Bracket(UpTo(609350.0), 0.35),
    Bracket(Unbounded, 0.37)
  ]

  /** The brackets that calculateAustraliaTax unrolls by hand. */
  const AustraliaBrackets: seq<Bracket> := [
    Bracket(UpTo(18200.0), 0.0),
    Bracket(UpTo(45000.0), 0.19),
    Bracket(UpTo(120000.0), 0.325),
    Bracket(UpTo(180000.0), 0.37),
    Bracket(Unbounded, 0.45)
  ]

  /** The brackets that calculateGermanyTax unrolls by hand. */
  const GermanyBrackets: seq<Bracket> := [
    Bracket(UpTo(11604.0), 0.0),
    Bracket(UpTo(66760.0), 0.14),
    Bracket(UpTo(277825.0), 0.42),
    Bracket(Unbounded, 0.45)
  ]

  // ------------------------------------------------------------------
  // The slab walk, as the loop performs it
  // ------------------------------------------------------------------

  /** `Math.min(remaining, threshold - prevThresh)`; against `Infinity` it is all that remains. */
  function SlabOf(limit: Limit, remaining: real, prev: real): real
  {
    match limit
    case UpTo(b) => Min(remaining, b - prev)
    case Unbounded => remaining
  }

  /** The next `prevThresh`. After the unbounded bracket nothing remains, so its value is never used. */
  function NextPrev(limit: Limit, prev: real): real
  {
    match limit
    case UpTo(b) => b
    case Unbounded => prev
  }

  /**
   * Tax the loop adds up from the first bracket of `table` on, when `remaining`
   * income is left and the previous threshold was `prev`; it stops as soon as
   * nothing remains.
   */
  function Walk(table: seq<Bracket>, remaining: real, prev: real): real
    decreases |table|
  {
    if |table| == 0 || remaining <= 0.0 then 0.0
    else
      var slab := SlabOf(table[0].limit, remaining, prev);
      slab * table[0].rate + Walk(table[1..], remaining - slab, NextPrev(table[0].limit, prev))
  }

  /** The loop shared by calculateSingaporeTax and calculateUSTax2024. */
  method SlabWalk(table: seq<Bracket>, income: real) returns (tax: real)
    ensures tax == Walk(table, income, 0.0)
  {
    var remaining := income;
    var prevThresh := 0.0;
    tax := 0.0;
    var i := 0;
    while i < |table|
      invariant 0 <= i <= |table|
      invariant tax + Walk(table[i..], remaining, prevThresh) == Walk(table, income, 0.0)
    {
      if remaining <= 0.0 {
        break;
      }
      var slab := SlabOf(table[i].limit, remaining, prevThresh);
      assert table[i..][1..] == table[i + 1..];
      tax := tax + slab * table[i].rate;
      remaining := remaining - slab;
      prevThresh := NextPrev(table[i].limit, prevThresh);
      i := i + 1;
    }
  }

  // ------------------------------------------------------------------
  // The reference definition and its properties
  // ------------------------------------------------------------------

  /** Thresholds rise strictly above `lo`, and the last bracket, only the last, is unbounded. */
  predicate Ascending(table: seq<Bracket>, lo: real)
    decreases |table|
  {
    |table| > 0 &&
    match table[0].limit
    case Unbounded => |table| == 1
    case UpTo(b) => lo < b && Ascending(table[1..], b)
  }

  /** Every rate of the table lies in [0, cap]. */
  predicate RatesWithin(table: seq<Bracket>, cap: real)
    decreases |table|
  {
    |table| == 0 || (0.0 <= table[0].rate <= cap && RatesWithin(table[1..], cap))
  }

  /**
   * Reference: each bracket taxes, at its own rate, the part of `income` lying
   * between its lower threshold (`lo` for the first one) and its upper threshold.
   */
  function Marginal(table: seq<Bracket>, income: real, lo: real): real
    decreases |table|
  {
    if |table| == 0 || income <= lo then 0.0
    else match table[0].limit
      case Unbounded => (income - lo) * table[0].rate
      case UpTo(b) =>
        if income <= b then (income - lo) * table[0].rate
        else (b - lo) * table[0].rate + Marginal(table[1..], income, b)
  }

  /** The loop computes the reference tax: the walk from threshold `lo` with `income - lo` remaining. */
  lemma {:induction false} WalkIsMarginal(table: seq<Bracket>, lo: real, income: real)
    requires Ascending(table, lo)
    ensures Walk(table, income - lo, lo) == Marginal(table, income, lo)
    decreases |table|
  {
    if income > lo {
      match table[0].limit {
        case Unbounded =>
        case UpTo(b) =>
          if income > b {
            WalkIsMarginal(table[1..], b, income);
          }
      }
    }
  }

  /** Income growing from a to c inside one bracket of rate r adds between 0 and cap * span. */
  lemma SlopeStep(a: real, c: real, r: real, cap: real, span: real)
    requires 0.0 <= a <= c && 0.0 <= r <= cap && span == c - a
    ensures 0.0 <= c * r - a * r <= cap * span
  {
    MulLeFactor(c - a, r, cap);
    MulNonNegative(c - a, r);
    assert c * r - a * r == (c - a) * r;
  }

  /** Two consecutive spans, each bounded by cap per unit, together are too. */
  lemma SpansAdd(d1: real, d2: real, cap: real, s1: real, s2: real, span: real)
    requires 0.0 <= d1 <= cap * s1 && 0.0 <= d2 <= cap * s2
    requires span == s1 + s2
    ensures 0.0 <= d1 + d2 <= cap * span
  {
    assert cap * span == cap * s1 + cap * s2;
  }

  /** Two incomes within the first bracket are taxed at its one rate, so they differ by at most `cap` per unit. */
  lemma MarginalSteadyFirst(table: seq<Bracket>, lo: real, cap: real, x: real, y: real)
    requires |table| > 0 && 0.0 <= table[0].rate <= cap
    requires table[0].limit.Unbounded? || y <= table[0].limit.bound
    requires lo <= x <= y
    ensures 0.0 <= Marginal(table, y, lo) - Marginal(table, x, lo) <= cap * (y - x)
  {
    var r := table[0].rate;
    assert Marginal(table, x, lo) == (x - lo) * r;
    assert Marginal(table, y, lo) == (y - lo) * r;
    SlopeStep(x - lo, y - lo, r, cap, y - x);
  }

  /**
   * Above `lo`, the reference tax never decreases, and it grows by at most `cap`
   * (the highest rate) per unit of extra income.
   */
  lemma {:induction false} MarginalSteadyAbove(table: seq<Bracket>, lo: real, cap: real, x: real, y: real)
    requires Ascending(table, lo) && RatesWithin(table, cap)
    requires lo <= x <= y
    ensures 0.0 <= Marginal(table, y, lo) - Marginal(table, x, lo) <= cap * (y - x)
    decreases |table|
  {
    var r := table[0].rate;
    if table[0].limit.Unbounded? || y <= table[0].limit.bound {
      MarginalSteadyFirst(table, lo, cap, x, y);
    } else {
      var b := table[0].limit.bound;
      if x <= b {
        SlopeStep(x - lo, b - lo, r, cap, b - x);
        MarginalSteadyAbove(table[1..], b, cap, b, y);
        SpansAdd((b - lo) * r - (x - lo) * r, Marginal(table[1..], y, b), cap, b - x, y - b, y - x);
      } else {
        MarginalSteadyAbove(table[1..], b, cap, x, y);
      }
    }
  }

  /**
   * For any two incomes x <= y: 0 <= Marginal(y) - Marginal(x) <= cap * (y - x).
   * The tax is therefore non-decreasing and continuous everywhere (Lipschitz with
   * constant `cap`), across every threshold included.
   */
  lemma MarginalSteady(table: seq<Bracket>, lo: real, cap: real, x: real, y: real)
    requires Ascending(table, lo) && RatesWithin(table, cap)
    requires x <= y
    ensures 0.0 <= Marginal(table, y, lo) - Marginal(table, x, lo) <= cap * (y - x)
  {
    if y <= lo {
      MulNonNegative(cap, y - x);
    } else if x <= lo {
      assert 0.0 <= table[0].rate <= cap;
      assert Marginal(table, x, lo) == Marginal(table, lo, lo) == 0.0;
      MarginalSteadyAbove(table, lo, cap, lo, y);
      MulLeFactor(cap, y - lo, y - x);
    } else {
      MarginalSteadyAbove(table, lo, cap, x, y);
    }
  }

  /**
   * Income at or below the threshold of bracket k is taxed by brackets 0..k
   * alone: on a threshold, the whole income is taxed at the lower brackets' rates.
   */
  lemma {:induction false} MarginalIgnoresHigherBrackets(table: seq<Bracket>, lo: real, k: nat, income: real)
    requires Ascending(table, lo)
    requires k < |table| && table[k].limit.UpTo?
    requires income <= table[k].limit.bound
    ensures Marginal(table, income, lo) == Marginal(table[..k + 1], income, lo)
    decreases k
  {
    match table[0].limit {
      case Unbounded =>
      case UpTo(b) =>
        if k > 0 && income > b {
          MarginalIgnoresHigherBrackets(table[1..], b, k - 1, income);
          assert table[..k + 1][1..] == table[1..][..k];
        }
    }
  }

  // ------------------------------------------------------------------
  // Singapore and the United States: the slab walk over their tables
  // ------------------------------------------------------------------

  lemma SingaporeBracketsWellFormed()
    ensures Ascending(SingaporeBrackets, 0.0)
    ensures RatesWithin(SingaporeBrackets, 0.24)
  {
    var t := SingaporeBrackets;
    assert Ascending(t[12..], 1000000.0);
    assert t[11..][1..] == t[12..];
    assert Ascending(t[11..], 500000.0);
    assert t[10..][1..] == t[11..];
    assert Ascending(t[10..], 320000.0);
    assert t[9..][1..] == t[10..];
    assert Ascending(t[9..], 280000.0);
    assert t[8..][1..] == t[9..];
    assert Ascending(t[8..], 240000.0);
    assert t[7..][1..] == t[8..];
    assert Ascending(t[7..], 200000.0);
    assert t[6..][1..] == t[7..];
    assert Ascending(t[6..], 160000.0);
    assert t[5..][1..] == t[6..];
    assert Ascending(t[5..], 120000.0);
    assert t[4..][1..] == t[5..];
    assert Ascending(t[4..], 80000.0);
    assert t[3..][1..] == t[4..];
    assert Ascending(t[3..], 40000.0);
    assert t[2..][1..] == t[3..];
    assert Ascending(t[2..], 30000.0);
    assert t[1..][1..] == t[2..];
    assert Ascending(t[1..], 20000.0);
  }

  lemma USBracketsWellFormed()
    ensures Ascending(USBrackets2024, 0.0)
    ensures RatesWithin(USBrackets2024, 0.37)
  {
  }

  /** The slab walk taxes nothing at or below zero and at most `cap` of a positive income. */
  lemma WalkBounds(table: seq<Bracket>, cap: real, income: real)
    requires Ascending(table, 0.0) && RatesWithin(table, cap)
    ensures 0.0 <= Walk(table, income, 0.0) <= cap * Max(income, 0.0)
  {
    WalkIsMarginal(table, 0.0, income);
    MarginalSteady(table, 0.0, cap, 0.0, Max(income, 0.0));
  }

  /** The slab walk is non-decreasing and grows by at most `cap` per unit of income. */
  lemma WalkSteady(table: seq<Bracket>, cap: real, x: real, y: real)
    requires Ascending(table, 0.0) && RatesWithin(table, cap)
    requires x <= y
    ensures 0.0 <= Walk(table, y, 0.0) - Walk(table, x, 0.0) <= cap * (y - x)
  {
    WalkIsMarginal(table, 0.0, x);
    WalkIsMarginal(table, 0.0, y);
    MarginalSteady(table, 0.0, cap, x, y);
  }

  /** When the first bracket is taxed at 0%, income up to its threshold owes nothing. */
  lemma WalkFloor(table: seq<Bracket>, income: real)
    requires Ascending(table, 0.0)
    requires table[0].limit.UpTo? && table[0].rate == 0.0
    requires income <= table[0].limit.bound
    ensures Walk(table, income, 0.0) == 0.0
  {
    WalkIsMarginal(table, 0.0, income);
  }

  /** calculateSingaporeTax: the slab walk over SINGAPORE_TAX_BRACKETS. */
  function SingaporeTax(income: real): (tax: real)
    ensures 0.0 <= tax <= 0.24 * Max(income, 0.0)
  {
    SingaporeBracketsWellFormed();
    WalkBounds(SingaporeBrackets, 0.24, income);
    Walk(SingaporeBrackets, income, 0.0)
  }

  /** calculateUSTax2024: the slab walk over US_TAX_BRACKETS_2024. */
  function USTax2024(income: real): (tax: real)
    ensures 0.0 <= tax <= 0.37 * Max(income, 0.0)
  {
    USBracketsWellFormed();
    WalkBounds(USBrackets2024, 0.37, income);
    Walk(USBrackets2024, income, 0.0)
  }

  /** The first S$20,000 is tax free. */
  lemma SingaporeTaxFloor(income: real)
    requires income <= 20000.0
    ensures SingaporeTax(income) == 0.0
  {
    SingaporeBracketsWellFormed();
    WalkFloor(SingaporeBrackets, income);
  }

  /** Non-decreasing, and at most 24 cents more per extra dollar: continuous at every threshold. */
  lemma SingaporeTaxSteady(x: real, y: real)
    requires x <= y
    ensures 0.0 <= SingaporeTax(y) - SingaporeTax(x) <= 0.24 * (y - x)
  {
    SingaporeBracketsWellFormed();
    WalkSteady(SingaporeBrackets, 0.24, x, y);
  }

  /** Nothing is due on a zero or negative income. */
  lemma USTaxFloor(income: real)
    requires income <= 0.0
    ensures USTax2024(income) == 0.0
  {
  }

  /** Non-decreasing, and at most 37 cents more per extra dollar: continuous at every threshold. */
  lemma USTaxSteady(x: real, y: real)
    requires x <= y
    ensures 0.0 <= USTax2024(y) - USTax2024(x) <= 0.37 * (y - x)
  {
    USBracketsWellFormed();
    WalkSteady(USBrackets2024, 0.37, x, y);
  }

  // ------------------------------------------------------------------
  // Australia and Germany: piecewise formulas
  // ------------------------------------------------------------------

  /** calculateAustraliaTax, 2023-24 resident rates. */
  function AustraliaTax(income: real): real
  {
    if income <= 18200.0 then 0.0
    else if income <= 45000.0 then (income - 18200.0) * 0.19
    else
      var t1 := (45000.0 - 18200.0) * 0.19;
      if income <= 120000.0 then t1 + (income - 45000.0) * 0.325
      else
        var t2 := t1 + (120000.0 - 45000.0) * 0.325;
        if income <= 180000.0 then t2 + (income - 120000.0) * 0.37
        else
          var t3 := t2 + (180000.0 - 120000.0) * 0.37;
          t3 + (income - 180000.0) * 0.45
  }

  /** calculateGermanyTax, simplified 2024 single rates. */
  function GermanyTax(income: real): real
  {
    if income <= 11604.0 then 0.0
    else
      var t1 := (Min(income, 66760.0) - 11604.0) * 0.14;
      var t2 := if income > 66760.0 then t1 + (Min(income, 277825.0) - 66760.0) * 0.42 else t1;
      if income > 277825.0 then t2 + (income - 277825.0) * 0.45 else t2
  }

  lemma AustraliaBracketsWellFormed()
    ensures Ascending(AustraliaBrackets, 0.0)
    ensures RatesWithin(AustraliaBrackets, 0.45)
  {
  }

  lemma GermanyBracketsWellFormed()
    ensures Ascending(GermanyBrackets, 0.0)
    ensures RatesWithin(GermanyBrackets, 0.45)
  {
  }

  /** The hand-unrolled Australian formula is the marginal tax over its five brackets. */
  lemma AustraliaTaxIsMarginal(income: real)
    ensures AustraliaTax(income) == Marginal(AustraliaBrackets, income, 0.0)
  {
    var t := AustraliaBrackets;
    assert t[1..][1..] == t[2..] && t[2..][1..] == t[3..] && t[3..][1..] == t[4..];
  }

  /** The hand-unrolled German formula is the marginal tax over its four brackets. */
  lemma GermanyTaxIsMarginal(income: real)
    ensures GermanyTax(income) == Marginal(GermanyBrackets, income, 0.0)
  {
    var t := GermanyBrackets;
    assert t[1..][1..] == t[2..] && t[2..][1..] == t[3..];
  }

  /** A$18,200 is tax free. */
  lemma AustraliaTaxFloor(income: real)
    requires income <= 18200.0
    ensures AustraliaTax(income) == 0.0
  {
  }

  /** Non-decreasing, and at most 45 cents more per extra dollar: continuous at every threshold. */
  lemma AustraliaTaxSteady(x: real, y: real)
    requires x <= y
    ensures 0.0 <= AustraliaTax(y) - AustraliaTax(x) <= 0.45 * (y - x)
  {
    AustraliaBracketsWellFormed();
    AustraliaTaxIsMarginal(x);
    AustraliaTaxIsMarginal(y);
    MarginalSteady(AustraliaBrackets, 0.0, 0.45, x, y);
  }

  /** EUR 11,604 is tax free. */
  lemma GermanyTaxFloor(income: real)
    requires income <= 11604.0
    ensures GermanyTax(income) == 0.0
  {
  }

  /** Non-decreasing, and at most 45 cents more per extra euro: continuous at every threshold. */
  lemma GermanyTaxSteady(x: real, y: real)
    requires x <= y
    ensures 0.0 <= GermanyTax(y) - GermanyTax(x) <= 0.45 * (y - x)
  {
    GermanyBracketsWellFormed();
    GermanyTaxIsMarginal(x);
    GermanyTaxIsMarginal(y);
    MarginalSteady(GermanyBrackets, 0.0, 0.45, x, y);
  }

  // ------------------------------------------------------------------
  // China: the quick-deduction lookup
  // ------------------------------------------------------------------

  /** One row of calcChinaTax's table: [upper threshold, rate, quick deduction]. */
  datatype Row = Row(limit: Limit, rate: real, deduction: real)

  const ChinaRows: seq<Row> := [
    Row(UpTo(36000.0), 0.03, 0.0),
    Row(UpTo(144000.0), 0.10, 2520.0),
    Row(UpTo(300000.0), 0.20, 16920.0),
    Row(UpTo(420000.0), 0.25, 31920.0),
    Row(UpTo(660000.0), 0.30, 52920.0),
    Row(UpTo(960000.0), 0.35, 85920.0),
    Row(Unbounded, 0.45, 181920.0)
  ]

  /** `taxable <= up`, where every finite amount is at most `Infinity`. */
  predicate Covers(limit: Limit, x: real)
  {
    match limit
    case UpTo(b) => x <= b
    case Unbounded => true
  }

  /** `table.find(([up]) => taxable <= up)`. */
  function FindRow(rows: seq<Row>, x: real): Option<Row>
    decreases |rows|
  {
    if |rows| == 0 then None
    else if Covers(rows[0].limit, x) then Some(rows[0])
    else FindRow(rows[1..], x)
  }

  /** The search yields the first row whose threshold is not below `x`, and nothing when there is none. */
  lemma {:induction false} FindRowIsFirst(rows: seq<Row>, x: real)
    ensures FindRow(rows, x).None? <==> forall i :: 0 <= i < |rows| ==> !Covers(rows[i].limit, x)
    ensures FindRow(rows, x).Some? ==>
              exists i :: 0 <= i < |rows| && rows[i] == FindRow(rows, x).value && Covers(rows[i].limit, x) &&
                          forall j :: 0 <= j < i ==> !Covers(rows[j].limit, x)
    decreases |rows|
  {
    if |rows| > 0 && !Covers(rows[0].limit, x) {
      FindRowIsFirst(rows[1..], x);
      assert forall i :: 1 <= i < |rows| ==> rows[i] == rows[1..][i - 1];
      if FindRow(rows, x).Some? {
        var i :| 0 <= i < |rows[1..]| && rows[1..][i] == FindRow(rows, x).value && Covers(rows[1..][i].limit, x) &&
                 forall j :: 0 <= j < i ==> !Covers(rows[1..][j].limit, x);
        assert rows[i + 1] == rows[1..][i];
      }
    } else if |rows| > 0 {
      assert rows[0] == FindRow(rows, x).value;
    }
  }

  /** `bracket ? taxable * bracket[1] - bracket[2] : 0`. */
  function QuickDeduction(rows: seq<Row>, x: real): real
  {
    match FindRow(rows, x)
    case Some(row) => x * row.rate - row.deduction
    case None => 0.0
  }

  /** calcChinaTax. */
  function ChinaTax(taxable: real): real
  {
    QuickDeduction(ChinaRows, taxable)
  }

  /** The brackets that the quick-deduction rows stand for. */
  function BracketsOf(rows: seq<Row>): (table: seq<Bracket>)
    ensures |table| == |rows|
    ensures forall i :: 0 <= i < |rows| ==> table[i] == Bracket(rows[i].limit, rows[i].rate)
    decreases |rows|
  {
    if |rows| == 0 then [] else [Bracket(rows[0].limit, rows[0].rate)] + BracketsOf(rows[1..])
  }

  /**
   * The quick deductions agree with the brackets: when `c` is the marginal tax
   * due at the lower threshold `lo`, each row's deduction is exactly what turns
   * `x * rate` into `c + (x - lo) * rate`, and the next row starts from the tax
   * due at this row's threshold.
   */
  predicate Consistent(rows: seq<Row>, lo: real, c: real)
    decreases |rows|
  {
    |rows| > 0 &&
    rows[0].deduction == lo * rows[0].rate - c &&
    match rows[0].limit
    case Unbounded => |rows| == 1
    case UpTo(b) => lo < b && Consistent(rows[1..], b, c + (b - lo) * rows[0].rate)
  }

  lemma ChinaRowsConsistent()
    ensures Consistent(ChinaRows, 0.0, 0.0)
  {
    var t := ChinaRows;
    assert Consistent(t[6..], 960000.0, 250080.0);
    assert t[5..][1..] == t[6..];
    assert Consistent(t[5..], 660000.0, 145080.0);
    assert t[4..][1..] == t[5..];
    assert Consistent(t[4..], 420000.0, 73080.0);
    assert t[3..][1..] == t[4..];
    assert Consistent(t[3..], 300000.0, 43080.0);
    assert t[2..][1..] == t[3..];
    assert Consistent(t[2..], 144000.0, 11880.0);
    assert t[1..][1..] == t[2..];
    assert Consistent(t[1..], 36000.0, 1080.0);
  }

  /** Rate times income less the deduction is the tax at `lo` plus the bracket's share above `lo`. */
  lemma DeductionStep(x: real, lo: real, r: real, d: real, c: real)
    requires d == lo * r - c
    ensures x * r - d == c + (x - lo) * r
    ensures x == lo ==> x * r - d == c
  {
    assert (x - lo) * r == x * r - lo * r;
  }

  /** The lookup stops at the first row when it covers `x`, and otherwise looks past it. */
  lemma QuickDeductionUnfold(rows: seq<Row>, x: real)
    requires |rows| > 0
    ensures Covers(rows[0].limit, x) ==> QuickDeduction(rows, x) == x * rows[0].rate - rows[0].deduction
    ensures !Covers(rows[0].limit, x) ==> QuickDeduction(rows, x) == QuickDeduction(rows[1..], x)
  {
  }

  /**
   * From the lowest threshold up, the quick-deduction lookup over consistent rows
   * is the marginal tax over their brackets.
   */
  lemma {:induction false} QuickDeductionIsMarginal(rows: seq<Row>, lo: real, c: real, x: real)
    requires Consistent(rows, lo, c)
    requires lo <= x
    ensures QuickDeduction(rows, x) == c + Marginal(BracketsOf(rows), x, lo)
    decreases |rows|
  {
    var row := rows[0];
    assert BracketsOf(rows)[0] == Bracket(row.limit, row.rate);
    QuickDeductionUnfold(rows, x);
    if Covers(row.limit, x) {
      DeductionStep(x, lo, row.rate, row.deduction, c);
    } else {
      var b := row.limit.bound;
      QuickDeductionIsMarginal(rows[1..], b, c + (b - lo) * row.rate, x);
      assert BracketsOf(rows)[1..] == BracketsOf(rows[1..]);
    }
  }

  /** The brackets the quick-deduction rows stand for. */
  const ChinaBrackets: seq<Bracket> := BracketsOf(ChinaRows)

  /** Rows whose deductions are consistent have strictly rising thresholds, so their brackets ascend. */
  lemma {:induction false} ConsistentAscending(rows: seq<Row>, lo: real, c: real)
    requires Consistent(rows, lo, c)
    ensures Ascending(BracketsOf(rows), lo)
    decreases |rows|
  {
    if rows[0].limit.UpTo? {
      var b := rows[0].limit.bound;
      ConsistentAscending(rows[1..], b, c + (b - lo) * rows[0].rate);
      assert BracketsOf(rows)[1..] == BracketsOf(rows[1..]);
    }
  }

  /** A table whose every rate lies in [0, cap]. */
  lemma {:induction false} RatesWithinAll(table: seq<Bracket>, cap: real)
    requires forall i :: 0 <= i < |table| ==> 0.0 <= table[i].rate <= cap
    ensures RatesWithin(table, cap)
    decreases |table|
  {
    if |table| > 0 {
      RatesWithinAll(table[1..], cap);
    }
  }

  lemma ChinaBracketsWellFormed()
    ensures Ascending(ChinaBrackets, 0.0)
    ensures RatesWithin(ChinaBrackets, 0.45)
  {
    ChinaRowsConsistent();
    ConsistentAscending(ChinaRows, 0.0, 0.0);
    RatesWithinAll(ChinaBrackets, 0.45);
  }

  /** On a non-negative amount, the lookup with quick deductions is the marginal tax over the seven brackets. */
  lemma ChinaTaxIsMarginal(taxable: real)
    requires 0.0 <= taxable
    ensures ChinaTax(taxable) == Marginal(ChinaBrackets, taxable, 0.0)
  {
    ChinaRowsConsistent();
    ChinaBracketsWellFormed();
    QuickDeductionIsMarginal(ChinaRows, 0.0, 0.0, taxable);
  }

  /** A negative amount falls in the first row, so the result is 3% of it: a negative tax. */
  lemma ChinaTaxNegative(taxable: real)
    requires taxable < 0.0
    ensures ChinaTax(taxable) == 0.03 * taxable
    ensures ChinaTax(taxable) < 0.0
  {
    assert Covers(ChinaRows[0].limit, taxable);
  }

  /** Nothing is due on zero, and at most 45% of a positive amount. */
  lemma ChinaTaxBounds(taxable: real)
    requires 0.0 <= taxable
    ensures 0.0 <= ChinaTax(taxable) <= 0.45 * taxable
  {
    ChinaBracketsWellFormed();
    ChinaTaxIsMarginal(taxable);
    MarginalSteady(ChinaBrackets, 0.0, 0.45, 0.0, taxable);
  }

  /** Steadiness on each side of zero, and across it. */
  lemma ChinaTaxSteadyBelowZero(x: real, y: real)
    requires x <= y < 0.0
    ensures 0.0 <= ChinaTax(y) - ChinaTax(x) <= 0.45 * (y - x)
  {
    ChinaTaxNegative(x);
    ChinaTaxNegative(y);
  }

  lemma ChinaTaxSteadyAcrossZero(x: real, y: real)
    requires x < 0.0 <= y
    ensures 0.0 <= ChinaTax(y) - ChinaTax(x) <= 0.45 * (y - x)
  {
    ChinaTaxNegative(x);
    ChinaTaxBounds(y);
  }

  lemma ChinaTaxSteadyAboveZero(x: real, y: real)
    requires 0.0 <= x <= y
    ensures 0.0 <= ChinaTax(y) - ChinaTax(x) <= 0.45 * (y - x)
  {
    ChinaBracketsWellFormed();
    ChinaTaxIsMarginal(x);
    ChinaTaxIsMarginal(y);
    MarginalSteady(ChinaBrackets, 0.0, 0.45, x, y);
  }

  /** Non-decreasing everywhere, negative amounts included, and at most 45 fen more per extra yuan. */
  lemma ChinaTaxSteady(x: real, y: real)
    requires x <= y
    ensures 0.0 <= ChinaTax(y) - ChinaTax(x) <= 0.45 * (y - x)
  {
    if y < 0.0 {
      ChinaTaxSteadyBelowZero(x, y);
    } else if x < 0.0 {
      ChinaTaxSteadyAcrossZero(x, y);
    } else {
      ChinaTaxSteadyAboveZero(x, y);
    }
  }

  // ------------------------------------------------------------------
  // The dispatcher
  // ------------------------------------------------------------------

  const Renminbi: string := "人民币"
  const SingaporeDollar: string := "新加坡元"
  const USDollar: string := "美元"
  const Euro: string := "欧元"
  const AustralianDollar: string := "澳元"

  predicate SupportedCurrency(currency: string)
  {
    currency in {Renminbi, SingaporeDollar, USDollar, Euro, AustralianDollar}
  }

  /** The `throw new Error("Unsupported currency: ...")` of the default branch. */
  datatype TaxError = UnsupportedCurrency(currency: string)

  /**
   * calcOverseasTax: the tax on an annual gross amount under the regime the
   * currency names. Singapore taxes only 63% of the gross.
   */
  function OverseasTax(gross: real, currency: string): (r: Result<real, TaxError>)
    ensures r.Err? <==> !SupportedCurrency(currency)
    ensures r.Err? ==> r.error == UnsupportedCurrency(currency)
    ensures r.Ok? && 0.0 <= gross ==> 0.0 <= r.value <= 0.45 * gross
    ensures r.Ok? && currency == SingaporeDollar && 0.0 <= gross ==> r.value <= 0.1512 * gross
  {
    if currency == Renminbi then
      ChinaTaxBounds(Max(gross, 0.0));
      Ok(ChinaTax(gross))
    else if currency == SingaporeDollar then Ok(SingaporeTax(gross * 0.63))
    else if currency == USDollar then Ok(USTax2024(gross))
    else if currency == Euro then
      GermanyTaxSteady(0.0, Max(gross, 0.0));
      Ok(GermanyTax(gross))
    else if currency == AustralianDollar then
      AustraliaTaxSteady(0.0, Max(gross, 0.0));
      Ok(AustraliaTax(gross))
    else Err(UnsupportedCurrency(currency))
  }

  /** Raising the gross never lowers the tax, under every supported regime. */
  lemma OverseasTaxMonotone(x: real, y: real, currency: string)
    requires x <= y && SupportedCurrency(currency)
    ensures OverseasTax(x, currency).value <= OverseasTax(y, currency).value
  {
    if currency == Renminbi {
      ChinaTaxSteady(x, y);
    } else if currency == SingaporeDollar {
      SingaporeTaxSteady(x * 0.63, y * 0.63);
    } else if currency == USDollar {
      USTaxSteady(x, y);
    } else if currency == Euro {
      GermanyTaxSteady(x, y);
    } else {
      AustraliaTaxSteady(x, y);
    }
  }
}
