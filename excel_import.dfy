/**
 * The row filter of data/excel_to_json.py: each spreadsheet row of the talent
 * policy sheet either becomes one subsidy record or is skipped.
 *
 * Reading the workbook and writing subsidy.json are left to the caller. Cells
 * arrive as they come out of the sheet (text or missing), and the two numeric
 * columns arrive as what Python's `float(...)` made of them: a value, or None
 * where it raised ValueError or TypeError.
 */
module SubsidyImport {
  import opened Wrappers
  import opened Subsidy

  /** One spreadsheet row, as far as the filter reads it. */
  datatype RawRow = RawRow(
    city: Option<string>, district: Option<string>, education: Option<string>,
    validYears: Option<real>, freq: Option<string>, total5Year: Option<real>)

  // ------------------------------------------------------------------
  // str(cell or "").strip()
  // ------------------------------------------------------------------

  /** Python's `str.isspace` for one character. */
  predicate IsSpace(c: char)
  {
    ('\t' <= c <= '\r') || ('\U{1C}' <= c <= ' ') || c == '\U{85}' || c == '\U{A0}' || c == '\U{1680}' ||
    ('\U{2000}' <= c <= '\U{200A}') || c == '\U{2028}' || c == '\U{2029}' || c == '\U{202F}' ||
    c == '\U{205F}' || c == '\U{3000}'
  }

  /** Drops leading whitespace: the rest of `s` from its first non-space character on. */
  function StripLeft(s: string): (r: string)
    ensures |r| <= |s| && r == s[|s| - |r|..]
    ensures forall k :: 0 <= k < |s| - |r| ==> IsSpace(s[k])
    ensures r == [] || !IsSpace(r[0])
    decreases |s|
  {
    if |s| > 0 && IsSpace(s[0]) then StripLeft(s[1..]) else s
  }

  /** Drops trailing whitespace: `s` up to its last non-space character. */
  function StripRight(s: string): (r: string)
    ensures |r| <= |s| && r == s[..|r|]
    ensures forall k :: |r| <= k < |s| ==> IsSpace(s[k])
    ensures r == [] || !IsSpace(r[|r| - 1])
    decreases |s|
  {
    if |s| > 0 && IsSpace(s[|s| - 1]) then StripRight(s[..|s| - 1]) else s
  }

  /** `str.strip()`. */
  function Strip(s: string): string
  {
    StripRight(StripLeft(s))
  }

  /** `s[i..j]` is `s` with a run of whitespace cut from each end. */
  predicate TrimmedAt(s: string, i: int, j: int)
  {
    0 <= i <= j <= |s| &&
    (forall k :: 0 <= k < i ==> IsSpace(s[k])) &&
    (forall k :: j <= k < |s| ==> IsSpace(s[k]))
  }

  /**
   * Whitespace cut from the front of `s`, leaving `l`, and then from the back
   * of `l`, leaving `t`, makes `t` a trimmed slice of `s`.
   */
  lemma SliceOfSuffix(s: string, l: string, t: string)
    requires |l| <= |s| && l == s[|s| - |l|..]
    requires forall k :: 0 <= k < |s| - |l| ==> IsSpace(s[k])
    requires |t| <= |l| && t == l[..|t|]
    requires forall k :: |t| <= k < |l| ==> IsSpace(l[k])
    ensures exists i, j :: TrimmedAt(s, i, j) && t == s[i..j]
  {
    var i := |s| - |l|;
    forall k | i + |t| <= k < |s|
      ensures IsSpace(s[k])
    {
      assert s[k] == l[k - i];
    }
    assert TrimmedAt(s, i, i + |t|) && t == s[i..i + |t|];
  }

  /**
   * What `strip` promises: the result is the middle of `s` between a run of
   * leading and a run of trailing whitespace, and it neither begins nor ends
   * with whitespace.
   */
  lemma StripIsTrim(s: string)
    ensures exists i, j :: TrimmedAt(s, i, j) && Strip(s) == s[i..j]
    ensures Strip(s) == [] || (!IsSpace(Strip(s)[0]) && !IsSpace(Strip(s)[|Strip(s)| - 1]))
  {
    var l, t := StripLeft(s), Strip(s);
    SliceOfSuffix(s, l, t);
    if t != [] {
      assert t[0] == l[0];
    }
  }

  /** Stripping twice changes nothing more. */
  lemma StripIdempotent(s: string)
    ensures Strip(Strip(s)) == Strip(s)
  {
    var t := Strip(s);
    if t != [] {
      StripIsTrim(s);
      assert StripLeft(t) == t;
    }
  }

  /** `str(cell or "").strip()`: a missing cell reads as the empty string. */
  function CellText(cell: Option<string>): string
  {
    match cell
    case None => ""
    case Some(s) => Strip(s)
  }

  // ------------------------------------------------------------------
  // int(float(...)) and the guards
  // ------------------------------------------------------------------

  /** Python's `int` on a float: truncation toward zero. */
  function Truncate(x: real): (n: int)
    ensures 0.0 <= x ==> n as real <= x < n as real + 1.0
    ensures x < 0.0 ==> n as real - 1.0 < x <= n as real
  {
    if 0.0 <= x then x.Floor else -((-x).Floor)
  }

  /** The body of the loop for one row: the record it appends, or None where it reaches `continue`. */
  function ToRecord(row: RawRow): Option<SubsidyRecord>
  {
    match row.validYears
    case None => None
    case Some(vy) =>
      var validYears := Truncate(vy);
      if validYears <= 0 then None
      else
        var freq := CellText(row.freq);
        if freq != Yearly && freq != Monthly then None
        else
          match row.total5Year
          case None => None
          case Some(total5) =>
            if total5 <= 0.0 then None
            else Some(SubsidyRecord(CellText(row.city), CellText(row.district), CellText(row.education),
                                    validYears, freq, total5))
  }

  /**
   * A row is kept exactly when its validity period truncates to a positive
   * whole number of years, its stripped frequency is 年 or 月, and its
   * five-year amount parses to a positive number. What is kept is the row's
   * own data: its stripped cells (a missing one as ""), its truncated validity
   * and its amount, making a valid record whose text fields are stripped.
   */
  lemma ToRecordKeeps(row: RawRow)
    ensures ToRecord(row).Some? <==>
              row.validYears.Some? && Truncate(row.validYears.value) > 0 &&
              (CellText(row.freq) == Yearly || CellText(row.freq) == Monthly) &&
              row.total5Year.Some? && row.total5Year.value > 0.0
    ensures ToRecord(row).Some? ==> ValidRecord(ToRecord(row).value)
    ensures ToRecord(row).Some? ==>
              var r := ToRecord(row).value;
              Strip(r.city) == r.city && Strip(r.district) == r.district && Strip(r.education) == r.education
    ensures ToRecord(row).Some? ==>
              var r := ToRecord(row).value;
              r.city == CellText(row.city) && r.district == CellText(row.district) &&
              r.education == CellText(row.education) && r.freq == CellText(row.freq) &&
              r.validYears == Truncate(row.validYears.value) && r.total5Year == row.total5Year.value
  {
    if ToRecord(row).Some? {
      var r := ToRecord(row).value;
      assert Strip(r.city) == r.city by { if row.city.Some? { StripIdempotent(row.city.value); } }
      assert Strip(r.district) == r.district by { if row.district.Some? { StripIdempotent(row.district.value); } }
      assert Strip(r.education) == r.education by { if row.education.Some? { StripIdempotent(row.education.value); } }
    }
  }

  /** What EmittedValid needs of one row: a kept record is valid. */
  lemma ToRecordValid(row: RawRow)
    ensures ToRecord(row).Some? ==> ValidRecord(ToRecord(row).value)
  {
  }

  /** A validity period below one year truncates to zero or less, so the row is skipped. */
  lemma ShortValidityDropped(row: RawRow)
    requires row.validYears.Some? && row.validYears.value < 1.0
    ensures ToRecord(row) == None
  {
  }

  // ------------------------------------------------------------------
  // The loop
  // ------------------------------------------------------------------

  /** `records` after the loop has visited `rows`. */
  function Emitted(rows: seq<RawRow>): seq<SubsidyRecord>
    decreases |rows|
  {
    if |rows| == 0 then []
    else
      var prefix := Emitted(rows[..|rows| - 1]);
      match ToRecord(rows[|rows| - 1])
      case None => prefix
      case Some(r) => prefix + [r]
  }

  /** The `for _, row in df.iterrows()` loop of `main`. */
  method Convert(rows: seq<RawRow>) returns (records: seq<SubsidyRecord>)
    ensures records == Emitted(rows)
  {
    records := [];
    var i := 0;
    while i < |rows|
      invariant 0 <= i <= |rows|
      invariant records == Emitted(rows[..i])
    {
      var row := rows[i];
      assert rows[..i + 1][..i] == rows[..i];
      i := i + 1;
      if row.validYears.None? {
        continue;
      }
      var validYears := Truncate(row.validYears.value);
      if validYears <= 0 {
        continue;
      }
      var freq := CellText(row.freq);
      if freq != Yearly && freq != Monthly {
        continue;
      }
      if row.total5Year.None? {
        continue;
      }
      var total5 := row.total5Year.value;
      if total5 <= 0.0 {
        continue;
      }
      records := records + [SubsidyRecord(CellText(row.city), CellText(row.district), CellText(row.education),
                                          validYears, freq, total5)];
    }
    assert rows[..i] == rows;
  }

  /** Every record written is valid: positive validity, frequency 年 or 月, positive amount. */
  lemma {:induction false} EmittedValid(rows: seq<RawRow>)
    ensures forall i :: 0 <= i < |Emitted(rows)| ==> ValidRecord(Emitted(rows)[i])
    decreases |rows|
  {
    if |rows| > 0 {
      EmittedValid(rows[..|rows| - 1]);
      ToRecordValid(rows[|rows| - 1]);
    }
  }

  /** Each row yields at most one record, in row order. */
  lemma {:induction false} EmittedAppend(a: seq<RawRow>, b: seq<RawRow>)
    ensures Emitted(a + b) == Emitted(a) + Emitted(b)
    decreases |b|
  {
    if |b| == 0 {
      assert a + b == a;
    } else {
      var b' := b[..|b| - 1];
      assert (a + b)[..|a + b| - 1] == a + b';
      assert (a + b)[|a + b| - 1] == b[|b| - 1];
      EmittedAppend(a, b');
    }
  }

  /** No more records than rows. */
  lemma {:induction false} EmittedLength(rows: seq<RawRow>)
    ensures |Emitted(rows)| <= |rows|
    decreases |rows|
  {
    if |rows| > 0 {
      EmittedLength(rows[..|rows| - 1]);
    }
  }

  /** Hence, over an imported table, every subsidy total the calculator returns is non-negative. */
  lemma ImportedTotalsNonNegative(rows: seq<RawRow>, q: Query, currentYear: int)
    ensures 0.0 <= SubsidyTotal(q, currentYear, Emitted(rows)).yearTotal
    ensures 0.0 <= SubsidyTotal(q, currentYear, Emitted(rows)).total
  {
    EmittedValid(rows);
    YearTotalNonNegative(q, currentYear, Emitted(rows));
  }
}
