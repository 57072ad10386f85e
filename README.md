# WorthMove, modelled in Dafny

WorthMove is a one-page calculator. It asks a graduate whether an overseas job is worth more than a job at home in China. It compares the two offers on five dimensions, each worth at most 20 points:

1. purchasing power of the net salary;
2. lifestyle fit, from a five-question questionnaire;
3. five-year earnings;
4. ten-year earnings;
5. being with family.

The domestic side can add a city's talent subsidy, looked up in a table. An import script builds that table from a spreadsheet.

This project models the calculator's core and proves properties of it.

- `TaxEngine` (tax.dfy) is the tax engine:
  - the Singapore and United States 2024 slab walks, as a loop proved against a function;
  - the hand-unrolled Australian and German formulas;
  - the Chinese quick-deduction lookup;
  - the dispatcher keyed by currency.

  Every calculator is proved equal to one reference definition, the marginal tax over a bracket table. For the Chinese lookup this holds on non-negative amounts; below zero it charges 3% of the amount (ChinaTaxNegative). The shared properties are proved once about that definition and carried to each calculator; the tax-free floors of the Australian and German formulas are proved from the formulas directly:
  - no tax below the tax-free floor;
  - never decreasing;
  - at most the top rate per extra unit of income, which also makes the tax continuous at every threshold;
  - brackets above the income play no part.
- `SocialInsurance` (social.dfy) is the employee's monthly social insurance and housing fund contribution, per city.
- `Subsidy` (subsidy.dfy) covers:
  - `calcSubsidyTotal`: which records match, the yearly sum and the monthly maximum;
  - the city-to-district index the district picker uses.
- `SubsidyImport` (excel_import.dfy) is the row filter of the spreadsheet importer.
- `Scoring` (scoring.dfy) covers:
  - currency and period conversion;
  - the hours adjustment;
  - the five dimensions and the two scores;
  - the form state with its mutually exclusive "with family" boxes.
- `RealOps` (real_ops.dfy) and `Wrappers` (wrappers.dfy) hold shared helpers: min, max and clamp on reals, and `Option`/`Result`.

Money is modelled as `real`. JavaScript's `Infinity` as a bracket threshold is `Limit.Unbounded`. Where the code throws or computes NaN, the model returns an error value. A currency without a tax regime gives `Thrown(UnsupportedCurrency(..))`. A domestic currency without a PPP rate gives `NotANumber`. A division of a negative amount by a maximum of 0 gives `DivisionByZero`.

The subsidy table, the current year and the spreadsheet rows are parameters.

## Model

| member | source | states |
|---|---|---|
| RealOps.Clamp | components/WorthMove.jsx:265-266 | The `Math.min(Math.max(x, lo), hi)` base clamp lands in [lo, hi]. It is the identity inside the range and the nearer end outside it. |
| RealOps.ClampMonotone | components/WorthMove.jsx:265-266 | Clamping keeps two points in order and never moves them further apart. |
| TaxEngine.SlabWalk | components/WorthMove.jsx:120-136 | The loop of the Singapore and US calculators returns the walk over the bracket table from threshold 0. |
| TaxEngine.Walk | components/WorthMove.jsx:120-136 | The tax the slab loop adds up, bracket by bracket, until no income remains. SlabWalk computes it, and WalkIsMarginal, WalkBounds and WalkSteady state its properties. |
| TaxEngine.WalkIsMarginal | components/WorthMove.jsx:154-170 | Over an ascending table, the slab walk equals the reference marginal tax: each bracket taxes, at its rate, the part of the income between its thresholds. |
| TaxEngine.MarginalSteady | components/WorthMove.jsx:120-136 | For x <= y the reference tax rises by between 0 and cap * (y - x). It is non-decreasing and continuous across every threshold. |
| TaxEngine.MarginalIgnoresHigherBrackets | components/WorthMove.jsx:125-133 | An income at or below bracket k's threshold is taxed by brackets 0..k alone. |
| TaxEngine.SingaporeBracketsWellFormed | components/WorthMove.jsx:99-113 | SINGAPORE_TAX_BRACKETS rise strictly, end with the one unbounded bracket, and have rates in [0, 24%]. |
| TaxEngine.USBracketsWellFormed | components/WorthMove.jsx:139-147 | US_TAX_BRACKETS_2024 rise strictly, end unbounded, and have rates in [0, 37%]. |
| TaxEngine.WalkBounds | components/WorthMove.jsx:154-170 | The slab walk taxes nothing at or below zero and at most `cap` of a positive income. |
| TaxEngine.WalkSteady | components/WorthMove.jsx:120-136 | The slab walk is non-decreasing and grows by at most `cap` per unit. |
| TaxEngine.WalkFloor | components/WorthMove.jsx:120-136 | With a 0% first bracket, income up to its threshold owes nothing. |
| TaxEngine.SingaporeTax | components/WorthMove.jsx:120-136 | The Singapore tax is between 0 and 24% of the positive part of the income. |
| TaxEngine.SingaporeTaxFloor | components/WorthMove.jsx:99-100 | The first S$20,000 is tax free. |
| TaxEngine.SingaporeTaxSteady | components/WorthMove.jsx:120-136 | The Singapore tax is non-decreasing and adds at most 24 cents per extra dollar. |
| TaxEngine.USTax2024 | components/WorthMove.jsx:154-170 | The US tax is between 0 and 37% of the positive part of the income. |
| TaxEngine.USTaxFloor | components/WorthMove.jsx:154-170 | Nothing is due on a zero or negative income. |
| TaxEngine.USTaxSteady | components/WorthMove.jsx:154-170 | The US tax is non-decreasing and adds at most 37 cents per extra dollar. |
| TaxEngine.AustraliaBracketsWellFormed | components/WorthMove.jsx:172-194 | The brackets behind the Australian formula ascend and have rates in [0, 45%]. |
| TaxEngine.AustraliaTaxIsMarginal | components/WorthMove.jsx:172-194 | The hand-unrolled Australian formula equals the marginal tax over its five brackets, for every income. |
| TaxEngine.AustraliaTaxFloor | components/WorthMove.jsx:172-176 | A$18,200 is tax free. |
| TaxEngine.AustraliaTaxSteady | components/WorthMove.jsx:172-194 | The Australian tax is non-decreasing and adds at most 45 cents per dollar, so the formula is continuous at its thresholds. |
| TaxEngine.GermanyBracketsWellFormed | components/WorthMove.jsx:197-214 | The brackets behind the German formula ascend and have rates in [0, 45%]. |
| TaxEngine.GermanyTaxIsMarginal | components/WorthMove.jsx:197-214 | The German formula equals the marginal tax over its four brackets. |
| TaxEngine.AustraliaTax | components/WorthMove.jsx:172-194 | calculateAustraliaTax. AustraliaTaxIsMarginal ties it to the marginal tax; AustraliaTaxFloor and AustraliaTaxSteady state its properties. |
| TaxEngine.GermanyTax | components/WorthMove.jsx:197-214 | calculateGermanyTax. GermanyTaxIsMarginal ties it to the marginal tax; GermanyTaxFloor and GermanyTaxSteady state its properties. |
| TaxEngine.GermanyTaxFloor | components/WorthMove.jsx:197-201 | EUR 11,604 is tax free. |
| TaxEngine.GermanyTaxSteady | components/WorthMove.jsx:197-214 | The German tax is non-decreasing and adds at most 45 cents per euro. |
| TaxEngine.FindRowIsFirst | components/WorthMove.jsx:290 | `table.find` yields the first row whose threshold is not below the amount, or nothing when no row qualifies. |
| TaxEngine.FindRow | components/WorthMove.jsx:290 | The `table.find` over the China rows. FindRowIsFirst states what it returns. |
| TaxEngine.QuickDeduction | components/WorthMove.jsx:290-291 | Rate times amount less the deduction of the row found, or 0 when none is. QuickDeductionIsMarginal ties it to the marginal tax. |
| TaxEngine.ChinaTax | components/WorthMove.jsx:280-292 | calcChinaTax. ChinaTaxIsMarginal, ChinaTaxNegative, ChinaTaxBounds and ChinaTaxSteady state its properties. |
| TaxEngine.BracketsOf | components/WorthMove.jsx:281-289 | The quick-deduction rows read as brackets, row by row, with the same thresholds and rates. The China brackets are defined as this reading of the rows. |
| TaxEngine.ChinaRowsConsistent | components/WorthMove.jsx:281-289 | Each quick deduction of the seven rows is exactly the one that makes the lookup agree with the marginal tax. |
| TaxEngine.ConsistentAscending | components/WorthMove.jsx:281-289 | Rows whose deductions are consistent have strictly rising thresholds with only the last unbounded, so their brackets ascend. |
| TaxEngine.QuickDeductionIsMarginal | components/WorthMove.jsx:281-291 | Over consistent rows, for every amount from the lowest threshold up, rate times amount less the deduction equals the marginal tax. |
| TaxEngine.ChinaBracketsWellFormed | components/WorthMove.jsx:281-289 | The brackets read from the China rows ascend, end unbounded, and have rates in [0, 45%]. |
| TaxEngine.ChinaTaxIsMarginal | components/WorthMove.jsx:280-292 | On a non-negative amount, calcChinaTax equals the marginal tax over the seven brackets. |
| TaxEngine.ChinaTaxNegative | components/WorthMove.jsx:280-292 | A negative amount falls in the first row, so the tax is 3% of it, itself negative. |
| TaxEngine.ChinaTaxBounds | components/WorthMove.jsx:280-292 | calcChinaTax on a non-negative amount is between 0 and 45% of it. |
| TaxEngine.ChinaTaxSteady | components/WorthMove.jsx:280-292 | calcChinaTax is non-decreasing everywhere, negative amounts included, and adds at most 45 fen per yuan. |
| TaxEngine.OverseasTax | components/WorthMove.jsx:300-322 | It fails exactly for a currency outside the five, with UnsupportedCurrency naming it. Otherwise the tax on a non-negative gross is between 0 and 45% of it, and for the Singapore dollar at most 15.12% (24% of the 63% taxed). |
| TaxEngine.OverseasTaxMonotone | components/WorthMove.jsx:300-322 | Under every supported regime, a larger gross never owes less. |
| SocialInsurance.ProfilesWellFormed | components/WorthMove.jsx:217-260 | Every CN_SI_HF profile has ordered base ranges and fractional rates. The employee pays 10.2% of the base in 广州 and 10.5% elsewhere. |
| SocialInsurance.ProfileFor | components/WorthMove.jsx:264 | The city's CN_SI_HF entry, or 杭州's when the city has none. SihfFallback states the fallback. |
| SocialInsurance.Contribution | components/WorthMove.jsx:265-276 | Both clamped bases charged at their rates. ContributionSteady, ContributionBounded and ContributionFlatOutside state its properties. |
| SocialInsurance.Sihf | components/WorthMove.jsx:263-277 | calcSIHF. SihfSteady and HangzhouRange state its properties. |
| SocialInsurance.SihfFallback | components/WorthMove.jsx:264 | A city other than 苏州 and 广州 is charged as 杭州. |
| SocialInsurance.EmployerSharesIgnored | components/WorthMove.jsx:267-276 | Only the employee-side rates (index 1) enter the contribution. |
| SocialInsurance.ContributionSteady | components/WorthMove.jsx:263-277 | A higher gross never lowers the contribution. Each extra unit adds at most the employee rate plus the fund rate. |
| SocialInsurance.ContributionBounded | components/WorthMove.jsx:263-277 | The contribution lies between its values at the lower and the upper base limits. |
| SocialInsurance.ContributionFlatOutside | components/WorthMove.jsx:265-276 | Below both lower limits the contribution is the floor. Above both upper limits it is the ceiling. |
| SocialInsurance.SihfSteady | components/WorthMove.jsx:263-277 | For any city, calcSIHF is non-decreasing and adds at most 22.5% of each extra unit of gross. |
| SocialInsurance.HangzhouRange | components/WorthMove.jsx:218-229 | In 杭州 (and every city without a profile) the monthly contribution runs from 760.755 to 6927.93. The floor is reached at a gross of 2480 and the ceiling at 36675. |
| Subsidy.DistrictRule | components/WorthMove.jsx:18-27 | A missing district, the empty one, 全部区 or 全部 accept only whole-city records. Any other district accepts itself and whole-city records. |
| Subsidy.NormDistrict | components/WorthMove.jsx:18 | `normDist`. DistrictRule states how it decides which records a district accepts. |
| Subsidy.DistrictAccepts | components/WorthMove.jsx:23-27 | Which record districts a normalised district accepts. DistrictRule states both cases. |
| Subsidy.Expired | components/WorthMove.jsx:17-29 | Whether more years than a record's validity have passed since graduation. ExpiryRule and GradYearWidensMatch state it. |
| Subsidy.Matches | components/WorthMove.jsx:20-31 | `match(r)`. DistrictRule, ExpiryRule and GradYearWidensMatch state it. |
| Subsidy.ExpiryRule | components/WorthMove.jsx:17-29 | A matching record has not expired: at most `validYears` years have passed since graduation. |
| Subsidy.GradYearWidensMatch | components/WorthMove.jsx:15-29 | A missing graduation year (NaN) never excludes a record, and a later year excludes no more than an earlier one. |
| Subsidy.CalcSubsidyTotal | components/WorthMove.jsx:33-52 | The forEach returns the sum of matching yearly records, the maximum of matching monthly ones, and the two added. |
| Subsidy.YearTotal | components/WorthMove.jsx:36-46 | The yearly sum the forEach builds. YearTotalAppend and YearTotalNonNegative state its properties. |
| Subsidy.MonthTotal | components/WorthMove.jsx:36-46 | The monthly maximum the forEach builds. MonthTotalIsMax, MonthTotalAppend and MonthTotalNonNegative state its properties. |
| Subsidy.SubsidyTotal | components/WorthMove.jsx:33-53 | The object calcSubsidyTotal returns. CalcSubsidyTotal computes it, and TotalsIgnoreOrder, IgnoredRecord and LaterGraduateGetsNoLess state its properties. |
| Subsidy.YearTotalAppend | components/WorthMove.jsx:40-41 | The yearly total over two parts of the table is the sum of the parts' totals. |
| Subsidy.MonthTotalNonNegative | components/WorthMove.jsx:34-43 | The monthly total starts at 0 and is never negative. |
| Subsidy.MonthTotalAppend | components/WorthMove.jsx:42-43 | The monthly total over two parts is the larger of the parts' values. |
| Subsidy.MonthTotalIsMax | components/WorthMove.jsx:42-43 | The monthly total bounds every matching monthly amount. When nonzero, it is one of them. |
| Subsidy.YearTotalNonNegative | components/WorthMove.jsx:47-52 | With non-negative amounts, the yearly total and the total are never negative. |
| Subsidy.IgnoredRecord | components/WorthMove.jsx:37-44 | A non-matching record, or one whose frequency is neither 年 nor 月, changes nothing wherever it stands. |
| Subsidy.TotalsIgnoreOrder | components/WorthMove.jsx:36-46 | The result depends only on the multiset of records, not their order. |
| Subsidy.MoreMatchesMoreSubsidy | components/WorthMove.jsx:36-46 | With non-negative amounts, a query matching a superset of records gets at least the same yearly sum and monthly maximum. |
| Subsidy.LaterGraduateGetsNoLess | components/WorthMove.jsx:15-29 | With non-negative amounts, a later (or missing) graduation year never yields a smaller total. |
| Subsidy.CityDistrictMap | components/WorthMove.jsx:466-478 | The map-building pass returns the district index of the table. |
| Subsidy.AddToIndex | components/WorthMove.jsx:468-471 | One step of the forEach. AddToIndexStep states what it adds. |
| Subsidy.DistrictIndex | components/WorthMove.jsx:466-478 | The city-to-districts map after the whole table. DistrictIndexKeys, DistrictIndexListsOne and DistrictIndexDistinct state it. |
| Subsidy.AddToIndexStep | components/WorthMove.jsx:468-471 | One step of the pass adds the record's city as a key and, when it is listed and new, its district, keeping lists duplicate-free. |
| Subsidy.DistrictIndexKeys | components/WorthMove.jsx:466-478 | The map has a key for every city of the table and for no other. |
| Subsidy.DistrictIndexListsOne | components/WorthMove.jsx:470 | A city lists a district exactly when one of its records has that district, non-empty and other than 全部. |
| Subsidy.DistrictIndexDistinct | components/WorthMove.jsx:469-477 | No city lists a district twice, as with a Set. |
| SubsidyImport.StripLeft | data/excel_to_json.py:19-21 | The result is a suffix whose dropped prefix is all whitespace, and it does not start with whitespace. |
| SubsidyImport.StripRight | data/excel_to_json.py:19-21 | The result is a prefix whose dropped suffix is all whitespace, and it does not end with whitespace. |
| SubsidyImport.IsSpace | data/excel_to_json.py:19-21 | The characters Python's `str.strip()` removes. StripLeft, StripRight and StripIsTrim state the stripping in its terms. |
| SubsidyImport.Strip | data/excel_to_json.py:19-21 | `str.strip()`. StripIsTrim and StripIdempotent state its properties. |
| SubsidyImport.CellText | data/excel_to_json.py:19-21 | `str(cell or "").strip()`, with a missing cell read as the empty string. ToRecordKeeps states that the record's text fields are these values, and StripIsTrim what stripping does. |
| SubsidyImport.StripIsTrim | data/excel_to_json.py:19-21 | `strip()` returns the middle of the text between leading and trailing whitespace runs, and neither begins nor ends with whitespace. |
| SubsidyImport.StripIdempotent | data/excel_to_json.py:19-21 | Stripping twice is stripping once. |
| SubsidyImport.Truncate | data/excel_to_json.py:26 | `int(float)` truncates toward zero: the floor for non-negative values, the ceiling for negative ones. |
| SubsidyImport.ToRecord | data/excel_to_json.py:19-55 | One pass of the loop body: a record, or nothing where the body reaches `continue`. ToRecordKeeps states when a row is kept and what is kept. |
| SubsidyImport.ToRecordKeeps | data/excel_to_json.py:24-55 | A row is kept iff its validity truncates to a positive year count, its stripped frequency is 年 or 月, and its amount parses to a positive number. A kept record holds the row's own data: the stripped city, district, education and frequency cells (a missing cell as ""), the truncated validity and the amount. It is valid and its text fields are stripped. |
| SubsidyImport.ShortValidityDropped | data/excel_to_json.py:26-31 | A validity below one year truncates to 0 or less and the row is skipped. |
| SubsidyImport.Convert | data/excel_to_json.py:16-55 | The row loop returns the records emitted row by row, in row order. |
| SubsidyImport.Emitted | data/excel_to_json.py:16-55 | The records written after a run of rows. Convert computes it, and EmittedValid, EmittedAppend and EmittedLength state its properties. |
| SubsidyImport.EmittedValid | data/excel_to_json.py:30-55 | Every record written has positive validity, frequency 年 or 月, and a positive amount. |
| SubsidyImport.EmittedAppend | data/excel_to_json.py:17-55 | The records of two row ranges are those of the first range followed by those of the second. |
| SubsidyImport.EmittedLength | data/excel_to_json.py:17-55 | No more records than rows. |
| SubsidyImport.ImportedTotalsNonNegative | data/excel_to_json.py:44-45 | Over an imported table, every subsidy total is non-negative. |
| Scoring.Ppp | components/WorthMove.jsx:90-96 | A rate exists exactly for the five supported currencies. It is at least 1, and 1 for the renminbi. |
| Scoring.ToYuan | components/WorthMove.jsx:497-500 | Conversion into yuan never shrinks a non-negative amount. |
| Scoring.ToYuanIsPpp | components/WorthMove.jsx:497-500 | The conversion multiplies by the currency's `pppRates` entry. |
| Scoring.ToAnnual | components/WorthMove.jsx:484-489 | toAnnual. PeriodsAgree states its properties. |
| Scoring.ToMonthly | components/WorthMove.jsx:490 | toMonthly. PeriodsAgree states the monthly round trip. |
| Scoring.PeriodsAgree | components/WorthMove.jsx:484-490 | A monthly amount round-trips through toMonthly. Yearly is 12 months and a week 12/52 of a month. An unknown period is monthly. Annualising is monotone and never shrinks a non-negative amount. |
| Scoring.HoursFor | components/WorthMove.jsx:506-507 | Monthly hours lie in [160, 288], and an unknown arrangement counts as the standard 160. |
| Scoring.AdjustedForHours | components/WorthMove.jsx:506-508 | The domestic net scaled by standard over actual hours. HoursAdjustmentShrinks states its range. |
| Scoring.HoursAdjustmentShrinks | components/WorthMove.jsx:506-508 | Longer hours shrink a non-negative domestic net, down to 5/9 of it, and 160 hours leave it unchanged. |
| Scoring.OverseasNetBounds | components/WorthMove.jsx:497-499 | The overseas net of a non-negative gross is between 55% of it and all of it. |
| Scoring.OverseasNet | components/WorthMove.jsx:497-499 | `annualGrossLocal - overseasTax`. OverseasNetBounds states its range. |
| Scoring.TaxableMonthly | components/WorthMove.jsx:501-502 | The monthly gross less calcSIHF when social insurance is paid. DomesticNetBounds and ContributionsCovered use it. |
| Scoring.DomesticNet | components/WorthMove.jsx:503-504 | Twelve taxable months less calcChinaTax on them. DomesticNetBounds states its range on both signs. |
| Scoring.OverseasNetOf | components/WorthMove.jsx:497-499 | `ovGross`, from the form. OverseasNetOfNonNegative and NetIncomes state it. |
| Scoring.DomesticNetOf | components/WorthMove.jsx:500-504 | `dGross`, from the form. DomesticNetOfNonNegative and NetIncomes state it. |
| Scoring.DomesticNetBounds | components/WorthMove.jsx:500-504 | A non-negative taxable year nets 55% to 100% of itself. A negative one nets 97% of itself, below zero. |
| Scoring.QScore | components/WorthMove.jsx:396 | An answer scores 0 to 4, and 0 exactly when it is not A, B, C or D. |
| Scoring.QTotal | components/WorthMove.jsx:527-530 | The questionnaire `reduce`. SumAnswers computes it, and QTotalBounds and QTotalUniform state its properties. |
| Scoring.QTotalBounds | components/WorthMove.jsx:527-530 | The questionnaire total is between 0 and 4 points per answer. |
| Scoring.QTotalUniform | components/WorthMove.jsx:527-530 | All D gives one point per question and all A gives four. |
| Scoring.SumAnswers | components/WorthMove.jsx:527-530 | The reduce loop returns the questionnaire total. |
| Scoring.Proportional | components/WorthMove.jsx:523-524 | One side's points against the maximum. ScorePairRule and ScorePairFails state them. |
| Scoring.ScorePair | components/WorthMove.jsx:522-524 | Both sides of a compared pair. ScorePairRule and ScorePairFails state what they get. |
| Scoring.ScorePairRule | components/WorthMove.jsx:520-577 | The larger amount scores 20, and both do on a tie. The smaller scores its share of the larger times 20. For non-negative amounts the pair is always scored and the smaller share is in [0, 20). |
| Scoring.ScorePairFails | components/WorthMove.jsx:522-524 | A pair fails exactly when a negative amount meets a maximum of 0, and then as a division by zero. |
| Scoring.AmountsFrom | components/WorthMove.jsx:520-574 | The six compared amounts from the two nets and the subsidy. AmountsFromNonNegative and HolidayOnlyMovesSalaryDimension state its properties. |
| Scoring.ComparedAmounts | components/WorthMove.jsx:496-577 | The first half of handleSubmit, including its currency errors. EvaluateErrors and AmountsNonNegative state it. |
| Scoring.Score | components/WorthMove.jsx:520-585 | The five dimensions and the two sums. ScoreInRange, ScoreDimensions and ScoreFails state its properties. |
| Scoring.Total | components/WorthMove.jsx:584-585 | One side's five dimensions added up: `scoreO` or `scoreD`. ScoreInRange states its range. |
| Scoring.Evaluate | components/WorthMove.jsx:492-606 | handleSubmit from form to scores. EvaluateInRange, EvaluateErrors, LifestyleSplit and FamilyExclusive state its properties. |
| Scoring.ScoreInRange | components/WorthMove.jsx:520-585 | Non-negative amounts and at most five answers always score. Every dimension is in [0, 20] and each score in [0, 100]. In each of the three compared pairs (salary, five years, ten years) the larger amount gets 20, both on a tie. |
| Scoring.ScoreDimensions | components/WorthMove.jsx:531-581 | The overseas side gets the questionnaire total and the domestic side the rest of 20. A family box gives its side 20 exactly when ticked, and an unticked box gives 0. |
| Scoring.LifestyleSplit | components/WorthMove.jsx:527-532 | In every evaluated form, the overseas side gets the questionnaire total and the domestic side the rest of 20. |
| Scoring.FamilyExclusive | components/WorthMove.jsx:580-581 | A side gets the family 20 exactly when its box is ticked. |
| Scoring.ScoreFails | components/WorthMove.jsx:520-585 | Scoring the amounts fails only with a division by zero. |
| Scoring.EvaluateErrors | components/WorthMove.jsx:497-606 | An unsupported overseas currency throws first. An unsupported domestic currency gives NaN. Otherwise the only failure is a division by zero. |
| Scoring.HolidayOnlyMovesSalaryDimension | components/WorthMove.jsx:505-577 | Changing the holiday arrangement changes only dimension 1's domestic amount. The five- and ten-year amounts use the unadjusted net. |
| Scoring.BoostNonNegative | components/WorthMove.jsx:551-574 | A bonus factor of at least 1 never shrinks a non-negative amount. |
| Scoring.AmountsFromNonNegative | components/WorthMove.jsx:520-574 | Non-negative nets and subsidy make all six compared amounts non-negative. |
| Scoring.OverseasNetOfNonNegative | components/WorthMove.jsx:497-499 | A non-negative overseas salary leaves a non-negative net. |
| Scoring.DomesticNetOfNonNegative | components/WorthMove.jsx:500-504 | When the contributions do not exceed the domestic gross, the domestic net is non-negative. |
| Scoring.ContributionsCovered | components/WorthMove.jsx:500-502 | Whether the social insurance deducted, if any, leaves the monthly taxable amount non-negative. NoDeductionCovered and DomesticNetOfNonNegative state what it gives. |
| Scoring.NoDeductionCovered | components/WorthMove.jsx:500-502 | Without the deduction, a non-negative domestic salary always covers its (zero) contributions. |
| Scoring.SubsidyForNonNegative | components/WorthMove.jsx:510-519 | Over valid records, the subsidy added is never negative. |
| Scoring.AmountsNonNegative | components/WorthMove.jsx:497-577 | Supported currencies, a non-negative overseas salary, domestic contributions covered by the domestic gross and valid records give six non-negative compared amounts. |
| Scoring.EvaluateInRange | components/WorthMove.jsx:492-606 | Under those same conditions, with at most five answers, both scores are computed and lie in [0, 100]. NoDeductionCovered shows the conditions hold for every non-negative salary without the deduction. |
| Scoring.ComparedAmountsFrom | components/WorthMove.jsx:496-577 | Amounts computed step by step from the two nets and the subsidy are the compared amounts. |
| Scoring.EvaluateFrom | components/WorthMove.jsx:520-585 | Evaluating the form is scoring its compared amounts. |
| Scoring.ScoreAmounts | components/WorthMove.jsx:520-585 | The five dimensions and the two sums, computed in order, give the scoring of the amounts. |
| Scoring.NetIncomes | components/WorthMove.jsx:497-504 | The straight-line computation yields the overseas and domestic nets. |
| Scoring.FiveYearTotals | components/WorthMove.jsx:535-561 | The five-year amounts are three years at the net and two at 1.3 times it. The domestic side adds the subsidy, then the PR and family bonuses apply as 10% each. |
| Scoring.TenYearTotals | components/WorthMove.jsx:569-574 | The ten-year amounts add five years at 1.5 times the net. Then come the future bonus (10%), the child-under-18 bonus (20%) and the family bonuses (10%). |
| Scoring.ChildUnder18 | components/WorthMove.jsx:572 | `parseInt(childAge, 10) < 18`, false when no age parses. TenYearTotals states where it applies the 20% bonus. |
| Scoring.SubsidyFor | components/WorthMove.jsx:510-547 | calcSubsidyTotal's total when the applicant is under 40, otherwise 0. SubsidyForNonNegative states it is never negative over valid records. |
| Scoring.FormState.constructor | components/WorthMove.jsx:403-431 | The initial form has neither family box ticked. |
| Scoring.FormState.ChangeTogetherO | components/WorthMove.jsx:439-446 | Setting the overseas family box clears the domestic one when ticked and changes nothing else. Afterwards the two boxes are never both ticked. |
| Scoring.FormState.ChangeTogetherD | components/WorthMove.jsx:447-454 | Setting the domestic family box clears the overseas one when ticked and changes nothing else. Afterwards the two boxes are never both ticked. |
| Scoring.FormState.ChangeDistrict | components/WorthMove.jsx:455-458 | An empty district choice is stored as null, any other as itself, and nothing else changes. |
| Scoring.FormState.Submit | components/WorthMove.jsx:492-606 | Submitting returns the evaluation of the current form: the two scores, or the error the code would meet. When the family boxes are exclusive, as the change handlers keep them, at most one side gets the family 20. |

## Left out

- Rendering is not modelled: the JSX, the recharts radar chart, the loading flag and the chart data built from the dimensions. The model returns the dimensions themselves.
- I/O is not modelled. Reading subsidy.json, `new Date().getFullYear()`, pandas' `read_excel`, `json.dump` and the final `print` become parameters or are dropped.
- Parsing text into numbers is not modelled: `parseFloat(x) || 0`, `parseInt(childAge, 10)`, the graduation year taken from the first four characters of the date, and Python's `float(...)`. The form carries the parsed values. A missing year or age stands for NaN.
- NaN and Infinity propagate in JavaScript arithmetic. The model only distinguishes the outcomes the code reaches: an unsupported domestic currency gives NaN scores, which are discarded. Where the code divides a negative amount by a maximum of 0 it gets -Infinity, which `isNaN` lets through; the model reports `DivisionByZero` instead.
- `setResults` is called once before the `isNaN` guard and once after. Only the final result is modelled.
- pandas' NaN cells are not modelled. `str(nan)` reads as "nan", and a NaN `float` passes the `<= 0` test. Python's `OverflowError` from `int(float("inf"))` is not modelled either; a row carries finite numbers or none.
- Property lookups that hit JavaScript's prototype keys (`"constructor" in qScore`, a city named like an Object method) are not modelled.
- `districtOptions` (the picker's list) and the generic `[name]` branch of handleChange (every other field) are not modelled. The scoring reads their results through the form.
- `Number(r.total5Year || 0)` is taken as `total5Year`: the importer writes only positive numbers.
- A record is kept when the graduation year is missing: the code compares with NaN, which is false (Subsidy.GradYearWidensMatch).
- Scoring.ToYuan: the conversion is written as one constant multiplication per currency instead of a table lookup, and Scoring.ToYuanIsPpp ties the two.
- Scoring.EvaluateInRange: the [0, 100] range is promised only when the domestic gross covers its social insurance contributions. When the contributions exceed the gross, the domestic net is negative and the code's scores can leave that range, so nothing is promised there.
