# Financial statement scanner, modelled in Dafny

This project models `UltimateFinancialScanner`, the heuristic core of the
financial-statement extractor service. The scanner receives a workbook as
an ordered list of sheets, each a grid of untyped cells. It returns one
record:

- the entity name ("Unknown" until found);
- the reporting period (default "2024-12-31");
- the currency (IDR or USD);
- the scale label ("Full Amount", "Jutaan", "Ribuan", ...);
- four totals: total assets, total liabilities, total equity and net profit;
- a list of other line items, each a label with its amount.

It works in four steps:

- **Normaliser (`clean_numeric`).** It reads a cell as an optional number.
  Accounting parentheses become a minus sign. Every character other than a
  digit, `.` or `-` is dropped, and the remaining text is parsed.
- **Scale and currency detector.** It reads the first 20 rows of columns 0
  and 1 as one lower-cased text blob. The sheet is in USD when the blob holds
  `usd`, `dollar`, `dolar` or `as$`. The first key of `scale_map`, in
  declared order, that occurs in the blob gives the multiplier and the
  title-cased label.
- **Value column selector.** A "current period" header with a number three
  rows below it wins. Failing that, the densest numeric column among
  columns 1 to 6 wins.
- **Row scan.** Each labelled row goes through the ordered rule table
  `targets`. The first field whose pattern matches, and whose value cell
  reads as a number that passes the net-profit sanity bound, takes the
  scaled amount, but only if its magnitude exceeds what the field holds.
  Rows whose label carries an "other" keyword are collected once per label.
  "nama entitas" and "tanggal akhir" rows fill in the entity name and the
  reporting period from column 1.

## Modules

Each module is one file:

- `Strings` (`strings.dfy`): Python's `isspace`, `strip`, `lower`, substring
  test, `join`, and the `\s+` collapse.
- `Workbooks` (`workbooks.dfy`):
  - cells, sheets, workbooks;
  - `Env`, the collaborators outside the model: the regular-expression
    search, pandas' `to_numeric` on a text cell, and `str()` of a numeric
    cell.
- `Numeric` (`numeric.dfy`): `clean_numeric`, with Python's `float()`
  written out over exact reals for the ASCII digits, `.` and `-` that the
  filter keeps.
- `ScaleCurrency` (`scale.dfy`): `scale_map` and `detect_scale_and_currency`.
- `ValueColumn` (`value_column.dfy`): `find_best_value_column`.
- `Rules` (`rules.dfy`):
  - the `targets` table, with its patterns kept verbatim as data;
  - the net-profit bound;
  - the first-match classifier.
- `Scan` (`scan.dfy`):
  - a specification of `scan_all` as a fold over values (`RowUpdate`,
    `SheetStep`, `ScanPrefix`, `ScanWorkbook`);
  - the scanner's own loops over a mutable result object (class
    `ScanResult`, method `ScanAll`), proved to compute the same record.
- `ScanProperties` (`scan_properties.dfy`): what the returned record
  satisfies, proved over the fold and, through `ScanAll`'s postcondition,
  over the loops.

Three details of the code that the model keeps:

- **Net-profit sanity check.** It applies only when total assets are
  positive, and it compares `abs(final_val)` with the signed total assets.
- **Density fallback.** It counts cells that pandas' `to_numeric` coerces
  to a number (`Env.numericText` for text cells), not cells that
  `clean_numeric` accepts.
- **Period capture.** It sits in the `elif` branch of the entity-name test.
  A row that fills the entity name therefore does not also set the period.

## Model

| member | source | states |
|---|---|---|
| Strings.StripIsStrip | extractor_service/main.py:72 | str.strip(): the result is a slice of the input that neither starts nor ends with whitespace, and only whitespace was cut off on either side |
| Strings.Lower | extractor_service/main.py:89 | str.lower() keeps the length and lower-cases every character (ASCII letters) |
| Strings.TrimLeftOfPadded | extractor_service/main.py:72 | str.lstrip() removes exactly the leading whitespace before a text that does not start with whitespace |
| Strings.TrimRightOfPadded | extractor_service/main.py:72 | str.rstrip() removes exactly the trailing whitespace after a text that does not end with whitespace |
| Strings.StripOfPadded | extractor_service/main.py:72 | str.strip() of a text padded with whitespace on both sides gives back the text, when it neither starts nor ends with whitespace |
| Strings.StripLowered | extractor_service/main.py:190-194 | stripping a lower-case text leaves it lower-case |
| Strings.CollapseSpaces | extractor_service/main.py:207-208 | re.sub(r'\s+', ' ', s): the characters other than whitespace are kept, in order (NonSpace); every whitespace character left is a blank; no two blanks are adjacent; the result starts with a blank iff the input starts with whitespace; non-empty iff the input is; lower case is kept |
| Strings.NonSpaceOfTrimLeft | extractor_service/main.py:207-208 | dropping leading whitespace keeps every other character |
| Strings.CollapseSpacesIsScan | extractor_service/main.py:207-208 | the collapse equals the left-to-right scan in which the first whitespace character of each run emits one blank, the rest of the run emits nothing and every other character is copied |
| Numeric.KeepNumeral | extractor_service/main.py:78 | the filter keeps only digits, '.' and '-', and never lengthens the text |
| Numeric.KeepNumeralKeepsDigits | extractor_service/main.py:78 | the filtered text holds a digit exactly when the original does |
| Numeric.KeepNumeralAppend | extractor_service/main.py:78 | the filter works character by character: filtering a concatenation concatenates the filtered parts |
| Numeric.KeepNumeralKeepsNumerals | extractor_service/main.py:78 | a text made only of digits, '.' and '-' passes the filter unchanged |
| Numeric.KeepNumeralDropsOthers | extractor_service/main.py:78 | a text with no digit, '.' or '-' (currency prefixes, '%', letters, blanks) filters to nothing; with KeepNumeralAppend and KeepNumeralKeepsNumerals this fixes the filter's result for every text |
| Numeric.ParseUnsignedNeedsDigit | extractor_service/main.py:80 | float() accepts an unsigned numeral only if it holds a digit |
| Numeric.ParseDecimalNeedsDigit | extractor_service/main.py:80 | float() on the filtered text accepts nothing without a digit ("", "-", ".", "-.") |
| Numeric.FractionValueBounds | extractor_service/main.py:80 | the digits after the dot contribute a value in [0, 1) |
| Numeric.ParseUnsignedOfFixedPoint | extractor_service/main.py:80 | whole + "." + fraction is read as whole plus the fraction's value |
| Numeric.ParseDecimalOfDigits | extractor_service/main.py:80 | a run of digits is read as its decimal value |
| Numeric.ParseDecimalOfNegatedDigits | extractor_service/main.py:80 | "-" followed by digits is read as the negated value |
| Numeric.ParseDecimalInnerMinus | extractor_service/main.py:77-82 | a minus sign anywhere but first ("2024-12-31", "1-2", "--1") makes float() fail, so the result is None |
| Numeric.ParseDecimalTwoDots | extractor_service/main.py:77-82 | a numeral with two dots is a parse failure, so the result is None (the exception is swallowed) |
| Numeric.CleanNumeric | extractor_service/main.py:66-82 | a numeric cell is returned unchanged; a numeric NaN or an empty cell gives None; a text whose stripped form is "-", "n/a", "" or "nan" gives None |
| Numeric.StripIdempotent | extractor_service/main.py:70-72 | stripping an already stripped text changes nothing |
| Numeric.CleanNumericIgnoresPadding | extractor_service/main.py:70-76 | surrounding whitespace is ignored: a text reads exactly as its stripped form does, because it is stripped before the blank-token and parenthesis tests |
| Numeric.CleanNumericOfPaddedParenthesised | extractor_service/main.py:72-80 | round trip of a padded accounting amount: "(n)" with whitespace on either side, such as " (5) ", reads back as -n |
| Numeric.CleanNumericOfBlankText | extractor_service/main.py:70-73 | a text of whitespace only strips to "" and gives None |
| Numeric.CleanNumericOfPlainText | extractor_service/main.py:70-80 | for a stripped text that is not one of the blank tokens, the result is the parse of the filtered parenthesis rewrite, or None when the filter leaves nothing |
| Numeric.CleanNumericNeedsDigit | extractor_service/main.py:70-82 | a text cell is read as a number only when it holds a digit |
| Numeric.UnparenthesiseKeepsDigits | extractor_service/main.py:75-76 | rewriting "(x)" to "-x" adds no digit |
| Numeric.StripKeepsDigits | extractor_service/main.py:72 | stripping adds no digit |
| Numeric.CleanNumericOfNumeral | extractor_service/main.py:72-80 | round trip: the decimal numeral of n reads back as n |
| Numeric.CleanNumericOfGrouped | extractor_service/main.py:72-80 | round trip: "1,234,567" style numerals read back as their value, because the commas are filtered out |
| Numeric.CleanNumericOfNegatedNumeral | extractor_service/main.py:72-80 | negative round trip: "-" followed by the numeral of n reads back as -n |
| Numeric.CleanNumericOfNegatedGrouped | extractor_service/main.py:72-80 | negative round trip with separators: "-1,234,567" style text reads back as the negated value |
| Numeric.CleanNumericOfParenthesisedText | extractor_service/main.py:75-80 | "(x)" is read as float("-" + the filtered x) |
| Numeric.CleanNumericOfParenthesised | extractor_service/main.py:75-80 | round trip of the accounting notation: "(n)" reads back as -n |
| Numeric.CleanNumericOfAccountingAmount | extractor_service/main.py:75-80 | "(1,234.5)" style amounts read back as the negated amount with its fraction |
| Numeric.CleanNumericOfNumeralText | extractor_service/main.py:72-80 | a text made only of digits, dots and minus signs that is not a blank token is handed to float() unchanged |
| Numeric.CleanNumericDottedThousandsExample | extractor_service/main.py:77-82 | "1.234.567" (dots as thousands separators) is not read as a number at all |
| ScaleCurrency.HeaderColumn | extractor_service/main.py:89 | the first min(20, rows) cells of a column, empty cells as "", lower-cased, one entry per row |
| ScaleCurrency.FirstScaleKey | extractor_service/main.py:105-109 | the first key of scale_map (in declared order) that occurs in the blob; no earlier key occurs; None only when no key occurs |
| ScaleCurrency.HeaderBlobHoldsCells | extractor_service/main.py:89-96 | every cell read from the first 20 rows of columns 0 and 1, lower-cased and with empty cells as "", occurs in the blob |
| ScaleCurrency.HeaderCellInBlob | extractor_service/main.py:89-96 | one such cell occurs in the blob |
| ScaleCurrency.Title | extractor_service/main.py:108 | str.title() of a lower-case key: the first letter is upper-cased and every other character is kept; length and lower-cased form are unchanged |
| ScaleCurrency.ScaleLabels | extractor_service/main.py:57-64 | the six keys title-case to "Jutaan", "Millions", "Ribuan", "Thousands", "Miliar", "Billions" |
| ScaleCurrency.DetectFromBlob | extractor_service/main.py:96-111 | USD iff a currency word occurs; the multiplier is one of 1, 1e3, 1e6, 1e9; it is 1 (with label "Full Amount") iff no key occurs; otherwise it is the factor and the label ("Jutaan", "Millions", ...) of the first key that occurs |
| ScaleCurrency.Detect | extractor_service/main.py:84-111 | zero columns give (1.0, IDR, "Full Amount"); otherwise the result is what the header blob of columns 0 and 1 says |
| ScaleCurrency.DetectScaleAndCurrency | extractor_service/main.py:84-111 | the loop that stops at the first key found returns exactly Detect |
| ScaleCurrency.JutaanRupiahWords | extractor_service/main.py:102-109 | "dalam jutaan rupiah" holds the key "jutaan" and none of the currency words |
| ScaleCurrency.DetectJutaanRupiah | extractor_service/main.py:57-64 | a blob "dalam jutaan rupiah" gives (1e6, IDR, "Jutaan") |
| ValueColumn.ProbeFrom | extractor_service/main.py:118-127 | the first (row-major) period header within the first 15 rows with a number three rows below; no earlier cell is one |
| ValueColumn.CountNumeric | extractor_service/main.py:135-138 | the count equals the number of rows among the first n whose cell to_numeric accepts (a number, or a text Env.numericText accepts); it is at most n |
| ValueColumn.DensityScan | extractor_service/main.py:129-143 | the kept column has the maximum count among the columns scanned, and every earlier column has a smaller count; column 1 with count 0 when no column has a numeric cell |
| ValueColumn.BestValueColumn | extractor_service/main.py:113-148 | 0 when the sheet has fewer than two columns; always below the column count when there is a column |
| ValueColumn.FindBestValueColumn | extractor_service/main.py:113-148 | the procedure returns exactly BestValueColumn |
| ValueColumn.ProbeColumns | extractor_service/main.py:118-127 | the nested loops with early return find exactly the column of ProbeFrom's first hit, and nothing when ProbeFrom finds none |
| ValueColumn.DensityColumns | extractor_service/main.py:129-142 | the loop keeping the strictly larger count computes DensityScan's column |
| ValueColumn.BestValueColumnOfProbe | extractor_service/main.py:118-127 | with two or more columns, the first probe hit in row-major order decides the column |
| ValueColumn.BestValueColumnOfDensity | extractor_service/main.py:129-148 | with no probe hit, the column lies in 1..min(7, cols)-1 and has the largest count; every earlier column has a smaller count, unless all counts are 0 |
| Rules.Scaled | extractor_service/main.py:229-230 | the scaled value exists iff the value does |
| Rules.ScaledNonzero | extractor_service/main.py:246-250 | a nonzero value times a nonzero multiplier is nonzero |
| Rules.Abs | extractor_service/main.py:233-235 | abs() is non-negative and equals x or -x |
| Rules.ClassifyFrom | extractor_service/main.py:220-239 | the chosen target takes the row (a pattern matches, the value reads as a number, the bound holds) and no earlier target does; None means no target takes it |
| Rules.ClassifyFirstMatch | extractor_service/main.py:220-239 | first match wins: field k is chosen iff its target takes the row and no earlier target does |
| Scan.Totals.Set | extractor_service/main.py:236 | res[key] = v changes that total and no other |
| Scan.LabelColumn | extractor_service/main.py:190-194 | a label column: each entry is the cell as text, lower-cased and stripped |
| Scan.ColumnCells | extractor_service/main.py:197 | the value column: the raw cells of the chosen column, one per row |
| Scan.SheetColumns | extractor_service/main.py:189-197 | the columns read for a sheet all have one entry per row |
| Scan.Cleaned | extractor_service/main.py:207-208 | a label without a double blank is returned as it is; otherwise its whitespace is collapsed; either way the result holds no double blank, keeps the characters other than whitespace in order, is empty iff the label is, and stays lower-case |
| Scan.CaptureMetadata | extractor_service/main.py:210-216 | only the entity name or the period changes, never both; a known entity name never changes; without column-1 text nothing changes |
| Scan.ApplyTotals | extractor_service/main.py:218-239 | only the totals change, and nothing changes when no rule takes the row |
| Scan.Feed | extractor_service/main.py:235-236 | the larger magnitude wins, both ways: the field takes the amount, sign included, iff its magnitude strictly exceeds what the field holds, otherwise nothing changes; the field ends at least as large in magnitude as both; no other field or part of the record changes |
| Scan.ApplyOthers | extractor_service/main.py:241-251 | a keyword label with a nonzero value not yet listed appends exactly (label, value times multiplier); any other row leaves the record unchanged; the label is listed afterwards iff it was or the row qualified |
| Scan.RowText | extractor_service/main.py:200-208 | the label a row is filed under is column 0, or column 1 when column 0 reads "nan" or nothing; it is kept exactly as it is unless it holds a double blank, and is then CollapseSpaces of it; so it is empty iff that label is, holds no double blank, has the same text apart from whitespace, and is lower-case when the columns are |
| Scan.RowUpdate | extractor_service/main.py:199-251 | a row without a label changes nothing, and no row changes the currency or the scale label |
| Scan.RowInputs | extractor_service/main.py:199 | one row input per row of the sheet |
| Scan.RowInputsAt | extractor_service/main.py:199-216 | row input r is the label, value and column-1 text of row r |
| Scan.RowsUpToKeepsSheetFields | extractor_service/main.py:199-251 | the row loop never changes the currency or the scale label |
| Scan.RecordDetection | extractor_service/main.py:171-176 | only currency and scale label change: USD iff it was or the sheet detected USD; the sheet's label iff its multiplier is not 1 |
| Scan.Prepare | extractor_service/main.py:169-197 | a non-empty sheet yields one row input per row |
| Scan.Inputs | extractor_service/main.py:166-167 | one input per sheet, in order, None for an empty sheet |
| Scan.ReadColumns | extractor_service/main.py:178-197 | the label columns and the cells of the column find_best_value_column chooses |
| Scan.ScanResult.constructor | extractor_service/main.py:151-161 | the initial record: "Unknown", "2024-12-31", IDR, "Full Amount", zero totals, no items |
| Scan.ScanResult.SetTotal | extractor_service/main.py:236 | writes one total and leaves the rest of the record unchanged |
| Scan.ScanResult.RecordMetadata | extractor_service/main.py:210-216 | entity name while still "Unknown", else the reporting period, from column 1's stripped text when there is a column 1 |
| Scan.ScanResult.Offer | extractor_service/main.py:229-237 | a scaled value is taken iff it passes the net-profit bound against the current total assets; once taken, the field keeps the larger magnitude |
| Scan.ScanResult.TryPattern | extractor_service/main.py:222-237 | one pattern: matched iff it is found, the value cell reads as a number and the bound holds |
| Scan.ScanResult.TryKey | extractor_service/main.py:221-238 | one key's patterns: matched iff the target takes the row (Accepts); then the field is fed the scaled amount, otherwise nothing changes |
| Scan.ScanResult.ApplyRules | extractor_service/main.py:218-239 | the key loop with break leaves the record as the first-match classifier prescribes (ApplyTotals) |
| Scan.ScanResult.CollectOther | extractor_service/main.py:241-251 | the other-items step, reusing the cached value, matches ApplyOthers |
| Scan.ScanResult.ScanRow | extractor_service/main.py:199-251 | one row of the loop computes RowUpdate on the row's inputs |
| Scan.ScanResult.ScanRows | extractor_service/main.py:199 | the row loop computes the fold of RowUpdate over the sheet's rows |
| Scan.ScanResult.ScanSheet | extractor_service/main.py:169-251 | one sheet computes SheetStep on its prepared input and reports the detected currency |
| Scan.ScanAll | extractor_service/main.py:150-254 | scan_all returns exactly the record of the specification fold ScanWorkbook |
| ScanProperties.TotalsStep | extractor_service/main.py:220-239 | for one labelled row, no magnitude drops; a changed total is the row's amount and the field of the first accepting rule; at most one total changes; a changed net profit respects the bound |
| ScanProperties.RowTotals | extractor_service/main.py:199-239 | the same for a whole row: the field the row is offered to ends at least as large in magnitude as the scaled amount and takes it when strictly larger; a changed total holds the row's value times the multiplier and is the first accepting field |
| ScanProperties.RowsTotalsGrow | extractor_service/main.py:199-239 | across any run of rows no total loses magnitude |
| ScanProperties.RowsTotalsDominate | extractor_service/main.py:199-239 | across a run of rows every total ends at least as large in magnitude as every amount offered to its field on the way |
| ScanProperties.OfferDominates | extractor_service/main.py:199-239 | one offered amount is dominated by its field's total after any later row |
| ScanProperties.SheetTotalsGrow | extractor_service/main.py:166-239 | one sheet never lowers a total's magnitude |
| ScanProperties.ScanTotalsGrow | extractor_service/main.py:166-239 | across sheets the magnitude of every total never decreases |
| ScanProperties.RowUpdateOthers | extractor_service/main.py:199-251 | a labelled row that qualifies appends exactly (label, value times multiplier) to the list; any other labelled row leaves it unchanged |
| ScanProperties.RowOthers | extractor_service/main.py:241-251 | the same for every row; the old list stays a prefix; the list stays well formed (distinct, non-empty, lower-case labels without double blanks holding a keyword; nonzero amounts) |
| ScanProperties.WellFormedAppend | extractor_service/main.py:247-251 | appending a fresh, clean keyword label with a nonzero amount keeps the list well formed |
| ScanProperties.RowsOthers | extractor_service/main.py:199-251 | over a run of rows the list only grows at its end and stays well formed |
| ScanProperties.RowsOthersCaptured | extractor_service/main.py:199-251 | every row of a run that qualified leaves (label, value times multiplier) in the final list |
| ScanProperties.CapturedStays | extractor_service/main.py:199-251 | one captured item is still listed after any later row |
| ScanProperties.SheetOthers | extractor_service/main.py:166-251 | the same over a sheet |
| ScanProperties.ScanOthersWellFormed | extractor_service/main.py:166-251 | after any number of clean sheets the list has distinct, lower-case keyword labels and nonzero amounts |
| ScanProperties.ScanOthersPrefix | extractor_service/main.py:247-251 | what earlier sheets recorded stays as a prefix: the first value seen for a label wins |
| ScanProperties.PrepareClean | extractor_service/main.py:169-208 | every prepared sheet has a nonzero multiplier and labels that are lower-case and free of double blanks |
| ScanProperties.RowsClean | extractor_service/main.py:199-208 | rows read from lower-case label columns are clean |
| ScanProperties.ColumnsLowered | extractor_service/main.py:190-194 | the label columns are lower-case |
| ScanProperties.RowMetadata | extractor_service/main.py:210-216 | the entity name is taken only while "Unknown"; the period is overwritten by every "tanggal akhir" row that does not fill the entity name; neither without column 1 |
| ScanProperties.RowsMetadata | extractor_service/main.py:199-216 | over a run of rows a known entity name stays, and rows without column-1 text change neither field |
| ScanProperties.SheetMetadata | extractor_service/main.py:166-216 | the same for one sheet |
| ScanProperties.SingleColumnNoSideTexts | extractor_service/main.py:212-215 | a single-column sheet offers no column-1 text, so it captures no metadata |
| ScanProperties.ScanEntityFirstWins | extractor_service/main.py:210-213 | once an entity name is found, later sheets keep it |
| ScanProperties.SheetKeepsDetection | extractor_service/main.py:171-176 | a sheet sets USD when it detects it and the scale label when its multiplier is not 1; otherwise both carry over |
| ScanProperties.ScanCurrency | extractor_service/main.py:164-173 | the currency is USD iff one of the sheets read detected USD |
| ScanProperties.ScanScaleLabel | extractor_service/main.py:175-176 | the scale label is that of the last sheet whose multiplier is not 1, else "Full Amount" |
| ScanProperties.ScanAllCurrency | extractor_service/main.py:150-254 | the record reports USD iff some non-empty sheet of the workbook detected USD |
| ScanProperties.ScanAllScaleLabel | extractor_service/main.py:150-254 | the record's scale label is that of the last non-empty sheet with a multiplier other than 1, else "Full Amount" |
| ScanProperties.ScanAllOthers | extractor_service/main.py:150-254 | the record's other items have pairwise distinct, lower-case labels with an other-item keyword, and nonzero amounts |

## Left out

- The gRPC handler `ExtractAndAnalyze` (extractor_service/main.py:256-301): streaming, spreadsheet decoding, JSON and protobuf encoding, and the file-name fallback for the entity name. This is transport and I/O.
- `serve` (extractor_service/main.py:303-313): server startup, threads and networking.
- Logging, warnings and environment loading (extractor_service/main.py:14-28): process configuration.
- Regular-expression semantics:
  - Each rule pattern is kept verbatim (`Rules.PatternText`).
  - Whether it is found in a label is the parameter `Env.search`.
  - Python's `re` engine itself is not modelled.
- pandas' `to_numeric(errors='coerce')` on a text cell is the parameter `Env.numericText`. On other cells it is written out: numbers count, NaN and empty cells do not.
- `str()` of a numeric cell is the parameter `Env.showNumber`, a function of the value alone. Python renders an integer cell as "2024" but the same value in a float column (any column holding a missing cell) as "2024.0". Integer and float cells are not told apart, so `Env.showNumber` fixes one rendering per value for the whole workbook. Where a number is read as text this matters: the header blob, the label columns, and the entity name and period taken from column 1.
- Floating point: values are exact reals. `float()` is modelled exactly on the ASCII digits, `.` and `-` left after filtering. IEEE rounding, overflow to infinity and the precision of `val * sheet_multiplier` are not modelled.
- Numeric.KeepNumeral: only the ASCII digits 0-9 count as digits. Python's `\d` and `float()` also accept other Unicode decimal digits; those are dropped by the model's filter.
- `Strings.Lower` and `ScaleCurrency.Title` handle ASCII letters only, which is all the keys and keywords use. Non-ASCII case mappings are not modelled.
- Cell kinds: a cell is a number, a numeric NaN, text or empty. Booleans, dates and other objects a spreadsheet loader may produce are not modelled.
- Sheet names are never consulted by the scanner and are not kept.
- Dead branches are not modelled as code. `find_best_value_column` already returns a column below the column count, so the re-clamp at extractor_service/main.py:181-182 and the zero-column skip at 187 never fire; `ValueColumn.BestValueColumn`'s postcondition states this.
- The record is a class with named fields, not a dictionary keyed by strings.
- The fold reads each row's value up front; only the loops read it lazily (`TryPattern`, `CollectOther`). `clean_numeric` is total and has no side effect, so the two agree.
