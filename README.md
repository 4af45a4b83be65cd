# Investing-criteria filter

A Dafny model of `apply_investing_criteria` from the Financial-ranking-app
repository, along with proofs about it. The app is a Flask web utility. It
reads an uploaded CSV file into a pandas DataFrame. It normalises the column
labels, checks that four metric columns are present, and keeps the rows of
companies that pass four fixed screening thresholds:

- ROE above 12
- debt to equity below 0.5
- ROCE above 15
- PEG ratio below 1

The model has three modules:

- `Labels` (`labels.dfy`): the label rewrite of line 9. `Strip`, `Lower` and
  `ReplaceSpaces` are written out as the pure string functions they are in
  Python, and `Normalize` composes them. `IsNormal` describes the shape of a
  normalised label. The lemmas prove that normalisation is idempotent, and
  that its fixed points are exactly the labels of normal shape.
- `Screening` (`screening.dfy`): lines 12-25 as pure functions. `Missing` is
  the set difference. `Kept` gives the row positions that are true in the
  boolean mask, and `Select` picks those rows. `Screen` runs both steps and
  returns a `Result`. `Filter`, the ordinary recursive filter over the rows,
  is an independent reference: the lemmas show the mask selection equals
  it. The possible results are:
  - `Ok(Frame)`: the filtered table;
  - `MissingColumns(set)`: the `KeyError` of line 16;
  - `FilterError`: the comparison failure propagated at lines 27-29.

  A `Frame` holds the column labels and the kept rows. It also holds each
  kept row's original position, because pandas keeps the row labels of the
  rows it selects. The positions are the row labels because `pd.read_csv`
  gives a table the default row labels 0, 1, 2, ...
- `Criteria` (`table.dfy`): the caller's DataFrame, modelled as a class
  `Table`. It has an `array<string>` of labels and a sequence of rows.
  `NormalizeLabels` overwrites the label array with one aggregate `forall`
  update. Line 9 replaces the caller's DataFrame labels as a whole, with no
  loop. `ApplyInvestingCriteria` relabels first and then screens. So the
  caller's labels are normalised whatever the outcome, errors included.
  `InvestingCriteria` is the value-level specification of the whole call.

Modelling choices:

- Cells are `Num(real)` or `Text(string)`. A `Text` cell in any required
  column, in any row, gives `FilterError`. pandas evaluates each comparison
  over the whole column before it combines the masks. So comparing a text
  column with a number fails even when the row holding the text would be
  excluded anyway.
- Whitespace for `strip` is the ASCII part of Python's `str.isspace`: code
  points 9-13, 28-31 and 32. Lowercasing maps `A`-`Z` to `a`-`z`.
- Duplicate labels after normalisation: the first column with a given label
  is the one read. The source gives this case no defined meaning: `df[name]`
  with a duplicated name returns a sub-table, not a column, so the
  comparisons no longer select rows. First-occurrence-wins is a choice
  documented here, not behaviour taken from the code: in pandas neither the
  first nor the last such column wins.
- The input rows are assumed to have one cell per column (`Rectangular`),
  which a DataFrame always does.

## Model

| member | source | states |
|---|---|---|
| `Labels.SkipLeading` | app.py:9 | the position reached is in range; every character skipped is whitespace; the character at the position reached is not whitespace |
| `Labels.SkipTrailing` | app.py:9 | the end position reached is in range; every character cut off is whitespace; the last character kept is not whitespace |
| `Labels.Strip` | app.py:9 | `str.strip()`: the result has no whitespace at either end; it is a contiguous slice of the label, and everything outside that slice is whitespace |
| `Labels.Lower` | app.py:9 | `str.lower()`: same length, and each character is the lowercase form of the character at the same position |
| `Labels.ReplaceSpaces` | app.py:9 | `str.replace(" ", "_")`: same length; each space becomes `_` and every other character stays in place |
| `Labels.Normalize` | app.py:9 | the definition is the model: strip, then lowercase, then replace spaces, in that order. It has no contract of its own; `NormalizeShape`, `NormalizeIdempotent` and `NormalizeFixedPoints` prove its properties |
| `Labels.NormalizeShape` | app.py:9 | a normalised label contains no space, has no leading or trailing whitespace and no uppercase letter, and is no longer than the raw label |
| `Labels.NormalizeFixesNormal` | app.py:9 | a label that already has the normal shape is unchanged by normalisation |
| `Labels.NormalizeIdempotent` | app.py:9 | normalising a normalised label gives it back unchanged |
| `Labels.NormalizeFixedPoints` | app.py:9 | `Normalize(s) == s` holds exactly when `s` has the normal shape (both directions) |
| `Labels.NormalizeAll` | app.py:9 | relabelling keeps the number and order of labels: label i becomes the normal form of raw label i |
| `Labels.NormalizeAllMembers` | app.py:9-13 | a name is among the relabelled columns exactly when it is the normal form of some raw label (both directions) |
| `Labels.NormalizeAllShape` | app.py:9 | every label of a relabelled table has the normal shape |
| `Screening.Missing` | app.py:12-13 | a name is reported missing exactly when it is one of the four required names and no label equals it |
| `Screening.ColumnOf` | app.py:20-23 | `df[name]` reads a column whose label is `name`, and no earlier column has that label |
| `Screening.ValueOf` | app.py:20-23 | the definition is the model: `df[name]` on one row is the cell in the column `ColumnOf` picks. `RequiredLabelsQualifies` and `RequiredLabelsText` show what it reads on the four-name table |
| `Screening.Qualifies` | app.py:20-23 | the definition is the model: the four strict comparisons `roe > 12`, `debt_to_equity < 0.5`, `roce > 15`, `peg_ratio < 1`, each false on a text cell. `Kept`, `ScreenSound` and `ScreenComplete` state what it decides |
| `Screening.HasText` | app.py:20-23 | the definition is the model: some required column holds text in the row, so the comparison with a number raises the `TypeError` rethrown at lines 27-29. `ScreenFilterError` proves the screen fails exactly then |
| `Screening.Kept` | app.py:19-24 | the mask positions lie in range and strictly increase; a position is kept exactly when its row meets all four strict comparisons |
| `Screening.Select` | app.py:19-25 | the selected rows are the input rows at the given positions, in that order and unchanged |
| `Screening.Filter` | app.py:19-25 | the independent reference filter: it returns no more rows than it is given, and every row it returns is an input row that meets all four criteria. `MaskIsFilter` and `ScreenIsFilter` prove the mask selection equals it |
| `Screening.Screen` | app.py:12-25 | the definition is the model: the missing-column check, then the text check, then the mask selection. It has no contract of its own; `ScreenMissing`, `ScreenFilterError`, `ScreenKeepsCells`, `ScreenKeepsOrder`, `ScreenSound`, `ScreenComplete`, `ScreenIsFilter` and `ScreenEmpty` prove its properties |
| `Screening.ScreenMissing` | app.py:12-16 | screening fails with a missing-columns error exactly when some required name is absent; the reported set is exactly the absent required names, and no table is returned |
| `Screening.ScreenFilterError` | app.py:19-24 | with the required columns present, screening fails exactly when some row holds text in a required column |
| `Screening.ScreenKeepsCells` | app.py:19-25 | a successful screen returns the same column labels; every returned row is the input row at its recorded position, with identical cells |
| `Screening.ScreenKeepsOrder` | app.py:19-25 | the recorded positions of the returned rows strictly increase, so the output is an order-preserving subsequence of the input |
| `Screening.ScreenSound` | app.py:19-24 | every returned row satisfies `roe > 12`, `debt_to_equity < 0.5`, `roce > 15` and `peg_ratio < 1` |
| `Screening.ScreenComplete` | app.py:19-24 | an input row is returned if and only if it satisfies all four criteria: no qualifying row is dropped and no other row is kept |
| `Screening.FilterAppend` | app.py:19-24 | filtering a table made of two parts gives the filtered first part followed by the filtered second part: whether a row is kept depends on that row alone |
| `Screening.MaskIsFilter` | app.py:19-25 | selecting the rows at the mask positions gives exactly the rows an ordinary one-row-at-a-time filter keeps, in the same order |
| `Screening.ScreenIsFilter` | app.py:19-25 | the rows of a successful screen are exactly the filter of the input rows by the four criteria |
| `Screening.ScreenEmpty` | app.py:12-25 | a table with the required columns and no data rows gives an empty table with the same columns, not an error |
| `Screening.RequiredLabelsAreRequired` | app.py:12 | the four-name column list holds exactly the required names, each once |
| `Screening.RequiredLabelsQualifies` | app.py:19-24 | on a table whose columns are exactly the four required names, a row qualifies exactly when its four cells pass the four comparisons |
| `Screening.RequiredLabelsText` | app.py:19-24 | on the same table, the comparisons fail on a row exactly when one of its four cells is text |
| `Screening.KeptTwo` | app.py:19-24 | on a two-row table the mask holds position 0 exactly when the first row qualifies and position 1 exactly when the second does, in that order |
| `Screening.ScreenNumericTable` | app.py:12-25 | under the four required names, a table with only numeric cells screens to the rows at the mask positions, with those positions as row labels |
| `Screening.ExampleFilters` | app.py:19-25 | of two rows differing only in ROE (15 and 10), only the first is kept, at position 0 |
| `Screening.ExampleBoundaries` | app.py:20-23 | a row with ROE exactly 12, or with PEG ratio exactly 1, is excluded |
| `Screening.ExampleText` | app.py:19-24 | a text cell in the PEG ratio column fails the screen, although its row would be excluded anyway |
| `Screening.ExampleMissingPeg` | app.py:12-16 | a table without a `peg_ratio` column fails with the missing set `{peg_ratio}` |
| `Criteria.InvestingCriteria` | app.py:6-29 | the rows still have one cell per column after relabelling; a successful result carries the relabelled columns; a missing-columns error reports a non-empty subset of the four required names |
| `Criteria.CriteriaMissing` | app.py:9-16 | in terms of the raw labels: the operation fails with missing columns exactly when some required name is the normal form of no raw label; the reported set is exactly those names |
| `Criteria.Table.constructor` | app.py:43 | a table built from labels and rows holds exactly those labels, in a fresh array, and those rows |
| `Criteria.Table.NormalizeLabels` | app.py:9 | overwrites the caller's label array in place: label i becomes the normal form of old label i, the number of labels stays the same, and no cell changes (`Labels.NormalizeAllShape` gives the shape of the new labels) |
| `Criteria.Table.ApplyInvestingCriteria` | app.py:6-29 | relabels the caller's table in place whatever the outcome; the returned result is `InvestingCriteria` of the old labels and the rows (a filtered table, the missing set, or the filter error) |
| `Criteria.HeadingsNormalize` | app.py:9 | the expected headings `ROE`, `Debt to Equity`, `ROCE`, `PEG Ratio` normalise to the four required names |
| `Criteria.CriteriaOnHeadings` | app.py:6-25 | on a table with the expected headings, the operation screens the same rows under the four required names |
| `Criteria.ExampleHeadings` | app.py:6-25 | the two-row upload under the expected headings returns only the row with ROE 15, under the normalised labels |
| `Criteria.ExampleCaller` | app.py:47 | a caller that passes the expected two-row upload gets back only the row with ROE 15, and its own table now carries the four normalised labels |

## Left out

- The Flask route `home()` (app.py:31-54) is not modelled: the upload checks, the choice of HTTP status codes and the app object are web-framework plumbing.
- CSV parsing by `pd.read_csv` (app.py:43) is not modelled; the table is given as labels and cells. The renaming of duplicate headers that `read_csv` performs is not modelled either.
- HTML rendering (`to_html`, `render_template`), the diagnostic `print` calls (app.py:28, app.py:51) and `app.run` are output and server start-up, so they are left out.
- Error message texts are not modelled: `MissingColumns` carries the set of absent names, and `FilterError` carries no text.
- Floating point is not modelled. Numbers are exact `real`s, so NaN from blank cells (which pandas silently fails every comparison for), infinities, rounding and dtype coercion are absent.
- Unicode is not modelled. `Labels.Strip` removes only ASCII whitespace and `Labels.Lower` lowercases only `A`-`Z`. Python would also strip non-ASCII whitespace and lowercase non-ASCII letters.
- `Criteria.Table.NormalizeLabels` writes the new labels into the existing array. Line 9 instead binds a new, immutable pandas `Index` to `df.columns`. So a reference taken earlier to the old `df.columns` keeps the old labels in Python, while a reference taken earlier to `labels` sees the new ones in the model. No caller in app.py holds such a reference.
- Tables in which two labels normalise to the same required name follow the first-occurrence choice above, not pandas' sub-table behaviour.
