/** The part of `apply_investing_criteria` after the relabelling
    (app.py, lines 12-25): check that the four required columns are present,
    then keep the rows that pass all four strict comparisons. */
module Screening {

  /** One cell of the parsed table: a number, or text that pandas cannot
      compare with a number. */
  datatype Cell = Num(r: real) | Text(t: string)

  /** A table with its column labels, the pandas row labels of its rows
      and its rows. The row labels are stored as the positions of the rows
      in the table they were selected from; the two agree because
      `pd.read_csv` numbers the rows 0, 1, 2, ... by default. */
  datatype Frame = Frame(labels: seq<string>, index: seq<nat>, rows: seq<seq<Cell>>)

  /** What `apply_investing_criteria` does with a table: a filtered table,
      the `KeyError` of line 16 with the set of absent names, or the
      comparison failure of lines 20-23 rethrown at line 29. */
  datatype Result = Ok(frame: Frame) | MissingColumns(missing: set<string>) | FilterError

  /** The required column names, already in normal form (app.py, line 12). */
  const Required: set<string> := {"roe", "debt_to_equity", "roce", "peg_ratio"}

  /** Every row has one cell per column. */
  predicate Rectangular(labels: seq<string>, rows: seq<seq<Cell>>) {
    forall i :: 0 <= i < |rows| ==> |rows[i]| == |labels|
  }

  /** `required_columns - set(df.columns)` (app.py, line 13). */
  function Missing(labels: seq<string>): (m: set<string>)
    ensures forall n :: n in m <==> n in Required && n !in labels
  {
    set n | n in Required && n !in labels
  }

  predicate HasRequired(labels: seq<string>) {
    forall n :: n in Required ==> n in labels
  }

  /** The column that `df[name]` reads. When normalisation has produced the
      same label twice, the first column with that label is the one read. */
  function ColumnOf(labels: seq<string>, name: string): (i: nat)
    requires name in labels
    ensures i < |labels| && labels[i] == name
    ensures forall j :: 0 <= j < i ==> labels[j] != name
  {
    if labels[0] == name then 0 else 1 + ColumnOf(labels[1..], name)
  }

  /** The cell of `row` in the column labelled `name`. */
  function ValueOf(labels: seq<string>, row: seq<Cell>, name: string): Cell
    requires name in labels && |row| == |labels|
  {
    row[ColumnOf(labels, name)]
  }

  /** A row's value in a required column is text: pandas' comparison of
      that column with a number fails. */
  predicate HasText(labels: seq<string>, row: seq<Cell>)
    requires HasRequired(labels) && |row| == |labels|
  {
    exists n :: n in Required && ValueOf(labels, row, n).Text?
  }

  /** The four criteria of app.py lines 20-23, all strict. */
  predicate Qualifies(labels: seq<string>, row: seq<Cell>)
    requires HasRequired(labels) && |row| == |labels|
  {
    var roe := ValueOf(labels, row, "roe");
    var de := ValueOf(labels, row, "debt_to_equity");
    var roce := ValueOf(labels, row, "roce");
    var peg := ValueOf(labels, row, "peg_ratio");
    && roe.Num? && roe.r > 12.0
    && de.Num? && de.r < 0.5
    && roce.Num? && roce.r > 15.0
    && peg.Num? && peg.r < 1.0
  }

  /** The positions, from `from` on and in increasing order, of the rows
      that meet the criteria: the true entries of the boolean mask. */
  function Kept(labels: seq<string>, rows: seq<seq<Cell>>, from: nat): (idx: seq<nat>)
    requires HasRequired(labels) && Rectangular(labels, rows)
    ensures forall k :: 0 <= k < |idx| ==> from <= idx[k] < |rows|
    ensures forall k, l :: 0 <= k < l < |idx| ==> idx[k] < idx[l]
    ensures forall i :: from <= i < |rows| ==> (i in idx <==> Qualifies(labels, rows[i]))
    decreases |rows| - from
  {
    if from >= |rows| then []
    else if Qualifies(labels, rows[from]) then [from] + Kept(labels, rows, from + 1)
    else Kept(labels, rows, from + 1)
  }

  /** The rows at the given positions, in that order. */
  function Select(rows: seq<seq<Cell>>, idx: seq<nat>): (s: seq<seq<Cell>>)
    requires forall k :: 0 <= k < |idx| ==> idx[k] < |rows|
    ensures |s| == |idx|
    ensures forall k :: 0 <= k < |idx| ==> s[k] == rows[idx[k]]
  {
    if idx == [] then [] else [rows[idx[0]]] + Select(rows, idx[1..])
  }

  /** The rows that meet the criteria, in their order: the textbook filter
      over the sequence of rows, a reference for the mask selection. */
  function Filter(labels: seq<string>, rows: seq<seq<Cell>>): (r: seq<seq<Cell>>)
    requires HasRequired(labels) && Rectangular(labels, rows)
    ensures |r| <= |rows|
    ensures forall k :: 0 <= k < |r| ==> r[k] in rows && |r[k]| == |labels| && Qualifies(labels, r[k])
  {
    if rows == [] then []
    else (if Qualifies(labels, rows[0]) then [rows[0]] else []) + Filter(labels, rows[1..])
  }

  /** Two tables with one cell per column concatenate to one. */
  lemma RectangularAppend(labels: seq<string>, a: seq<seq<Cell>>, b: seq<seq<Cell>>)
    requires Rectangular(labels, a) && Rectangular(labels, b)
    ensures Rectangular(labels, a + b)
  {
    forall i | 0 <= i < |a + b| ensures |(a + b)[i]| == |labels| {
      if i < |a| { assert (a + b)[i] == a[i]; } else { assert (a + b)[i] == b[i - |a|]; }
    }
  }

  /** Filtering a table made of two parts filters each part on its own:
      whether a row is kept depends on that row alone, and the kept rows
      keep their order. */
  lemma {:induction false} FilterAppend(labels: seq<string>, a: seq<seq<Cell>>, b: seq<seq<Cell>>)
    requires HasRequired(labels) && Rectangular(labels, a) && Rectangular(labels, b)
    ensures Rectangular(labels, a + b)
    ensures Filter(labels, a + b) == Filter(labels, a) + Filter(labels, b)
  {
    RectangularAppend(labels, a, b);
    if a == [] {
      assert a + b == b;
    } else {
      var head := if Qualifies(labels, a[0]) then [a[0]] else [];
      assert (a + b)[0] == a[0];
      assert (a + b)[1..] == a[1..] + b;
      FilterAppend(labels, a[1..], b);
      calc {
        Filter(labels, a + b);
        head + Filter(labels, a[1..] + b);
        head + (Filter(labels, a[1..]) + Filter(labels, b));
        (head + Filter(labels, a[1..])) + Filter(labels, b);
      }
    }
  }

  /** Selecting the rows at the mask positions from `from` on gives the
      filter of the rows from `from` on. */
  lemma {:induction false} MaskIsFilter(labels: seq<string>, rows: seq<seq<Cell>>, from: nat)
    requires HasRequired(labels) && Rectangular(labels, rows) && from <= |rows|
    ensures Select(rows, Kept(labels, rows, from)) == Filter(labels, rows[from..])
    decreases |rows| - from
  {
    if from < |rows| {
      MaskIsFilter(labels, rows, from + 1);
      var tail := Kept(labels, rows, from + 1);
      assert rows[from..][0] == rows[from];
      assert rows[from..][1..] == rows[from + 1..];
      if Qualifies(labels, rows[from]) {
        assert ([from] + tail)[1..] == tail;
      }
    }
  }

  /** `df[mask]` over the table with already normalised labels
      (app.py, lines 12-25). */
  function Screen(labels: seq<string>, rows: seq<seq<Cell>>): (r: Result)
    requires Rectangular(labels, rows)
  {
    var missing := Missing(labels);
    if missing != {} then MissingColumns(missing)
    else if exists i :: 0 <= i < |rows| && HasText(labels, rows[i]) then FilterError
    else
      var idx := Kept(labels, rows, 0);
      Ok(Frame(labels, idx, Select(rows, idx)))
  }

  /** Screening fails with a missing-columns error exactly when a required
      name is absent, and then reports exactly the absent names. */
  lemma ScreenMissing(labels: seq<string>, rows: seq<seq<Cell>>)
    requires Rectangular(labels, rows)
    ensures Screen(labels, rows).MissingColumns? <==> exists n :: n in Required && n !in labels
    ensures Screen(labels, rows).MissingColumns? ==>
      forall n :: n in Screen(labels, rows).missing <==> n in Required && n !in labels
  {
  }

  /** With every required column present, screening fails exactly when some
      row holds text in one of them. */
  lemma ScreenFilterError(labels: seq<string>, rows: seq<seq<Cell>>)
    requires Rectangular(labels, rows) && HasRequired(labels)
    ensures Screen(labels, rows).FilterError? <==>
      exists i :: 0 <= i < |rows| && HasText(labels, rows[i])
  {
  }

  /** A successful screen keeps the columns as they are, and every row it
      returns is the input row at the recorded position, unchanged. */
  lemma ScreenKeepsCells(labels: seq<string>, rows: seq<seq<Cell>>)
    requires Rectangular(labels, rows)
    requires Screen(labels, rows).Ok?
    ensures Screen(labels, rows).frame.labels == labels
    ensures Rectangular(labels, Screen(labels, rows).frame.rows)
    ensures var f := Screen(labels, rows).frame;
      |f.index| == |f.rows|
      && forall k :: 0 <= k < |f.rows| ==> f.index[k] < |rows| && f.rows[k] == rows[f.index[k]]
  {
  }

  /** The returned rows keep the input order: their positions increase. */
  lemma ScreenKeepsOrder(labels: seq<string>, rows: seq<seq<Cell>>)
    requires Rectangular(labels, rows)
    requires Screen(labels, rows).Ok?
    ensures var f := Screen(labels, rows).frame;
      forall k, l :: 0 <= k < l < |f.index| ==> f.index[k] < f.index[l]
  {
  }

  /** Every returned row satisfies all four criteria. */
  lemma ScreenSound(labels: seq<string>, rows: seq<seq<Cell>>)
    requires Rectangular(labels, rows)
    requires Screen(labels, rows).Ok?
    ensures HasRequired(labels)
    ensures var f := Screen(labels, rows).frame;
      forall k :: 0 <= k < |f.rows| ==> |f.rows[k]| == |labels| && Qualifies(labels, f.rows[k])
  {
  }

  /** A row is returned if and only if it satisfies all four criteria: no
      qualifying row is dropped and no other row is kept. */
  lemma ScreenComplete(labels: seq<string>, rows: seq<seq<Cell>>)
    requires Rectangular(labels, rows)
    requires Screen(labels, rows).Ok?
    ensures HasRequired(labels)
    ensures forall i :: 0 <= i < |rows| ==>
      (i in Screen(labels, rows).frame.index <==> Qualifies(labels, rows[i]))
  {
  }

  /** A successful screen returns exactly the filter of the input rows. */
  lemma ScreenIsFilter(labels: seq<string>, rows: seq<seq<Cell>>)
    requires Rectangular(labels, rows)
    requires Screen(labels, rows).Ok?
    ensures HasRequired(labels)
    ensures Screen(labels, rows).frame.rows == Filter(labels, rows)
  {
    assert Missing(labels) == {};
    MaskIsFilter(labels, rows, 0);
    assert rows[0..] == rows;
  }

  /** A table with the required columns and no data rows screens to an
      empty table with the same columns. */
  lemma ScreenEmpty(labels: seq<string>)
    requires HasRequired(labels)
    ensures Screen(labels, []) == Ok(Frame(labels, [], []))
  {
  }

  /** The four required names as the columns of a table. */
  const RequiredLabels: seq<string> := ["roe", "debt_to_equity", "roce", "peg_ratio"]

  /** The columns of that table are exactly the required names, each once. */
  lemma RequiredLabelsAreRequired()
    ensures forall n :: n in Required <==> n in RequiredLabels
    ensures forall i, j :: 0 <= i < j < |RequiredLabels| ==> RequiredLabels[i] != RequiredLabels[j]
  {
  }

  /** On a table whose columns are exactly the four required names, in that
      order, a row qualifies exactly when its four cells pass the four
      comparisons. */
  lemma RequiredLabelsQualifies(row: seq<Cell>)
    requires |row| == 4
    ensures HasRequired(RequiredLabels)
    ensures Qualifies(RequiredLabels, row) <==>
      && row[0].Num? && row[0].r > 12.0 && row[1].Num? && row[1].r < 0.5
      && row[2].Num? && row[2].r > 15.0 && row[3].Num? && row[3].r < 1.0
  {
  }

  /** On the same table, a row holds text in a required column exactly
      when one of its four cells is text. */
  lemma RequiredLabelsText(row: seq<Cell>)
    requires |row| == 4
    ensures HasRequired(RequiredLabels)
    ensures HasText(RequiredLabels, row) <==>
      row[0].Text? || row[1].Text? || row[2].Text? || row[3].Text?
  {
  }

  /** The mask over a table of two rows. */
  lemma KeptTwo(labels: seq<string>, rows: seq<seq<Cell>>)
    requires HasRequired(labels) && Rectangular(labels, rows) && |rows| == 2
    ensures Kept(labels, rows, 0) ==
      (if Qualifies(labels, rows[0]) then [0] else []) + (if Qualifies(labels, rows[1]) then [1] else [])
  {
    assert Kept(labels, rows, 2) == [];
  }

  /** On the four required names, a table without text cells passes the
      text check: the screen returns the rows at the mask positions. */
  lemma ScreenNumericTable(rows: seq<seq<Cell>>)
    requires Rectangular(RequiredLabels, rows)
    requires forall i, k :: 0 <= i < |rows| && 0 <= k < 4 ==> rows[i][k].Num?
    ensures HasRequired(RequiredLabels)
    ensures Screen(RequiredLabels, rows)
      == Ok(Frame(RequiredLabels, Kept(RequiredLabels, rows, 0), Select(rows, Kept(RequiredLabels, rows, 0))))
  {
    RequiredLabelsText([Num(0.0), Num(0.0), Num(0.0), Num(0.0)]);
    assert Missing(RequiredLabels) == {};
    forall i | 0 <= i < |rows| ensures !HasText(RequiredLabels, rows[i]) {
      RequiredLabelsText(rows[i]);
    }
  }

  /** Of two rows that differ only in ROE, 15 passes and 10 does not. */
  lemma ExampleFilters()
    ensures Screen(RequiredLabels,
      [[Num(15.0), Num(0.3), Num(20.0), Num(0.8)], [Num(10.0), Num(0.3), Num(20.0), Num(0.8)]])
      == Ok(Frame(RequiredLabels, [0], [[Num(15.0), Num(0.3), Num(20.0), Num(0.8)]]))
  {
    var a, b := [Num(15.0), Num(0.3), Num(20.0), Num(0.8)], [Num(10.0), Num(0.3), Num(20.0), Num(0.8)];
    var rows := [a, b];
    ScreenNumericTable(rows);
    RequiredLabelsQualifies(a);
    RequiredLabelsQualifies(b);
    KeptTwo(RequiredLabels, rows);
    assert Qualifies(RequiredLabels, rows[0]) && !Qualifies(RequiredLabels, rows[1]);
    assert Kept(RequiredLabels, rows, 0) == [0];
    assert Select(rows, [0]) == [a];
  }

  /** The comparisons are strict: ROE of exactly 12, or a PEG ratio of
      exactly 1, excludes the row. */
  lemma ExampleBoundaries()
    ensures Screen(RequiredLabels,
      [[Num(12.0), Num(0.3), Num(20.0), Num(0.8)], [Num(15.0), Num(0.3), Num(20.0), Num(1.0)]])
      == Ok(Frame(RequiredLabels, [], []))
  {
    var a, b := [Num(12.0), Num(0.3), Num(20.0), Num(0.8)], [Num(15.0), Num(0.3), Num(20.0), Num(1.0)];
    var rows := [a, b];
    ScreenNumericTable(rows);
    RequiredLabelsQualifies(a);
    RequiredLabelsQualifies(b);
    KeptTwo(RequiredLabels, rows);
  }

  /** Text in a required column fails the whole screen, even when the row
      holding it would have been excluded anyway. */
  lemma ExampleText()
    ensures Screen(RequiredLabels,
      [[Num(15.0), Num(0.3), Num(20.0), Num(0.8)], [Num(10.0), Num(0.3), Num(20.0), Text("high")]])
      == FilterError
  {
  }

  /** A table without a peg_ratio column reports exactly that name. */
  lemma ExampleMissingPeg()
    ensures Screen(["roe", "debt_to_equity", "roce"], [[Num(15.0), Num(0.3), Num(20.0)]])
      == MissingColumns({"peg_ratio"})
  {
  }
}
