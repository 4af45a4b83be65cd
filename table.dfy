/** `apply_investing_criteria` (app.py, lines 6-29) as a whole: the
    caller's table has its column labels rewritten in place, then the
    relabelled table is screened. */
module Criteria {
  import opened Labels
  import opened Screening

  /** The whole operation on a table with raw labels `raw`. Line 9 runs
      first, so the screen always sees the normalised labels. */
  function InvestingCriteria(raw: seq<string>, rows: seq<seq<Cell>>): (r: Result)
    requires Rectangular(raw, rows)
    ensures Rectangular(NormalizeAll(raw), rows)
    ensures r.Ok? ==> r.frame.labels == NormalizeAll(raw)
    ensures r.MissingColumns? ==> r.missing != {} && r.missing <= Required
  {
    Screen(NormalizeAll(raw), rows)
  }

  /** The operation fails with a missing-columns error exactly when some
      required name is the normal form of no raw label, and the reported
      set is exactly those names. */
  lemma CriteriaMissing(raw: seq<string>, rows: seq<seq<Cell>>)
    requires Rectangular(raw, rows)
    ensures InvestingCriteria(raw, rows).MissingColumns? <==>
      exists n :: n in Required && forall i :: 0 <= i < |raw| ==> Normalize(raw[i]) != n
    ensures InvestingCriteria(raw, rows).MissingColumns? ==>
      forall n :: n in InvestingCriteria(raw, rows).missing <==>
        n in Required && forall i :: 0 <= i < |raw| ==> Normalize(raw[i]) != n
  {
    NormalizeAllMembers(raw);
    ScreenMissing(NormalizeAll(raw), rows);
  }

  /** The caller's table: its column labels are an array that the
      operation overwrites, its rows are the parsed cells. */
  class Table {
    var labels: array<string>
    var rows: seq<seq<Cell>>

    /** Every row has one cell per column. */
    ghost predicate Valid()
      reads this
    {
      forall i :: 0 <= i < |rows| ==> |rows[i]| == labels.Length
    }

    constructor (ls: seq<string>, rs: seq<seq<Cell>>)
      requires Rectangular(ls, rs)
      ensures Valid() && fresh(labels)
      ensures labels[..] == ls && rows == rs
    {
      labels := new string[|ls|](i requires 0 <= i < |ls| => ls[i]);
      rows := rs;
    }

    /** The assignment to `df.columns` at app.py line 9, which replaces
        the caller's column labels: label i becomes the normal form of old label i;
        the number of columns, their order and every cell stay as they were. */
    method NormalizeLabels()
      requires Valid()
      modifies labels
      ensures Valid()
      ensures forall j :: 0 <= j < labels.Length ==> labels[j] == Normalize(old(labels[j]))
      ensures rows == old(rows)
    {
      forall j | 0 <= j < labels.Length {
        labels[j] := Normalize(labels[j]);
      }
    }

    /** `apply_investing_criteria(df)`: relabels this table in place, on
        every outcome, and returns what screening the relabelled table gives. */
    method ApplyInvestingCriteria() returns (r: Result)
      requires Valid()
      modifies labels
      ensures Valid()
      ensures labels[..] == NormalizeAll(old(labels[..]))
      ensures rows == old(rows)
      ensures r == InvestingCriteria(old(labels[..]), rows)
    {
      NormalizeLabels();
      assert labels[..] == NormalizeAll(old(labels[..]));
      r := Screen(labels[..], rows);
    }
  }

  /** The column headings of the expected upload. */
  const Headings: seq<string> := ["ROE", "Debt to Equity", "ROCE", "PEG Ratio"]

  /** Normalising four labels normalises each in its place. */
  lemma NormalizeFour(a: string, b: string, c: string, d: string,
                      na: string, nb: string, nc: string, nd: string)
    requires Normalize(a) == na && Normalize(b) == nb
    requires Normalize(c) == nc && Normalize(d) == nd
    ensures NormalizeAll([a, b, c, d]) == [na, nb, nc, nd]
  {
  }

  lemma NormalizeRoeHeading()
    ensures Normalize("ROE") == "roe"
  {
    NormalizeTrimmed("ROE", "roe", "roe");
  }

  lemma NormalizeDebtToEquityHeading()
    ensures Normalize("Debt to Equity") == "debt_to_equity"
  {
    NormalizeTrimmed("Debt to Equity", "debt to equity", "debt_to_equity");
  }

  lemma NormalizeRoceHeading()
    ensures Normalize("ROCE") == "roce"
  {
    NormalizeTrimmed("ROCE", "roce", "roce");
  }

  lemma NormalizePegRatioHeading()
    ensures Normalize("PEG Ratio") == "peg_ratio"
  {
    NormalizeTrimmed("PEG Ratio", "peg ratio", "peg_ratio");
  }

  /** The expected headings normalise to the four required names. */
  lemma HeadingsNormalize()
    ensures NormalizeAll(Headings) == RequiredLabels
  {
    NormalizeRoeHeading();
    NormalizeDebtToEquityHeading();
    NormalizeRoceHeading();
    NormalizePegRatioHeading();
    NormalizeFour("ROE", "Debt to Equity", "ROCE", "PEG Ratio",
                  "roe", "debt_to_equity", "roce", "peg_ratio");
  }

  /** On a table with the expected headings, the operation is the screen
      of the same rows under the four required names. */
  lemma CriteriaOnHeadings(rows: seq<seq<Cell>>)
    requires Rectangular(Headings, rows)
    ensures InvestingCriteria(Headings, rows) == Screen(RequiredLabels, rows)
  {
    HeadingsNormalize();
  }

  /** The upload of two rows under the expected headings that differ only
      in ROE: only the row with ROE 15 comes back, under the normalised
      labels and with its original row position. */
  lemma ExampleHeadings()
    ensures InvestingCriteria(Headings,
      [[Num(15.0), Num(0.3), Num(20.0), Num(0.8)], [Num(10.0), Num(0.3), Num(20.0), Num(0.8)]])
      == Ok(Frame(RequiredLabels, [0], [[Num(15.0), Num(0.3), Num(20.0), Num(0.8)]]))
  {
    CriteriaOnHeadings([[Num(15.0), Num(0.3), Num(20.0), Num(0.8)], [Num(10.0), Num(0.3), Num(20.0), Num(0.8)]]);
    ExampleFilters();
  }

  /** A caller in the position of the upload handler: it builds a table
      from the expected upload, calls the operation, and returns its own
      table's labels after the call together with the result. The labels
      are the normalised ones, and only the row with ROE 15 comes back. */
  method ExampleCaller() returns (labels: seq<string>, r: Result)
    ensures labels == RequiredLabels
    ensures r == Ok(Frame(RequiredLabels, [0], [[Num(15.0), Num(0.3), Num(20.0), Num(0.8)]]))
  {
    var row0 := [Num(15.0), Num(0.3), Num(20.0), Num(0.8)];
    var row1 := [Num(10.0), Num(0.3), Num(20.0), Num(0.8)];
    var t := new Table(Headings, [row0, row1]);
    r := t.ApplyInvestingCriteria();
    HeadingsNormalize();
    ExampleHeadings();
    labels := t.labels[..];
  }
}
