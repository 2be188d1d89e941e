/** The Instron tensile-tester reader and the argument handling of the
    multi-specimen plot. The reader skips the export's preamble up to the
    flag row (the units header) and appends field `i` of every later row to
    column `i` of six columns: time, extension, load, tensile strain,
    tensile stress and tenacity. The plot checks that its colour list, when
    given, has one colour per file, and pads the caller's label list with
    "Specimen k" entries until there is one label per file. */
module Instron {
  import opened Common

  /** A row as the csv reader delivers it: its fields. */
  type Row = seq<string>

  /** The number of columns the reader fills. */
  const ColumnCount: nat := 6

  /** Six empty columns: what the reader starts from. */
  const NoColumns: seq<seq<real>> := [[], [], [], [], [], []]

  // ---------------------------------------------------------------------
  // The flag row

  /** The position of the first row whose comma-join is `flag`. */
  function FlagRow(rows: seq<Row>, flag: string): (r: Option<nat>)
    ensures r.None? <==> forall k :: 0 <= k < |rows| ==> Join(",", rows[k]) != flag
    ensures r.Some? ==>
      && r.value < |rows| && Join(",", rows[r.value]) == flag
      && forall k :: 0 <= k < r.value ==> Join(",", rows[k]) != flag
  {
    if rows == [] then None
    else
      var n := |rows| - 1;
      var front := rows[..n];
      assert forall k :: 0 <= k < n ==> front[k] == rows[k];
      match FlagRow(front, flag)
      case Some(k) => Some(k)
      case None => if Join(",", rows[n]) == flag then Some(n) else None
  }

  // ---------------------------------------------------------------------
  // Data rows

  /** One data row, converted field by field in order: field `i` goes to
      column `i`, a field that does not convert raises `ValueError`, and a
      seventh field raises `IndexError` before it is converted, since there
      is no seventh column. */
  function RowValues(row: Row, parse: Parser): (r: Result<seq<real>>)
    ensures r.Ok? <==> |row| <= ColumnCount && forall k :: 0 <= k < |row| ==> parse(row[k]).Some?
    ensures r.Ok? ==> |r.value| == |row| && forall k :: 0 <= k < |row| ==> parse(row[k]) == Some(r.value[k])
    ensures r == Err(IndexError) <==>
      |row| > ColumnCount && forall k :: 0 <= k < ColumnCount ==> parse(row[k]).Some?
    ensures r.Ok? || r == Err(IndexError) || r == Err(ValueError)
  {
    if exists k :: 0 <= k < |row| && k < ColumnCount && parse(row[k]).None? then Err(ValueError)
    else if |row| > ColumnCount then Err(IndexError)
    else Ok(seq(|row|, k requires 0 <= k < |row| => parse(row[k]).value))
  }

  /** The columns after the values of one row are appended, value `i` to
      column `i`. */
  function Appended(cols: seq<seq<real>>, vals: seq<real>): seq<seq<real>>
    requires |cols| == ColumnCount && |vals| <= ColumnCount
  {
    seq(ColumnCount, i requires 0 <= i < ColumnCount => if i < |vals| then cols[i] + [vals[i]] else cols[i])
  }

  /** The columns collected from a run of data rows, or the error of the
      first row that does not convert. */
  function Collect(rows: seq<Row>, parse: Parser): (r: Result<seq<seq<real>>>)
    ensures r.Ok? ==> |r.value| == ColumnCount
  {
    if rows == [] then Ok(NoColumns)
    else
      match Collect(rows[..|rows| - 1], parse)
      case Err(e) => Err(e)
      case Ok(cols) =>
        match RowValues(rows[|rows| - 1], parse)
        case Err(e) => Err(e)
        case Ok(vals) => Ok(Appended(cols, vals))
  }

  /** `_read_numeric_data` on a file given as its csv rows: the rows after
      the first flag row are the data, and without a flag row there is no
      data. */
  function ReadNumeric(rows: seq<Row>, flag: string, parse: Parser): Result<seq<seq<real>>>
  {
    match FlagRow(rows, flag)
    case None => Ok(NoColumns)
    case Some(k) => Collect(rows[k + 1..], parse)
  }

  // ---------------------------------------------------------------------
  // The reader

  /** The inner loop over one data row's fields, appending into `cols`. */
  method AppendRow(cols: seq<seq<real>>, row: Row, parse: Parser) returns (r: Result<seq<seq<real>>>)
    requires |cols| == ColumnCount
    ensures RowValues(row, parse).Err? ==> r == Err(RowValues(row, parse).error)
    ensures RowValues(row, parse).Ok? ==> r == Ok(Appended(cols, RowValues(row, parse).value))
  {
    var result := cols;
    for i := 0 to |row|
      invariant i <= ColumnCount
      invariant forall k :: 0 <= k < i ==> parse(row[k]).Some?
      invariant result == Appended(cols, seq(i, k requires 0 <= k < i => parse(row[k]).value))
    {
      if i >= ColumnCount {
        return Err(IndexError);
      }
      var value := parse(row[i]);
      if value.None? {
        return Err(ValueError);
      }
      result := result[i := result[i] + [value.value]];
    }
    assert seq(|row|, k requires 0 <= k < |row| => parse(row[k]).value) == RowValues(row, parse).value;
    return Ok(result);
  }

  /** A failure in a run of data rows is final: later rows do not change
      the outcome. */
  lemma {:induction false} CollectErrSticks(rows: seq<Row>, n: nat, parse: Parser)
    requires n <= |rows| && Collect(rows[..n], parse).Err?
    ensures Collect(rows, parse) == Collect(rows[..n], parse)
    decreases |rows| - n
  {
    if n < |rows| {
      var m := |rows| - 1;
      assert rows[..m][..n] == rows[..n];
      CollectErrSticks(rows[..m], n, parse);
    } else {
      assert rows[..n] == rows;
    }
  }

  /** One more row decides the flag row only when none came before. */
  lemma FlagStep(rows: seq<Row>, i: nat, flag: string)
    requires i < |rows|
    ensures FlagRow(rows[..i + 1], flag) ==
      if FlagRow(rows[..i], flag).Some? then FlagRow(rows[..i], flag)
      else if Join(",", rows[i]) == flag then Some(i) else None
  {
    assert rows[..i + 1][..i] == rows[..i];
  }

  /** One more data row extends the collected run. */
  lemma CollectStep(rows: seq<Row>, start: nat, i: nat, parse: Parser)
    requires start <= i < |rows|
    ensures Collect(rows[start..i + 1], parse) ==
      match Collect(rows[start..i], parse)
      case Err(e) => Err(e)
      case Ok(cols) =>
        match RowValues(rows[i], parse)
        case Err(e) => Err(e)
        case Ok(vals) => Ok(Appended(cols, vals))
  {
    assert rows[start..i + 1][..i - start] == rows[start..i];
  }

  /** Reading one more row before the flag row has been seen collects
      nothing, whether or not that row is the flag row. */
  lemma ReadStepBeforeFlag(rows: seq<Row>, i: nat, flag: string, parse: Parser)
    requires i < |rows| && FlagRow(rows[..i], flag).None?
    ensures ReadNumeric(rows[..i + 1], flag, parse) == Ok(NoColumns)
  {
    FlagStep(rows, i, flag);
    if Join(",", rows[i]) == flag {
      assert rows[..i + 1][i + 1..] == [];
    }
  }

  /** Reading one more row after the flag row converts it into the
      columns. */
  lemma ReadStepAfterFlag(rows: seq<Row>, i: nat, flag: string, parse: Parser)
    requires i < |rows| && FlagRow(rows[..i], flag).Some?
    ensures ReadNumeric(rows[..i + 1], flag, parse) ==
      match ReadNumeric(rows[..i], flag, parse)
      case Err(e) => Err(e)
      case Ok(cols) =>
        match RowValues(rows[i], parse)
        case Err(e) => Err(e)
        case Ok(vals) => Ok(Appended(cols, vals))
  {
    FlagStep(rows, i, flag);
    var k := FlagRow(rows[..i], flag).value;
    assert rows[..i + 1][k + 1..] == rows[k + 1..i + 1];
    assert rows[..i][k + 1..] == rows[k + 1..i];
    CollectStep(rows, k + 1, i, parse);
  }

  /** Once the read of a prefix fails, the read of the whole file fails
      the same way. */
  lemma ReadErrSticks(rows: seq<Row>, n: nat, flag: string, parse: Parser)
    requires n <= |rows| && ReadNumeric(rows[..n], flag, parse).Err?
    ensures ReadNumeric(rows, flag, parse) == ReadNumeric(rows[..n], flag, parse)
  {
    var k := FlagRow(rows[..n], flag).value;
    assert forall j :: 0 <= j < n ==> rows[..n][j] == rows[j];
    assert FlagRow(rows, flag) == Some(k);
    assert rows[k + 1..][..n - (k + 1)] == rows[..n][k + 1..];
    CollectErrSticks(rows[k + 1..], n - (k + 1), parse);
  }

  /** The `read_flag` loop of `_read_numeric_data`: every row after the
      first flag row is converted into the columns, including any later
      flag rows, and the first failure ends the read. */
  method ReadNumericData(rows: seq<Row>, flag: string, parse: Parser) returns (r: Result<seq<seq<real>>>)
    ensures r == ReadNumeric(rows, flag, parse)
  {
    var readFlag := false;
    var result := NoColumns;
    for i := 0 to |rows|
      invariant readFlag <==> FlagRow(rows[..i], flag).Some?
      invariant ReadNumeric(rows[..i], flag, parse) == Ok(result)
    {
      FlagStep(rows, i, flag);
      var row := rows[i];
      if !readFlag {
        ReadStepBeforeFlag(rows, i, flag, parse);
      } else {
        ReadStepAfterFlag(rows, i, flag, parse);
        var outcome := AppendRow(result, row, parse);
        if outcome.Err? {
          ReadErrSticks(rows, i + 1, flag, parse);
          return Err(outcome.error);
        }
        result := outcome.value;
      }
      if Join(",", row) == flag {
        readFlag := true;
      }
    }
    assert rows[..|rows|] == rows;
    r := Ok(result);
  }

  // ---------------------------------------------------------------------
  // What the reader promises

  /** Field `i` of every row that has one, in row order. */
  function Column(rows: seq<Row>, i: nat, parse: Parser): seq<real>
    requires forall k :: 0 <= k < |rows| ==> RowValues(rows[k], parse).Ok?
  {
    if rows == [] then []
    else
      var last := rows[|rows| - 1];
      var front := Column(rows[..|rows| - 1], i, parse);
      if i < |last| then front + [RowValues(last, parse).value[i]] else front
  }

  /** The data rows convert exactly when each of them does; then column
      `i` holds field `i` of every row wide enough to have one, in row
      order, and otherwise the error is that of the first row that does
      not convert. */
  lemma {:induction false} CollectColumns(rows: seq<Row>, parse: Parser)
    ensures Collect(rows, parse).Ok? <==> forall k :: 0 <= k < |rows| ==> RowValues(rows[k], parse).Ok?
    ensures Collect(rows, parse).Ok? ==>
      forall i :: 0 <= i < ColumnCount ==> Collect(rows, parse).value[i] == Column(rows, i, parse)
    ensures Collect(rows, parse).Err? ==>
      exists k :: 0 <= k < |rows| && FirstBadRow(rows, k, parse) && Collect(rows, parse) == Err(RowValues(rows[k], parse).error)
  {
    if rows != [] {
      var n := |rows| - 1;
      var front := rows[..n];
      assert forall k :: 0 <= k < n ==> front[k] == rows[k];
      CollectColumns(front, parse);
      if Collect(front, parse).Err? {
        var k :| 0 <= k < n && FirstBadRow(front, k, parse) && Collect(front, parse) == Err(RowValues(front[k], parse).error);
        assert FirstBadRow(rows, k, parse);
      } else if RowValues(rows[n], parse).Err? {
        assert FirstBadRow(rows, n, parse);
      }
    }
  }

  /** Row `k` is the first that does not convert. */
  ghost predicate FirstBadRow(rows: seq<Row>, k: nat, parse: Parser)
    requires k < |rows|
  {
    && RowValues(rows[k], parse).Err?
    && forall j :: 0 <= j < k ==> RowValues(rows[j], parse).Ok?
  }

  /** Nothing up to and including the first flag row is converted: the
      preamble may hold anything, and the result is that of the rows after
      the flag alone. */
  lemma PreambleIgnored(preamble: seq<Row>, flagRow: Row, data: seq<Row>, flag: string, parse: Parser)
    requires forall k :: 0 <= k < |preamble| ==> Join(",", preamble[k]) != flag
    requires Join(",", flagRow) == flag
    ensures ReadNumeric(preamble + [flagRow] + data, flag, parse) == Collect(data, parse)
  {
    var rows := preamble + [flagRow] + data;
    assert rows[|preamble|] == flagRow;
    assert forall k :: 0 <= k < |preamble| ==> rows[k] == preamble[k];
    assert FlagRow(rows, flag) == Some(|preamble|);
    assert rows[|preamble| + 1..] == data;
  }

  /** A file without the flag row yields six empty columns, and a read
      that succeeds always yields six columns. */
  lemma ReadShape(rows: seq<Row>, flag: string, parse: Parser)
    ensures (forall k :: 0 <= k < |rows| ==> Join(",", rows[k]) != flag) ==>
      ReadNumeric(rows, flag, parse) == Ok(NoColumns)
    ensures ReadNumeric(rows, flag, parse).Ok? ==> |ReadNumeric(rows, flag, parse).value| == ColumnCount
  {
  }

  /** A data row with more than six fields, whose first six convert, makes
      the read fail with `IndexError` when no earlier data row failed. */
  lemma WideRowFails(rows: seq<Row>, k: nat, parse: Parser)
    requires k < |rows| && |rows[k]| > ColumnCount
    requires forall i :: 0 <= i < ColumnCount ==> parse(rows[k][i]).Some?
    requires forall j :: 0 <= j < k ==> RowValues(rows[j], parse).Ok?
    ensures Collect(rows, parse) == Err(IndexError)
  {
    CollectColumns(rows, parse);
    assert FirstBadRow(rows, k, parse);
    var j :| 0 <= j < |rows| && FirstBadRow(rows, j, parse) && Collect(rows, parse) == Err(RowValues(rows[j], parse).error);
    if j < k {
      assert false;
    }
    if k < j {
      assert false;
    }
  }

  // ---------------------------------------------------------------------
  // Colours and labels of plot_multiple_stress_strain

  /** The caller's label list, which the plot extends in place. */
  class LabelList {
    var items: seq<string>

    constructor (items: seq<string>)
      ensures this.items == items
    {
      this.items := items;
    }
  }

  /** The label of the specimen at (zero-based) position `k`. */
  function SpecimenLabel(k: nat): string
  {
    "Specimen " + NatToString(k + 1)
  }

  /** The label of position `k` ends with the decimal text of `k + 1`. */
  lemma SpecimenLabelNumber(k: nat)
    ensures |SpecimenLabel(k)| > 9 && SpecimenLabel(k)[..9] == "Specimen "
    ensures var digits := SpecimenLabel(k)[9..];
      && (forall i :: 0 <= i < |digits| ==> '0' <= digits[i] <= '9')
      && DigitsValue(digits) == k + 1
  {
    assert SpecimenLabel(k)[9..] == NatToString(k + 1);
    NatToStringValue(k + 1);
  }

  /** Padding never produces the same label for two positions. */
  lemma SpecimenLabelsDistinct(j: nat, k: nat)
    requires j != k
    ensures SpecimenLabel(j) != SpecimenLabel(k)
  {
    if SpecimenLabel(j) == SpecimenLabel(k) {
      assert SpecimenLabel(j)[9..] == NatToString(j + 1);
      assert SpecimenLabel(k)[9..] == NatToString(k + 1);
      NatToStringInjective(j + 1, k + 1);
    }
  }

  /** The labels once padded for `numFiles` files: the given labels first,
      then "Specimen k" for each further file. */
  function Padded(labels: seq<string>, numFiles: nat): (r: seq<string>)
    ensures |r| == if numFiles > |labels| then numFiles else |labels|
    ensures r[..|labels|] == labels
    ensures forall k :: |labels| <= k < |r| ==> r[k] == SpecimenLabel(k)
    decreases numFiles - |labels|
  {
    if numFiles <= |labels| then labels
    else Padded(labels + [SpecimenLabel(|labels|)], numFiles)
  }

  /** The colour check and the label padding: a colour list whose length
      is not the number of files raises `ValueError` before the labels are
      touched; otherwise the labels are padded in place and the result
      says whether the caller's colours are used. */
  method CheckColorsAndPadLabels(filepaths: seq<string>, labels: LabelList, colors: Option<seq<string>>)
    returns (r: Result<bool>)
    modifies labels
    ensures colors.Some? && |colors.value| != |filepaths| ==>
      r == Err(ValueError) && labels.items == old(labels.items)
    ensures colors.None? || |colors.value| == |filepaths| ==>
      r == Ok(colors.Some?) && labels.items == Padded(old(labels.items), |filepaths|)
  {
    var useUsrColors := false;
    var numFiles := |filepaths|;
    if colors.Some? && numFiles != |colors.value| {
      return Err(ValueError);
    } else if colors.Some? {
      useUsrColors := true;
    }

    var idx := |labels.items| + 1;
    while numFiles > |labels.items|
      invariant idx == |labels.items| + 1
      invariant Padded(labels.items, numFiles) == Padded(old(labels.items), numFiles)
      decreases numFiles - |labels.items|
    {
      labels.items := labels.items + ["Specimen " + NatToString(idx)];
      idx := idx + 1;
    }
    return Ok(useUsrColors);
  }

  /** Padding twice is padding once for the larger count. */
  lemma PaddedTwice(labels: seq<string>, first: nat, second: nat)
    ensures Padded(Padded(labels, first), second) == Padded(labels, if first > second then first else second)
  {
    var once := Padded(labels, first);
    var twice := Padded(once, second);
    var direct := Padded(labels, if first > second then first else second);
    assert |twice| == |direct|;
    forall k | 0 <= k < |twice|
      ensures twice[k] == direct[k]
    {
      if k < |labels| {
        assert twice[k] == twice[..|once|][k] == once[k] == once[..|labels|][k];
        assert direct[k] == direct[..|labels|][k];
      } else if k < |once| {
        assert twice[k] == twice[..|once|][k];
      }
    }
  }

  /** Two plots that leave `labels` at its default share one list: the
      second call sees the first call's padding, so the list ends up padded
      for the larger of the two file counts. */
  method SharedDefault(firstFiles: seq<string>, secondFiles: seq<string>) returns (seen: seq<string>)
    ensures seen == Padded([], if |firstFiles| > |secondFiles| then |firstFiles| else |secondFiles|)
    ensures |seen| == if |firstFiles| > |secondFiles| then |firstFiles| else |secondFiles|
  {
    var defaultLabels := new LabelList([]);
    var first := CheckColorsAndPadLabels(firstFiles, defaultLabels, None);
    var second := CheckColorsAndPadLabels(secondFiles, defaultLabels, None);
    PaddedTwice([], |firstFiles|, |secondFiles|);
    seen := defaultLabels.items;
  }
}
