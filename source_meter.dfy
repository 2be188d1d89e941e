/** The source-meter export reader, `gather_data`. The export starts with a
    block of two-field rows (a header and settings) followed by the data
    table, whose own header names the columns. The reader splits the rows
    where the width first changes, picks the reading and time columns of the
    table by name, drops every row where either fails to convert, and adds
    the offset to the readings. Any failure is caught and the function
    returns `None`; here each failure keeps the kind of exception that
    caused it. */
module SourceMeter {
  import opened Common

  /** A row as the csv reader delivers it: its fields. */
  type Row = seq<string>

  // ---------------------------------------------------------------------
  // The width-change split

  /** The number of leading rows that have exactly two fields. */
  function TwoColumnPrefix(rows: seq<Row>): (n: nat)
    ensures n <= |rows|
    ensures forall k :: 0 <= k < n ==> |rows[k]| == 2
    ensures n == |rows| || |rows[n]| != 2
  {
    if rows == [] || |rows[0]| != 2 then 0 else 1 + TwoColumnPrefix(rows[1..])
  }

  /** What a sticky split of `rows` into `twoCol` and `rest` must satisfy:
      the parts concatenate to the rows, the first holds only two-field rows
      and the second, when it is not empty, starts with a row of another
      width. */
  ghost predicate StickySplit(rows: seq<Row>, twoCol: seq<Row>, rest: seq<Row>)
  {
    && twoCol + rest == rows
    && (forall k :: 0 <= k < |twoCol| ==> |twoCol[k]| == 2)
    && (rest == [] || |rest[0]| != 2)
  }

  /** The `switch_found` loop: two-field rows go to `twoCol` until the
      first row of another width; that row and every later row, two-field
      or not, go to `rest`. */
  method SplitAtWidthChange(rows: seq<Row>) returns (twoCol: seq<Row>, rest: seq<Row>)
    ensures StickySplit(rows, twoCol, rest)
  {
    twoCol, rest := [], [];
    var switchFound := false;
    for i := 0 to |rows|
      invariant twoCol + rest == rows[..i]
      invariant forall k :: 0 <= k < |twoCol| ==> |twoCol[k]| == 2
      invariant switchFound <==> rest != []
      invariant rest == [] || |rest[0]| != 2
    {
      if !switchFound && |rows[i]| == 2 {
        twoCol := twoCol + [rows[i]];
      } else {
        switchFound := true;
        rest := rest + [rows[i]];
      }
    }
    assert rows[..|rows|] == rows;
  }

  /** The sticky split is unique: it always cuts after the leading run of
      two-field rows. */
  lemma StickySplitUnique(rows: seq<Row>, twoCol: seq<Row>, rest: seq<Row>)
    requires StickySplit(rows, twoCol, rest)
    ensures twoCol == rows[..TwoColumnPrefix(rows)] && rest == rows[TwoColumnPrefix(rows)..]
  {
    var n := TwoColumnPrefix(rows);
    assert forall k :: 0 <= k < |twoCol| ==> rows[k] == twoCol[k];
    assert rest != [] ==> rows[|twoCol|] == rest[0];
    if |twoCol| < n {
      assert false;
    }
    if n < |twoCol| {
      assert false;
    }
    assert twoCol == (twoCol + rest)[..n];
  }

  // ---------------------------------------------------------------------
  // The data table

  /** The widest row of the table body. */
  function MaxWidth(data: seq<Row>): (w: nat)
    ensures forall k :: 0 <= k < |data| ==> |data[k]| <= w
    ensures data != [] ==> exists k :: 0 <= k < |data| && |data[k]| == w
  {
    if data == [] then 0
    else
      var w := MaxWidth(data[..|data| - 1]);
      if |data[|data| - 1]| > w then |data[|data| - 1]| else w
  }

  /** The first position of `name` in the header. */
  function Find(header: Row, name: string): (r: Option<nat>)
    ensures r.None? <==> name !in header
    ensures r.Some? ==> r.value < |header| && header[r.value] == name && name !in header[..r.value]
  {
    if header == [] then None
    else if header[0] == name then Some(0)
    else
      match Find(header[1..], name)
      case None => None
      case Some(i) => assert header[1..][..i] == header[1..i + 1]; Some(i + 1)
  }

  /** `df[name]` followed by `pd.to_numeric`: the column's position when
      the header names it once, a `KeyError` when it does not name it, and a
      `TypeError` when it names it twice (the lookup then yields a frame,
      which `to_numeric` refuses). */
  function ColumnIndex(header: Row, name: string): (r: Result<nat>)
    ensures r.Ok? ==>
      && r.value < |header| && header[r.value] == name
      && forall k :: 0 <= k < |header| && k != r.value ==> header[k] != name
    ensures r == Err(KeyError) <==> name !in header
    ensures r == Err(TypeError) <==> exists i, j :: 0 <= i < j < |header| && header[i] == name && header[j] == name
    ensures r.Ok? || r == Err(KeyError) || r == Err(TypeError)
  {
    match Find(header, name)
    case None => Err(KeyError)
    case Some(i) =>
      if name in header[i + 1..] then
        var j :| i + 1 <= j < |header| && header[j] == name;
        Err(TypeError)
      else
        assert forall k :: i < k < |header| ==> header[k] == header[i + 1..][k - i - 1];
        assert forall k :: 0 <= k < i ==> header[k] == header[..i][k];
        Ok(i)
  }

  /** One cell after `pd.to_numeric(..., errors="coerce")`: the converted
      field, or NaN (here `None`) when the text does not convert or the row
      is too short and was padded by the frame. */
  function Numeric(row: Row, col: nat, parse: Parser): Option<real>
  {
    if col < |row| then parse(row[col]) else None
  }

  /** The rows `dropna` keeps: those whose reading and time both convert,
      in their original order. */
  function Kept(data: seq<Row>, ri: nat, ti: nat, parse: Parser): (kept: seq<nat>)
    ensures forall k :: 0 <= k < |kept| ==> kept[k] < |data|
    ensures forall k, l :: 0 <= k < l < |kept| ==> kept[k] < kept[l]
    ensures forall j :: 0 <= j < |data| ==>
      (j in kept <==> Numeric(data[j], ri, parse).Some? && Numeric(data[j], ti, parse).Some?)
  {
    if data == [] then []
    else
      var n := |data| - 1;
      var front := Kept(data[..n], ri, ti, parse);
      assert forall j :: 0 <= j < n ==> data[..n][j] == data[j];
      if Numeric(data[n], ri, parse).Some? && Numeric(data[n], ti, parse).Some? then front + [n] else front
  }

  /** `gather_data` once the rows are split: both parts need a header row,
      the table body must be as wide as its header, both columns must be
      named once, and the surviving rows give the time series and the
      offset readings. */
  function Table(twoCol: seq<Row>, rest: seq<Row>, readingName: string, timeName: string,
                 offset: real, parse: Parser): Result<(seq<real>, seq<real>)>
  {
    if twoCol == [] || rest == [] then Err(IndexError)
    else
      var header, data := rest[0], rest[1..];
      if data != [] && MaxWidth(data) != |header| then Err(ValueError)
      else
        match ColumnIndex(header, readingName)
        case Err(e) => Err(e)
        case Ok(ri) =>
          match ColumnIndex(header, timeName)
          case Err(e) => Err(e)
          case Ok(ti) =>
            var kept := Kept(data, ri, ti, parse);
            Ok((seq(|kept|, k requires 0 <= k < |kept| => Numeric(data[kept[k]], ti, parse).value),
                seq(|kept|, k requires 0 <= k < |kept| => Numeric(data[kept[k]], ri, parse).value + offset)))
  }

  /** `gather_data(...)` on a file given as its csv rows; `fileExists`
      stands for the `os.path.isfile` test. */
  method GatherData(fileExists: bool, rows: seq<Row>, readingName: string, timeName: string,
                    offset: real, parse: Parser)
    returns (r: Result<(seq<real>, seq<real>)>)
    ensures !fileExists ==> r == Err(ReturnedNone)
    ensures fileExists ==> r == Table(rows[..TwoColumnPrefix(rows)], rows[TwoColumnPrefix(rows)..],
                                      readingName, timeName, offset, parse)
  {
    if !fileExists {
      return Err(ReturnedNone);
    }
    var twoCol, rest := SplitAtWidthChange(rows);
    StickySplitUnique(rows, twoCol, rest);
    r := Table(twoCol, rest, readingName, timeName, offset, parse);
  }

  // ---------------------------------------------------------------------
  // What the reader promises

  /** A file without a settings block or without a table (no two-field
      rows first, or nothing after them) takes the error path. */
  lemma MissingPartFails(rows: seq<Row>, readingName: string, timeName: string, offset: real, parse: Parser)
    requires rows == [] || |rows[0]| != 2 || forall k :: 0 <= k < |rows| ==> |rows[k]| == 2
    ensures Table(rows[..TwoColumnPrefix(rows)], rows[TwoColumnPrefix(rows)..],
                  readingName, timeName, offset, parse) == Err(IndexError)
  {
    var n := TwoColumnPrefix(rows);
    if rows != [] && |rows[0]| == 2 {
      assert forall k :: 0 <= k < |rows| ==> |rows[k]| == 2;
      assert n == |rows|;
    }
  }

  /** The two series are aligned: entry `k` of both comes from the same
      table row, the time as converted and the reading converted plus the
      offset; the rows used are in table order and are exactly the rows
      where both fields convert. */
  lemma TableAligned(twoCol: seq<Row>, rest: seq<Row>, readingName: string, timeName: string,
                     offset: real, parse: Parser)
    requires Table(twoCol, rest, readingName, timeName, offset, parse).Ok?
    ensures rest != [] && ColumnIndex(rest[0], readingName).Ok? && ColumnIndex(rest[0], timeName).Ok?
    ensures var (time, readings) := Table(twoCol, rest, readingName, timeName, offset, parse).value;
      var data, ri, ti := rest[1..], ColumnIndex(rest[0], readingName).value, ColumnIndex(rest[0], timeName).value;
      var kept := Kept(data, ri, ti, parse);
      && |time| == |readings| == |kept|
      && (forall k :: 0 <= k < |kept| ==>
            && Numeric(data[kept[k]], ti, parse) == Some(time[k])
            && Numeric(data[kept[k]], ri, parse) == Some(readings[k] - offset))
      && (forall j :: 0 <= j < |data| ==>
            (j in kept <==> Numeric(data[j], ri, parse).Some? && Numeric(data[j], ti, parse).Some?))
  {
  }
}
