/** The VK-X150 height-map reader, `heightmap`. The microscope's export has a
    block of metadata rows, then a marker row ("Height:" by default), then
    the height table. The reader checks the smoothing method, splits the rows
    at the marker, converts the table dropping blank fields, moves the map so
    that its lowest point is zero, clamps the number of smoothing passes, and
    writes the final map back out as comma-terminated text rows. */
module Vkx150 {
  import opened Common

  type Row = seq<string>

  /** The smoothing methods `heightmap` accepts. */
  const ValidMethods: set<string> := {"gaussian", "median", "bilateral"}

  // ---------------------------------------------------------------------
  // The marker split

  /** A row is the marker when its fields, run together, start with the flag. */
  predicate Marks(row: Row, flag: string)
  {
    StartsWith(Concat(row), flag)
  }

  /** The position of the first marker row, if there is one. */
  function FirstMarker(rows: seq<Row>, flag: string): (m: Option<nat>)
    ensures m.None? <==> forall k :: 0 <= k < |rows| ==> !Marks(rows[k], flag)
    ensures m.Some? ==>
      && m.value < |rows| && Marks(rows[m.value], flag)
      && forall k :: 0 <= k < m.value ==> !Marks(rows[k], flag)
  {
    if rows == [] then None
    else if Marks(rows[0], flag) then Some(0)
    else
      match FirstMarker(rows[1..], flag)
      case None => None
      case Some(i) => Some(i + 1)
  }

  /** What the split into `garbage` and `heights` must satisfy: the parts
      concatenate to the rows, no row of `garbage` before its last is a
      marker, and either that last row is the marker or there is no marker
      at all and `heights` is empty. */
  ghost predicate MarkerSplit(rows: seq<Row>, flag: string, garbage: seq<Row>, heights: seq<Row>)
  {
    && garbage + heights == rows
    && (forall k :: 0 <= k < |garbage| - 1 ==> !Marks(garbage[k], flag))
    && ((garbage != [] && Marks(garbage[|garbage| - 1], flag))
        || (heights == [] && forall k :: 0 <= k < |garbage| ==> !Marks(garbage[k], flag)))
  }

  /** The `switch_found` loop: rows up to and including the first marker
      are metadata, every later row is height data. */
  method SplitAtMarker(rows: seq<Row>, flag: string) returns (garbage: seq<Row>, heights: seq<Row>)
    ensures MarkerSplit(rows, flag, garbage, heights)
  {
    garbage, heights := [], [];
    var switchFound := false;
    for i := 0 to |rows|
      invariant garbage + heights == rows[..i]
      invariant forall k :: 0 <= k < |garbage| - 1 ==> !Marks(garbage[k], flag)
      invariant !switchFound ==> heights == [] && forall k :: 0 <= k < |garbage| ==> !Marks(garbage[k], flag)
      invariant switchFound ==> garbage != [] && Marks(garbage[|garbage| - 1], flag)
    {
      if !switchFound {
        if StartsWith(Concat(rows[i]), flag) {
          switchFound := true;
        }
        garbage := garbage + [rows[i]];
        continue;
      }
      heights := heights + [rows[i]];
    }
    assert rows[..|rows|] == rows;
  }

  /** Where the split cuts: just after the first marker, or at the end. */
  function Cut(rows: seq<Row>, flag: string): (n: nat)
    ensures n <= |rows|
  {
    match FirstMarker(rows, flag)
    case None => |rows|
    case Some(m) => m + 1
  }

  /** The split is unique, so the loop cuts exactly after the first marker. */
  lemma MarkerSplitUnique(rows: seq<Row>, flag: string, garbage: seq<Row>, heights: seq<Row>)
    requires MarkerSplit(rows, flag, garbage, heights)
    ensures garbage == rows[..Cut(rows, flag)] && heights == rows[Cut(rows, flag)..]
  {
    var n := Cut(rows, flag);
    assert forall k :: 0 <= k < |garbage| ==> rows[k] == garbage[k];
    if |garbage| < n {
      assert false;
    }
    if n < |garbage| {
      assert false;
    }
    assert garbage == (garbage + heights)[..n];
  }

  // ---------------------------------------------------------------------
  // Converting the height table

  /** The fields of a row that are not blank, in order. */
  function NonBlank(row: Row): (fields: Row)
    ensures forall f :: f in fields <==> f in row && !IsBlank(f)
    ensures |fields| <= |row|
  {
    if row == [] then []
    else (if IsBlank(row[0]) then [] else [row[0]]) + NonBlank(row[1..])
  }

  /** A single field is kept once when it is not blank and dropped when it
      is. */
  lemma NonBlankOne(f: string)
    ensures NonBlank([f]) == if IsBlank(f) then [] else [f]
  {
    assert [f][1..] == [];
  }

  /** The filter works field by field: the kept fields of two stretches of
      a row are those of the first followed by those of the second, so the
      kept fields appear in row order, each once. */
  lemma {:induction false} NonBlankAppend(a: Row, b: Row)
    ensures NonBlank(a + b) == NonBlank(a) + NonBlank(b)
    decreases |a|
  {
    if a == [] {
      assert a + b == b;
    } else {
      assert (a + b)[0] == a[0];
      assert (a + b)[1..] == a[1..] + b;
      NonBlankAppend(a[1..], b);
    }
  }

  predicate AllConvert(fields: Row, parse: Parser)
  {
    forall k :: 0 <= k < |fields| ==> parse(fields[k]).Some?
  }

  /** `[float(value) for value in row if value.strip() != '']`: one number
      per non-blank field, in order, or a failure when one does not convert. */
  function ConvertRow(row: Row, parse: Parser): (r: Option<seq<real>>)
    ensures r.Some? <==> AllConvert(NonBlank(row), parse)
    ensures r.Some? ==>
      && |r.value| == |NonBlank(row)|
      && forall k :: 0 <= k < |r.value| ==> parse(NonBlank(row)[k]) == Some(r.value[k])
  {
    var fields := NonBlank(row);
    if AllConvert(fields, parse) then
      Some(seq(|fields|, k requires 0 <= k < |fields| => parse(fields[k]).value))
    else None
  }

  /** Every value of the map, row by row. */
  function Flatten(m: seq<seq<real>>): (values: seq<real>)
  {
    if m == [] then [] else m[0] + Flatten(m[1..])
  }

  /** All rows have the same width, so numpy can make one array of them. */
  predicate Rectangular(m: seq<seq<real>>)
  {
    forall i, j :: 0 <= i < |m| && 0 <= j < |m| ==> |m[i]| == |m[j]|
  }

  function Min(s: seq<real>): (m: real)
    requires |s| > 0
    ensures forall k :: 0 <= k < |s| ==> m <= s[k]
    ensures exists k :: 0 <= k < |s| && m == s[k]
  {
    if |s| == 1 then s[0]
    else
      var m := Min(s[..|s| - 1]);
      assert forall k :: 0 <= k < |s| - 1 ==> s[..|s| - 1][k] == s[k];
      if s[|s| - 1] < m then s[|s| - 1] else m
  }

  function Shift(row: seq<real>, amount: real): (r: seq<real>)
    ensures |r| == |row|
  {
    seq(|row|, k requires 0 <= k < |row| => row[k] - amount)
  }

  /** The map moved down so that its lowest value is zero. */
  function Normalised(m: seq<seq<real>>): (r: seq<seq<real>>)
    requires |Flatten(m)| > 0
  {
    ShiftAll(m, Min(Flatten(m)))
  }

  /** The converted table, when every row converts. */
  function ConvertAll(rows: seq<Row>, parse: Parser): (r: Option<seq<seq<real>>>)
    ensures r.Some? <==> forall i :: 0 <= i < |rows| ==> ConvertRow(rows[i], parse).Some?
    ensures r.Some? ==>
      && |r.value| == |rows|
      && forall i :: 0 <= i < |rows| ==> r.value[i] == ConvertRow(rows[i], parse).value
  {
    if forall i :: 0 <= i < |rows| ==> ConvertRow(rows[i], parse).Some? then
      Some(seq(|rows|, i requires 0 <= i < |rows| => ConvertRow(rows[i], parse).value))
    else None
  }

  /** What the conversion and the two shifts produce: a `ValueError` when a
      field does not convert, when the rows differ in width (`np.average`
      refuses a ragged list) or when there is no value at all (`np.amin`
      refuses an empty array); the normalised map otherwise. */
  function Heights(rows: seq<Row>, parse: Parser): Result<seq<seq<real>>>
  {
    match ConvertAll(rows, parse)
    case None => Err(ValueError)
    case Some(m) =>
      if !Rectangular(m) || |Flatten(m)| == 0 then Err(ValueError) else Ok(Normalised(m))
  }

  /** The conversion pass: `heights[i]` becomes the numbers of row `i`;
      the first row that does not convert raises `ValueError`. */
  method ConvertRows(heights: array<seq<real>>, rows: seq<Row>, parse: Parser) returns (ok: bool)
    requires heights.Length == |rows|
    modifies heights
    ensures ok <==> ConvertAll(rows, parse).Some?
    ensures ok ==> heights[..] == ConvertAll(rows, parse).value
  {
    for i := 0 to |rows|
      invariant forall k :: 0 <= k < i ==> ConvertRow(rows[k], parse).Some?
      invariant forall k :: 0 <= k < i ==> heights[k] == ConvertRow(rows[k], parse).value
    {
      var converted := ConvertRow(rows[i], parse);
      if converted.None? {
        return false;
      }
      heights[i] := converted.value;
    }
    return true;
  }

  /** A shift pass: every value of every row moves down by `amount`. */
  method ShiftRows(heights: array<seq<real>>, amount: real)
    modifies heights
    ensures forall k :: 0 <= k < heights.Length ==> heights[k] == Shift(old(heights[k]), amount)
  {
    for i := 0 to heights.Length
      invariant forall k :: 0 <= k < i ==> heights[k] == Shift(old(heights[k]), amount)
      invariant forall k :: i <= k < heights.Length ==> heights[k] == old(heights[k])
    {
      heights[i] := Shift(heights[i], amount);
    }
  }

  /** The three passes over `heights`: convert each row in place, subtract
      the average height from every value, then subtract the new minimum. */
  method LoadHeights(rows: seq<Row>, parse: Parser) returns (r: Result<seq<seq<real>>>)
    ensures r == Heights(rows, parse)
  {
    var heights := new seq<real>[|rows|];
    var ok := ConvertRows(heights, rows, parse);
    if !ok {
      return Err(ValueError);
    }
    ghost var m := heights[..];
    if !Rectangular(heights[..]) {
      return Err(ValueError);
    }
    if |Flatten(heights[..])| == 0 {
      // np.average yields NaN here, the shift has nothing to move, and
      // np.amin of the empty array raises.
      return Err(ValueError);
    }

    var avgHeight := Mean(Flatten(heights[..]));
    ShiftRows(heights, avgHeight);
    ghost var moved := heights[..];
    assert moved == ShiftAll(m, avgHeight);
    TwoShifts(m, avgHeight);

    var minHeight := Min(Flatten(heights[..]));
    ShiftRows(heights, minHeight);
    assert heights[..] == ShiftAll(moved, minHeight);
    return Ok(heights[..]);
  }

  function ShiftAll(m: seq<seq<real>>, amount: real): (r: seq<seq<real>>)
    ensures |r| == |m|
  {
    seq(|m|, i requires 0 <= i < |m| => Shift(m[i], amount))
  }

  /** Shifting by any amount and then by the new minimum is shifting by
      the original minimum. */
  lemma TwoShifts(m: seq<seq<real>>, amount: real)
    requires |Flatten(m)| > 0
    ensures |Flatten(ShiftAll(m, amount))| > 0
    ensures ShiftAll(ShiftAll(m, amount), Min(Flatten(ShiftAll(m, amount)))) == Normalised(m)
  {
    var moved := ShiftAll(m, amount);
    FlattenShift(m, amount);
    MinShift(Flatten(m), amount);
    var low := Min(Flatten(moved));
    forall i | 0 <= i < |m| ensures Shift(moved[i], low) == Normalised(m)[i] {
      assert Shift(Shift(m[i], amount), low) == Shift(m[i], amount + low);
    }
  }

  lemma {:induction false} FlattenShift(m: seq<seq<real>>, amount: real)
    ensures Flatten(ShiftAll(m, amount)) == Shift(Flatten(m), amount)
    decreases |m|
  {
    var sm := ShiftAll(m, amount);
    if m != [] {
      FlattenShift(m[1..], amount);
      assert sm[1..] == ShiftAll(m[1..], amount);
      assert Shift(Flatten(m), amount) == Shift(m[0], amount) + Shift(Flatten(m[1..]), amount);
    }
  }

  /** Moving every value by the same amount moves the minimum by it too. */
  lemma MinShift(s: seq<real>, amount: real)
    requires |s| > 0
    ensures Min(Shift(s, amount)) == Min(s) - amount
  {
    var t := Shift(s, amount);
    var k :| 0 <= k < |s| && Min(s) == s[k];
    var j :| 0 <= j < |t| && Min(t) == t[j];
    assert Min(t) <= t[k];
    assert Min(s) <= s[j];
  }

  // ---------------------------------------------------------------------
  // What the normalisation promises

  lemma {:induction false} FlattenIndex(m: seq<seq<real>>, i: nat, k: nat)
    requires i < |m| && k < |m[i]|
    ensures m[i][k] in Flatten(m)
    decreases i
  {
    if i > 0 {
      FlattenIndex(m[1..], i - 1, k);
    }
  }

  /** After normalisation every height is its original value less the
      lowest original value, none is negative, and the lowest is zero. */
  lemma NormalisedFloor(m: seq<seq<real>>)
    requires |Flatten(m)| > 0
    ensures |Flatten(Normalised(m))| == |Flatten(m)|
    ensures var r := Normalised(m);
      && |r| == |m|
      && (forall i :: 0 <= i < |m| ==> |r[i]| == |m[i]|)
      && (forall i, k :: 0 <= i < |m| && 0 <= k < |m[i]| ==> r[i][k] == m[i][k] - Min(Flatten(m)) && r[i][k] >= 0.0)
      && Min(Flatten(r)) == 0.0
  {
    var r := Normalised(m);
    forall i, k | 0 <= i < |m| && 0 <= k < |m[i]| ensures r[i][k] >= 0.0 {
      FlattenIndex(m, i, k);
    }
    FlattenShift(m, Min(Flatten(m)));
    MinShift(Flatten(m), Min(Flatten(m)));
  }

  /** Normalising a normalised map changes nothing, so the final
      `height_matrix -= np.amin(height_matrix)` is the identity on a map no
      filter has touched. */
  lemma NormalisedIdempotent(m: seq<seq<real>>)
    requires |Flatten(m)| > 0
    ensures |Flatten(Normalised(m))| > 0
    ensures Normalised(Normalised(m)) == Normalised(m)
  {
    var r := Normalised(m);
    FlattenShift(m, Min(Flatten(m)));
    MinShift(Flatten(m), Min(Flatten(m)));
    assert Min(Flatten(r)) == 0.0;
    forall i | 0 <= i < |r| ensures Shift(r[i], 0.0) == r[i] {
    }
  }

  // ---------------------------------------------------------------------
  // The entry point

  /** `max(0, iterations)`: the number of smoothing passes. */
  function ClampIterations(iterations: int): (passes: nat)
    ensures passes >= iterations
    ensures passes == iterations || passes == 0
  {
    if iterations < 0 then 0 else iterations
  }

  /** `heightmap` up to the tilt correction: the method is checked before
      the file is looked at, a missing file returns `None`, and otherwise
      the rows after the marker become the normalised height map. */
  method Heightmap(smoothing: string, fileExists: bool, rows: seq<Row>, flag: string, parse: Parser)
    returns (r: Result<seq<seq<real>>>)
    ensures smoothing !in ValidMethods ==> r == Err(ValueError)
    ensures smoothing in ValidMethods && !fileExists ==> r == Err(ReturnedNone)
    ensures smoothing in ValidMethods && fileExists ==> r == Heights(rows[Cut(rows, flag)..], parse)
  {
    if smoothing !in ValidMethods {
      return Err(ValueError);
    }
    if !fileExists {
      return Err(ReturnedNone);
    }
    var garbage, heights := SplitAtMarker(rows, flag);
    MarkerSplitUnique(rows, flag, garbage, heights);
    r := LoadHeights(heights, parse);
  }

  // ---------------------------------------------------------------------
  // Writing the map

  /** One written row: every value followed by a comma. */
  function RowText(row: seq<real>, fmt: real -> string): string
  {
    Terminated(seq(|row|, k requires 0 <= k < |row| => fmt(row[k])), ',')
  }

  /** The writing loop, with `fmt` standing for `f"{val}"`. Since `i` never
      reaches `len(row)`, every value is written with its trailing comma;
      each row ends with a newline. */
  method WriteHeights(m: seq<seq<real>>, fmt: real -> string) returns (text: string)
    ensures text == Terminated(seq(|m|, i requires 0 <= i < |m| => RowText(m[i], fmt)), '\n')
  {
    text := [];
    for i := 0 to |m|
      invariant text == Terminated(seq(i, j requires 0 <= j < i => RowText(m[j], fmt)), '\n')
    {
      var row := m[i];
      var line := [];
      for k := 0 to |row|
        invariant line == Terminated(seq(k, j requires 0 <= j < k => fmt(row[j])), ',')
      {
        TerminatedAppend(seq(k, j requires 0 <= j < k => fmt(row[j])), fmt(row[k]), ',');
        assert seq(k + 1, j requires 0 <= j < k + 1 => fmt(row[j]))
            == seq(k, j requires 0 <= j < k => fmt(row[j])) + [fmt(row[k])];
        line := line + fmt(row[k]) + ",";
      }
      assert seq(|row|, j requires 0 <= j < |row| => fmt(row[j])) == seq(|row|, k requires 0 <= k < |row| => fmt(row[k]));
      TerminatedAppend(seq(i, j requires 0 <= j < i => RowText(m[j], fmt)), line, '\n');
      assert seq(i + 1, j requires 0 <= j < i + 1 => RowText(m[j], fmt))
          == seq(i, j requires 0 <= j < i => RowText(m[j], fmt)) + [RowText(m[i], fmt)];
      text := text + line + "\n";
    }
  }

  /** Reading the written text back: split at newlines it gives one line per
      row and a final empty string, and each line split at commas gives the
      row's formatted values and a final empty field, provided no formatted
      value holds a comma or a newline. */
  lemma WrittenTextSplits(m: seq<seq<real>>, fmt: real -> string)
    requires forall x :: ',' !in fmt(x) && '\n' !in fmt(x)
    ensures var lines := seq(|m|, i requires 0 <= i < |m| => RowText(m[i], fmt));
      && Split(Terminated(lines, '\n'), '\n') == lines + [[]]
      && forall i :: 0 <= i < |m| ==>
           Split(lines[i], ',') == seq(|m[i]|, k requires 0 <= k < |m[i]| => fmt(m[i][k])) + [[]]
  {
    var lines := seq(|m|, i requires 0 <= i < |m| => RowText(m[i], fmt));
    forall i | 0 <= i < |m|
      ensures '\n' !in lines[i]
      ensures Split(lines[i], ',') == seq(|m[i]|, k requires 0 <= k < |m[i]| => fmt(m[i][k])) + [[]]
    {
      var fields := seq(|m[i]|, k requires 0 <= k < |m[i]| => fmt(m[i][k]));
      forall k | 0 <= k < |fields| ensures ',' !in fields[k] && '\n' !in fields[k] {
        var x := m[i][k];
        assert fields[k] == fmt(x);
      }
      TerminatedChars(fields, ',', '\n');
      TerminatedSplit(fields, ',');
    }
    TerminatedSplit(lines, '\n');
  }
}
