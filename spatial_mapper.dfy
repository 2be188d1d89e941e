/** The spatial averaging mapper, `average_voltage_analysis`: it takes the
    plateau averages of one experiment, pops the first and last values off
    the caller's list as the two boundary columns, lays the next 25 values
    into a 5 x 7 grid (row-major for the top "T" sensor, transposed and
    then rotated for the bottom "B" sensor) and reduces the grid to one mean
    and one spread per position. */
module SpatialMapper {
  import opened Common

  /** The positions of the top sensor's columns. */
  const TPositions: seq<real> := [0.0, 0.5, 1.0, 1.5, 2.0, 2.5, 3.0]

  /** The positions used for the bottom sensor, and for any other orientation. */
  const BPositions: seq<real> := [2.5, 2.0, 1.5, 1.0, 0.5]

  /** The caller's list of plateau averages, which the mapper shortens in place. */
  class ValueList {
    var items: seq<real>

    constructor (items: seq<real>)
      ensures this.items == items
    {
      this.items := items;
    }
  }

  /** What the mapper returns: `(pos, V_avg_map, V_avg_column, V_std_column)`,
      with the spread held as the population variance (the square of
      `np.std`). */
  datatype Analysis = Analysis(pos: seq<real>, grid: seq<seq<real>>, means: seq<real>, variances: seq<real>)

  predicate IsGrid(m: seq<seq<real>>, rows: nat, cols: nat)
  {
    |m| == rows && forall r :: 0 <= r < rows ==> |m[r]| == cols
  }

  // ---------------------------------------------------------------------
  // The reference layout

  /** The index into the shortened list that the fill loop writes into cell
      `(r, c)` of the 5 x 7 grid, or -1 when it writes nothing there. The
      "T" loop writes value `5i + j` to `(i, j + 1)`; every other
      orientation writes it to `(j, i)`. */
  function Slot(orientation: string, r: nat, c: nat): int
  {
    if orientation == "T" then (if 1 <= c <= 5 then 5 * r + c - 1 else -1)
    else (if c < 5 then 5 * c + r else -1)
  }

  /** A cell before the fill loop: the first value down column 0, the last
      value down column 6, zero elsewhere. */
  function Initial(first: real, last: real, c: nat): real
  {
    if c == 0 then first else if c == 6 then last else 0.0
  }

  /** The 5 x 7 grid after the fill loop over the shortened list `inner`. */
  function Placed(inner: seq<real>, first: real, last: real, orientation: string): (m: seq<seq<real>>)
    requires |inner| >= 25
    ensures IsGrid(m, 5, 7)
  {
    seq(5, r requires 0 <= r < 5 => seq(7, c requires 0 <= c < 7 =>
      var k := Slot(orientation, r, c);
      if 0 <= k < 25 then inner[k] else Initial(first, last, c)))
  }

  /** `np.rot90`: a quarter turn counter-clockwise, so row `i` of the result
      is column `cols - 1 - i` of `m`, read top to bottom. */
  function Rot90(m: seq<seq<real>>, rows: nat, cols: nat): (out: seq<seq<real>>)
    requires IsGrid(m, rows, cols)
    ensures IsGrid(out, cols, rows)
  {
    seq(cols, i requires 0 <= i < cols => seq(rows, j requires 0 <= j < rows => m[j][cols - 1 - i]))
  }

  function Column(m: seq<seq<real>>, rows: nat, cols: nat, c: nat): (col: seq<real>)
    requires IsGrid(m, rows, cols) && c < cols
    ensures |col| == rows
  {
    seq(rows, r requires 0 <= r < rows => m[r][c])
  }

  /** The population variance, `np.std(s) ** 2`. */
  function Variance(s: seq<real>): real
    requires |s| > 0
  {
    var mu := Mean(s);
    Mean(seq(|s|, k requires 0 <= k < |s| => (s[k] - mu) * (s[k] - mu)))
  }

  /** The final map: the filled grid, turned for "B". */
  function FinalGrid(inner: seq<real>, first: real, last: real, orientation: string): (m: seq<seq<real>>)
    requires |inner| >= 25
  {
    var placed := Placed(inner, first, last, orientation);
    if orientation == "B" then Rot90(placed, 5, 7) else placed
  }

  /** The seven statistics lines: per column of the "T" map, per row of the
      turned "B" map, and none (all zero) for any other orientation. */
  function Lines(m: seq<seq<real>>, orientation: string): (lines: seq<seq<real>>)
    requires orientation == "T" ==> IsGrid(m, 5, 7)
    requires orientation == "B" ==> IsGrid(m, 7, 5)
    ensures |lines| == 7 && forall i :: 0 <= i < 7 ==> |lines[i]| > 0
  {
    seq(7, i requires 0 <= i < 7 =>
      if orientation == "T" then Column(m, 5, 7, i)
      else if orientation == "B" then m[i]
      else [0.0])
  }

  function MeansOf(m: seq<seq<real>>, orientation: string): seq<real>
    requires orientation == "T" ==> IsGrid(m, 5, 7)
    requires orientation == "B" ==> IsGrid(m, 7, 5)
  {
    var lines := Lines(m, orientation);
    seq(7, i requires 0 <= i < 7 => if orientation == "T" || orientation == "B" then Mean(lines[i]) else 0.0)
  }

  function VariancesOf(m: seq<seq<real>>, orientation: string): seq<real>
    requires orientation == "T" ==> IsGrid(m, 5, 7)
    requires orientation == "B" ==> IsGrid(m, 7, 5)
  {
    var lines := Lines(m, orientation);
    seq(7, i requires 0 <= i < 7 => if orientation == "T" || orientation == "B" then Variance(lines[i]) else 0.0)
  }

  /** What `average_voltage_analysis(values, orientation)` returns: an
      `IndexError` for fewer than 27 values, the analysis otherwise. */
  function Analyze(values: seq<real>, orientation: string): Result<Analysis>
  {
    if |values| < 27 then Err(IndexError)
    else
      var inner := values[1..|values| - 1];
      var m := FinalGrid(inner, values[0], values[|values| - 1], orientation);
      Ok(Analysis(if orientation == "T" then TPositions else BPositions,
                  m, MeansOf(m, orientation), VariancesOf(m, orientation)))
  }

  // ---------------------------------------------------------------------
  // The mapper, statement for statement

  /** The 5 x 7 array before the fill loop's write number `count`: the
      cells written so far hold their values, the rest their initial ones. */
  ghost predicate FilledUpTo(grid: array2<real>, inner: seq<real>, first: real, last: real,
                             orientation: string, count: nat)
    reads grid
    requires grid.Length0 == 5 && grid.Length1 == 7
  {
    forall r, c :: 0 <= r < 5 && 0 <= c < 7 ==>
      grid[r, c] == (var k := Slot(orientation, r, c);
                     if 0 <= k < count && k < |inner| then inner[k] else Initial(first, last, c))
  }

  /** The fill loop: value `count = 5i + j` of the shortened list goes to
      `(i, j + 1)` for "T" and to `(j, i)` otherwise. Fails with an
      `IndexError` when the list runs out first. */
  method Fill(grid: array2<real>, inner: seq<real>, first: real, last: real, orientation: string)
    returns (ok: bool)
    requires grid.Length0 == 5 && grid.Length1 == 7
    requires FilledUpTo(grid, inner, first, last, orientation, 0)
    modifies grid
    ensures ok <==> |inner| >= 25
    ensures ok ==> FilledUpTo(grid, inner, first, last, orientation, 25)
  {
    var count := 0;
    for i := 0 to 5
      invariant count == 5 * i && count <= |inner|
      invariant FilledUpTo(grid, inner, first, last, orientation, count)
    {
      for j := 0 to 5
        invariant count == 5 * i + j && count <= |inner|
        invariant FilledUpTo(grid, inner, first, last, orientation, count)
      {
        if count >= |inner| {
          return false;
        }
        var row := if orientation == "T" then i else j;
        var col := if orientation == "T" then j + 1 else i;
        grid[row, col] := inner[count];
        count := count + 1;
      }
    }
    return true;
  }

  /** The values of a 5 x 7 array, row by row. */
  function Contents(grid: array2<real>): (m: seq<seq<real>>)
    reads grid
    requires grid.Length0 == 5 && grid.Length1 == 7
    ensures IsGrid(m, 5, 7)
  {
    seq(5, row requires 0 <= row < 5 reads grid =>
      seq(7, col requires 0 <= col < 7 reads grid => grid[row, col]))
  }

  /** A completed fill holds exactly the reference layout. */
  lemma PlacedContents(grid: array2<real>, inner: seq<real>, first: real, last: real, orientation: string)
    requires grid.Length0 == 5 && grid.Length1 == 7 && |inner| >= 25
    requires FilledUpTo(grid, inner, first, last, orientation, 25)
    ensures Contents(grid) == Placed(inner, first, last, orientation)
  {
    var m, p := Contents(grid), Placed(inner, first, last, orientation);
    forall r | 0 <= r < 5 ensures m[r] == p[r] {
      forall c | 0 <= c < 7 ensures m[r][c] == p[r][c] {
      }
    }
  }

  /** The statistics loop: entry `i` of both arrays is filled from line `i`
      for "T" and "B"; for any other orientation both stay zero. */
  method LineStats(m: seq<seq<real>>, orientation: string) returns (means: seq<real>, variances: seq<real>)
    requires orientation == "T" ==> IsGrid(m, 5, 7)
    requires orientation == "B" ==> IsGrid(m, 7, 5)
    ensures means == MeansOf(m, orientation)
    ensures variances == VariancesOf(m, orientation)
  {
    var meanColumn := new real[7](_ => 0.0);
    var stdColumn := new real[7](_ => 0.0);
    for i := 0 to 7
      invariant forall k :: 0 <= k < i ==> meanColumn[k] == MeansOf(m, orientation)[k]
      invariant forall k :: 0 <= k < i ==> stdColumn[k] == VariancesOf(m, orientation)[k]
      invariant forall k :: i <= k < 7 ==> meanColumn[k] == 0.0 && stdColumn[k] == 0.0
    {
      if orientation == "T" {
        meanColumn[i] := Mean(Column(m, 5, 7, i));
        stdColumn[i] := Variance(Column(m, 5, 7, i));
      } else if orientation == "B" {
        meanColumn[i] := Mean(m[i]);
        stdColumn[i] := Variance(m[i]);
      }
    }
    means, variances := meanColumn[..], stdColumn[..];
  }

  /** `average_voltage_analysis(v_avg, V_to_check)`. The caller's list loses
      its first value, then its last value, before the fill loop reads it;
      a list too short for either read, or for the 25 grid values, raises
      `IndexError` with whatever pops had already happened. */
  method AverageVoltageAnalysis(v: ValueList, orientation: string) returns (r: Result<Analysis>)
    modifies v
    ensures r == Analyze(old(v.items), orientation)
    ensures |old(v.items)| < 2 ==> v.items == []
    ensures |old(v.items)| >= 2 ==> v.items == old(v.items)[1..|old(v.items)| - 1]
  {
    var pos := if orientation == "T" then TPositions else BPositions;
    if |v.items| == 0 {
      return Err(IndexError);
    }
    var first := v.items[0];
    v.items := v.items[1..];
    if |v.items| == 0 {
      return Err(IndexError);
    }
    var last := v.items[|v.items| - 1];
    v.items := v.items[..|v.items| - 1];
    assert v.items == old(v.items)[1..|old(v.items)| - 1];

    var grid := new real[5, 7]((_, _) => 0.0);
    forall row | 0 <= row < 5 {
      grid[row, 0] := first;
    }
    forall row | 0 <= row < 5 {
      grid[row, 6] := last;
    }
    var ok := Fill(grid, v.items, first, last, orientation);
    if !ok {
      return Err(IndexError);
    }

    var m := Contents(grid);
    PlacedContents(grid, v.items, first, last, orientation);
    if orientation == "B" {
      m := Rot90(m, 5, 7);
    }

    var means, variances := LineStats(m, orientation);
    r := Ok(Analysis(pos, m, means, variances));
  }

  // ---------------------------------------------------------------------
  // Statistics

  lemma {:induction false} SumNonNegative(s: seq<real>)
    requires forall k :: 0 <= k < |s| ==> s[k] >= 0.0
    ensures Sum(s) >= 0.0
    decreases |s|
  {
    if s != [] {
      SumNonNegative(s[..|s| - 1]);
    }
  }

  /** A line holding one value throughout has that value as its mean and
      no spread. */
  lemma ConstantLine(s: seq<real>, x: real)
    requires |s| > 0 && forall k :: 0 <= k < |s| ==> s[k] == x
    ensures Mean(s) == x
    ensures Variance(s) == 0.0
  {
    SumConstant(s, x);
    var n := |s| as real;
    assert Mean(s) == n * x / n == x;
    var sq := seq(|s|, k requires 0 <= k < |s| => (s[k] - x) * (s[k] - x));
    SumConstant(sq, 0.0);
  }

  /** The spread is never negative. */
  lemma VarianceNonNegative(s: seq<real>)
    requires |s| > 0
    ensures Variance(s) >= 0.0
  {
    var mu := Mean(s);
    var sq := seq(|s|, k requires 0 <= k < |s| => (s[k] - mu) * (s[k] - mu));
    SumNonNegative(sq);
  }

  // ---------------------------------------------------------------------
  // What the mapper promises

  /** Fewer than 27 values raise `IndexError`; 27 or more always give a map. */
  lemma ShortListFails(values: seq<real>, orientation: string)
    ensures Analyze(values, orientation).Err? <==> |values| < 27
    ensures Analyze(values, orientation).Err? ==> Analyze(values, orientation).error == IndexError
  {
  }

  /** The top-sensor layout: every row starts with the first value and ends
      with the last, the 25 values after the first fill the rows in
      reading order, and the statistics are taken per column, so the two
      boundary columns have the boundary values as means and no spread. */
  lemma TopLayout(values: seq<real>)
    requires |values| >= 27
    ensures Analyze(values, "T").Ok?
    ensures var a := Analyze(values, "T").value;
      && a.pos == TPositions
      && IsGrid(a.grid, 5, 7)
      && (forall r :: 0 <= r < 5 ==> a.grid[r][0] == values[0] && a.grid[r][6] == values[|values| - 1])
      && (forall r, c :: 0 <= r < 5 && 1 <= c <= 5 ==> a.grid[r][c] == values[5 * r + c])
      && |a.means| == 7 && |a.variances| == 7
      && (forall c :: 0 <= c < 7 ==>
            a.means[c] == Mean(Column(a.grid, 5, 7, c)) && a.variances[c] == Variance(Column(a.grid, 5, 7, c)))
      && a.means[0] == values[0] && a.variances[0] == 0.0
      && a.means[6] == values[|values| - 1] && a.variances[6] == 0.0
  {
    var a := Analyze(values, "T").value;
    var inner := values[1..|values| - 1];
    forall r, c | 0 <= r < 5 && 1 <= c <= 5 ensures a.grid[r][c] == values[5 * r + c] {
      assert a.grid[r][c] == inner[5 * r + c - 1];
    }
    ConstantLine(Column(a.grid, 5, 7, 0), values[0]);
    ConstantLine(Column(a.grid, 5, 7, 6), values[|values| - 1]);
  }

  /** The bottom-sensor layout. The fill writes value `5i + j` to `(j, i)`,
      so column 0 loses the first value and column 5 keeps its zeros; the
      quarter turn then makes the last value row 0, the zeros row 1 and the
      filled columns rows 6 down to 2, and the statistics are per row. */
  lemma BottomLayout(values: seq<real>)
    requires |values| >= 27
    ensures Analyze(values, "B").Ok?
    ensures var a := Analyze(values, "B").value;
      && a.pos == BPositions
      && IsGrid(a.grid, 7, 5)
      && (forall j :: 0 <= j < 5 ==> a.grid[0][j] == values[|values| - 1] && a.grid[1][j] == 0.0)
      && (forall i, j :: 2 <= i < 7 && 0 <= j < 5 ==> a.grid[i][j] == values[1 + 5 * (6 - i) + j])
      && |a.means| == 7 && |a.variances| == 7
      && (forall i :: 0 <= i < 7 ==> a.means[i] == Mean(a.grid[i]) && a.variances[i] == Variance(a.grid[i]))
      && a.means[0] == values[|values| - 1] && a.variances[0] == 0.0
      && a.means[1] == 0.0 && a.variances[1] == 0.0
  {
    var a := Analyze(values, "B").value;
    var inner := values[1..|values| - 1];
    forall i, j | 2 <= i < 7 && 0 <= j < 5 ensures a.grid[i][j] == values[1 + 5 * (6 - i) + j] {
      assert a.grid[i][j] == inner[5 * (6 - i) + j];
    }
    ConstantLine(a.grid[0], values[|values| - 1]);
    ConstantLine(a.grid[1], 0.0);
  }

  /** The bottom-sensor map never shows the first value: it depends on the
      list only through the 25 values after it and the last one. */
  lemma BottomIgnoresFirst(values: seq<real>, x: real)
    requires |values| >= 27
    ensures Analyze(values[0 := x], "B") == Analyze(values, "B")
  {
    var w := values[0 := x];
    assert w[1..|w| - 1] == values[1..|values| - 1];
    PlacedReads(w[1..|w| - 1], values[1..|values| - 1], x, values[0], values[|values| - 1], "B");
  }

  /** An orientation other than "T" and "B" raises nothing: the positions
      are the bottom sensor's, the map is filled as for "B" but not turned,
      and every mean and spread stays zero. */
  lemma OtherOrientation(values: seq<real>, orientation: string)
    requires |values| >= 27 && orientation != "T" && orientation != "B"
    ensures Analyze(values, orientation).Ok?
    ensures var a := Analyze(values, orientation).value;
      && a.pos == BPositions
      && IsGrid(a.grid, 5, 7)
      && (forall r, c :: 0 <= r < 5 && 0 <= c < 5 ==> a.grid[r][c] == values[1 + 5 * c + r])
      && (forall r :: 0 <= r < 5 ==> a.grid[r][5] == 0.0 && a.grid[r][6] == values[|values| - 1])
      && a.means == [0.0, 0.0, 0.0, 0.0, 0.0, 0.0, 0.0]
      && a.variances == [0.0, 0.0, 0.0, 0.0, 0.0, 0.0, 0.0]
  {
    var a := Analyze(values, orientation).value;
    var inner := values[1..|values| - 1];
    forall r, c | 0 <= r < 5 && 0 <= c < 5 ensures a.grid[r][c] == values[1 + 5 * c + r] {
      assert a.grid[r][c] == inner[5 * c + r];
    }
  }

  /** The fill reads only the first 25 values of the shortened list, and
      the first value only for "T". */
  lemma PlacedReads(inner: seq<real>, inner': seq<real>, first: real, first': real, last: real, orientation: string)
    requires |inner| >= 25 && |inner'| >= 25 && inner[..25] == inner'[..25]
    requires orientation == "T" ==> first == first'
    ensures Placed(inner, first, last, orientation) == Placed(inner', first', last, orientation)
  {
    var p, p' := Placed(inner, first, last, orientation), Placed(inner', first', last, orientation);
    forall r | 0 <= r < 5 ensures p[r] == p'[r] {
      forall c | 0 <= c < 7 ensures p[r][c] == p'[r][c] {
        var k := Slot(orientation, r, c);
        if 0 <= k < 25 {
          assert inner[k] == inner[..25][k];
        }
      }
    }
  }

  /** Values past the 26th, other than the last, are never read. */
  lemma IgnoresSurplus(values: seq<real>, more: seq<real>, orientation: string)
    requires |values| >= 27
    ensures var longer := values[..|values| - 1] + more + [values[|values| - 1]];
      Analyze(longer, orientation) == Analyze(values, orientation)
  {
    var longer := values[..|values| - 1] + more + [values[|values| - 1]];
    var inner, innerL := values[1..|values| - 1], longer[1..|longer| - 1];
    assert inner[..25] == innerL[..25] by {
      forall k | 0 <= k < 25 ensures inner[k] == innerL[k] {
        assert inner[k] == values[k + 1] && innerL[k] == longer[k + 1];
      }
    }
    PlacedReads(innerL, inner, values[0], values[0], values[|values| - 1], orientation);
  }
}
