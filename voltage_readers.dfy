/** The two line readers that feed the plateau segmenter: one for plain
    `time,voltage` files and one for the multilayer sensor's tagged
    `v,v1,v2,t,side` files. Each line is stripped of newlines and split at
    commas; every field the reader needs is converted with `float`, and one
    bad line makes the whole read raise. */
module VoltageReaders {
  import opened Common

  /** `line.strip("\n").split(",")`. */
  function Fields(line: string): (fields: seq<string>)
    ensures |fields| >= 1
  {
    Split(Strip(line, {'\n'}), ',')
  }

  /** Line `k` is the first line that does not satisfy `ok`. */
  ghost predicate FirstFailure(lines: seq<string>, k: int, ok: string -> bool)
  {
    0 <= k < |lines| && !ok(lines[k]) && forall j :: 0 <= j < k ==> ok(lines[j])
  }

  // ---------------------------------------------------------------------
  // read_timed_voltage_data

  /** One line of `read_timed_voltage_data`: `float(line[0])`, then
      `line[1]` (an `IndexError` on a one-field line), then `float(line[1])`. */
  function TimedLine(line: string, parse: Parser): Result<(real, real)>
  {
    var fields := Fields(line);
    match parse(fields[0])
    case None => Err(ValueError)
    case Some(t) =>
      if |fields| < 2 then Err(IndexError)
      else
        match parse(fields[1])
        case None => Err(ValueError)
        case Some(v) => Ok((t, v))
  }

  /** `read_timed_voltage_data`: the time and voltage series, one entry per
      line and in file order, or the error of the first line that fails. */
  method ReadTimedVoltageData(lines: seq<string>, parse: Parser) returns (r: Result<(seq<real>, seq<real>)>)
    ensures r.Ok? <==> forall k :: 0 <= k < |lines| ==> TimedLine(lines[k], parse).Ok?
    ensures r.Ok? ==> |r.value.0| == |lines| && |r.value.1| == |lines|
    ensures r.Ok? ==> forall k :: 0 <= k < |lines| ==>
      TimedLine(lines[k], parse) == Ok((r.value.0[k], r.value.1[k]))
    ensures r.Err? ==>
      exists k :: FirstFailure(lines, k, (line: string) => TimedLine(line, parse).Ok?)
                  && TimedLine(lines[k], parse) == Err(r.error)
  {
    var timeSeries: seq<real>, voltageSeries: seq<real> := [], [];
    for i := 0 to |lines|
      invariant |timeSeries| == i && |voltageSeries| == i
      invariant forall k :: 0 <= k < i ==> TimedLine(lines[k], parse) == Ok((timeSeries[k], voltageSeries[k]))
    {
      var line := Fields(lines[i]);
      var t := parse(line[0]);
      if t.None? {
        return Err(ValueError);
      }
      timeSeries := timeSeries + [t.value];
      if |line| < 2 {
        return Err(IndexError);
      }
      var v := parse(line[1]);
      if v.None? {
        return Err(ValueError);
      }
      voltageSeries := voltageSeries + [v.value];
    }
    return Ok((timeSeries, voltageSeries));
  }

  /** Stripping a line that ends in one newline, and starts with something
      else, removes exactly that newline. */
  lemma StripNewline(s: string)
    requires s != [] && s[0] != '\n' && s[|s| - 1] != '\n'
    ensures Strip(s + "\n", {'\n'}) == s
  {
    var nl: set<char> := {'\n'};
    var t := s + "\n";
    assert t[0] == s[0] && t[0] !in nl;
    assert TrimStart(t, nl) == t;
    assert t[|t| - 1] in nl && t[..|t| - 1] == s;
    assert TrimEnd(t, nl) == TrimEnd(s, nl);
    assert s[|s| - 1] !in nl;
  }

  /** A line written as `time,voltage\n` from two fields that parse reads
      back as exactly those two values. */
  lemma TimedLineRoundTrip(time: string, voltage: string, parse: Parser)
    requires ',' !in time && ',' !in voltage && '\n' !in time && '\n' !in voltage
    requires parse(time).Some? && parse(voltage).Some?
    ensures TimedLine(time + "," + voltage + "\n", parse) == Ok((parse(time).value, parse(voltage).value))
  {
    var body := time + "," + voltage;
    assert body == Join([','], [time, voltage]);
    assert body[0] != '\n' by {
      if time == [] { assert body[0] == ','; } else { assert body[0] == time[0]; }
    }
    assert body[|body| - 1] != '\n' by {
      if voltage != [] { assert body[|body| - 1] == voltage[|voltage| - 1]; }
    }
    StripNewline(body);
    SplitJoin([time, voltage], ',');
  }

  // ---------------------------------------------------------------------
  // multilayer_read_timed_voltage_data

  /** The four numbers of a tagged line: the side's voltage, its two
      electrode voltages and the time. */
  datatype Reading = Reading(v: real, first: real, second: real, time: real)

  /** A tagged line: bottom side ("B"), top side ("T"), or any other tag,
      which the reader passes over. */
  datatype LayerRow = Bottom(reading: Reading) | Top(reading: Reading) | Untagged

  /** One line of the multilayer reader: `line[4]` must exist; a "B" or
      "T" line converts its first four fields in order. */
  function LayerLine(line: string, parse: Parser): (r: Result<LayerRow>)
    ensures r == Err(IndexError) <==> |Fields(line)| < 5
    ensures r == Ok(Untagged) <==> |Fields(line)| >= 5 && Fields(line)[4] != "B" && Fields(line)[4] != "T"
    ensures r == Err(ValueError) <==>
      && |Fields(line)| >= 5 && (Fields(line)[4] == "B" || Fields(line)[4] == "T")
      && exists j :: 0 <= j < 4 && parse(Fields(line)[j]).None?
    ensures r.Ok? && r.value.Bottom? ==> Fields(line)[4] == "B"
    ensures r.Ok? && r.value.Top? ==> Fields(line)[4] == "T"
    ensures r.Ok? && !r.value.Untagged? ==>
      && parse(Fields(line)[0]) == Some(r.value.reading.v)
      && parse(Fields(line)[1]) == Some(r.value.reading.first)
      && parse(Fields(line)[2]) == Some(r.value.reading.second)
      && parse(Fields(line)[3]) == Some(r.value.reading.time)
  {
    var fields := Fields(line);
    if |fields| < 5 then Err(IndexError)
    else if fields[4] != "B" && fields[4] != "T" then Ok(Untagged)
    else if parse(fields[0]).None? || parse(fields[1]).None? || parse(fields[2]).None? || parse(fields[3]).None? then
      Err(ValueError)
    else
      var reading := Reading(parse(fields[0]).value, parse(fields[1]).value, parse(fields[2]).value, parse(fields[3]).value);
      Ok(if fields[4] == "B" then Bottom(reading) else Top(reading))
  }

  /** A line written as `v,first,second,time,tag` and a newline, from four
      fields that convert and hold no comma or newline, reads back as that
      reading on the side the tag names. */
  lemma LayerLineRoundTrip(v: string, first: string, second: string, time: string, tag: string, parse: Parser)
    requires tag == "B" || tag == "T"
    requires ',' !in v && ',' !in first && ',' !in second && ',' !in time
    requires '\n' !in v
    requires parse(v).Some? && parse(first).Some? && parse(second).Some? && parse(time).Some?
    ensures var reading := Reading(parse(v).value, parse(first).value, parse(second).value, parse(time).value);
      LayerLine(v + "," + first + "," + second + "," + time + "," + tag + "\n", parse) ==
        Ok(if tag == "B" then Bottom(reading) else Top(reading))
  {
    var parts := [v, first, second, time, tag];
    var body := v + "," + first + "," + second + "," + time + "," + tag;
    assert parts[1..][1..][1..][1..] == [tag];
    assert Join([','], parts[1..][1..][1..]) == time + "," + tag;
    assert Join([','], parts[1..][1..]) == second + "," + (time + "," + tag);
    assert Join([','], parts[1..]) == first + "," + (second + "," + (time + "," + tag));
    assert Join([','], parts) == body;
    assert body[0] != '\n' by {
      if v == [] { assert body[0] == ','; } else { assert body[0] == v[0]; }
    }
    assert body[|body| - 1] == tag[0];
    StripNewline(body);
    SplitJoin(parts, ',');
  }

  /** The readings of one side, in line order. */
  function SideReadings(rows: seq<LayerRow>, bottom: bool): seq<Reading>
  {
    if rows == [] then []
    else
      var last := rows[|rows| - 1];
      SideReadings(rows[..|rows| - 1], bottom)
        + (if (bottom && last.Bottom?) || (!bottom && last.Top?) then [last.reading] else [])
  }

  /** The reader's result `((Vtop, Vbot), (vb1, vt1), (vb2, vt2), (t1, t2))`. */
  datatype LayerSeries = LayerSeries(
    vTop: seq<real>, vBot: seq<real>,
    vb1: seq<real>, vt1: seq<real>,
    vb2: seq<real>, vt2: seq<real>,
    t1: seq<real>, t2: seq<real>)

  /** Series `bottom` of `s` holds exactly `readings`, field by field. */
  ghost predicate Holds(s: LayerSeries, bottom: bool, readings: seq<Reading>)
  {
    if bottom then
      && |s.vBot| == |readings| && |s.vb1| == |readings| && |s.vb2| == |readings| && |s.t1| == |readings|
      && forall k :: 0 <= k < |readings| ==> readings[k] == Reading(s.vBot[k], s.vb1[k], s.vb2[k], s.t1[k])
    else
      && |s.vTop| == |readings| && |s.vt1| == |readings| && |s.vt2| == |readings| && |s.t2| == |readings|
      && forall k :: 0 <= k < |readings| ==> readings[k] == Reading(s.vTop[k], s.vt1[k], s.vt2[k], s.t2[k])
  }

  function Rows(lines: seq<string>, parse: Parser): (rows: seq<LayerRow>)
    requires forall k :: 0 <= k < |lines| ==> LayerLine(lines[k], parse).Ok?
    ensures |rows| == |lines|
  {
    seq(|lines|, k requires 0 <= k < |lines| => LayerLine(lines[k], parse).value)
  }

  /** `multilayer_read_timed_voltage_data`: the bottom-tagged lines fill the
      bottom series and the top-tagged lines the top series, each in file
      order; lines with another tag are skipped; the first line that is
      short or does not convert makes the read fail. */
  method MultilayerReadTimedVoltageData(lines: seq<string>, parse: Parser) returns (r: Result<LayerSeries>)
    ensures r.Ok? <==> forall k :: 0 <= k < |lines| ==> LayerLine(lines[k], parse).Ok?
    ensures r.Ok? ==> Holds(r.value, true, SideReadings(Rows(lines, parse), true))
    ensures r.Ok? ==> Holds(r.value, false, SideReadings(Rows(lines, parse), false))
    ensures r.Err? ==>
      exists k :: FirstFailure(lines, k, (line: string) => LayerLine(line, parse).Ok?)
                  && LayerLine(lines[k], parse) == Err(r.error)
  {
    var s := LayerSeries([], [], [], [], [], [], [], []);
    for i := 0 to |lines|
      invariant forall k :: 0 <= k < i ==> LayerLine(lines[k], parse).Ok?
      invariant Holds(s, true, SideReadings(Rows(lines[..i], parse), true))
      invariant Holds(s, false, SideReadings(Rows(lines[..i], parse), false))
    {
      var row := LayerLine(lines[i], parse);
      if row.Err? {
        LayerFailureAt(lines, i, parse);
        return Err(row.error);
      }
      RowsStep(lines, parse, i);
      ApplyHolds(s, Rows(lines[..i], parse), row.value);
      s := Apply(s, row.value);
    }
    assert lines[..|lines|] == lines;
    return Ok(s);
  }

  /** The first line that fails names the reader's error. */
  lemma LayerFailureAt(lines: seq<string>, i: nat, parse: Parser)
    requires i < |lines| && LayerLine(lines[i], parse).Err?
    requires forall k :: 0 <= k < i ==> LayerLine(lines[k], parse).Ok?
    ensures exists k :: FirstFailure(lines, k, (line: string) => LayerLine(line, parse).Ok?)
                        && LayerLine(lines[k], parse) == Err(LayerLine(lines[i], parse).error)
  {
    assert FirstFailure(lines, i, (line: string) => LayerLine(line, parse).Ok?);
  }

  /** The series after one more row: its reading appended to its side. */
  function Apply(s: LayerSeries, row: LayerRow): LayerSeries
  {
    match row
    case Bottom(x) => s.(vBot := s.vBot + [x.v], vb1 := s.vb1 + [x.first], vb2 := s.vb2 + [x.second], t1 := s.t1 + [x.time])
    case Top(x) => s.(vTop := s.vTop + [x.v], vt1 := s.vt1 + [x.first], vt2 := s.vt2 + [x.second], t2 := s.t2 + [x.time])
    case Untagged => s
  }

  lemma ApplyHolds(s: LayerSeries, rows: seq<LayerRow>, row: LayerRow)
    requires Holds(s, true, SideReadings(rows, true)) && Holds(s, false, SideReadings(rows, false))
    ensures Holds(Apply(s, row), true, SideReadings(rows + [row], true))
    ensures Holds(Apply(s, row), false, SideReadings(rows + [row], false))
  {
    assert (rows + [row])[..|rows|] == rows;
  }

  /** The rows of a one-line-longer prefix are the old rows plus that line's. */
  lemma RowsStep(lines: seq<string>, parse: Parser, i: nat)
    requires i < |lines| && forall k :: 0 <= k <= i ==> LayerLine(lines[k], parse).Ok?
    ensures Rows(lines[..i + 1], parse) == Rows(lines[..i], parse) + [LayerLine(lines[i], parse).value]
  {
  }

  /** The readings of two stretches of lines are those of the first
      followed by those of the second: file order is kept. */
  lemma {:induction false} SideReadingsAppend(a: seq<LayerRow>, b: seq<LayerRow>, bottom: bool)
    ensures SideReadings(a + b, bottom) == SideReadings(a, bottom) + SideReadings(b, bottom)
    decreases |b|
  {
    if b != [] {
      var b' := b[..|b| - 1];
      assert (a + b)[..|a + b| - 1] == a + b';
      assert (a + b)[|a + b| - 1] == b[|b| - 1];
      SideReadingsAppend(a, b', bottom);
      var last := b[|b| - 1];
      var tail := if (bottom && last.Bottom?) || (!bottom && last.Top?) then [last.reading] else [];
      assert SideReadings(a + b, bottom) == SideReadings(a + b', bottom) + tail;
      assert SideReadings(b, bottom) == SideReadings(b', bottom) + tail;
    } else {
      assert a + b == a;
    }
  }

  /** A line goes to at most one side: the two sides together hold no more
      readings than there are lines, and exactly as many when every line is
      tagged "B" or "T". */
  lemma {:induction false} SidesPartition(rows: seq<LayerRow>)
    ensures |SideReadings(rows, true)| + |SideReadings(rows, false)| <= |rows|
    ensures (forall k :: 0 <= k < |rows| ==> !rows[k].Untagged?) ==>
      |SideReadings(rows, true)| + |SideReadings(rows, false)| == |rows|
    decreases |rows|
  {
    if rows != [] {
      SidesPartition(rows[..|rows| - 1]);
    }
  }
}
