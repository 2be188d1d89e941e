/** The recovery plot of the multilayer sensor. It reads a raw data file
    whose lines are `top,middle,bottom,time` (the resistances of the three
    layers and the time of the sample) into four series, passes over every
    line that is malformed or does not convert, and names the saved image
    after the output stem with a `_SERIES` suffix. */
module MultilayerReader {
  import opened Common

  /** One well-formed line: the three resistances and the time. */
  datatype Sample = Sample(top: real, middle: real, bottom: real, time: real)

  /** `line.strip().split(",")`. */
  function LineFields(line: string): seq<string>
  {
    Split(Strip(line, Whitespace), ',')
  }

  /** A line with exactly four fields that all convert gives a sample;
      any other line gives nothing. */
  function LineSample(line: string, parse: Parser): (r: Option<Sample>)
    ensures r.Some? <==> |LineFields(line)| == 4 && forall j :: 0 <= j < 4 ==> parse(LineFields(line)[j]).Some?
    ensures r.Some? ==>
      && parse(LineFields(line)[0]) == Some(r.value.top)
      && parse(LineFields(line)[1]) == Some(r.value.middle)
      && parse(LineFields(line)[2]) == Some(r.value.bottom)
      && parse(LineFields(line)[3]) == Some(r.value.time)
  {
    var parts := LineFields(line);
    if |parts| != 4 then None
    else if parse(parts[0]).None? || parse(parts[1]).None? || parse(parts[2]).None? || parse(parts[3]).None? then None
    else Some(Sample(parse(parts[0]).value, parse(parts[1]).value, parse(parts[2]).value, parse(parts[3]).value))
  }

  /** The samples of the well-formed lines, in file order. */
  function Samples(lines: seq<string>, parse: Parser): seq<Sample>
  {
    if lines == [] then []
    else
      var front := Samples(lines[..|lines| - 1], parse);
      match LineSample(lines[|lines| - 1], parse)
      case Some(s) => front + [s]
      case None => front
  }

  /** The samples of two pieces of a file are those of the whole file. */
  lemma {:induction false} SamplesAppend(a: seq<string>, b: seq<string>, parse: Parser)
    ensures Samples(a + b, parse) == Samples(a, parse) + Samples(b, parse)
  {
    if b == [] {
      assert a + b == a;
    } else {
      var n := |b| - 1;
      assert (a + b)[..|a + b| - 1] == a + b[..n];
      assert (a + b)[|a + b| - 1] == b[n];
      SamplesAppend(a, b[..n], parse);
    }
  }

  /** The samples of a file of one line. */
  lemma OneLine(line: string, parse: Parser)
    ensures Samples([line], parse) == match LineSample(line, parse) case Some(s) => [s] case None => []
  {
    assert [line][..0] == [];
  }

  /** A line that is malformed or does not convert is skipped entirely:
      removing it changes no series. */
  lemma SkippedLine(before: seq<string>, line: string, after: seq<string>, parse: Parser)
    requires LineSample(line, parse).None?
    ensures Samples(before + [line] + after, parse) == Samples(before + after, parse)
  {
    SamplesAppend(before + [line], after, parse);
    SamplesAppend(before, [line], parse);
    SamplesAppend(before, after, parse);
    OneLine(line, parse);
  }

  /** A well-formed line contributes its sample, in its place: after the
      samples of the lines before it and before those of the lines after
      it. */
  lemma KeptLine(before: seq<string>, line: string, after: seq<string>, parse: Parser)
    requires LineSample(line, parse).Some?
    ensures Samples(before + [line] + after, parse) ==
      Samples(before, parse) + [LineSample(line, parse).value] + Samples(after, parse)
  {
    SamplesAppend(before + [line], after, parse);
    SamplesAppend(before, [line], parse);
    OneLine(line, parse);
  }

  /** The four series, in the order of their samples. */
  predicate SeriesOf(samples: seq<Sample>, top: seq<real>, middle: seq<real>, bottom: seq<real>, time: seq<real>)
  {
    && |top| == |middle| == |bottom| == |time| == |samples|
    && forall k :: 0 <= k < |samples| ==> samples[k] == Sample(top[k], middle[k], bottom[k], time[k])
  }

  /** The line loop of `plot`: lines without exactly four fields are
      skipped, lines with a field that does not convert are skipped
      without touching any series, and the others append their fields to
      the top, middle, bottom and time series. */
  method ReadSeries(lines: seq<string>, parse: Parser)
    returns (top: seq<real>, middle: seq<real>, bottom: seq<real>, time: seq<real>)
    ensures SeriesOf(Samples(lines, parse), top, middle, bottom, time)
  {
    top, middle, bottom, time := [], [], [], [];
    for i := 0 to |lines|
      invariant SeriesOf(Samples(lines[..i], parse), top, middle, bottom, time)
    {
      assert lines[..i + 1][..i] == lines[..i];
      var sample := LineSample(lines[i], parse);
      if sample.None? {
        continue;
      }
      top := top + [sample.value.top];
      middle := middle + [sample.value.middle];
      bottom := bottom + [sample.value.bottom];
      time := time + [sample.value.time];
    }
    assert lines[..|lines|] == lines;
  }

  /** Stripping a string that starts and ends outside `chars`, followed by
      one character of `chars`, removes exactly that character. */
  lemma StripTrailing(s: string, c: char, chars: set<char>)
    requires s != [] && s[0] !in chars && s[|s| - 1] !in chars && c in chars
    ensures Strip(s + [c], chars) == s
  {
    var t := s + [c];
    assert t[0] == s[0];
    assert TrimStart(t, chars) == t;
    assert t[..|t| - 1] == s;
    assert TrimEnd(t, chars) == TrimEnd(s, chars);
  }

  /** The four fields joined by commas. */
  lemma JoinFour(top: string, middle: string, bottom: string, time: string)
    ensures Join([','], [top, middle, bottom, time]) == top + "," + middle + "," + bottom + "," + time
  {
    var parts := [top, middle, bottom, time];
    assert parts[1..] == [middle, bottom, time];
    assert parts[1..][1..] == [bottom, time];
    assert parts[1..][1..][1..] == [time];
    assert Join([','], [bottom, time]) == bottom + "," + time;
    assert Join([','], [middle, bottom, time]) == middle + "," + (bottom + "," + time);
    assert Join([','], parts) == top + "," + (middle + "," + (bottom + "," + time));
  }

  /** Four fields without commas, joined by commas, split back into
      themselves. */
  lemma SplitFour(top: string, middle: string, bottom: string, time: string)
    requires ',' !in top && ',' !in middle && ',' !in bottom && ',' !in time
    ensures Split(top + "," + middle + "," + bottom + "," + time, ',') == [top, middle, bottom, time]
  {
    JoinFour(top, middle, bottom, time);
    SplitJoin([top, middle, bottom, time], ',');
  }

  /** A string that starts and ends with a character that is neither a
      comma nor whitespace keeps its ends when stripped of one newline. */
  lemma StripLineEnd(body: string)
    requires body != [] && !IsWhitespace(body[0]) && !IsWhitespace(body[|body| - 1])
    ensures Strip(body + "\n", Whitespace) == body
  {
    assert '\n' in Whitespace;
    StripTrailing(body, '\n', Whitespace);
  }

  /** The fields of a line written as `top,middle,bottom,time\n`, when no
      field holds a comma and the line neither starts nor ends with
      whitespace. */
  lemma WrittenLineFields(top: string, middle: string, bottom: string, time: string)
    requires ',' !in top && ',' !in middle && ',' !in bottom && ',' !in time
    requires top == [] || !IsWhitespace(top[0])
    requires time == [] || !IsWhitespace(time[|time| - 1])
    ensures LineFields(top + "," + middle + "," + bottom + "," + time + "\n") == [top, middle, bottom, time]
  {
    var body := top + "," + middle + "," + bottom + "," + time;
    assert body[0] == if top == [] then ',' else top[0];
    assert body[|body| - 1] == if time == [] then ',' else time[|time| - 1];
    StripLineEnd(body);
    SplitFour(top, middle, bottom, time);
  }

  /** A line written as `top,middle,bottom,time\n` from fields that convert
      and hold no commas, on a line that neither starts nor ends with
      whitespace, reads back as those four values. */
  lemma WrittenLineReads(top: string, middle: string, bottom: string, time: string, parse: Parser)
    requires ',' !in top && ',' !in middle && ',' !in bottom && ',' !in time
    requires top == [] || !IsWhitespace(top[0])
    requires time == [] || !IsWhitespace(time[|time| - 1])
    requires parse(top).Some? && parse(middle).Some? && parse(bottom).Some? && parse(time).Some?
    ensures LineSample(top + "," + middle + "," + bottom + "," + time + "\n", parse) ==
      Some(Sample(parse(top).value, parse(middle).value, parse(bottom).value, parse(time).value))
  {
    WrittenLineFields(top, middle, bottom, time);
  }

  // ---------------------------------------------------------------------
  // The saved image

  /** The suffix the saved image's name gets, before its extension. */
  const SeriesSuffix: string := "_SERIES."

  /** The output stem of an image path: the path with the suffix and the
      extension removed, when it ends with them. */
  function OutputStem(path: string, extension: string): Option<string>
  {
    var tail := SeriesSuffix + extension;
    if |tail| <= |path| && path[|path| - |tail|..] == tail then Some(path[..|path| - |tail|]) else None
  }

  /** `f"{output_file}_SERIES.{output_file_extension}"`: the image path,
      from which the stem is recovered. */
  function OutputPath(outputFile: string, extension: string): (path: string)
    ensures OutputStem(path, extension) == Some(outputFile)
    ensures |path| == |outputFile| + |SeriesSuffix| + |extension|
  {
    var path := outputFile + SeriesSuffix + extension;
    assert path[..|outputFile|] == outputFile;
    assert path[|outputFile|..] == SeriesSuffix + extension;
    path
  }

  /** Every path with the suffix and the extension is the image path of
      its stem. */
  lemma StemNamesPath(path: string, extension: string)
    requires OutputStem(path, extension).Some?
    ensures OutputPath(OutputStem(path, extension).value, extension) == path
  {
    var tail := SeriesSuffix + extension;
    assert path == path[..|path| - |tail|] + path[|path| - |tail|..];
  }
}
