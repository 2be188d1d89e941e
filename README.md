# rootlab-lib analysis core, in Dafny

This project models the data-reduction logic of rootlab-lib. The library is a Python toolkit that turns laboratory exports into series, plateaus and maps. The modelled parts are:

- **Plateau segmenter** (`PlateauSegmenter`). `find_plateaus` makes one left-to-right pass over a voltage series. It reports runs of samples above a threshold as `(average, start, end)` records. A run is closed either by a sample at or below the threshold or by the "big gap" drop across `min_gap_length`. `plateau_analysis` projects the averages out of the records. Both quirks of the source are modelled literally:
  - the gap close counts its closing sample but reports the sample before it as the end;
  - a run still open at the end of the series is never reported.

  When `min_gap_length <= threshold`, the records are proved to be exactly the closed maximal runs above the threshold that are long enough, each averaged over its own samples.
- **Spatial averaging mapper** (`SpatialMapper`). `average_voltage_analysis` pops the first and last values off the caller's list, a `class` whose list it shortens in place. It fills a 5 x 7 array (`array2`) in the "T" or "B" layout, turns the "B" map a quarter turn, and reduces it to per-line means and spreads.
- **Line readers** (`VoltageReaders`). `read_timed_voltage_data` reads `time,voltage` lines. `multilayer_read_timed_voltage_data` reads lines tagged "B" or "T". One bad line makes the whole read raise.
- **Source-meter export reader** (`SourceMeter`). This is `gather_data`:
  - the sticky split where the row width first changes;
  - column lookup by name;
  - dropping rows that do not convert;
  - the reading offset.
- **VK-X150 height-map reader** (`Vkx150`). This is `heightmap`:
  - method validation;
  - the split at the marker row;
  - conversion with blank fields dropped, in place over an `array` of rows;
  - the mean and minimum shifts;
  - the iteration clamp;
  - the comma-terminated row writer.
- **Instron reader** (`Instron`). `_read_numeric_data` reads the rows after the flag row into six columns. The colour check and label padding of `plot_multiple_stress_strain` extend the caller's label list in place, and a default list is shared between calls.
- **Multilayer recovery plot** (`MultilayerReader`). This covers the line loop of `plot`, which skips malformed and unconvertible lines, and the name of the saved image.
- **Heatmap pipeline** (`HeatmapPipeline`). The voltage-analysis entry point chains the segmenter, the optional leading zero and the mapper.

Shared definitions live in `Common`:

- `Result`/`Option` and the Python exception kinds;
- `str.split`, `str.join` and `str.strip`;
- sums and means over `real`.

`float()` and pandas' numeric conversion are an abstract partial function `parse: string -> Option<real>`. csv rows arrive already split into fields. Every imperative operation is a `method` proved equal to a specification function. The properties the library promises are lemmas about those functions.

Where the docstrings and the code disagree, the model follows the code:

- `average_voltage_analysis` documents a `ValueError` for an orientation other than "T" or "B". The code raises nothing and returns zero statistics; see `SpatialMapper.OtherOrientation`.
- The "B" fill writes to `(j, i)` rather than beside the boundary column, so the first value is overwritten and column 5 stays zero; see `SpatialMapper.BottomLayout`.
- The VK-X150 writer's test `i != len(row)` never fails, so every value is written with a trailing comma; see `Vkx150.WriteHeights`.

## Model

| member | source | states |
|---|---|---|
| PlateauSegmenter.ThresholdTest | src/rootlab_lib/plateau_processing.py:86-101 | after the threshold test a plateau is open exactly when the sample is strictly above the threshold, and an open plateau keeps its start |
| PlateauSegmenter.ThresholdAccumulating | src/rootlab_lib/plateau_processing.py:86-91 | the threshold test keeps the open plateau's sum and length equal to the sum and count of its samples, all above the threshold |
| PlateauSegmenter.ScanAccumulating | src/rootlab_lib/plateau_processing.py:79-113 | after every prefix the open plateau's sum and length are those of the samples from its start, all above the threshold; with none open both are zero |
| PlateauSegmenter.ThresholdRecordAt | src/rootlab_lib/plateau_processing.py:93-98 | a threshold exit records a run whose samples are above the threshold, whose closing sample is not, which is long enough and whose average is the mean of its samples |
| PlateauSegmenter.GapRecordAt | src/rootlab_lib/plateau_processing.py:104-110 | a big-gap close records the run up to the sample before the drop, while its average and length include the closing sample |
| PlateauSegmenter.ThresholdCloseSound | src/rootlab_lib/plateau_processing.py:93-101 | closing at a low sample keeps every record well formed and in order; a short run is dropped |
| PlateauSegmenter.GapCloseSound | src/rootlab_lib/plateau_processing.py:103-113 | closing at a big gap keeps every record well formed and in order; a short run is dropped |
| PlateauSegmenter.ScanSound | src/rootlab_lib/plateau_processing.py:84-113 | after every prefix each record is a threshold-exit or big-gap record and the records are ordered |
| PlateauSegmenter.ScanClean | src/rootlab_lib/plateau_processing.py:84-113 | with min_gap_length <= threshold, after every prefix an open plateau starts a maximal run, each record is a long enough maximal run closed so far, and every long enough maximal run closed so far is recorded |
| PlateauSegmenter.FindPlateaus | src/rootlab_lib/plateau_processing.py:61-115 | the loop returns the scan's records: each is a threshold-exit or big-gap record, in discovery order two samples apart; with min_gap_length <= threshold they are exactly the closed maximal runs at least min_plateau_length long |
| PlateauSegmenter.PlateausSound | src/rootlab_lib/plateau_processing.py:84-115 | every record ends before its closing sample inside the series, so a run open at the end is never reported; records are disjoint and ordered |
| PlateauSegmenter.PlateausCleanRegime | src/rootlab_lib/plateau_processing.py:86-113 | with min_gap_length <= threshold every record is a closed maximal run averaged over its samples, and every such run long enough is reported |
| PlateauSegmenter.EmptySeries | src/rootlab_lib/plateau_processing.py:79-84 | an empty series has no plateaus |
| PlateauSegmenter.AveragesAboveThreshold | src/rootlab_lib/plateau_processing.py:86-113 | every reported average is above the threshold, whichever condition closed the run |
| PlateauSegmenter.AnalysisOfScan | src/rootlab_lib/plateau_processing.py:118-135 | plateau_analysis returns the number of records and their averages in record order, each above the threshold |
| SpatialMapper.Fill | src/rootlab_lib/plateau_processing.py:167-173 | the fill loop writes value 5i+j to (i, j+1) for "T" and (j, i) otherwise, and fails exactly when fewer than 25 values remain |
| SpatialMapper.PlacedContents | src/rootlab_lib/plateau_processing.py:167-173 | a completed fill holds exactly the reference layout |
| SpatialMapper.LineStats | src/rootlab_lib/plateau_processing.py:177-184 | the statistics loop gives per-column means and spreads for "T", per-row for "B", and zeros otherwise |
| SpatialMapper.AverageVoltageAnalysis | src/rootlab_lib/plateau_processing.py:138-185 | the result is the reference analysis of the list as passed, and the caller's list loses its first and last values (or is emptied when shorter than two) |
| SpatialMapper.ShortListFails | src/rootlab_lib/plateau_processing.py:164-173 | the mapper fails exactly when given fewer than 27 values, and then with IndexError |
| SpatialMapper.TopLayout | src/rootlab_lib/plateau_processing.py:164-181 | "T": columns 0 and 6 hold the first and last values, cell (r, c) for c in 1..5 holds value 5r+c, statistics are per column and the boundary columns have no spread |
| SpatialMapper.BottomLayout | src/rootlab_lib/plateau_processing.py:161-184 | "B": after the quarter turn row 0 holds the last value, row 1 zeros and rows 2..6 the filled columns; statistics are per row |
| SpatialMapper.BottomIgnoresFirst | src/rootlab_lib/plateau_processing.py:164-175 | the "B" analysis does not depend on the first value, which the fill overwrites |
| SpatialMapper.OtherOrientation | src/rootlab_lib/plateau_processing.py:161-184 | any orientation other than "T" and "B" raises nothing, uses the B positions, leaves the map unturned and all means and spreads zero |
| SpatialMapper.IgnoresSurplus | src/rootlab_lib/plateau_processing.py:164-173 | values beyond the 26th, other than the last, are never read |
| SpatialMapper.PlacedReads | src/rootlab_lib/plateau_processing.py:167-173 | the fill reads only the first 25 values of the shortened list, and the first value only for "T" |
| SpatialMapper.ConstantLine | src/rootlab_lib/plateau_processing.py:178-184 | a line holding one value throughout has that value as its mean and zero spread |
| SpatialMapper.VarianceNonNegative | src/rootlab_lib/plateau_processing.py:181 | the spread is never negative |
| VoltageReaders.ReadTimedVoltageData | src/rootlab_lib/plateau_processing.py:7-22 | the read succeeds exactly when every line gives a time and a voltage, entry k of both series comes from line k, and a failure is the error of the first bad line |
| VoltageReaders.TimedLineRoundTrip | src/rootlab_lib/plateau_processing.py:18-21 | a line written as time,voltage and a newline reads back as those two values |
| VoltageReaders.LayerLine | src/rootlab_lib/plateau_processing.py:47-57 | one tagged line: IndexError exactly when it has fewer than five fields, skipped exactly when its tag is neither B nor T, ValueError exactly when a B or T line has one of its first four fields that does not convert, and otherwise the reading holds fields 0..3 converted, on the side its tag names |
| VoltageReaders.LayerLineRoundTrip | src/rootlab_lib/plateau_processing.py:47-57 | a line written as v,first,second,time,tag with tag B or T reads back as that reading on the tagged side |
| VoltageReaders.MultilayerReadTimedVoltageData | src/rootlab_lib/plateau_processing.py:25-58 | the read succeeds exactly when every line does; bottom series hold the B lines' readings and top series the T lines', each in file order; a failure is the first bad line's error |
| VoltageReaders.ApplyHolds | src/rootlab_lib/plateau_processing.py:48-57 | one more line appends its reading to its own side's four series and leaves the other side unchanged |
| VoltageReaders.SideReadingsAppend | src/rootlab_lib/plateau_processing.py:46-57 | the readings of two stretches of lines are those of the first followed by those of the second |
| VoltageReaders.SidesPartition | src/rootlab_lib/plateau_processing.py:48-57 | each line feeds at most one side, and exactly one when every line is tagged B or T |
| SourceMeter.TwoColumnPrefix | src/rootlab_lib/source_meter_analysis.py:52-57 | the leading run of two-field rows: all its rows have two fields and the row after it does not |
| SourceMeter.SplitAtWidthChange | src/rootlab_lib/source_meter_analysis.py:44-57 | the two parts concatenate to the rows, the first holds only two-field rows, and the second is empty or starts with a row of another width |
| SourceMeter.StickySplitUnique | src/rootlab_lib/source_meter_analysis.py:52-57 | the sticky split is unique: it cuts after the leading run of two-field rows, so later two-field rows stay in the second part |
| SourceMeter.MaxWidth | src/rootlab_lib/source_meter_analysis.py:66-68 | the table width the frame checks against its header: no row is wider, and some row is that wide |
| SourceMeter.Find | src/rootlab_lib/source_meter_analysis.py:71-76 | the first header position holding the name, or none exactly when the name is absent |
| SourceMeter.ColumnIndex | src/rootlab_lib/source_meter_analysis.py:71-76 | a column named once is found; KeyError exactly when unnamed and TypeError exactly when named twice |
| SourceMeter.Kept | src/rootlab_lib/source_meter_analysis.py:78-79 | the rows dropna keeps, in order: exactly those whose reading and time both convert |
| SourceMeter.GatherData | src/rootlab_lib/source_meter_analysis.py:36-83 | a missing file returns None before any parsing; otherwise the result is the table of the sticky split |
| SourceMeter.MissingPartFails | src/rootlab_lib/source_meter_analysis.py:60-61 | without a two-field block or without rows after it, the read takes the IndexError path |
| SourceMeter.TableAligned | src/rootlab_lib/source_meter_analysis.py:71-83 | time and readings have equal length; entry k of both comes from the same kept row, the time as converted and the reading plus the offset |
| Vkx150.FirstMarker | src/rootlab_lib/vkx150_analysis.py:73-78 | the first row whose joined fields start with the flag, or none exactly when no row does |
| Vkx150.SplitAtMarker | src/rootlab_lib/vkx150_analysis.py:64-80 | garbage and heights concatenate to the rows; garbage ends at the first marker, and with no marker heights is empty |
| Vkx150.MarkerSplitUnique | src/rootlab_lib/vkx150_analysis.py:73-80 | the split cuts exactly after the first marker row |
| Vkx150.NonBlank | src/rootlab_lib/vkx150_analysis.py:87 | the kept fields are exactly the fields that are not blank after stripping |
| Vkx150.NonBlankOne | src/rootlab_lib/vkx150_analysis.py:87 | a single field is kept once when it is not blank and dropped when it is |
| Vkx150.NonBlankAppend | src/rootlab_lib/vkx150_analysis.py:87 | the filter works field by field: the kept fields of a row are kept in row order, each once |
| Vkx150.ConvertRow | src/rootlab_lib/vkx150_analysis.py:87 | a row converts exactly when all its non-blank fields do, and then gives one value per such field, in order |
| Vkx150.ConvertAll | src/rootlab_lib/vkx150_analysis.py:86-87 | the table converts exactly when every row does, row by row |
| Vkx150.ConvertRows | src/rootlab_lib/vkx150_analysis.py:86-87 | the in-place pass leaves the converted table in the array, or fails exactly when some row does not convert |
| Vkx150.ShiftRows | src/rootlab_lib/vkx150_analysis.py:91-97 | each shift pass moves every value of every row down by the amount |
| Vkx150.Min | src/rootlab_lib/vkx150_analysis.py:95 | np.amin: no value is smaller and some value equals it |
| Vkx150.LoadHeights | src/rootlab_lib/vkx150_analysis.py:86-97 | the three passes give the normalised map, or ValueError for a bad field, ragged rows or no values |
| Vkx150.TwoShifts | src/rootlab_lib/vkx150_analysis.py:90-97 | shifting by the average and then by the new minimum is shifting by the original minimum |
| Vkx150.MinShift | src/rootlab_lib/vkx150_analysis.py:95-97 | shifting every value moves the minimum by the same amount |
| Vkx150.NormalisedFloor | src/rootlab_lib/vkx150_analysis.py:90-97 | every height becomes its original value less the global minimum, none is negative and the minimum is zero |
| Vkx150.NormalisedIdempotent | src/rootlab_lib/vkx150_analysis.py:123 | the final subtraction of the minimum leaves an already normalised map unchanged |
| Vkx150.ClampIterations | src/rootlab_lib/vkx150_analysis.py:103 | the pass count is the iterations when non-negative and zero otherwise |
| Vkx150.Heightmap | src/rootlab_lib/vkx150_analysis.py:47-97 | an invalid method raises ValueError before the file is looked at, a missing file returns None, and otherwise the rows after the marker give the normalised map |
| Vkx150.WriteHeights | src/rootlab_lib/vkx150_analysis.py:125-133 | every value is written followed by a comma and every row ends with a newline |
| Vkx150.WrittenTextSplits | src/rootlab_lib/vkx150_analysis.py:127-133 | the written text splits back into one line per row, each giving the row's values and a final empty field |
| Instron.FlagRow | src/rootlab_lib/instron_analysis.py:34-35 | the first row whose comma-join equals the flag, or none exactly when no row does |
| Instron.RowValues | src/rootlab_lib/instron_analysis.py:32-33 | a data row converts exactly when it has at most six fields that all convert; IndexError exactly when a seventh field follows six that convert |
| Instron.AppendRow | src/rootlab_lib/instron_analysis.py:32-33 | the field loop appends value i to column i, or raises the row's error |
| Instron.CollectErrSticks | src/rootlab_lib/instron_analysis.py:30-33 | the first failing data row decides the outcome; later rows change nothing |
| Instron.ReadStepBeforeFlag | src/rootlab_lib/instron_analysis.py:30-35 | rows up to and including the flag row collect nothing |
| Instron.ReadStepAfterFlag | src/rootlab_lib/instron_analysis.py:30-35 | each row after the flag row is converted into the columns |
| Instron.ReadNumericData | src/rootlab_lib/instron_analysis.py:25-37 | the read_flag loop returns the columns of the rows after the first flag row, or the first failure |
| Instron.CollectColumns | src/rootlab_lib/instron_analysis.py:32-33 | the data convert exactly when every row does; column i then holds field i of every row wide enough, in row order; otherwise the error is the first bad row's |
| Instron.PreambleIgnored | src/rootlab_lib/instron_analysis.py:30-35 | nothing up to the first flag row is converted, whatever it holds |
| Instron.ReadShape | src/rootlab_lib/instron_analysis.py:29-37 | without a flag row the six columns are empty, and a successful read always has six columns |
| Instron.WideRowFails | src/rootlab_lib/instron_analysis.py:29-33 | a data row with more than six fields whose first six convert makes the read raise IndexError |
| Instron.LabelList.constructor | src/rootlab_lib/instron_analysis.py:109 | the caller's label list holds the given labels |
| Instron.SpecimenLabelNumber | src/rootlab_lib/instron_analysis.py:164 | the label added for position k is "Specimen " followed by the decimal digits of k + 1 |
| Instron.SpecimenLabelsDistinct | src/rootlab_lib/instron_analysis.py:162-165 | the padding never gives two positions the same label |
| Instron.Padded | src/rootlab_lib/instron_analysis.py:162-165 | padded labels are as long as the larger of the two counts, keep the given labels as a prefix and continue with "Specimen k" for consecutive k |
| Instron.CheckColorsAndPadLabels | src/rootlab_lib/instron_analysis.py:154-165 | a colour list of the wrong length raises ValueError with the labels untouched; otherwise the labels are padded in place and the result says whether user colours are used |
| Instron.PaddedTwice | src/rootlab_lib/instron_analysis.py:162-165 | padding twice is padding once for the larger count |
| Instron.SharedDefault | src/rootlab_lib/instron_analysis.py:109 | two calls sharing the default label list leave it padded for the larger file count |
| MultilayerReader.SamplesAppend | src/rootlab_lib/multilayer_reader.py:151-163 | the samples of two stretches of lines are those of the first followed by those of the second |
| MultilayerReader.SkippedLine | src/rootlab_lib/multilayer_reader.py:154-163 | a line without four fields, or with a field that does not convert, changes no series |
| MultilayerReader.KeptLine | src/rootlab_lib/multilayer_reader.py:157-161 | a good line contributes its sample in its place in file order |
| MultilayerReader.LineSample | src/rootlab_lib/multilayer_reader.py:153-163 | one line gives a sample exactly when its stripped text splits into four fields that all convert, and the sample's top, middle, bottom and time are fields 0..3 converted |
| MultilayerReader.ReadSeries | src/rootlab_lib/multilayer_reader.py:151-163 | the four series have equal length and hold fields 0..3 of the good lines as top, middle, bottom and time, in file order |
| MultilayerReader.WrittenLineFields | src/rootlab_lib/multilayer_reader.py:153 | a line written as four comma-free fields and a newline splits back into those fields |
| MultilayerReader.WrittenLineReads | src/rootlab_lib/multilayer_reader.py:153-161 | a written line of four convertible fields reads back as its sample |
| MultilayerReader.OutputPath | src/rootlab_lib/multilayer_reader.py:179 | the image path is the output name, "_SERIES." and the extension, and the name is recovered from it |
| MultilayerReader.StemNamesPath | src/rootlab_lib/multilayer_reader.py:179 | every path ending in "_SERIES." and the extension is the image path of its stem |
| HeatmapPipeline.HeatmapNeedsPlateaus | src/rootlab_lib/voltage_analysis.py:239-255 | the heatmap fails with IndexError exactly when fewer than 27 values (plateaus plus the optional zero) reach the mapper |
| HeatmapPipeline.HeatmapCellsAboveThreshold | src/rootlab_lib/voltage_analysis.py:239-255 | every heatmap cell is a plateau average above the threshold, except column 0, which holds the prepended zero when there is one |
| Common.Split | src/rootlab_lib/plateau_processing.py:19 | str.split at one character: at least one part, none holding the separator |
| Common.SplitJoin | src/rootlab_lib/plateau_processing.py:19 | splitting the join of parts without the separator gives the parts back |
| Common.JoinSplit | src/rootlab_lib/instron_analysis.py:34 | joining the parts of a split gives the string back |
| Common.TrimStartBounds | src/rootlab_lib/multilayer_reader.py:153 | strip removes only characters of the set from the front and stops at the first other character |
| Common.TrimEndBounds | src/rootlab_lib/multilayer_reader.py:153 | strip removes only characters of the set from the back and stops at the last other character |
| Common.NatToString | src/rootlab_lib/instron_analysis.py:164 | the decimal text of a label number is non-empty, all digits, and starts with `0` only when it is the single digit of zero |
| Common.NatToStringValue | src/rootlab_lib/instron_analysis.py:164 | the text str(n) gives reads back as n |
| Common.NatToStringInjective | src/rootlab_lib/instron_analysis.py:164 | different numbers have different decimal texts |

## Left out

- File access is replaced by parameters. A file is given as its lines or its csv rows. `os.path.isfile` is a boolean `fileExists`. Opening files, `os.makedirs`, timestamped output names, `print` and the written data file itself are not modelled; the writer's output is a string.
- `float()`, `csv.reader`, pandas `to_numeric` and `dropna` are an abstract `parse: string -> Option<real>` over pre-split fields. csv quoting is not modelled.
- Voltages and heights are `real`. IEEE double and float32 rounding are not modelled, and neither is NaN, except as a conversion failure.
- SpatialMapper.LineStats: the spread is the population variance; the square root `np.std` takes is not modelled.
- Vkx150.Heightmap: stops after the two shifts. The tilt correction, the Gaussian, median and bilateral filters and `cv2.normalize` are library numerics and are not modelled. The smoothing passes are not modelled. Their clamped count, `Vkx150.ClampIterations`, stands alone and `Heightmap` does not use it. The value `heightmap` returns is not modelled.
- Vkx150.Heights: ragged rows are taken to make `np.average` raise, as recent numpy does; older numpy built an object array instead.
- Vkx150.Heightmap: an error inside the `try` block is reported with its exception kind, where the source prints it and returns `None`.
- SourceMeter.GatherData: an error inside the `try` block is reported with its exception kind, where the source prints it and returns `None`.
- VoltageReaders.ReadTimedVoltageData: the method appends a line's time before it reads the voltage, as the source does. No contract describes that partial append, because the method then returns `Err` and the partial series are never seen.
- Instron.ReadNumericData: values appended from a row before one of its fields fails are not modelled. The exception leaves the function, so they are never seen.
- Plotting is not modelled. This covers everything matplotlib and the colour bar do, and the plotting halves of `single_stress_strain` and `plot_multiple_stress_strain`, including the reading of each file, which is `ReadNumericData`.
- Regression and R² in voltage_analysis.py are not modelled, and the plotting in dataviz.py is not part of this model.
- Serial acquisition is concurrency and device I/O and is not part of this model. This covers serial_reader.py, `multilayer_reader.gather_data` and arduino.py.
- The tests are not modelled: they only call the I/O entry points.
- HeatmapPipeline: only the composition of reader output, segmenter, optional zero and mapper is modelled; the heatmap drawing is left out.
