/** The heatmap pipeline: the voltage series is cut into plateaus, their
    averages (with an optional leading zero) are laid out on the top-sensor
    grid, and that grid is what the heatmap shows. */
module HeatmapPipeline {
  import opened Common
  import PlateauSegmenter
  import SpatialMapper

  /** The averages the heatmap is drawn from: one per plateau, in plateau
      order, after a zero when `prependZero` is set. */
  function HeatmapValues(samples: seq<real>, threshold: real, minLen: real, minGap: real,
                         prependZero: bool): seq<real>
  {
    var averages := PlateauSegmenter.PlateauAnalysis(PlateauSegmenter.Plateaus(samples, threshold, minLen, minGap)).1;
    if prependZero then [0.0] + averages else averages
  }

  /** The grid handed to the heatmap: the top-sensor layout of the
      averages. */
  function HeatmapGrid(samples: seq<real>, threshold: real, minLen: real, minGap: real,
                       prependZero: bool): Result<seq<seq<real>>>
  {
    match SpatialMapper.Analyze(HeatmapValues(samples, threshold, minLen, minGap, prependZero), "T")
    case Err(e) => Err(e)
    case Ok(a) => Ok(a.grid)
  }

  /** The heatmap needs 27 values: fewer plateaus than that (counting the
      leading zero) make the mapper raise `IndexError`. */
  lemma HeatmapNeedsPlateaus(samples: seq<real>, threshold: real, minLen: real, minGap: real, prependZero: bool)
    ensures var count := |PlateauSegmenter.Plateaus(samples, threshold, minLen, minGap)| + (if prependZero then 1 else 0);
      && (HeatmapGrid(samples, threshold, minLen, minGap, prependZero).Err? <==> count < 27)
      && (count < 27 ==> HeatmapGrid(samples, threshold, minLen, minGap, prependZero) == Err(IndexError))
  {
    SpatialMapper.ShortListFails(HeatmapValues(samples, threshold, minLen, minGap, prependZero), "T");
  }

  /** Every cell of the heatmap is a plateau average and so lies above the
      threshold, except the first column when a zero is prepended, which
      then holds that zero. */
  lemma HeatmapCellsAboveThreshold(samples: seq<real>, threshold: real, minLen: real, minGap: real, prependZero: bool)
    requires HeatmapGrid(samples, threshold, minLen, minGap, prependZero).Ok?
    ensures var grid := HeatmapGrid(samples, threshold, minLen, minGap, prependZero).value;
      && SpatialMapper.IsGrid(grid, 5, 7)
      && (forall r, c :: 0 <= r < 5 && 1 <= c < 7 ==> grid[r][c] > threshold)
      && (forall r :: 0 <= r < 5 ==> if prependZero then grid[r][0] == 0.0 else grid[r][0] > threshold)
  {
    var values := HeatmapValues(samples, threshold, minLen, minGap, prependZero);
    var ps := PlateauSegmenter.Plateaus(samples, threshold, minLen, minGap);
    var averages := PlateauSegmenter.PlateauAnalysis(ps).1;
    PlateauSegmenter.AnalysisOfScan(samples, threshold, minLen, minGap);
    assert |values| >= 27;
    SpatialMapper.TopLayout(values);
    assert forall j :: 0 <= j < |values| && (j > 0 || !prependZero) ==> values[j] > threshold by {
      forall j | 0 <= j < |values| && (j > 0 || !prependZero)
        ensures values[j] > threshold
      {
        if prependZero {
          assert values[j] == averages[j - 1];
        } else {
          assert values[j] == averages[j];
        }
      }
    }
  }
}
