/** The plateau segmenter: one left-to-right pass over a voltage series that
    reports the runs of samples above a threshold as `(average, start, end)`
    records, closing a run either when a sample falls to the threshold or
    when the signal drops sharply across the "gap" level. */
module PlateauSegmenter {
  import opened Common

  /** One plateau record `(avg v, start i, end i)`; `end` is inclusive. */
  datatype Plateau = Plateau(avg: real, start: nat, end: nat)

  // ---------------------------------------------------------------------
  // What a record means

  /** Every sample in `samples[lo..hi)` lies strictly above `t`. */
  ghost predicate AllAbove(samples: seq<real>, t: real, lo: nat, hi: nat)
    requires lo <= hi <= |samples|
  {
    forall k :: lo <= k < hi ==> samples[k] > t
  }

  /** A record closed by the threshold exit: the samples `start..end` are
      above the threshold, the sample after `end` is not, the run is long
      enough and `avg` is the mean of exactly those samples. */
  ghost predicate ThresholdRecord(samples: seq<real>, threshold: real, minLen: real, p: Plateau)
  {
    && p.start <= p.end
    && p.end + 1 < |samples|
    && AllAbove(samples, threshold, p.start, p.end + 1)
    && samples[p.end + 1] <= threshold
    && (p.end - p.start + 1) as real >= minLen
    && p.avg == Mean(samples[p.start..p.end + 1])
  }

  /** A record closed by the big-gap break. The closing sample at `end + 1`
      is itself above the threshold but below `minGap`, while its
      predecessor is above `minGap`; it has already been counted, so `avg`
      and the length bar take in `start..end + 1` while the record reports
      `end`. This can only happen when `minGap > threshold`. */
  ghost predicate GapRecord(samples: seq<real>, threshold: real, minLen: real, minGap: real, p: Plateau)
  {
    && p.start <= p.end
    && p.end + 1 < |samples|
    && AllAbove(samples, threshold, p.start, p.end + 2)
    && samples[p.end + 1] < minGap
    && samples[p.end] > minGap
    && (p.end - p.start + 2) as real >= minLen
    && p.avg == Mean(samples[p.start..p.end + 2])
  }

  /** `start..end` is a maximal run of samples above the threshold that is
      closed by a later sample at or below it. */
  ghost predicate ClosedRun(samples: seq<real>, threshold: real, start: nat, end: nat)
  {
    && start <= end
    && end + 1 < |samples|
    && AllAbove(samples, threshold, start, end + 1)
    && (start == 0 || samples[start - 1] <= threshold)
    && samples[end + 1] <= threshold
  }

  /** Records appear in discovery order, and between two records at least
      one sample (the one that closed the first) belongs to neither. */
  ghost predicate Ordered(plateaus: seq<Plateau>)
  {
    forall k :: 0 <= k < |plateaus| - 1 ==> plateaus[k].end + 2 <= plateaus[k + 1].start
  }

  ghost predicate Reports(plateaus: seq<Plateau>, start: nat, end: nat)
  {
    exists k :: 0 <= k < |plateaus| && plateaus[k].start == start && plateaus[k].end == end
  }

  // ---------------------------------------------------------------------
  // The scan, one sample at a time

  /** The loop state of `find_plateaus`: the records so far and the open
      plateau (`plateau_start`, `plateau_sum`, `plateau_length`). */
  datatype ScanState = ScanState(plateaus: seq<Plateau>, start: Option<nat>, sum: real, len: nat)

  /** After `i` samples an open plateau started before `i` and has counted
      at least one sample. */
  predicate Shaped(i: nat, st: ScanState)
  {
    st.start.Some? ==> st.start.value < i && st.len > 0
  }

  /** The emit-or-discard step both close conditions share: a run of `len`
      samples starting at `start` is reported with average `sum / len` and
      the given `end` when it reaches `minLen`, and dropped otherwise. */
  function Close(plateaus: seq<Plateau>, sum: real, len: nat, start: nat, end: nat, minLen: real): seq<Plateau>
    requires len > 0
  {
    if len as real >= minLen then plateaus + [Plateau(sum / len as real, start, end)] else plateaus
  }

  /** The threshold test on sample `i`: a sample above the threshold opens a
      plateau or extends the open one; any other sample closes the open
      plateau, if there is one. */
  function ThresholdTest(samples: seq<real>, threshold: real, minLen: real, i: nat, st: ScanState): (r: ScanState)
    requires i < |samples| && Shaped(i, st)
    ensures Shaped(i + 1, r)
    ensures r.start.Some? <==> samples[i] > threshold
    ensures st.start.Some? && r.start.Some? ==> r.start == st.start
  {
    if samples[i] > threshold then
      ScanState(st.plateaus, Some(if st.start.Some? then st.start.value else i), st.sum + samples[i], st.len + 1)
    else if st.start.Some? then
      ScanState(Close(st.plateaus, st.sum, st.len, st.start.value, i - 1, minLen), None, 0.0, 0)
    else
      st
  }

  /** The big-gap test on sample `i`, made after the threshold test: a drop
      from above `minGap` to below it closes a plateau that is still open. */
  function GapTest(samples: seq<real>, minLen: real, minGap: real, i: nat, st: ScanState): (r: ScanState)
    requires i < |samples| && Shaped(i + 1, st)
    ensures Shaped(i + 1, r)
  {
    if i > 0 && samples[i] < minGap && samples[i - 1] > minGap && st.start.Some? then
      ScanState(Close(st.plateaus, st.sum, st.len, st.start.value, i - 1, minLen), None, 0.0, 0)
    else
      st
  }

  /** The loop state after the first `n` samples. */
  function ScanTo(samples: seq<real>, threshold: real, minLen: real, minGap: real, n: nat): (r: ScanState)
    requires n <= |samples|
    ensures Shaped(n, r)
    decreases n
  {
    if n == 0 then ScanState([], None, 0.0, 0)
    else
      var st := ScanTo(samples, threshold, minLen, minGap, n - 1);
      GapTest(samples, minLen, minGap, n - 1, ThresholdTest(samples, threshold, minLen, n - 1, st))
  }

  /** What `find_plateaus` returns: the records of the scan over all samples.
      A plateau still open at the end is not among them. */
  function Plateaus(samples: seq<real>, threshold: real, minLen: real, minGap: real): seq<Plateau>
  {
    ScanTo(samples, threshold, minLen, minGap, |samples|).plateaus
  }

  /** `find_plateaus(voltage_data, threshold, min_plateau_length,
      min_gap_length)`, statement for statement. In general every record is
      a threshold-exit or a big-gap record, in discovery order; when
      `minGap <= threshold` the gap branch is dead and the records are
      exactly the closed maximal runs above the threshold that are at least
      `minLen` long, each with the mean of its samples. */
  method FindPlateaus(samples: seq<real>, threshold: real, minLen: real, minGap: real)
    returns (plateaus: seq<Plateau>)
    ensures plateaus == Plateaus(samples, threshold, minLen, minGap)
    ensures forall k :: 0 <= k < |plateaus| ==>
      ThresholdRecord(samples, threshold, minLen, plateaus[k])
      || GapRecord(samples, threshold, minLen, minGap, plateaus[k])
    ensures Ordered(plateaus)
    ensures minGap <= threshold ==> forall k :: 0 <= k < |plateaus| ==>
      ThresholdRecord(samples, threshold, minLen, plateaus[k])
      && ClosedRun(samples, threshold, plateaus[k].start, plateaus[k].end)
    ensures minGap <= threshold ==> forall s: nat, e: nat ::
      ClosedRun(samples, threshold, s, e) && (e - s + 1) as real >= minLen ==> Reports(plateaus, s, e)
  {
    plateaus := [];
    var start: Option<nat> := None;
    var sum := 0.0;
    var len: nat := 0;
    var i := 0;
    while i < |samples|
      invariant 0 <= i <= |samples|
      invariant ScanState(plateaus, start, sum, len) == ScanTo(samples, threshold, minLen, minGap, i)
    {
      ghost var st := ScanTo(samples, threshold, minLen, minGap, i);
      var voltage := samples[i];
      if voltage > threshold {
        if start.None? {
          start := Some(i);
        }
        sum := sum + voltage;
        len := len + 1;
      } else if start.Some? {
        if len as real >= minLen {
          plateaus := plateaus + [Plateau(sum / len as real, start.value, i - 1)];
        }
        start := None;
        sum := 0.0;
        len := 0;
      }
      assert ScanState(plateaus, start, sum, len) == ThresholdTest(samples, threshold, minLen, i, st);

      // Python reads voltage_data[i - 1] even at i == 0 (the last sample);
      // the `i > 0` test below makes that value irrelevant.
      var previous := samples[if i == 0 then |samples| - 1 else i - 1];
      var bigEnough := voltage < minGap && previous > minGap;
      if i > 0 && bigEnough && start.Some? {
        if len as real >= minLen {
          plateaus := plateaus + [Plateau(sum / len as real, start.value, i - 1)];
        }
        start := None;
        sum := 0.0;
        len := 0;
      }
      i := i + 1;
    }
    PlateausSound(samples, threshold, minLen, minGap);
    if minGap <= threshold {
      PlateausCleanRegime(samples, threshold, minLen, minGap);
    }
  }

  // ---------------------------------------------------------------------
  // Properties of the scan

  /** The open plateau after `i` samples holds `samples[start..i)`, all
      above the threshold, with their sum and count; with none open the
      accumulators are zero. */
  ghost predicate Accumulating(samples: seq<real>, threshold: real, i: nat, st: ScanState)
    requires i <= |samples|
  {
    if st.start.Some? then
      && st.start.value < i
      && st.len == i - st.start.value
      && st.sum == Sum(samples[st.start.value..i])
      && AllAbove(samples, threshold, st.start.value, i)
    else
      st.len == 0 && st.sum == 0.0
  }

  lemma SumExtend(samples: seq<real>, lo: nat, hi: nat)
    requires lo <= hi < |samples|
    ensures Sum(samples[lo..hi + 1]) == Sum(samples[lo..hi]) + samples[hi]
  {
    assert samples[lo..hi + 1] == samples[lo..hi] + [samples[hi]];
    SumAppend(samples[lo..hi], samples[hi]);
  }

  /** The open plateau's sum and count track its samples after every prefix. */
  lemma {:induction false} ScanAccumulating(samples: seq<real>, threshold: real, minLen: real, minGap: real, n: nat)
    requires n <= |samples|
    ensures Accumulating(samples, threshold, n, ScanTo(samples, threshold, minLen, minGap, n))
    decreases n
  {
    if n > 0 {
      var i := n - 1;
      var st := ScanTo(samples, threshold, minLen, minGap, i);
      ScanAccumulating(samples, threshold, minLen, minGap, i);
      ThresholdAccumulating(samples, threshold, minLen, i, st);
    }
  }

  /** The threshold test keeps the accumulators in step with the open
      plateau. */
  lemma ThresholdAccumulating(samples: seq<real>, threshold: real, minLen: real, i: nat, st: ScanState)
    requires i < |samples| && Shaped(i, st) && Accumulating(samples, threshold, i, st)
    ensures Accumulating(samples, threshold, i + 1, ThresholdTest(samples, threshold, minLen, i, st))
  {
    if samples[i] > threshold {
      var s := if st.start.Some? then st.start.value else i;
      SumExtend(samples, s, i);
      assert st.start.None? ==> samples[s..i] == [];
    }
  }

  /** The records reported from the first `i` samples: each one is a
      threshold-exit or a big-gap record whose closing sample was among
      those `i`, in discovery order. */
  ghost predicate RecordsSound(samples: seq<real>, threshold: real, minLen: real, minGap: real, i: nat, ps: seq<Plateau>)
  {
    && (forall k :: 0 <= k < |ps| ==> ps[k].end + 2 <= i)
    && (forall k :: 0 <= k < |ps| ==>
          ThresholdRecord(samples, threshold, minLen, ps[k])
          || GapRecord(samples, threshold, minLen, minGap, ps[k]))
    && Ordered(ps)
  }

  /** What holds of the scan state after `i` samples: its records are
      sound, an open plateau starts after the last record, and a sample
      above both the threshold and `minGap` leaves a plateau open. */
  ghost predicate Sound(samples: seq<real>, threshold: real, minLen: real, minGap: real, i: nat, st: ScanState)
  {
    && RecordsSound(samples, threshold, minLen, minGap, i, st.plateaus)
    && (|st.plateaus| > 0 && st.start.Some? ==> st.plateaus[|st.plateaus| - 1].end + 2 <= st.start.value)
    && (0 < i <= |samples| && samples[i - 1] > threshold && samples[i - 1] >= minGap ==> st.start.Some?)
  }

  /** Appending a sound record after the last one keeps the records sound. */
  lemma AppendSound(samples: seq<real>, threshold: real, minLen: real, minGap: real,
                    i: nat, ps: seq<Plateau>, p: Plateau)
    requires RecordsSound(samples, threshold, minLen, minGap, i, ps)
    requires ThresholdRecord(samples, threshold, minLen, p) || GapRecord(samples, threshold, minLen, minGap, p)
    requires p.end + 2 <= i
    requires |ps| > 0 ==> ps[|ps| - 1].end + 2 <= p.start
    ensures RecordsSound(samples, threshold, minLen, minGap, i, ps + [p])
  {
    var ps' := ps + [p];
    forall k | 0 <= k < |ps'|
      ensures ps'[k].end + 2 <= i
      ensures ThresholdRecord(samples, threshold, minLen, ps'[k]) || GapRecord(samples, threshold, minLen, minGap, ps'[k])
    {
      if k < |ps| { assert ps'[k] == ps[k]; }
    }
  }

  /** The record the threshold test reports at `i` is a threshold record. */
  lemma ThresholdRecordAt(samples: seq<real>, threshold: real, minLen: real, i: nat, st: ScanState)
    requires i < |samples| && samples[i] <= threshold
    requires Accumulating(samples, threshold, i, st)
    requires st.start.Some? && st.len as real >= minLen
    ensures ThresholdRecord(samples, threshold, minLen, Plateau(st.sum / st.len as real, st.start.value, i - 1))
  {
    var s := st.start.value;
    assert samples[s..(i - 1) + 1] == samples[s..i];
  }

  /** The record the big-gap test reports at `i` is a big-gap record. */
  lemma GapRecordAt(samples: seq<real>, threshold: real, minLen: real, minGap: real, i: nat, st: ScanState)
    requires 0 < i < |samples| && Accumulating(samples, threshold, i + 1, st)
    requires samples[i] < minGap && samples[i - 1] > minGap
    requires st.start.Some? && st.start.value < i && st.len as real >= minLen
    ensures GapRecord(samples, threshold, minLen, minGap, Plateau(st.sum / st.len as real, st.start.value, i - 1))
  {
    var s := st.start.value;
    assert samples[s..(i - 1) + 2] == samples[s..i + 1];
  }

  /** The threshold test keeps the records sound. */
  lemma ThresholdTestSound(samples: seq<real>, threshold: real, minLen: real, minGap: real, i: nat, st: ScanState)
    requires i < |samples| && Shaped(i, st) && Accumulating(samples, threshold, i, st)
    requires Sound(samples, threshold, minLen, minGap, i, st)
    ensures var r := ThresholdTest(samples, threshold, minLen, i, st);
      && RecordsSound(samples, threshold, minLen, minGap, i + 1, r.plateaus)
      && (|r.plateaus| > 0 && r.start.Some? ==> r.plateaus[|r.plateaus| - 1].end + 2 <= r.start.value)
  {
    if samples[i] <= threshold && st.start.Some? {
      ThresholdCloseSound(samples, threshold, minLen, minGap, i, st);
    }
  }

  /** When the threshold test closes the open plateau, the records it
      leaves are sound. */
  lemma ThresholdCloseSound(samples: seq<real>, threshold: real, minLen: real, minGap: real, i: nat, st: ScanState)
    requires i < |samples| && Shaped(i, st) && Accumulating(samples, threshold, i, st)
    requires Sound(samples, threshold, minLen, minGap, i, st)
    requires samples[i] <= threshold && st.start.Some?
    ensures RecordsSound(samples, threshold, minLen, minGap, i + 1,
                         Close(st.plateaus, st.sum, st.len, st.start.value, i - 1, minLen))
  {
    if st.len as real >= minLen {
      ThresholdRecordAt(samples, threshold, minLen, i, st);
      AppendSound(samples, threshold, minLen, minGap, i + 1, st.plateaus,
                  Plateau(st.sum / st.len as real, st.start.value, i - 1));
    } else {
      assert forall k :: 0 <= k < |st.plateaus| ==> st.plateaus[k].end + 2 <= i + 1;
    }
  }

  /** The big-gap test keeps the records sound. The sample before `i` is
      above `minGap`, and (when the test fires) so above the threshold, so
      the plateau it closes opened before `i`. */
  lemma GapTestSound(samples: seq<real>, threshold: real, minLen: real, minGap: real, i: nat, st: ScanState)
    requires i < |samples| && Shaped(i + 1, st) && Accumulating(samples, threshold, i + 1, st)
    requires RecordsSound(samples, threshold, minLen, minGap, i + 1, st.plateaus)
    requires |st.plateaus| > 0 && st.start.Some? ==> st.plateaus[|st.plateaus| - 1].end + 2 <= st.start.value
    requires st.start.Some? <==> samples[i] > threshold
    requires i > 0 && samples[i - 1] > threshold && samples[i - 1] >= minGap && st.start.Some? ==> st.start.value < i
    ensures Sound(samples, threshold, minLen, minGap, i + 1, GapTest(samples, minLen, minGap, i, st))
  {
    if i > 0 && samples[i] < minGap && samples[i - 1] > minGap && st.start.Some? {
      GapCloseSound(samples, threshold, minLen, minGap, i, st);
    }
  }

  /** When the big-gap test fires, the records it leaves are sound. */
  lemma GapCloseSound(samples: seq<real>, threshold: real, minLen: real, minGap: real, i: nat, st: ScanState)
    requires 0 < i < |samples| && Shaped(i + 1, st) && Accumulating(samples, threshold, i + 1, st)
    requires RecordsSound(samples, threshold, minLen, minGap, i + 1, st.plateaus)
    requires |st.plateaus| > 0 && st.start.Some? ==> st.plateaus[|st.plateaus| - 1].end + 2 <= st.start.value
    requires samples[i] < minGap && samples[i - 1] > minGap && st.start.Some? && st.start.value < i
    ensures RecordsSound(samples, threshold, minLen, minGap, i + 1,
                         Close(st.plateaus, st.sum, st.len, st.start.value, i - 1, minLen))
  {
    if st.len as real >= minLen {
      GapRecordAt(samples, threshold, minLen, minGap, i, st);
      AppendSound(samples, threshold, minLen, minGap, i + 1, st.plateaus,
                  Plateau(st.sum / st.len as real, st.start.value, i - 1));
    }
  }

  /** Soundness holds after every prefix of the samples. */
  lemma {:induction false} ScanSound(samples: seq<real>, threshold: real, minLen: real, minGap: real, n: nat)
    requires n <= |samples|
    ensures Sound(samples, threshold, minLen, minGap, n, ScanTo(samples, threshold, minLen, minGap, n))
    decreases n
  {
    if n > 0 {
      var i := n - 1;
      var st := ScanTo(samples, threshold, minLen, minGap, i);
      ScanSound(samples, threshold, minLen, minGap, i);
      ScanAccumulating(samples, threshold, minLen, minGap, i);
      ThresholdTestSound(samples, threshold, minLen, minGap, i, st);
      var mid := ThresholdTest(samples, threshold, minLen, i, st);
      ThresholdAccumulating(samples, threshold, minLen, i, st);
      GapTestSound(samples, threshold, minLen, minGap, i, mid);
    }
  }

  /** The extra facts that hold when `minGap <= threshold`: an open plateau
      starts a maximal run, a closed state follows a low sample, every
      record is a long enough maximal run closed before `i`, and every long
      enough maximal run closed before `i` is recorded. */
  ghost predicate Clean(samples: seq<real>, threshold: real, minLen: real, i: nat, st: ScanState)
    requires i <= |samples|
  {
    && (st.start.Some? ==>
          st.start.value < |samples| && (st.start.value == 0 || samples[st.start.value - 1] <= threshold))
    && (st.start.None? ==> i == 0 || samples[i - 1] <= threshold)
    && (forall k :: 0 <= k < |st.plateaus| ==>
          && ClosedRun(samples, threshold, st.plateaus[k].start, st.plateaus[k].end)
          && st.plateaus[k].end + 1 < i
          && (st.plateaus[k].end - st.plateaus[k].start + 1) as real >= minLen)
    && (forall s: nat, e: nat ::
          ClosedRun(samples, threshold, s, e) && e + 1 < i && (e - s + 1) as real >= minLen ==> Reports(st.plateaus, s, e))
  }

  /** A run above the threshold ending at `end` has only one possible start. */
  lemma RunStartUnique(samples: seq<real>, threshold: real, s1: nat, s2: nat, end: nat)
    requires s1 <= end && s2 <= end && end < |samples|
    requires AllAbove(samples, threshold, s1, end + 1) && AllAbove(samples, threshold, s2, end + 1)
    requires s1 == 0 || samples[s1 - 1] <= threshold
    requires s2 == 0 || samples[s2 - 1] <= threshold
    ensures s1 == s2
  {
  }

  /** The completeness invariant survives the threshold test at index `i`:
      a run already reported stays reported, and the only runs newly closed
      (those ending at `i - 1`) start where the open plateau did. */
  lemma ThresholdStepComplete(samples: seq<real>, threshold: real, minLen: real,
                              before: seq<Plateau>, after: seq<Plateau>, openAt: Option<nat>, i: nat)
    requires i < |samples|
    requires before <= after
    requires openAt.Some? ==> openAt.value < i && AllAbove(samples, threshold, openAt.value, i)
    requires openAt.Some? ==> openAt.value == 0 || samples[openAt.value - 1] <= threshold
    requires openAt.None? ==> i == 0 || samples[i - 1] <= threshold
    requires openAt.Some? && samples[i] <= threshold && (i - openAt.value) as real >= minLen ==>
      |after| > 0 && after[|after| - 1].start == openAt.value && after[|after| - 1].end == i - 1
    requires forall s: nat, e: nat ::
      ClosedRun(samples, threshold, s, e) && e + 1 < i && (e - s + 1) as real >= minLen ==> Reports(before, s, e)
    ensures forall s: nat, e: nat ::
      ClosedRun(samples, threshold, s, e) && e + 1 < i + 1 && (e - s + 1) as real >= minLen ==> Reports(after, s, e)
  {
    forall s: nat, e: nat | ClosedRun(samples, threshold, s, e) && e + 1 < i + 1 && (e - s + 1) as real >= minLen
      ensures Reports(after, s, e)
    {
      if e + 1 < i {
        var k :| 0 <= k < |before| && before[k].start == s && before[k].end == e;
        assert after[k] == before[k];
      } else {
        assert samples[i - 1] > threshold;
        RunStartUnique(samples, threshold, s, openAt.value, e);
        assert after[|after| - 1].start == s && after[|after| - 1].end == e;
      }
    }
  }

  /** When `minGap <= threshold` the clean-regime facts survive a whole
      step, and the big-gap test never fires. */
  lemma CleanStep(samples: seq<real>, threshold: real, minLen: real, minGap: real, i: nat, st: ScanState)
    requires minGap <= threshold
    requires i < |samples| && Shaped(i, st) && Accumulating(samples, threshold, i, st)
    requires Clean(samples, threshold, minLen, i, st)
    ensures var mid := ThresholdTest(samples, threshold, minLen, i, st);
      GapTest(samples, minLen, minGap, i, mid) == mid
    ensures Clean(samples, threshold, minLen, i + 1, ThresholdTest(samples, threshold, minLen, i, st))
  {
    var r := ThresholdTest(samples, threshold, minLen, i, st);
    if samples[i] <= threshold && st.start.Some? && st.len as real >= minLen {
      var s := st.start.value;
      assert r.plateaus == st.plateaus + [Plateau(st.sum / st.len as real, s, i - 1)];
      assert ClosedRun(samples, threshold, s, i - 1);
      forall k | 0 <= k < |r.plateaus|
        ensures ClosedRun(samples, threshold, r.plateaus[k].start, r.plateaus[k].end)
        ensures r.plateaus[k].end + 1 < i + 1
        ensures (r.plateaus[k].end - r.plateaus[k].start + 1) as real >= minLen
      {
        if k < |st.plateaus| { assert r.plateaus[k] == st.plateaus[k]; }
      }
    }
    ThresholdStepComplete(samples, threshold, minLen, st.plateaus, r.plateaus, st.start, i);
  }

  /** The clean-regime facts hold after every prefix of the samples. */
  lemma {:induction false} ScanClean(samples: seq<real>, threshold: real, minLen: real, minGap: real, n: nat)
    requires minGap <= threshold
    requires n <= |samples|
    ensures Clean(samples, threshold, minLen, n, ScanTo(samples, threshold, minLen, minGap, n))
    decreases n
  {
    if n > 0 {
      var i := n - 1;
      ScanClean(samples, threshold, minLen, minGap, i);
      ScanAccumulating(samples, threshold, minLen, minGap, i);
      CleanStep(samples, threshold, minLen, minGap, i, ScanTo(samples, threshold, minLen, minGap, i));
    }
  }

  /** Every record is a threshold-exit or a big-gap record, and the records
      come in discovery order with at least one sample between them. Since
      each record's closing sample `end + 1` lies inside the series, a
      plateau still open at the end of the series is never reported. */
  lemma PlateausSound(samples: seq<real>, threshold: real, minLen: real, minGap: real)
    ensures var ps := Plateaus(samples, threshold, minLen, minGap);
      && (forall k :: 0 <= k < |ps| ==>
            ThresholdRecord(samples, threshold, minLen, ps[k])
            || GapRecord(samples, threshold, minLen, minGap, ps[k]))
      && Ordered(ps)
  {
    ScanSound(samples, threshold, minLen, minGap, |samples|);
  }

  /** When `minGap <= threshold` (the recommended 0.01 and 0.05, say) the
      records are exactly the maximal runs above the threshold that a later
      sample closes and that are at least `minLen` long, each averaged over
      its own samples. */
  lemma PlateausCleanRegime(samples: seq<real>, threshold: real, minLen: real, minGap: real)
    requires minGap <= threshold
    ensures var ps := Plateaus(samples, threshold, minLen, minGap);
      && (forall k :: 0 <= k < |ps| ==>
            ThresholdRecord(samples, threshold, minLen, ps[k])
            && ClosedRun(samples, threshold, ps[k].start, ps[k].end))
      && (forall s: nat, e: nat ::
            ClosedRun(samples, threshold, s, e) && (e - s + 1) as real >= minLen ==> Reports(ps, s, e))
  {
    PlateausSound(samples, threshold, minLen, minGap);
    ScanClean(samples, threshold, minLen, minGap, |samples|);
  }

  /** An empty series has no plateaus. */
  lemma EmptySeries(threshold: real, minLen: real, minGap: real)
    ensures Plateaus([], threshold, minLen, minGap) == []
  {
  }

  /** Every record's average exceeds the threshold, whichever condition
      closed it: it is the mean of samples that all lie above the threshold. */
  lemma AveragesAboveThreshold(samples: seq<real>, threshold: real, minLen: real, minGap: real)
    ensures var ps := Plateaus(samples, threshold, minLen, minGap);
      forall k :: 0 <= k < |ps| ==> ps[k].avg > threshold
  {
    var ps := Plateaus(samples, threshold, minLen, minGap);
    PlateausSound(samples, threshold, minLen, minGap);
    forall k | 0 <= k < |ps| ensures ps[k].avg > threshold {
      var p := ps[k];
      var hi := if ThresholdRecord(samples, threshold, minLen, p) then p.end + 1 else p.end + 2;
      var run := samples[p.start..hi];
      assert forall j :: 0 <= j < |run| ==> run[j] == samples[p.start + j];
      MeanAbove(run, threshold);
    }
  }

  // ---------------------------------------------------------------------
  // plateau_analysis

  /** `plateau_analysis(plateaus)`: the number of records and their averages,
      in record order (the optional printing is left out). */
  function PlateauAnalysis(plateaus: seq<Plateau>): (r: (nat, seq<real>))
  {
    (|plateaus|, seq(|plateaus|, k requires 0 <= k < |plateaus| => plateaus[k].avg))
  }

  /** The projected averages of a scan: one per record, in record order,
      each above the threshold. */
  lemma AnalysisOfScan(samples: seq<real>, threshold: real, minLen: real, minGap: real)
    ensures var ps := Plateaus(samples, threshold, minLen, minGap);
      var (count, avgs) := PlateauAnalysis(ps);
      && count == |ps| == |avgs|
      && forall k :: 0 <= k < count ==> avgs[k] == ps[k].avg && avgs[k] > threshold
  {
    AveragesAboveThreshold(samples, threshold, minLen, minGap);
  }
}
