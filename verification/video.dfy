/** The video analyzer: frame sampling, four groups of threshold rules over
    per-frame measurements, the merge, and the score with the video weight
    table.

    The OpenCV measurements of a decoded frame (Laplacian variance, per
    channel mean and standard deviation, Canny edge density) and the mean
    absolute difference between two frames are inputs; the means, variances
    and maxima over the sampled frames are computed here. */
module Video {
  import opened Wrappers
  import opened Anomalies
  import opened Stats
  import opened Scoring
  import opened Paths
  import opened Report
  import opened Sampling

  const SupportedFormats: set<string> := {".mp4", ".avi", ".mov", ".mkv", ".flv", ".wmv", ".webm"}

  /** Default of the `sample_frames` constructor argument. */
  const DefaultSampleFrames: nat := 30

  const QualityNames: set<Name> := {SharpnessAnomaly, LowSharpnessAnomaly}
  const TemporalNames: set<Name> := {TemporalConsistencyAnomaly, TemporalJumpAnomaly}
  const ColorNames: set<Name> := {ColorDistributionAnomaly, ColorBalanceAnomaly}
  const EdgeNames: set<Name> := {EdgeConsistencyAnomaly, LowEdgeDensityAnomaly}

  /** `VideoAnalyzer(verbose, sample_frames)`. */
  datatype VideoAnalyzer = VideoAnalyzer(verbose: bool, sampleFrames: nat)

  /** One value per colour channel, in OpenCV's B, G, R order. */
  datatype Bgr = Bgr(b: NonNegReal, g: NonNegReal, r: NonNegReal)

  /** The measurements taken of one decoded frame; none of them is negative. */
  datatype FrameStats = FrameStats(
    sharpness: NonNegReal,     // variance of the Laplacian of the grey image
    channelMeans: Bgr,         // np.mean of each channel
    channelStds: Bgr,          // np.std of each channel
    edgeDensity: NonNegReal)   // fraction of Canny edge pixels

  /** The outcome of `cv2.VideoCapture` on the file: either it does not open,
      or it reports a frame count and yields, for a frame index, that frame's
      measurements and, for two frame indices, the mean absolute difference of
      their grey images. */
  datatype VideoSource =
    | Unopenable
    | Opened(frameCount: int, frame: int -> FrameStats, diff: (int, int) -> NonNegReal)

  /** `supports_file`: the lower-cased suffix is one of the video formats. */
  predicate SupportsFile(f: FileRef)
  {
    Lower(f.suffix) in SupportedFormats
  }

  // ---------------------------------------------------------------------
  // Per-frame series
  // ---------------------------------------------------------------------

  function Sharpness(frames: seq<FrameStats>): (s: seq<real>)
    ensures |s| == |frames| && forall i :: 0 <= i < |s| ==> s[i] == frames[i].sharpness
  {
    seq(|frames|, i requires 0 <= i < |frames| => frames[i].sharpness)
  }

  function EdgeDensities(frames: seq<FrameStats>): (s: seq<real>)
    ensures |s| == |frames| && forall i :: 0 <= i < |s| ==> s[i] == frames[i].edgeDensity
  {
    seq(|frames|, i requires 0 <= i < |frames| => frames[i].edgeDensity)
  }

  /** The list the colour loop appends to: B, G and R of the first frame,
      then of the second, and so on. */
  function Flatten(values: seq<Bgr>): (s: seq<real>)
    ensures |s| == 3 * |values|
  {
    if |values| == 0 then []
    else Flatten(values[..|values| - 1])
         + [values[|values| - 1].b, values[|values| - 1].g, values[|values| - 1].r]
  }

  function Means(frames: seq<FrameStats>): (s: seq<Bgr>)
    ensures |s| == |frames| && forall i :: 0 <= i < |s| ==> s[i] == frames[i].channelMeans
  {
    seq(|frames|, i requires 0 <= i < |frames| => frames[i].channelMeans)
  }

  function Stds(frames: seq<FrameStats>): (s: seq<Bgr>)
    ensures |s| == |frames| && forall i :: 0 <= i < |s| ==> s[i] == frames[i].channelStds
  {
    seq(|frames|, i requires 0 <= i < |frames| => frames[i].channelStds)
  }

  /** `channel_avgs`: each channel's mean averaged over the frames. */
  function ChannelAverages(frames: seq<FrameStats>): (s: seq<real>)
    requires |frames| > 0
    ensures |s| == 3
  {
    var m := Means(frames);
    [ Mean(seq(|m|, i requires 0 <= i < |m| => m[i].b)),
      Mean(seq(|m|, i requires 0 <= i < |m| => m[i].g)),
      Mean(seq(|m|, i requires 0 <= i < |m| => m[i].r)) ]
  }

  // ---------------------------------------------------------------------
  // The threshold rules. Over an empty list numpy's mean is NaN and every
  // comparison with NaN is false, so no rule fires without data. Rules on
  // a standard deviation compare the variance with the squared threshold.
  // ---------------------------------------------------------------------

  /** `std_sharpness < 10 and mean_sharpness > 50` */
  predicate UniformSharpness(s: seq<real>)
  {
    |s| > 0 && Variance(s) < 100.0 && Mean(s) > 50.0
  }

  /** `mean_sharpness < 30` */
  predicate LowSharpness(s: seq<real>)
  {
    |s| > 0 && Mean(s) < 30.0
  }

  /** `std_diff < 1.0 and mean_diff > 5` */
  predicate SteadyChange(diffs: seq<real>)
  {
    |diffs| > 0 && Variance(diffs) < 1.0 && Mean(diffs) > 5.0
  }

  /** `max_diff > mean_diff * 5` */
  predicate TemporalJump(diffs: seq<real>)
  {
    |diffs| > 0 && Max(diffs) > Mean(diffs) * 5.0
  }

  /** `overall_std < 20`, the channel standard deviations averaged over all
      frames and channels. */
  predicate LowColorVariation(frames: seq<FrameStats>)
  {
    |frames| > 0 && Mean(Flatten(Stds(frames))) < 20.0
  }

  /** `channel_imbalance > 30`, the spread of the three channel averages. */
  predicate ChannelImbalance(frames: seq<FrameStats>)
  {
    |frames| > 0 && Variance(ChannelAverages(frames)) > 900.0
  }

  /** `std_density < 0.001` */
  predicate ConsistentEdges(s: seq<real>)
  {
    |s| > 0 && Variance(s) < 0.000001
  }

  /** `mean_density < 0.02` */
  predicate LowEdgeDensity(s: seq<real>)
  {
    |s| > 0 && Mean(s) < 0.02
  }

  // ---------------------------------------------------------------------
  // The four groups
  // ---------------------------------------------------------------------

  /** `_analyze_frame_quality` over the sharpness of each sampled frame. */
  function QualityGroup(sharpness: seq<real>): (r: AnomalyMap)
    ensures Within(r, QualityNames)
    ensures SharpnessAnomaly in r <==> UniformSharpness(sharpness)
    ensures LowSharpnessAnomaly in r <==> LowSharpness(sharpness)
  {
    if |sharpness| == 0 then map[]
    else
      var mean := Mean(sharpness);
      var variance := Variance(sharpness);
      var uniform: AnomalyMap :=
        if variance < 100.0 && mean > 50.0 then
          map[SharpnessAnomaly := Found(
            "Unnaturally consistent sharpness across frames",
            map["mean" := Real(mean), "std" := RootOf(variance)])]
        else map[];
      if mean < 30.0 then
        uniform[LowSharpnessAnomaly := Found(
          "Unusually low overall sharpness", map["mean" := Real(mean)])]
      else uniform
  }

  /** `_analyze_temporal_consistency` over the differences between
      consecutive sampled frames; the list is empty exactly when fewer than
      two frames were sampled, where the source returns early. */
  function TemporalGroup(diffs: seq<real>): (r: AnomalyMap)
    ensures Within(r, TemporalNames)
    ensures |diffs| == 0 ==> r == map[]
    ensures TemporalConsistencyAnomaly in r <==> SteadyChange(diffs)
    ensures TemporalJumpAnomaly in r <==> TemporalJump(diffs)
  {
    if |diffs| == 0 then map[]
    else
      var mean := Mean(diffs);
      var variance := Variance(diffs);
      var steady: AnomalyMap :=
        if variance < 1.0 && mean > 5.0 then
          map[TemporalConsistencyAnomaly := Found(
            "Suspiciously consistent temporal changes",
            map["mean_diff" := Real(mean), "std_diff" := RootOf(variance)])]
        else map[];
      var maxDiff := Max(diffs);
      if maxDiff > mean * 5.0 then
        steady[TemporalJumpAnomaly := Found(
          "Unusual temporal discontinuities detected",
          map["max_diff" := Real(maxDiff), "mean_diff" := Real(mean)])]
      else steady
  }

  /** `_analyze_color_distribution` */
  function ColorGroup(frames: seq<FrameStats>): (r: AnomalyMap)
    ensures Within(r, ColorNames)
    ensures ColorDistributionAnomaly in r <==> LowColorVariation(frames)
    ensures ColorBalanceAnomaly in r <==> ChannelImbalance(frames)
  {
    if |frames| == 0 then map[]
    else
      var overallMean := Mean(Flatten(Means(frames)));
      var overallStd := Mean(Flatten(Stds(frames)));
      var low: AnomalyMap :=
        if overallStd < 20.0 then
          map[ColorDistributionAnomaly := Found(
            "Unnaturally low color variation",
            map["mean" := Real(overallMean), "std" := Real(overallStd)])]
        else map[];
      var averages := ChannelAverages(frames);
      var imbalance := Variance(averages);
      if imbalance > 900.0 then
        low[ColorBalanceAnomaly := Found(
          "Unusual color channel imbalance",
          map["channel_means" := Reals(averages), "imbalance" := RootOf(imbalance)])]
      else low
  }

  /** `_analyze_edges` over the edge density of each sampled frame. */
  function EdgeGroup(densities: seq<real>): (r: AnomalyMap)
    ensures Within(r, EdgeNames)
    ensures EdgeConsistencyAnomaly in r <==> ConsistentEdges(densities)
    ensures LowEdgeDensityAnomaly in r <==> LowEdgeDensity(densities)
  {
    if |densities| == 0 then map[]
    else
      var mean := Mean(densities);
      var variance := Variance(densities);
      var consistent: AnomalyMap :=
        if variance < 0.000001 then
          map[EdgeConsistencyAnomaly := Found(
            "Suspiciously consistent edge patterns",
            map["mean_density" := Real(mean), "std_density" := RootOf(variance)])]
        else map[];
      if mean < 0.02 then
        consistent[LowEdgeDensityAnomaly := Found(
          "Unusually low edge density", map["mean_density" := Real(mean)])]
      else consistent
  }

  // ---------------------------------------------------------------------
  // The pipeline
  // ---------------------------------------------------------------------

  /** The measurements of the sampled frames, in index order. */
  function SampledFrames(frame: int -> FrameStats, idx: seq<int>): (frames: seq<FrameStats>)
    ensures |frames| == |idx| && forall k :: 0 <= k < |idx| ==> frames[k] == frame(idx[k])
  {
    seq(|idx|, k requires 0 <= k < |idx| => frame(idx[k]))
  }

  /** `frame_diffs`: one difference per pair of consecutive sampled frames. */
  function FrameDiffs(diff: (int, int) -> NonNegReal, idx: seq<int>): (d: seq<real>)
    ensures |idx| < 2 ==> d == []
    ensures |idx| >= 2 ==> |d| == |idx| - 1
    ensures forall k :: 0 <= k < |d| ==> d[k] == diff(idx[k], idx[k + 1])
  {
    if |idx| < 2 then []
    else seq(|idx| - 1, k requires 0 <= k < |idx| - 1 => diff(idx[k], idx[k + 1]))
  }

  /** The four `update` calls of `analyze`, in source order, starting from
      the empty dictionary. */
  function Merge(quality: AnomalyMap, temporal: AnomalyMap, color: AnomalyMap, edges: AnomalyMap): AnomalyMap
  {
    Update(Update(Update(Update(map[], quality), temporal), color), edges)
  }

  /** The merged anomalies of the sampled frames. */
  function Merged(frames: seq<FrameStats>, diffs: seq<real>): AnomalyMap
  {
    Merge(QualityGroup(Sharpness(frames)), TemporalGroup(diffs), ColorGroup(frames),
          EdgeGroup(EdgeDensities(frames)))
  }

  function Details(frames: seq<FrameStats>, diffs: seq<real>): (d: map<string, AnomalyMap>)
    ensures d.Keys == {"quality", "temporal", "color", "edges"}
  {
    map["quality" := QualityGroup(Sharpness(frames)),
        "temporal" := TemporalGroup(diffs),
        "color" := ColorGroup(frames),
        "edges" := EdgeGroup(EdgeDensities(frames))]
  }

  /** `VideoAnalyzer.analyze`: existence, then format, then opening the
      capture, then sampling, the rules and the score. */
  function Analyze(an: VideoAnalyzer, f: FileRef, source: VideoSource): (r: Result<AnalysisResult, Error>)
    ensures !f.present ==> r == Failure(FileNotFound(f.path))
    ensures f.present && !SupportsFile(f) ==> r == Failure(UnsupportedVideoFormat(f.suffix))
    ensures f.present && SupportsFile(f) && source.Unopenable? ==> r == Failure(OpenFailure(f.path))
    ensures r.Success? <==> f.present && SupportsFile(f) && source.Opened?
    ensures r.Success? ==>
              && Consistent(r.value)
              && r.value.fileType == "video"
              && r.value.filePath == f.path
              && r.value.confidenceScore == Confidence(Video, r.value.anomaliesDetected.Keys)
              && r.value.analysisDetails.Keys == {"quality", "temporal", "color", "edges"}
  {
    if !f.present then Failure(FileNotFound(f.path))
    else if !SupportsFile(f) then Failure(UnsupportedVideoFormat(f.suffix))
    else match source
      case Unopenable => Failure(OpenFailure(f.path))
      case Opened(frameCount, frame, diff) =>
        var idx := SampleIndices(frameCount, an.sampleFrames);
        var frames := SampledFrames(frame, idx);
        var diffs := FrameDiffs(diff, idx);
        var anomalies := Merged(frames, diffs);
        var score := Confidence(Video, anomalies.Keys);
        Success(AnalysisResult(f.path, "video", score > 0.5, score, anomalies, Details(frames, diffs)))
  }

  // ---------------------------------------------------------------------
  // Properties
  // ---------------------------------------------------------------------

  /** Uniform sharpness needs a mean above 50 and low sharpness a mean
      below 30, so a video is never flagged for both. */
  lemma SharpnessRulesExclusive(sharpness: seq<real>)
    ensures !(SharpnessAnomaly in QualityGroup(sharpness)
              && LowSharpnessAnomaly in QualityGroup(sharpness))
  {
  }

  /** Differences that are all the same non-negative value (in particular
      all zero, or a single difference) never count as a jump, and when that
      value exceeds 5 they are flagged as suspiciously consistent. */
  lemma ConstantDiffs(diffs: seq<real>, c: real)
    requires |diffs| > 0 && Constant(diffs, c) && c >= 0.0
    ensures TemporalJumpAnomaly !in TemporalGroup(diffs)
    ensures TemporalConsistencyAnomaly in TemporalGroup(diffs) <==> c > 5.0
  {
    ConstantSeries(diffs, c);
  }

  /** A jump needs the largest difference to exceed the mean, so it never
      fires when the mean is non-negative and all differences are equal. */
  lemma JumpNeedsSpread(diffs: seq<real>)
    requires TemporalJump(diffs)
    requires forall i :: 0 <= i < |diffs| ==> diffs[i] >= 0.0
    ensures Mean(diffs) < Max(diffs)
    ensures !Constant(diffs, diffs[0])
  {
    MeanAtMostMax(diffs);
    SumNonNegative(diffs);
    if Constant(diffs, diffs[0]) {
      ConstantSeries(diffs, diffs[0]);
    }
  }

  lemma {:induction false} SumNonNegative(s: seq<real>)
    requires forall i :: 0 <= i < |s| ==> s[i] >= 0.0
    ensures Sum(s) >= 0.0
  {
    if |s| > 0 {
      SumNonNegative(s[..|s| - 1]);
    }
  }

  /** `supports_file` looks at the suffix only through its lower-case form:
      suffixes that lower-case alike are supported alike, and a file without
      a suffix is never supported. */
  lemma SupportsFileIgnoresCase(f: FileRef, g: FileRef)
    requires Lower(f.suffix) == Lower(g.suffix)
    ensures SupportsFile(f) <==> SupportsFile(g)
    ensures f.suffix == [] ==> !SupportsFile(f)
  {
  }

  /** A grey frame: its three channel means are equal. */
  predicate Grey(f: FrameStats)
  {
    f.channelMeans.b == f.channelMeans.g == f.channelMeans.r
  }

  /** A clip of grey frames has three equal channel averages, so it is never
      flagged for channel imbalance. */
  lemma GreyFramesBalanced(frames: seq<FrameStats>)
    requires |frames| > 0 && forall i :: 0 <= i < |frames| ==> Grey(frames[i])
    ensures ColorBalanceAnomaly !in ColorGroup(frames)
  {
    var m := Means(frames);
    var bs := seq(|m|, i requires 0 <= i < |m| => m[i].b);
    var gs := seq(|m|, i requires 0 <= i < |m| => m[i].g);
    var rs := seq(|m|, i requires 0 <= i < |m| => m[i].r);
    assert bs == gs && gs == rs;
    var averages := ChannelAverages(frames);
    assert averages == [Mean(bs), Mean(bs), Mean(bs)];
    ConstantSeries(averages, Mean(bs));
  }

  /** Equal edge densities (one sampled frame, or a still scene) always fire
      the uniform-edges rule, and the low-density rule exactly when that
      density is below 0.02. */
  lemma EqualDensitiesLookUniform(densities: seq<real>, c: real)
    requires |densities| > 0 && Constant(densities, c)
    ensures EdgeConsistencyAnomaly in EdgeGroup(densities)
    ensures LowEdgeDensityAnomaly in EdgeGroup(densities) <==> c < 0.02
  {
    ConstantSeries(densities, c);
  }

  lemma NamesDisjoint()
    ensures QualityNames !! TemporalNames && QualityNames !! ColorNames && QualityNames !! EdgeNames
    ensures TemporalNames !! ColorNames && TemporalNames !! EdgeNames && ColorNames !! EdgeNames
  {
  }

  /** The groups use disjoint anomaly names, so the merge overwrites
      nothing: a name is in the merged map exactly when its own group flagged
      it, and its entry is the one that group produced. */
  lemma MergeKeepsGroups(q: AnomalyMap, t: AnomalyMap, c: AnomalyMap, e: AnomalyMap)
    requires Within(q, QualityNames) && Within(t, TemporalNames)
    requires Within(c, ColorNames) && Within(e, EdgeNames)
    ensures Merge(q, t, c, e).Keys == q.Keys + t.Keys + c.Keys + e.Keys
    ensures forall n :: n in QualityNames ==> (n in Merge(q, t, c, e) <==> n in q)
    ensures forall n :: n in TemporalNames ==> (n in Merge(q, t, c, e) <==> n in t)
    ensures forall n :: n in ColorNames ==> (n in Merge(q, t, c, e) <==> n in c)
    ensures forall n :: n in EdgeNames ==> (n in Merge(q, t, c, e) <==> n in e)
    ensures forall n :: n in q ==> Merge(q, t, c, e)[n] == q[n]
    ensures forall n :: n in t ==> Merge(q, t, c, e)[n] == t[n]
    ensures forall n :: n in c ==> Merge(q, t, c, e)[n] == c[n]
    ensures forall n :: n in e ==> Merge(q, t, c, e)[n] == e[n]
  {
    NamesDisjoint();
    MergeFour(q, t, c, e);
    var m := Merge(q, t, c, e);
    assert forall n :: n in m <==> n in q || n in t || n in c || n in e;
  }

  /** Every anomaly name the video rules can produce is in the video weight
      table, so the 0.1 default never applies to an analyzer result. */
  lemma AllNamesWeighted()
    ensures QualityNames + TemporalNames + ColorNames + EdgeNames == Names(VideoWeights)
  {
    assert forall w :: w in VideoWeights ==> w.name in QualityNames + TemporalNames + ColorNames + EdgeNames;
    assert VideoWeights[0].name in Names(VideoWeights);
    assert VideoWeights[1].name in Names(VideoWeights);
    assert VideoWeights[2].name in Names(VideoWeights);
    assert VideoWeights[3].name in Names(VideoWeights);
    assert VideoWeights[4].name in Names(VideoWeights);
    assert VideoWeights[5].name in Names(VideoWeights);
    assert VideoWeights[6].name in Names(VideoWeights);
    assert VideoWeights[7].name in Names(VideoWeights);
  }

  /** The merged map only uses names from the video weight table. */
  lemma MergedNamesWeighted(frames: seq<FrameStats>, diffs: seq<real>)
    ensures Merged(frames, diffs).Keys <= Names(VideoWeights)
  {
    MergeKeepsGroups(QualityGroup(Sharpness(frames)), TemporalGroup(diffs), ColorGroup(frames),
                     EdgeGroup(EdgeDensities(frames)));
    AllNamesWeighted();
  }

  /** The merged map flags exactly the anomalies whose rules hold on the
      sampled measurements, and only names from the video weight table. */
  lemma MergedDetects(frames: seq<FrameStats>, diffs: seq<real>)
    ensures Merged(frames, diffs).Keys <= Names(VideoWeights)
    ensures SharpnessAnomaly in Merged(frames, diffs) <==> UniformSharpness(Sharpness(frames))
    ensures LowSharpnessAnomaly in Merged(frames, diffs) <==> LowSharpness(Sharpness(frames))
    ensures TemporalConsistencyAnomaly in Merged(frames, diffs) <==> SteadyChange(diffs)
    ensures TemporalJumpAnomaly in Merged(frames, diffs) <==> TemporalJump(diffs)
    ensures ColorDistributionAnomaly in Merged(frames, diffs) <==> LowColorVariation(frames)
    ensures ColorBalanceAnomaly in Merged(frames, diffs) <==> ChannelImbalance(frames)
    ensures EdgeConsistencyAnomaly in Merged(frames, diffs) <==> ConsistentEdges(EdgeDensities(frames))
    ensures LowEdgeDensityAnomaly in Merged(frames, diffs) <==> LowEdgeDensity(EdgeDensities(frames))
  {
    MergeKeepsGroups(QualityGroup(Sharpness(frames)), TemporalGroup(diffs), ColorGroup(frames),
                     EdgeGroup(EdgeDensities(frames)));
    AllNamesWeighted();
  }

  /** A successful analysis reports the merged map of the sampled frames,
      keeps each group's map under its own name, and scores the merged map
      with the capped sum of the video weights. */
  lemma AnalyzeDetects(an: VideoAnalyzer, f: FileRef, frameCount: int, frame: int -> FrameStats,
                       diff: (int, int) -> NonNegReal)
    requires f.present && SupportsFile(f)
    ensures var r := Analyze(an, f, Opened(frameCount, frame, diff));
      var idx := SampleIndices(frameCount, an.sampleFrames);
      var frames := SampledFrames(frame, idx);
      var diffs := FrameDiffs(diff, idx);
      && r.Success?
      && r.value.anomaliesDetected == Merged(frames, diffs)
      && r.value.analysisDetails == map["quality" := QualityGroup(Sharpness(frames)),
                                        "temporal" := TemporalGroup(diffs),
                                        "color" := ColorGroup(frames),
                                        "edges" := EdgeGroup(EdgeDensities(frames))]
      && (Merged(frames, diffs) != map[] ==>
            r.value.confidenceScore == Min(KnownWeight(VideoWeights, Merged(frames, diffs).Keys), 1.0))
  {
    var idx := SampleIndices(frameCount, an.sampleFrames);
    var frames := SampledFrames(frame, idx);
    var diffs := FrameDiffs(diff, idx);
    var anomalies := Merged(frames, diffs);
    assert Analyze(an, f, Opened(frameCount, frame, diff))
        == Success(AnalysisResult(f.path, "video", Confidence(Video, anomalies.Keys) > 0.5,
                                  Confidence(Video, anomalies.Keys), anomalies, Details(frames, diffs)));
    MergedNamesWeighted(frames, diffs);
    if anomalies != map[] {
      assert anomalies.Keys != {};
      ConfidenceOfKnownNames(Video, anomalies.Keys);
    }
  }

  /** With no frame sampled (an empty video) nothing is flagged: the score
      is 0 and the video is not called AI-generated. */
  lemma NoFramesNoAnomalies(an: VideoAnalyzer, f: FileRef, frame: int -> FrameStats, diff: (int, int) -> NonNegReal)
    requires f.present && SupportsFile(f)
    ensures var r := Analyze(an, f, Opened(0, frame, diff));
      && r.Success?
      && r.value.anomaliesDetected == map[]
      && r.value.confidenceScore == 0.0
      && !r.value.isLikelyAiGenerated
  {
    var idx := SampleIndices(0, an.sampleFrames);
    assert idx == [];
    var frames := SampledFrames(frame, idx);
    assert Sharpness(frames) == [] && EdgeDensities(frames) == [];
    assert Merged(frames, FrameDiffs(diff, idx)) == map[];
  }

  /** A single sampled frame leaves the temporal group empty, as the source's
      early return for fewer than two frames does. */
  lemma OneFrameNoTemporal(frame: int -> FrameStats, diff: (int, int) -> NonNegReal, n: nat)
    ensures TemporalGroup(FrameDiffs(diff, SampleIndices(1, n))) == map[]
  {
  }
}
