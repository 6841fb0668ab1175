/** The audio analyzer: three groups of threshold rules over statistics of
    the decoded signal, merged and scored with the audio weight table.

    The statistics librosa and scipy compute (spectral centroid, rolloff,
    zero-crossing rate, RMS energy, onset frames, kurtosis, skewness) are
    inputs; the onset intervals and their spread are computed here. */
module Audio {
  import opened Wrappers
  import opened Anomalies
  import opened Stats
  import opened Scoring
  import opened Paths
  import opened Report

  const SupportedFormats: set<string> := {".mp3", ".wav", ".m4a", ".flac", ".ogg", ".aac", ".wma"}

  const SpectralNames: set<Name> :=
    {SpectralCentroidAnomaly, SpectralRolloffAnomaly, ZeroCrossingAnomaly}
  const TemporalNames: set<Name> := {EnergyAnomaly, OnsetPatternAnomaly}
  const StatisticalNames: set<Name> := {KurtosisAnomaly, SkewnessAnomaly}

  /** `AudioAnalyzer(verbose)`; verbosity only controls logging. */
  datatype AudioAnalyzer = AudioAnalyzer(verbose: bool)

  /** A sample rate `librosa.load` reports for a file it decoded. A zero rate
      would make the load's own log line divide by zero, which the load's
      `try` turns into a load failure, so a decoded file has a positive rate. */
  type SampleRate = n: int | n > 0 witness 1

  /** What `librosa.load` and the feature calls yield for one file. Standard
      deviations and RMS energies are never negative. */
  datatype AudioFeatures = AudioFeatures(
    sampleRate: SampleRate,
    centroidMean: real,
    centroidStd: NonNegReal,
    rolloffMean: real,
    zcrMean: real,
    zcrStd: NonNegReal,
    rmsMean: NonNegReal,
    rmsStd: NonNegReal,
    onsets: seq<int>,
    kurtosis: real,
    skewness: real)

  /** The outcome of `librosa.load` on the file. */
  datatype AudioSource = Undecodable | Decoded(features: AudioFeatures)

  function Abs(x: real): real
  {
    if x < 0.0 then -x else x
  }

  /** `supports_file`: the lower-cased suffix is one of the audio formats. */
  predicate SupportsFile(f: FileRef)
  {
    Lower(f.suffix) in SupportedFormats
  }

  /** `_analyze_spectral_features` */
  function SpectralGroup(a: AudioFeatures): (r: AnomalyMap)
    ensures Within(r, SpectralNames)
    ensures SpectralCentroidAnomaly in r <==> a.centroidStd < 500.0 || a.centroidStd > 5000.0
    ensures SpectralCentroidAnomaly in r ==>
              r[SpectralCentroidAnomaly].reason == "Unusual spectral centroid distribution"
    ensures SpectralRolloffAnomaly in r <==> a.rolloffMean > (a.sampleRate as real) * 0.9
    ensures ZeroCrossingAnomaly in r <==> a.zcrStd < 0.01
  {
    var centroid: AnomalyMap :=
      if a.centroidStd < 500.0 || a.centroidStd > 5000.0 then
        map[SpectralCentroidAnomaly := Found(
          "Unusual spectral centroid distribution",
          map["mean" := Real(a.centroidMean), "std" := Real(a.centroidStd)])]
      else map[];
    var rolloff: AnomalyMap :=
      if a.rolloffMean > (a.sampleRate as real) * 0.9 then
        centroid[SpectralRolloffAnomaly := Found(
          "Abnormally high spectral rolloff",
          map["mean" := Real(a.rolloffMean)])]
      else centroid;
    if a.zcrStd < 0.01 then
      rolloff[ZeroCrossingAnomaly := Found(
        "Unnaturally consistent zero crossing rate",
        map["mean" := Real(a.zcrMean), "std" := Real(a.zcrStd)])]
    else rolloff
  }

  /** `np.diff(onsets)`: the gaps between successive onset frames. */
  function Intervals(onsets: seq<int>): (d: seq<int>)
    ensures |onsets| > 0 ==> |d| == |onsets| - 1
    ensures |onsets| == 0 ==> d == []
    ensures forall i :: 0 <= i < |d| ==> d[i] == onsets[i + 1] - onsets[i]
  {
    if |onsets| <= 1 then [] else [onsets[1] - onsets[0]] + Intervals(onsets[1..])
  }

  /** The rule `len(onsets) > 1 and len(intervals) > 2 and std(intervals) < 2`,
      with the spread compared through the variance (std < 2 iff var < 4). */
  predicate RegularOnsets(onsets: seq<int>)
  {
    && |onsets| > 1
    && |Intervals(onsets)| > 2
    && Variance(ToReals(Intervals(onsets))) < 4.0
  }

  /** The rule `rms_std / (rms_mean + 1e-6) < 0.1`. */
  predicate SteadyEnergy(a: AudioFeatures)
  {
    a.rmsStd / (a.rmsMean + 0.000001) < 0.1
  }

  /** `_analyze_temporal_features` */
  function TemporalGroup(a: AudioFeatures): (r: AnomalyMap)
    ensures Within(r, TemporalNames)
    ensures EnergyAnomaly in r <==> SteadyEnergy(a)
    ensures OnsetPatternAnomaly in r <==> RegularOnsets(a.onsets)
    ensures OnsetPatternAnomaly in r ==>
              && "onset_count" in r[OnsetPatternAnomaly].fields
              && r[OnsetPatternAnomaly].fields["onset_count"] == Count(|a.onsets|)
  {
    var energy: AnomalyMap :=
      if SteadyEnergy(a) then
        map[EnergyAnomaly := Found(
          "Unnaturally consistent energy levels",
          map["mean" := Real(a.rmsMean), "std" := Real(a.rmsStd)])]
      else map[];
    if RegularOnsets(a.onsets) then
      var intervals := ToReals(Intervals(a.onsets));
      energy[OnsetPatternAnomaly := Found(
        "Suspiciously regular onset patterns",
        map["onset_count" := Count(|a.onsets|), "interval_std" := RootOf(Variance(intervals))])]
    else energy
  }

  /** `_analyze_statistical_features` (the skewness rule over the intended
      `scipy.stats.skew` value). */
  function StatisticalGroup(a: AudioFeatures): (r: AnomalyMap)
    ensures Within(r, StatisticalNames)
    ensures KurtosisAnomaly in r <==> Abs(a.kurtosis) < 1.0
    ensures SkewnessAnomaly in r <==> Abs(a.skewness) > 2.0
  {
    var kurtosis: AnomalyMap :=
      if Abs(a.kurtosis) < 1.0 then
        map[KurtosisAnomaly := Found(
          "Abnormal distribution kurtosis", map["value" := Real(a.kurtosis)])]
      else map[];
    if Abs(a.skewness) > 2.0 then
      kurtosis[SkewnessAnomaly := Found(
        "Unusual distribution skewness", map["value" := Real(a.skewness)])]
    else kurtosis
  }

  /** The three `update` calls of `analyze`, in source order, starting from
      the empty dictionary. */
  function Merge(spectral: AnomalyMap, temporal: AnomalyMap, statistical: AnomalyMap): AnomalyMap
  {
    Update(Update(Update(map[], spectral), temporal), statistical)
  }

  /** The merged anomalies of one file's features. */
  function Merged(a: AudioFeatures): AnomalyMap
  {
    Merge(SpectralGroup(a), TemporalGroup(a), StatisticalGroup(a))
  }

  /** `analysis_details`: each group's own map under the group's name. */
  function Details(a: AudioFeatures): (d: map<string, AnomalyMap>)
    ensures d.Keys == {"spectral", "temporal", "statistical"}
  {
    map["spectral" := SpectralGroup(a), "temporal" := TemporalGroup(a), "statistical" := StatisticalGroup(a)]
  }

  /** `AudioAnalyzer.analyze`: existence, then format, then decoding, then
      the rules and the score. */
  function Analyze(an: AudioAnalyzer, f: FileRef, source: AudioSource): (r: Result<AnalysisResult, Error>)
    ensures !f.present ==> r == Failure(FileNotFound(f.path))
    ensures f.present && !SupportsFile(f) ==> r == Failure(UnsupportedAudioFormat(f.suffix))
    ensures f.present && SupportsFile(f) && source.Undecodable? ==> r == Failure(LoadFailure(f.path))
    ensures r.Success? <==> f.present && SupportsFile(f) && source.Decoded?
    ensures r.Success? ==>
              && Consistent(r.value)
              && r.value.fileType == "audio"
              && r.value.filePath == f.path
              && r.value.confidenceScore == Confidence(Audio, r.value.anomaliesDetected.Keys)
              && r.value.analysisDetails.Keys == {"spectral", "temporal", "statistical"}
  {
    if !f.present then Failure(FileNotFound(f.path))
    else if !SupportsFile(f) then Failure(UnsupportedAudioFormat(f.suffix))
    else match source
      case Undecodable => Failure(LoadFailure(f.path))
      case Decoded(a) =>
        var anomalies := Merged(a);
        var score := Confidence(Audio, anomalies.Keys);
        Success(AnalysisResult(f.path, "audio", score > 0.5, score, anomalies, Details(a)))
  }

  /** The energy rule's divisor is positive because RMS energy is never
      negative, so the rule is the same as comparing without division. */
  lemma EnergyRuleWithoutDivision(a: AudioFeatures)
    ensures a.rmsMean + 0.000001 > 0.0
    ensures SteadyEnergy(a) <==> a.rmsStd < 0.1 * (a.rmsMean + 0.000001)
  {
    var d := a.rmsMean + 0.000001;
    var q := a.rmsStd / d;
    assert q * d == a.rmsStd;
    if q < 0.1 {
      assert q * d < 0.1 * d;
    } else {
      assert q * d >= 0.1 * d;
    }
  }

  /** The onset rule needs at least four onsets: more than one onset and
      more than two intervals between them. */
  lemma RegularOnsetsNeedFour(onsets: seq<int>)
    ensures RegularOnsets(onsets) ==> |onsets| >= 4
  {
  }

  /** Evenly spaced onsets (constant interval) are always flagged once there
      are at least four of them. */
  lemma EvenOnsetsAreRegular(onsets: seq<int>, gap: int)
    requires |onsets| >= 4
    requires forall i :: 0 <= i < |onsets| - 1 ==> onsets[i + 1] - onsets[i] == gap
    ensures RegularOnsets(onsets)
  {
    var d := Intervals(onsets);
    assert |d| == |onsets| - 1;
    var iv := ToReals(d);
    forall i | 0 <= i < |d|
      ensures d[i] == gap
    {
      assert d[i] == onsets[i + 1] - onsets[i];
    }
    assert forall i :: 0 <= i < |iv| ==> iv[i] == d[i] as real;
    assert Constant(iv, gap as real);
    ConstantSeries(iv, gap as real);
  }

  /** Negating a signal flips the sign of its skewness and keeps its kurtosis;
      the statistical rules flag the mirrored signal exactly as the original. */
  lemma MirroredSignalFlaggedAlike(a: AudioFeatures)
    ensures StatisticalGroup(a.(skewness := -a.skewness)).Keys == StatisticalGroup(a).Keys
  {
  }

  /** `supports_file` looks at the suffix only through its lower-case form:
      suffixes that lower-case alike are supported alike, and a file without
      a suffix is never supported. */
  lemma SupportsFileIgnoresCase(f: FileRef, g: FileRef)
    requires Lower(f.suffix) == Lower(g.suffix)
    ensures SupportsFile(f) <==> SupportsFile(g)
    ensures f.suffix == [] ==> !SupportsFile(f)
  {
  }

  lemma NamesDisjoint()
    ensures SpectralNames !! TemporalNames && SpectralNames !! StatisticalNames
    ensures TemporalNames !! StatisticalNames
  {
  }

  /** The groups use disjoint anomaly names, so the merge overwrites
      nothing: a name is in the merged map exactly when its own group flagged
      it, and its entry is the one that group produced. */
  lemma MergeKeepsGroups(sp: AnomalyMap, t: AnomalyMap, st: AnomalyMap)
    requires Within(sp, SpectralNames) && Within(t, TemporalNames) && Within(st, StatisticalNames)
    ensures Merge(sp, t, st).Keys == sp.Keys + t.Keys + st.Keys
    ensures forall n :: n in SpectralNames ==> (n in Merge(sp, t, st) <==> n in sp)
    ensures forall n :: n in TemporalNames ==> (n in Merge(sp, t, st) <==> n in t)
    ensures forall n :: n in StatisticalNames ==> (n in Merge(sp, t, st) <==> n in st)
    ensures forall n :: n in sp ==> Merge(sp, t, st)[n] == sp[n]
    ensures forall n :: n in t ==> Merge(sp, t, st)[n] == t[n]
    ensures forall n :: n in st ==> Merge(sp, t, st)[n] == st[n]
  {
    NamesDisjoint();
    MergeThree(sp, t, st);
    var m := Merge(sp, t, st);
    assert forall n :: n in m <==> n in sp || n in t || n in st;
  }

  /** Every anomaly name the audio rules can produce is in the audio weight
      table, so the 0.1 default never applies to an analyzer result. */
  lemma AllNamesWeighted()
    ensures SpectralNames + TemporalNames + StatisticalNames == Names(AudioWeights)
  {
    assert AudioWeights[0].name in Names(AudioWeights);
    assert AudioWeights[1].name in Names(AudioWeights);
    assert AudioWeights[2].name in Names(AudioWeights);
    assert AudioWeights[3].name in Names(AudioWeights);
    assert AudioWeights[4].name in Names(AudioWeights);
    assert AudioWeights[5].name in Names(AudioWeights);
    assert AudioWeights[6].name in Names(AudioWeights);
  }

  /** The merged map flags exactly the anomalies whose rules hold on the
      features, and only names from the audio weight table. */
  lemma MergedDetects(a: AudioFeatures)
    ensures Merged(a).Keys <= Names(AudioWeights)
    ensures SpectralCentroidAnomaly in Merged(a) <==> a.centroidStd < 500.0 || a.centroidStd > 5000.0
    ensures SpectralRolloffAnomaly in Merged(a) <==> a.rolloffMean > (a.sampleRate as real) * 0.9
    ensures ZeroCrossingAnomaly in Merged(a) <==> a.zcrStd < 0.01
    ensures EnergyAnomaly in Merged(a) <==> a.rmsStd < 0.1 * (a.rmsMean + 0.000001)
    ensures OnsetPatternAnomaly in Merged(a) <==> RegularOnsets(a.onsets)
    ensures KurtosisAnomaly in Merged(a) <==> Abs(a.kurtosis) < 1.0
    ensures SkewnessAnomaly in Merged(a) <==> Abs(a.skewness) > 2.0
  {
    EnergyRuleWithoutDivision(a);
    MergeKeepsGroups(SpectralGroup(a), TemporalGroup(a), StatisticalGroup(a));
    AllNamesWeighted();
  }

  /** A successful analysis reports the merged map, whose score is capped
      sum of the audio weights, and keeps each group's map under its own name. */
  lemma AnalyzeDetects(an: AudioAnalyzer, f: FileRef, a: AudioFeatures)
    requires f.present && SupportsFile(f)
    ensures Analyze(an, f, Decoded(a)).Success?
    ensures Analyze(an, f, Decoded(a)).value.anomaliesDetected == Merged(a)
    ensures Analyze(an, f, Decoded(a)).value.analysisDetails
         == map["spectral" := SpectralGroup(a), "temporal" := TemporalGroup(a),
                "statistical" := StatisticalGroup(a)]
    ensures Merged(a) != map[] ==>
              Analyze(an, f, Decoded(a)).value.confidenceScore
              == Min(KnownWeight(AudioWeights, Merged(a).Keys), 1.0)
  {
    MergedDetects(a);
    if Merged(a) != map[] {
      assert Merged(a).Keys != {};
      ConfidenceOfKnownNames(Audio, Merged(a).Keys);
    }
  }

  /** A centroid spread of 200 Hz is flagged with the centroid reason. */
  lemma NarrowCentroidFlagged(a: AudioFeatures)
    requires a.centroidStd == 200.0
    ensures SpectralCentroidAnomaly in SpectralGroup(a)
    ensures SpectralGroup(a)[SpectralCentroidAnomaly].reason == "Unusual spectral centroid distribution"
  {
  }
}
