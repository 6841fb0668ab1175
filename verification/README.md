# deepfake_check: a verified model of the decision logic

`deepfake_check` is a heuristic detector for AI-generated audio and video.
It takes statistics of a media file and applies fixed threshold rules. Each
rule that fires adds a named anomaly with its evidence. The anomalies are
weighted and summed into a confidence score capped at 1.0. A file is called
likely AI-generated when that score is above 0.5.

This Dafny project models that decision logic:

- `Anomalies` (anomalies.dfy): the evidence record, the fifteen anomaly
  names with their dictionary keys, and `dict.update` as the map union in
  which the right side wins. Maps over names correspond one to one with the
  source's string-keyed dictionaries, so the rest of the model works with
  names.
- `Stats` (stats.dfy): mean, population variance and maximum over a series.
- `Scoring` (confidence.dfy): the per-modality weight tables and
  `_calculate_confidence`. It gives a closed form of the score and the
  summing loop, which is proved equal to it.
- `Sampling` (sampling.dfy): `VideoAnalyzer._sample_frames`'s choice of frame
  indices, with `np.linspace(..., dtype=int)` written as floor division.
- `Audio` (audio.dfy): `AudioAnalyzer` with its formats, the three rule
  groups, the merge, and `analyze` with its error order.
- `Video` (video.dfy): `VideoAnalyzer` with its formats, the four rule groups
  over the sampled frames, the merge, and `analyze`.
- `Report` (report.dfy): `AnalysisResult` and `to_dict`, with a reader for
  the dictionary that `to_dict` writes.
- `Deepfake` (dispatch.dfy): `DeepfakeAnalyzer`. Its two analyzer slots are
  filled on first use. `analyze` dispatches on the lower-cased suffix, and
  `analyze_audio` and `analyze_video` are the direct routes.
- `Wrappers` (wrappers.dfy): `Option` and `Result`.

Each `raise` in the source is a `Failure` of the `Result` type. What a
library computes from the signal enters the model as a value:

- For audio: the librosa and scipy features, including the onset frames.
- For video: each decoded frame's sharpness, channel means, channel standard
  deviations and edge density, and the mean absolute difference between two
  frames.

Standard deviations, energies, pixel statistics, edge densities and frame
differences cannot be negative, so they have the type `NonNegReal`. A decoded
file's sample rate is positive: with a zero rate, the load's own log line
would divide by zero inside its `try`, and the load would fail.

The existence of a file is a boolean. Whether `librosa.load` or
`cv2.VideoCapture` succeeds is part of the source value.

Numbers are exact reals. The audio centroid, zero-crossing and RMS standard
deviations come out of `np.std` over a librosa feature array, so they are
given values: they are compared and recorded as they are. The analyzer
computes two kinds of standard deviation itself from a series: the spread of
the audio onset intervals, and the video deviations over the sampled frames
(sharpness, frame differences, edge density, and the imbalance of the
channel averages). For these, a rule comparing the deviation with a positive
threshold `c` is stated on the variance against `c * c`, and the evidence
records the deviation as `RootOf(variance)`.

## Model

| member | source | states |
|---|---|---|
| `Anomalies.NamedKeyed` | src/deepfake_check/audio/analyzer.py:235-243 | The anomaly names stand for the source's string keys without loss. Keying an anomaly map by its strings and reading it back gives the same map. |
| `Anomalies.KeyedNamed` | src/deepfake_check/video/analyzer.py:325-334 | Conversely, reading a string-keyed dictionary as an anomaly map and keying it again gives the same dictionary. Unknown keys survive as `Other`. |
| `Scoring.Confidence` | src/deepfake_check/audio/analyzer.py:231-251 | The score lies in [0, 1], and it is 0 exactly when no anomaly was found. |
| `Scoring.SumWeights` | src/deepfake_check/video/analyzer.py:337-339 | The summing loop gives the order-independent total: the table weight of each known name plus 0.1 for each unknown one, whatever order the keys come in. |
| `Scoring.CalculateConfidence` | src/deepfake_check/video/analyzer.py:321-342 | `_calculate_confidence` returns 0.0 for an empty map and otherwise a value in (0, 1], namely the capped total. |
| `Scoring.TotalWeightAddKey` | src/deepfake_check/audio/analyzer.py:246-247 | Adding one new key raises the total by exactly that key's weight, or by 0.1 when the key is not in the table. |
| `Scoring.ConfidenceMonotone` | src/deepfake_check/video/analyzer.py:325-341 | Adding anomalies never lowers the confidence. |
| `Scoring.ConfidenceOfKnownNames` | src/deepfake_check/audio/analyzer.py:235-250 | When every name is in the table, the score is the capped sum of the table weights and the 0.1 default plays no part. |
| `Scoring.KnownWeightsSumToOne` | src/deepfake_check/video/analyzer.py:325-334 | The known weights of each modality sum to exactly 1.0, so a map holding every known anomaly scores 1.0. |
| `Scoring.TablesValid` | src/deepfake_check/audio/analyzer.py:235-243 | Each weight table lists distinct names, with weights in (0, 1]. |
| `Sampling.SampleIndices` | src/deepfake_check/video/analyzer.py:134-139 | With at most `n` frames every index `0 .. frame_count-1` is used. Otherwise exactly `n` indices are used, each within `[0, frame_count)`, and they are strictly increasing. The first is 0 when `n >= 1`; `n = 0` gives no index. For `n >= 2` the last is `frame_count - 1` and each index is the floor of `i * (frame_count - 1) / (n - 1)`. For `n = 1` the single index is 0, as with `np.linspace` over one point. |
| `Audio.SpectralGroup` | src/deepfake_check/audio/analyzer.py:107-152 | The centroid anomaly is present iff the centroid std is below 500 or above 5000, and its reason is the source's reason. The rolloff anomaly is present iff the rolloff mean exceeds 0.9 times the sample rate. The zero-crossing anomaly is present iff the zcr std is below 0.01. Nothing else is present, and every entry is marked detected. |
| `Audio.SupportsFileIgnoresCase` | src/deepfake_check/audio/analyzer.py:42-45 | `supports_file` sees the suffix only through its lower-case form: suffixes that lower-case alike are supported alike, and a file without a suffix is not supported. |
| `Audio.TemporalGroup` | src/deepfake_check/audio/analyzer.py:154-189 | The energy anomaly is present iff the rms std divided by (rms mean + 1e-6) is below 0.1. The onset anomaly is present iff there are more than one onset, more than two intervals and an interval std below 2. Its `onset_count` is the number of onsets. |
| `Audio.Intervals` | src/deepfake_check/audio/analyzer.py:179-180 | `np.diff(onsets)`: one gap per pair of successive onsets, each the later frame minus the earlier, and no gap for fewer than two onsets. |
| `Audio.StatisticalGroup` | src/deepfake_check/audio/analyzer.py:191-219 | The kurtosis anomaly is present iff the absolute kurtosis is below 1. The skewness anomaly is present iff the absolute skewness is above 2. |
| `Audio.MirroredSignalFlaggedAlike` | src/deepfake_check/audio/analyzer.py:201-212 | Negating the skewness, as mirroring the signal does, leaves the set of statistical anomalies unchanged, because both rules look at absolute values. |
| `Audio.EnergyRuleWithoutDivision` | src/deepfake_check/audio/analyzer.py:166-172 | The energy rule's divisor is positive, and the rule is the same as comparing the rms std with 0.1 times the divisor. |
| `Audio.RegularOnsetsNeedFour` | src/deepfake_check/audio/analyzer.py:179-181 | The onset rule can only fire with at least four onsets. |
| `Audio.EvenOnsetsAreRegular` | src/deepfake_check/audio/analyzer.py:179-187 | Four or more evenly spaced onsets always fire the onset rule. |
| `Audio.MergeKeepsGroups` | src/deepfake_check/audio/analyzer.py:74-90 | The three groups use disjoint names. The merged map is their union: each name is in it iff its own group flagged it, with that group's entry. |
| `Audio.MergedDetects` | src/deepfake_check/audio/analyzer.py:74-90 | The merged map holds exactly the anomalies whose rules hold on the features, and only names from the audio weight table. |
| `Audio.Analyze` | src/deepfake_check/audio/analyzer.py:59-105 | A missing file fails first and an unsupported suffix second, in each case before any load. A file that does not decode fails third. Otherwise the result is a success with file type "audio" and the file's path. Its verdict is "score > 0.5", its score is the confidence of the merged keys, and its details hold exactly spectral, temporal and statistical. |
| `Audio.AnalyzeDetects` | src/deepfake_check/audio/analyzer.py:74-104 | A successful result reports the merged map and each group's map under its name. A non-empty map scores the capped sum of its audio weights. |
| `Audio.NarrowCentroidFlagged` | src/deepfake_check/audio/analyzer.py:119-125 | A centroid std of 200 is flagged, with the centroid reason. |
| `Video.QualityGroup` | src/deepfake_check/video/analyzer.py:149-183 | The sharpness anomaly is present iff the sharpness std is below 10 and the mean is above 50. The low-sharpness anomaly is present iff the mean is below 30. There is no anomaly without frames. |
| `Video.TemporalGroup` | src/deepfake_check/video/analyzer.py:185-225 | The group is empty with no differences, which means fewer than two frames. The consistency anomaly is present iff the diff std is below 1 and the mean diff is above 5. The jump anomaly is present iff the max diff exceeds 5 times the mean diff. |
| `Video.ColorGroup` | src/deepfake_check/video/analyzer.py:227-274 | The colour-distribution anomaly is present iff the channel stds averaged over frames and channels are below 20. The balance anomaly is present iff the std of the three channel averages is above 30. |
| `Video.GreyFramesBalanced` | src/deepfake_check/video/analyzer.py:257-265 | Frames whose three channel means are equal give three equal channel averages. Such a clip is never flagged for channel imbalance. |
| `Video.EdgeGroup` | src/deepfake_check/video/analyzer.py:276-309 | The edge-consistency anomaly is present iff the density std is below 0.001. The low-density anomaly is present iff the density mean is below 0.02. |
| `Video.EqualDensitiesLookUniform` | src/deepfake_check/video/analyzer.py:288-306 | Equal edge densities, such as one sampled frame or a still scene, always fire the uniform-edges rule. The low-density rule fires for them exactly when the density is below 0.02. |
| `Video.SampledFrames` | src/deepfake_check/video/analyzer.py:140-147 | There is one frame per chosen index, in index order. |
| `Video.FrameDiffs` | src/deepfake_check/video/analyzer.py:192-204 | There is one difference per pair of consecutive sampled frames, and none with fewer than two frames. |
| `Video.SharpnessRulesExclusive` | src/deepfake_check/video/analyzer.py:167-181 | A video is never flagged for both uniform and low sharpness. |
| `Video.ConstantDiffs` | src/deepfake_check/video/analyzer.py:207-223 | Equal non-negative differences, all zeros included, never count as a jump. They are flagged as consistent iff their value exceeds 5. |
| `Video.JumpNeedsSpread` | src/deepfake_check/video/analyzer.py:214-223 | With non-negative differences, a jump needs the maximum above the mean, so the differences are not all equal. |
| `Video.MergeKeepsGroups` | src/deepfake_check/video/analyzer.py:88-109 | The four groups use disjoint names. The merged map is their union: each name is in it iff its own group flagged it, with that group's entry. |
| `Video.MergedDetects` | src/deepfake_check/video/analyzer.py:88-109 | The merged map holds exactly the anomalies whose eight rules hold on the sampled frames, and only names from the video weight table. |
| `Video.Analyze` | src/deepfake_check/video/analyzer.py:60-124 | A missing file fails first, then an unsupported suffix, then a capture that does not open. Otherwise the result is a success with file type "video". Its verdict is "score > 0.5", its score is the confidence of the merged keys, and its details hold exactly quality, temporal, color and edges. |
| `Video.AnalyzeDetects` | src/deepfake_check/video/analyzer.py:72-124 | A successful result reports the merged map of the sampled frames and each group's map under its name. A non-empty map scores the capped sum of its video weights. |
| `Video.NoFramesNoAnomalies` | src/deepfake_check/video/analyzer.py:72-124 | A video with no frames yields no anomalies, score 0, and is not called AI-generated. |
| `Video.OneFrameNoTemporal` | src/deepfake_check/video/analyzer.py:192-193 | A single sampled frame leaves the temporal group empty. |
| `Report.ToDict` | src/deepfake_check/base.py:22-31 | The dictionary has exactly the six keys, and each holds its field unchanged. |
| `Report.RoundTrip` | src/deepfake_check/base.py:22-31 | Reading the six keys back from `to_dict(r)` gives `r`. |
| `Report.ReadBackIsProjection` | src/deepfake_check/base.py:22-31 | A six-key dictionary that reads back as `r` is `to_dict(r)`. |
| `Report.RecordDoesNotEnforceInvariants` | src/deepfake_check/base.py:11-20 | The record accepts results that break the analyzers' invariants, such as a "test" file type. |
| `Deepfake.New` | src/deepfake_check/analyzer.py:19-28 | A new analyzer keeps `verbose` and has both slots empty. |
| `Deepfake.GetAudioAnalyzer` | src/deepfake_check/analyzer.py:30-34 | Afterwards the audio slot holds the returned analyzer. The video slot is untouched. A stored analyzer is returned unchanged. An empty slot gets a new analyzer with the same `verbose`. |
| `Deepfake.GetVideoAnalyzer` | src/deepfake_check/analyzer.py:36-40 | The same for the video slot. A new analyzer samples 30 frames. |
| `Deepfake.GettersIdempotent` | src/deepfake_check/analyzer.py:30-40 | A second call changes nothing and returns the same instance, so each slot is filled at most once. |
| `Deepfake.AnalyzeAudio` | src/deepfake_check/analyzer.py:82-93 | `analyze_audio` skips the suffix dispatch but keeps the audio analyzer's own checks. A missing file fails first, then a suffix outside the audio formats, reported as written. The result succeeds iff the file exists, has an audio suffix and decodes, and then has file type "audio". The state is the one `_get_audio_analyzer` leaves. |
| `Deepfake.AnalyzeVideo` | src/deepfake_check/analyzer.py:95-106 | The same for `analyze_video` and the video analyzer: the video format check still applies, success needs a capture that opens, and the file type is "video". |
| `Deepfake.Analyze` | src/deepfake_check/analyzer.py:58-80 | A missing file fails first with the state unchanged. A lower-cased suffix in the audio set takes the audio route. One in the video set takes the video route. Any other suffix fails as unsupported, reporting the lower-cased suffix, and leaves the state unchanged. |
| `Deepfake.FormatsDisjoint` | src/deepfake_check/analyzer.py:67-74 | No suffix is both an audio and a video format, so the order of the two lookups decides nothing. |
| `Deepfake.SupportedByOneAnalyzer` | src/deepfake_check/video/analyzer.py:43-46 | No file is accepted by both the audio and the video `supports_file`. |
| `Deepfake.AnalyzeSlots` | src/deepfake_check/analyzer.py:66-74 | `analyze` only ever fills the slot of the modality the file went to. It reuses a stored analyzer and keeps `verbose`. |
| `Deepfake.RejectedIffUnknown` | src/deepfake_check/analyzer.py:76-80 | The result is "unsupported format" iff the file exists and its lower-cased suffix is in neither set. In that case the state is unchanged. |
| `Deepfake.DispatchedOutcome` | src/deepfake_check/analyzer.py:66-74 | For a file that exists and is dispatched, the analyzer's own existence and format checks always pass. The result succeeds iff the file decodes, and carries that modality's file type. |
| `Deepfake.CaseInsensitive` | src/deepfake_check/analyzer.py:64 | Dispatch depends on the suffix only through its lower-case form. Two files whose suffixes lower-case alike, and which exist and decode alike, leave the same analyzer state. Their results agree up to the path reported in `file_path` or in the error. |
| `Deepfake.MissingBeforeSuffix` | src/deepfake_check/analyzer.py:60-61 | A missing file is reported as missing whatever its suffix, before any analyzer is created. |
| `Deepfake.DirectRouteKeepsFormatCheck` | src/deepfake_check/audio/analyzer.py:63-64 | A video file sent to `analyze_audio` is rejected as an unsupported audio format, with the suffix as written. |
| `Deepfake.UpperCaseMp3` | src/deepfake_check/analyzer.py:64-69 | An existing `.MP3` file takes the audio route. It leaves the same state as a `.mp3` file that decodes alike, and its result agrees with that file's up to the reported path. |
| `Deepfake.UnknownSuffixRejected` | src/deepfake_check/analyzer.py:76-80 | A `.unsupported` suffix is rejected, and a fresh analyzer stays fresh. |

## Left out

- Feature extraction is not modelled, because it consists of foreign numeric calls on float arrays. This covers librosa's spectral centroid, rolloff, zero-crossing rate, RMS and onset detection, scipy's kurtosis and skewness, and OpenCV's Laplacian, Canny, colour conversion and frame differences. Their results are inputs.
- File I/O is not modelled: `Path.exists`, `librosa.load` and `cv2.VideoCapture` opening, seeking, reading and releasing. Existence is a boolean. A load or open failure is a source value that yields the `RuntimeError` case.
- `Video.SampledFrames` assumes every seek and read succeeds. A frame whose `cap.read()` fails is dropped in the source (src/deepfake_check/video/analyzer.py:141-145), and the model does not represent that.
- The fps, width, height and duration are not modelled. `analyze` reads them only to log them.
- Floating point is not modelled. Thresholds, weights and scores are exact reals. Python's float sums depend on dict iteration order and can differ in the last bit near 0.5 and 1.0. `np.linspace`'s float rounding is idealised as exact floor division.
- The onset-interval spread and the video per-frame deviations are compared through their variance, because Dafny's reals have no square root. Their evidence fields hold `RootOf(variance)`, not a number. The audio centroid, zero-crossing and RMS deviations are given values and are not affected.
- `Path.suffix` edge cases such as hidden files and trailing dots are not modelled. The suffix is a given string.
- `str(path)` normalisation of the reported path is not modelled. The path is reported as given.
- `Paths.Lower` lower-cases ASCII letters only, not the full Unicode mapping of `str.lower`.
- `ImportError` at analyzer construction (src/deepfake_check/audio/analyzer.py:36-40, src/deepfake_check/video/analyzer.py:36-40) is not modelled, because it depends on the installed environment.
- Logging is not modelled, because `_log` and verbose output are side effects only.
- `save_report` (src/deepfake_check/analyzer.py:108-117) is modelled only through `Report.ToDict`, because its JSON file write is I/O.
- The command-line front end and the package's re-exports are not part of this model.
- The skewness rule calls `scipy.stats.skewness` (src/deepfake_check/audio/analyzer.py:209), which scipy does not provide, so the source would raise there. `Audio.StatisticalGroup` models the evidently intended rule over a given skewness value and does not model the crash.
- Audio.Analyze: its `Success` branch is the intended behaviour, not the actual one. As written, the skewness call above raises `AttributeError` on every decoded file, so the source's audio analysis never returns a result.
- Anomaly maps are typed: names from a fixed enumeration plus `Other` for unknown keys, and evidence records as values. The source's `Dict[str, Any]` can hold anything, and `Scoring.Confidence` covers unknown keys through `Other`.
- The merge does not model groups whose names overlap. It follows the code: each group uses its own names, so `update` never overwrites. A same-named entry from a later group would replace an earlier one, as `Anomalies.Update` states; no group produces one.
