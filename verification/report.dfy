/** The `AnalysisResult` record and its `to_dict` projection, which is the
    shape the JSON report is written in. */
module Report {
  import opened Wrappers
  import opened Anomalies

  /** The dataclass stores its six fields as given; it checks nothing. */
  datatype AnalysisResult = AnalysisResult(
    filePath: string,
    fileType: string,
    isLikelyAiGenerated: bool,
    confidenceScore: real,
    anomaliesDetected: AnomalyMap,
    analysisDetails: map<string, AnomalyMap>)

  /** A value of the dictionary `to_dict` returns. */
  datatype Field =
    | Text(text: string)
    | Flag(flag: bool)
    | Number(number: real)
    | AnomalyField(anomalies: AnomalyMap)
    | DetailsField(details: map<string, AnomalyMap>)

  const ResultKeys: set<string> := {
    "file_path", "file_type", "is_likely_ai_generated",
    "confidence_score", "anomalies_detected", "analysis_details"
  }

  /** The invariants an analyzer establishes for the results it builds:
      the file type is a modality, the score lies in [0, 1], and the verdict
      is exactly "score above one half". */
  predicate Consistent(r: AnalysisResult)
  {
    && r.fileType in {"audio", "video"}
    && 0.0 <= r.confidenceScore <= 1.0
    && r.isLikelyAiGenerated == (r.confidenceScore > 0.5)
  }

  /** `to_dict` */
  function ToDict(r: AnalysisResult): (d: map<string, Field>)
    ensures d.Keys == ResultKeys
    ensures d["file_path"] == Text(r.filePath)
    ensures d["file_type"] == Text(r.fileType)
    ensures d["is_likely_ai_generated"] == Flag(r.isLikelyAiGenerated)
    ensures d["confidence_score"] == Number(r.confidenceScore)
    ensures d["anomalies_detected"] == AnomalyField(r.anomaliesDetected)
    ensures d["analysis_details"] == DetailsField(r.analysisDetails)
  {
    map[
      "file_path" := Text(r.filePath),
      "file_type" := Text(r.fileType),
      "is_likely_ai_generated" := Flag(r.isLikelyAiGenerated),
      "confidence_score" := Number(r.confidenceScore),
      "anomalies_detected" := AnomalyField(r.anomaliesDetected),
      "analysis_details" := DetailsField(r.analysisDetails)
    ]
  }

  /** Reading a report dictionary back: every one of the six keys must be
      present with a value of the right kind. */
  function FromDict(d: map<string, Field>): (r: Option<AnalysisResult>)
    ensures r.Some? ==> ResultKeys <= d.Keys
  {
    if && "file_path" in d && d["file_path"].Text?
       && "file_type" in d && d["file_type"].Text?
       && "is_likely_ai_generated" in d && d["is_likely_ai_generated"].Flag?
       && "confidence_score" in d && d["confidence_score"].Number?
       && "anomalies_detected" in d && d["anomalies_detected"].AnomalyField?
       && "analysis_details" in d && d["analysis_details"].DetailsField?
    then
      Some(AnalysisResult(
        d["file_path"].text,
        d["file_type"].text,
        d["is_likely_ai_generated"].flag,
        d["confidence_score"].number,
        d["anomalies_detected"].anomalies,
        d["analysis_details"].details))
    else None
  }

  /** Reading the six keys back from `to_dict(r)` gives `r` again. */
  lemma RoundTrip(r: AnalysisResult)
    ensures FromDict(ToDict(r)) == Some(r)
  {
  }

  /** Conversely, a dictionary with exactly the six keys that reads back as
      `r` is `to_dict(r)`: the projection loses nothing and adds nothing. */
  lemma ReadBackIsProjection(d: map<string, Field>, r: AnalysisResult)
    requires d.Keys == ResultKeys
    requires FromDict(d) == Some(r)
    ensures ToDict(r) == d
  {
    var t := ToDict(r);
    assert t.Keys == d.Keys;
    forall k | k in d
      ensures t[k] == d[k]
    {
    }
  }

  /** The record itself accepts a result that breaks the analyzers' invariants,
      as the base tests do with a `"test"` file type. */
  lemma RecordDoesNotEnforceInvariants()
    ensures !Consistent(AnalysisResult("/path", "test", false, 0.0, map[], map[]))
    ensures !Consistent(AnalysisResult("/path", "audio", true, 0.25, map[], map[]))
  {
  }
}
