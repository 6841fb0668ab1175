/** Anomaly evidence and anomaly maps, the common currency of both analyzers.
    An analyzer group returns a map from fixed anomaly names to the evidence
    recorded for them; a name is present only when its rule fired. */
module Anomalies {

  /** A numeric evidence field. `RootOf(v)` stands for the non-negative square
      root of `v`, which is how a standard deviation computed from a series is
      recorded (Dafny's reals have no square root). */
  datatype Value =
    | Real(r: real)
    | RootOf(square: real)
    | Count(n: int)
    | Reals(rs: seq<real>)

  /** The dictionary stored under one anomaly name: `detected`, `reason` and
      the numeric fields that support it. */
  datatype Evidence = Evidence(detected: bool, reason: string, fields: map<string, Value>)

  /** The fixed anomaly names of both analyzers, and `Other` for any other
      dictionary key (only `_calculate_confidence`'s default weight sees those). */
  datatype Name =
    | SpectralCentroidAnomaly | SpectralRolloffAnomaly | ZeroCrossingAnomaly
    | EnergyAnomaly | OnsetPatternAnomaly | KurtosisAnomaly | SkewnessAnomaly
    | SharpnessAnomaly | LowSharpnessAnomaly
    | TemporalConsistencyAnomaly | TemporalJumpAnomaly
    | ColorDistributionAnomaly | ColorBalanceAnomaly
    | EdgeConsistencyAnomaly | LowEdgeDensityAnomaly
    | Other(key: UnknownKey)

  const KnownKeys: set<string> := {
    "spectral_centroid_anomaly", "spectral_rolloff_anomaly", "zero_crossing_anomaly",
    "energy_anomaly", "onset_pattern_anomaly", "kurtosis_anomaly", "skewness_anomaly",
    "sharpness_anomaly", "low_sharpness_anomaly",
    "temporal_consistency_anomaly", "temporal_jump_anomaly",
    "color_distribution_anomaly", "color_balance_anomaly",
    "edge_consistency_anomaly", "low_edge_density_anomaly"
  }

  type UnknownKey = s: string | s !in KnownKeys witness ""

  /** The dictionary key the source uses for a name. */
  function Key(n: Name): (k: string)
    ensures n.Other? <==> k !in KnownKeys
  {
    match n
    case SpectralCentroidAnomaly => "spectral_centroid_anomaly"
    case SpectralRolloffAnomaly => "spectral_rolloff_anomaly"
    case ZeroCrossingAnomaly => "zero_crossing_anomaly"
    case EnergyAnomaly => "energy_anomaly"
    case OnsetPatternAnomaly => "onset_pattern_anomaly"
    case KurtosisAnomaly => "kurtosis_anomaly"
    case SkewnessAnomaly => "skewness_anomaly"
    case SharpnessAnomaly => "sharpness_anomaly"
    case LowSharpnessAnomaly => "low_sharpness_anomaly"
    case TemporalConsistencyAnomaly => "temporal_consistency_anomaly"
    case TemporalJumpAnomaly => "temporal_jump_anomaly"
    case ColorDistributionAnomaly => "color_distribution_anomaly"
    case ColorBalanceAnomaly => "color_balance_anomaly"
    case EdgeConsistencyAnomaly => "edge_consistency_anomaly"
    case LowEdgeDensityAnomaly => "low_edge_density_anomaly"
    case Other(key) => key
  }

  /** The name a dictionary key stands for: a known key names its anomaly,
      any other key is `Other`. */
  function NameOf(k: string): (n: Name)
    ensures Key(n) == k
  {
    if k == "spectral_centroid_anomaly" then SpectralCentroidAnomaly
    else if k == "spectral_rolloff_anomaly" then SpectralRolloffAnomaly
    else if k == "zero_crossing_anomaly" then ZeroCrossingAnomaly
    else if k == "energy_anomaly" then EnergyAnomaly
    else if k == "onset_pattern_anomaly" then OnsetPatternAnomaly
    else if k == "kurtosis_anomaly" then KurtosisAnomaly
    else if k == "skewness_anomaly" then SkewnessAnomaly
    else if k == "sharpness_anomaly" then SharpnessAnomaly
    else if k == "low_sharpness_anomaly" then LowSharpnessAnomaly
    else if k == "temporal_consistency_anomaly" then TemporalConsistencyAnomaly
    else if k == "temporal_jump_anomaly" then TemporalJumpAnomaly
    else if k == "color_distribution_anomaly" then ColorDistributionAnomaly
    else if k == "color_balance_anomaly" then ColorBalanceAnomaly
    else if k == "edge_consistency_anomaly" then EdgeConsistencyAnomaly
    else if k == "low_edge_density_anomaly" then LowEdgeDensityAnomaly
    else Other(k)
  }

  /** Every name is recovered from its key, so distinct names have distinct
      keys. */
  lemma NameOfKey(n: Name)
    ensures NameOf(Key(n)) == n
  {
  }

  type AnomalyMap = map<Name, Evidence>

  /** The source's dictionary for an anomaly map: the same entries under
      their string keys. */
  function Keyed(m: AnomalyMap): (d: map<string, Evidence>)
    ensures forall n :: n in m ==> Key(n) in d && d[Key(n)] == m[n]
    ensures forall k :: k in d ==> NameOf(k) in m
  {
    forall n | n in m
      ensures NameOf(Key(n)) == n
    {
      NameOfKey(n);
    }
    map n | n in m :: Key(n) := m[n]
  }

  /** An anomaly map read back from a dictionary with string keys. */
  function Named(d: map<string, Evidence>): (m: AnomalyMap)
    ensures forall k :: k in d ==> NameOf(k) in m && m[NameOf(k)] == d[k]
    ensures forall n :: n in m ==> Key(n) in d
  {
    map k | k in d :: NameOf(k) := d[k]
  }

  /** Names stand for keys without loss: keying an anomaly map and reading it
      back gives the map again. */
  lemma NamedKeyed(m: AnomalyMap)
    ensures Named(Keyed(m)) == m
  {
    var m' := Named(Keyed(m));
    forall n | n in m
      ensures n in m' && m'[n] == m[n]
    {
      NameOfKey(n);
    }
    forall n | n in m'
      ensures n in m
    {
      NameOfKey(n);
    }
  }

  /** Conversely, reading a dictionary as an anomaly map and keying it again
      gives the dictionary again. */
  lemma KeyedNamed(d: map<string, Evidence>)
    ensures Keyed(Named(d)) == d
  {
    var d' := Keyed(Named(d));
    forall k | k in d'
      ensures k in d
    {
      assert Key(NameOf(k)) == k;
    }
  }

  /** Evidence for an anomaly whose rule fired. */
  function Found(reason: string, fields: map<string, Value>): (e: Evidence)
    ensures e.detected && e.reason == reason && e.fields == fields
  {
    Evidence(true, reason, fields)
  }

  /** Every entry of `m` is flagged as detected and its name belongs to `names`. */
  predicate Within(m: AnomalyMap, names: set<Name>)
  {
    && m.Keys <= names
    && forall k :: k in m ==> m[k].detected
  }

  /** `anomalies.update(group)`: entries of `group` are added, overwriting any
      entry already stored under the same name. */
  function Update(anomalies: AnomalyMap, group: AnomalyMap): (r: AnomalyMap)
    ensures r.Keys == anomalies.Keys + group.Keys
    ensures forall k :: k in group ==> r[k] == group[k]
    ensures forall k :: k in anomalies && k !in group ==> r[k] == anomalies[k]
  {
    anomalies + group
  }

  /** Three groups with pairwise disjoint names, merged one `update` after
      the other into an empty map: the result is their union and keeps every
      entry as its group produced it. */
  lemma MergeThree(a: AnomalyMap, b: AnomalyMap, c: AnomalyMap)
    requires a.Keys !! b.Keys && a.Keys !! c.Keys && b.Keys !! c.Keys
    ensures var m := Update(Update(Update(map[], a), b), c);
      && m.Keys == a.Keys + b.Keys + c.Keys
      && (forall k :: k in a ==> m[k] == a[k])
      && (forall k :: k in b ==> m[k] == b[k])
      && (forall k :: k in c ==> m[k] == c[k])
  {
  }

  /** The same for four groups. */
  lemma MergeFour(a: AnomalyMap, b: AnomalyMap, c: AnomalyMap, d: AnomalyMap)
    requires a.Keys !! b.Keys && a.Keys !! c.Keys && a.Keys !! d.Keys
    requires b.Keys !! c.Keys && b.Keys !! d.Keys && c.Keys !! d.Keys
    ensures var m := Update(Update(Update(Update(map[], a), b), c), d);
      && m.Keys == a.Keys + b.Keys + c.Keys + d.Keys
      && (forall k :: k in a ==> m[k] == a[k])
      && (forall k :: k in b ==> m[k] == b[k])
      && (forall k :: k in c ==> m[k] == c[k])
      && (forall k :: k in d ==> m[k] == d[k])
  {
  }
}
