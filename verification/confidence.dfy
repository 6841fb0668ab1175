/** The confidence aggregation shared by both analyzers (`_calculate_confidence`):
    the sum of per-anomaly weights, with 0.1 for a name missing from the
    modality's weight table, capped at 1.0, and 0.0 when nothing was found. */
module Scoring {
  import opened Anomalies

  /** The two analysis pipelines. */
  datatype Modality = Audio | Video

  datatype Weighted = Weighted(name: Name, weight: real)

  /** `weights.get(key, 0.1)` */
  const DefaultWeight: real := 0.1

  /** The audio analyzer's weight table. */
  const AudioWeights: seq<Weighted> := [
    Weighted(SpectralCentroidAnomaly, 0.25),
    Weighted(SpectralRolloffAnomaly, 0.15),
    Weighted(ZeroCrossingAnomaly, 0.20),
    Weighted(EnergyAnomaly, 0.20),
    Weighted(OnsetPatternAnomaly, 0.10),
    Weighted(KurtosisAnomaly, 0.05),
    Weighted(SkewnessAnomaly, 0.05)
  ]

  /** The video analyzer's weight table. */
  const VideoWeights: seq<Weighted> := [
    Weighted(SharpnessAnomaly, 0.15),
    Weighted(LowSharpnessAnomaly, 0.10),
    Weighted(TemporalConsistencyAnomaly, 0.25),
    Weighted(TemporalJumpAnomaly, 0.15),
    Weighted(ColorDistributionAnomaly, 0.15),
    Weighted(ColorBalanceAnomaly, 0.10),
    Weighted(EdgeConsistencyAnomaly, 0.05),
    Weighted(LowEdgeDensityAnomaly, 0.05)
  ]

  function WeightsOf(m: Modality): seq<Weighted>
  {
    match m
    case Audio => AudioWeights
    case Video => VideoWeights
  }

  function Names(t: seq<Weighted>): set<Name>
  {
    set w | w in t :: w.name
  }

  /** Names are unique (a dict literal) and every weight lies in (0, 1]. */
  predicate ValidTable(t: seq<Weighted>)
  {
    && (forall i, j :: 0 <= i < j < |t| ==> t[i].name != t[j].name)
    && (forall i :: 0 <= i < |t| ==> 0.0 < t[i].weight <= 1.0)
  }

  /** The weight a single anomaly name contributes. */
  function Weight(t: seq<Weighted>, k: Name): (w: real)
    ensures k !in Names(t) ==> w == DefaultWeight
  {
    if |t| == 0 then DefaultWeight
    else if t[0].name == k then t[0].weight
    else
      assert Names(t) == {t[0].name} + Names(t[1..]);
      Weight(t[1..], k)
  }

  /** In a valid table a listed name weighs exactly its table entry. */
  lemma {:induction false} WeightOfListed(t: seq<Weighted>, i: int)
    requires ValidTable(t) && 0 <= i < |t|
    ensures Weight(t, t[i].name) == t[i].weight
  {
    if i > 0 {
      WeightOfListed(t[1..], i - 1);
    }
  }

  /** Sum of the table weights whose names occur in `keys`. */
  function KnownWeight(t: seq<Weighted>, keys: set<Name>): real
  {
    if |t| == 0 then 0.0
    else (if t[0].name in keys then t[0].weight else 0.0) + KnownWeight(t[1..], keys)
  }

  /** The order-independent total of the weights of `keys`: the table weights
      of the known names plus the default weight for each unknown one. */
  function TotalWeight(t: seq<Weighted>, keys: set<Name>): real
  {
    KnownWeight(t, keys) + DefaultWeight * (|keys - Names(t)| as real)
  }

  function Min(a: real, b: real): (r: real)
    ensures r <= a && r <= b && (r == a || r == b)
  {
    if b < a then b else a
  }

  /** The confidence of an anomaly map with key set `keys`. */
  function Confidence(m: Modality, keys: set<Name>): (c: real)
    ensures 0.0 <= c <= 1.0
    ensures c == 0.0 <==> keys == {}
  {
    if keys == {} then 0.0
    else
      TotalWeightPositive(WeightsOf(m), keys);
      Min(TotalWeight(WeightsOf(m), keys), 1.0)
  }

  lemma TablesValid(m: Modality)
    ensures ValidTable(WeightsOf(m))
  {
    match m
    case Audio => AudioTableValid();
    case Video => VideoTableValid();
  }

  lemma AudioTableValid()
    ensures ValidTable(AudioWeights)
  {
    var t := AudioWeights;
    forall i, j | 0 <= i < j < |t|
      ensures t[i].name != t[j].name
    {
    }
  }

  lemma VideoTableValid()
    ensures ValidTable(VideoWeights)
  {
    var t := VideoWeights;
    forall i, j | 0 <= i < j < |t|
      ensures t[i].name != t[j].name
    {
    }
  }

  lemma {:induction false} KnownWeightNonNegative(t: seq<Weighted>, keys: set<Name>)
    requires ValidTable(t)
    ensures KnownWeight(t, keys) >= 0.0
  {
    if |t| > 0 {
      KnownWeightNonNegative(t[1..], keys);
    }
  }

  /** Adding one more name to a key set adds exactly that name's weight to
      the known part of the total. */
  lemma {:induction false} KnownWeightAddKey(t: seq<Weighted>, keys: set<Name>, k: Name)
    requires ValidTable(t) && k !in keys
    ensures KnownWeight(t, keys + {k})
         == KnownWeight(t, keys) + (if k in Names(t) then Weight(t, k) else 0.0)
  {
    if |t| > 0 {
      assert Names(t) == {t[0].name} + Names(t[1..]);
      KnownWeightAddKey(t[1..], keys, k);
      if t[0].name == k {
        assert k !in Names(t[1..]) by {
          forall w | w in t[1..] ensures w.name != k {
            var j :| 0 <= j < |t[1..]| && t[1..][j] == w;
            assert t[j + 1] == w;
          }
        }
      }
    }
  }

  /** The total weight grows by exactly `Weight(t, k)` when `k` is added. */
  lemma TotalWeightAddKey(t: seq<Weighted>, keys: set<Name>, k: Name)
    requires ValidTable(t) && k !in keys
    ensures TotalWeight(t, keys + {k}) == TotalWeight(t, keys) + Weight(t, k)
  {
    KnownWeightAddKey(t, keys, k);
    if k in Names(t) {
      assert (keys + {k}) - Names(t) == keys - Names(t);
    } else {
      assert (keys + {k}) - Names(t) == (keys - Names(t)) + {k};
    }
  }

  lemma {:induction false} KnownWeightMonotone(t: seq<Weighted>, a: set<Name>, b: set<Name>)
    requires ValidTable(t) && a <= b
    ensures KnownWeight(t, a) <= KnownWeight(t, b)
  {
    if |t| > 0 {
      KnownWeightMonotone(t[1..], a, b);
    }
  }

  lemma SubsetCardinality<T>(a: set<T>, b: set<T>)
    requires a <= b
    ensures |a| <= |b|
  {
    assert b == a + (b - a);
  }

  /** More anomaly names never lower the total weight. */
  lemma TotalWeightMonotone(t: seq<Weighted>, a: set<Name>, b: set<Name>)
    requires ValidTable(t) && a <= b
    ensures TotalWeight(t, a) <= TotalWeight(t, b)
  {
    KnownWeightMonotone(t, a, b);
    SubsetCardinality(a - Names(t), b - Names(t));
  }

  lemma TotalWeightPositive(t: seq<Weighted>, keys: set<Name>)
    requires ValidTable(t) && keys != {}
    ensures TotalWeight(t, keys) > 0.0
  {
    var k :| k in keys;
    assert {} + {k} == {k};
    assert TotalWeight(t, {}) == 0.0 by {
      KnownWeightMonotone(t, {}, {});
      assert KnownWeight(t, {}) == 0.0 by { KnownWeightEmpty(t); }
    }
    TotalWeightAddKey(t, {}, k);
    if k in Names(t) {
      var i :| 0 <= i < |t| && t[i].name == k;
      WeightOfListed(t, i);
    }
    TotalWeightMonotone(t, {k}, keys);
  }

  lemma {:induction false} KnownWeightEmpty(t: seq<Weighted>)
    ensures KnownWeight(t, {}) == 0.0
  {
    if |t| > 0 {
      KnownWeightEmpty(t[1..]);
    }
  }

  /** Adding an anomaly never lowers the confidence. */
  lemma ConfidenceMonotone(m: Modality, a: set<Name>, b: set<Name>)
    requires a <= b
    ensures Confidence(m, a) <= Confidence(m, b)
  {
    if a != {} {
      var t := WeightsOf(m);
      assert b != {};
      TablesValid(m);
      TotalWeightMonotone(t, a, b);
      assert Confidence(m, a) == Min(TotalWeight(t, a), 1.0);
      assert Confidence(m, b) == Min(TotalWeight(t, b), 1.0);
    }
  }

  /** For a non-empty map whose names all appear in the table the default
      weight never applies: the score is the capped sum of table weights. */
  lemma ConfidenceOfKnownNames(m: Modality, keys: set<Name>)
    requires keys != {} && keys <= Names(WeightsOf(m))
    ensures Confidence(m, keys) == Min(KnownWeight(WeightsOf(m), keys), 1.0)
  {
    assert keys - Names(WeightsOf(m)) == {};
  }

  /** The known weights of each modality add up to exactly 1.0, so a map
      holding every known anomaly has confidence 1.0. */
  lemma KnownWeightsSumToOne(m: Modality)
    ensures TotalWeight(WeightsOf(m), Names(WeightsOf(m))) == 1.0
    ensures Confidence(m, Names(WeightsOf(m))) == 1.0
  {
    var t := WeightsOf(m);
    assert Names(t) - Names(t) == {};
    KnownWeightOfAll(t, Names(t));
    TableSumIsOne(m);
    assert t[0].name in Names(t);
  }

  lemma TableSumIsOne(m: Modality)
    ensures TableSum(WeightsOf(m)) == 1.0
  {
    var t := WeightsOf(m);
    if m == Audio {
      assert TableSum(t[7..]) == 0.0;
      assert TableSum(t[5..]) == 0.10;
      assert TableSum(t[3..]) == 0.40;
      assert TableSum(t[1..]) == 0.75;
    } else {
      assert TableSum(t[8..]) == 0.0;
      assert TableSum(t[6..]) == 0.10;
      assert TableSum(t[4..]) == 0.35;
      assert TableSum(t[2..]) == 0.75;
    }
  }

  function TableSum(t: seq<Weighted>): real
  {
    if |t| == 0 then 0.0 else t[0].weight + TableSum(t[1..])
  }

  /** When every table name is among the keys, the known part is the sum of the whole table. */
  lemma {:induction false} KnownWeightOfAll(t: seq<Weighted>, keys: set<Name>)
    requires Names(t) <= keys
    ensures KnownWeight(t, keys) == TableSum(t)
  {
    if |t| > 0 {
      assert t[0] in t;
      assert Names(t[1..]) <= Names(t) by {
        forall w | w in t[1..] ensures w in t { }
      }
      KnownWeightOfAll(t[1..], keys);
    }
  }

  /** The loop of `_calculate_confidence`: `total_weight += weights.get(key, 0.1)`
      for every key, in whatever order the keys are visited. */
  method SumWeights(t: seq<Weighted>, keys: set<Name>) returns (total: real)
    requires ValidTable(t)
    ensures total == TotalWeight(t, keys)
  {
    total := 0.0;
    var seen: set<Name> := {};
    var remaining := keys;
    KnownWeightEmpty(t);
    while remaining != {}
      invariant seen !! remaining && seen + remaining == keys
      invariant total == TotalWeight(t, seen)
      decreases |remaining|
    {
      var k :| k in remaining;
      VisitKey(t, keys, seen, remaining, k);
      total := total + Weight(t, k);
      seen := seen + {k};
      remaining := remaining - {k};
    }
    assert seen == keys;
  }

  /** One step of the summing loop: moving `k` from the keys still to visit
      to the keys visited adds exactly its weight to the total. */
  lemma VisitKey(t: seq<Weighted>, keys: set<Name>, seen: set<Name>, remaining: set<Name>, k: Name)
    requires ValidTable(t)
    requires seen !! remaining && seen + remaining == keys && k in remaining
    ensures (seen + {k}) !! (remaining - {k}) && (seen + {k}) + (remaining - {k}) == keys
    ensures |remaining - {k}| < |remaining|
    ensures TotalWeight(t, seen + {k}) == TotalWeight(t, seen) + Weight(t, k)
  {
    TotalWeightAddKey(t, seen, k);
  }

  /** `_calculate_confidence`: 0.0 for an empty map, otherwise the summed
      weights capped at 1.0. */
  method CalculateConfidence(m: Modality, anomalies: AnomalyMap) returns (c: real)
    ensures c == Confidence(m, anomalies.Keys)
    ensures anomalies == map[] ==> c == 0.0
    ensures anomalies != map[] ==> 0.0 < c <= 1.0
  {
    if anomalies == map[] {
      assert anomalies.Keys == {};
      return 0.0;
    }
    assert anomalies.Keys != {};
    TablesValid(m);
    var total := SumWeights(WeightsOf(m), anomalies.Keys);
    c := Min(total, 1.0);
  }
}
