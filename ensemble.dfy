/**
 * The ensemble PCB classifier: the model is run at three confidence thresholds
 * (0.75, 0.4, 0.25); the three detection lists and the image size are turned into
 * metrics, each metric is mapped to a graded bucket and weighted, the weighted
 * buckets are summed into an ensemble score, and the score is cut into four bands.
 * The model runs themselves are inputs here.
 */
module Ensemble {
  import opened Wrappers
  import opened Boxes

  // ---------------------------------------------------------------------------
  // Configuration

  const HighConfThreshold: real := 0.75
  const MedConfThreshold: real := 0.4
  const LowConfThreshold: real := 0.25

  const HighConfWeight: real := 3.0
  const DensityWeight: real := 2.0
  const AvgConfidenceWeight: real := 1.5
  const AreaCoverageWeight: real := 2.5

  /** The largest score the four weighted buckets can reach: 4*3.0 + 3*2.0 + 2.5*1.5 + 4*2.5. */
  const MaxScore: real := 31.75

  // ---------------------------------------------------------------------------
  // Confidence distribution

  function CountHigh(cs: seq<real>): (n: nat)
    ensures n <= |cs|
  {
    if cs == [] then 0 else (if cs[0] > 0.7 then 1 else 0) + CountHigh(cs[1..])
  }

  function CountMedium(cs: seq<real>): (n: nat)
    ensures n <= |cs|
  {
    if cs == [] then 0 else (if 0.4 <= cs[0] <= 0.7 then 1 else 0) + CountMedium(cs[1..])
  }

  function CountLow(cs: seq<real>): (n: nat)
    ensures n <= |cs|
  {
    if cs == [] then 0 else (if cs[0] < 0.4 then 1 else 0) + CountLow(cs[1..])
  }

  /** The three confidence classes (> 0.7, [0.4, 0.7], < 0.4) partition every list. */
  lemma {:induction false} ConfidenceClassesPartition(cs: seq<real>)
    ensures CountHigh(cs) + CountMedium(cs) + CountLow(cs) == |cs|
  {
    if cs != [] { ConfidenceClassesPartition(cs[1..]); }
  }

  /** The ratios reported for a detection list; an empty list has no medium entry. */
  datatype Distribution = Distribution(highRatio: real, mediumRatio: Option<real>, lowRatio: real)

  function AnalyzeConfidenceDistribution(bs: seq<Box>): (d: Distribution)
    ensures bs == [] ==> d == Distribution(0.0, None, 1.0)
    ensures bs != [] ==>
      (d.mediumRatio.Some? && d.highRatio + d.mediumRatio.value + d.lowRatio == 1.0)
    ensures 0.0 <= d.highRatio <= 1.0 && 0.0 <= d.lowRatio <= 1.0
    ensures d.mediumRatio.Some? ==> 0.0 <= d.mediumRatio.value <= 1.0
  {
    if bs == [] then Distribution(0.0, None, 1.0)
    else
      var cs := Confidences(bs);
      var total := |cs| as real;
      ConfidenceClassesPartition(cs);
      RatiosOfPartition(CountHigh(cs), CountMedium(cs), CountLow(cs), |cs|);
      Distribution(CountHigh(cs) as real / total,
                   Some(CountMedium(cs) as real / total),
                   CountLow(cs) as real / total)
  }

  lemma RatiosOfPartition(a: nat, b: nat, c: nat, t: nat)
    requires t > 0 && a + b + c == t
    ensures (a as real) / (t as real) + (b as real) / (t as real) + (c as real) / (t as real) == 1.0
    ensures 0.0 <= (a as real) / (t as real) <= 1.0 && 0.0 <= (c as real) / (t as real) <= 1.0
    ensures 0.0 <= (b as real) / (t as real) <= 1.0
  {
    var total := t as real;
    assert (a as real) / total + (b as real) / total + (c as real) / total
      == ((a + b + c) as real) / total;
  }

  // ---------------------------------------------------------------------------
  // Metrics

  function SumConfidence(bs: seq<Box>): real
  {
    if bs == [] then 0.0 else bs[0].confidence + SumConfidence(bs[1..])
  }

  /** np.max of the confidences: attained by some box and at least every box's. */
  function MaxConfidence(bs: seq<Box>): (m: real)
    requires bs != []
    ensures forall i :: 0 <= i < |bs| ==> bs[i].confidence <= m
    ensures exists i :: 0 <= i < |bs| && bs[i].confidence == m
  {
    if |bs| == 1 then bs[0].confidence
    else
      var rest := MaxConfidence(bs[1..]);
      assert forall i :: 1 <= i < |bs| ==> bs[i] == bs[1..][i - 1];
      if bs[0].confidence >= rest then bs[0].confidence else rest
  }

  /** np.mean of the confidences. */
  function MeanConfidence(bs: seq<Box>): real
    requires bs != []
  {
    SumConfidence(bs) / (|bs| as real)
  }

  lemma {:induction false} SumAtMostCountTimesBound(bs: seq<Box>, bound: real)
    requires forall i :: 0 <= i < |bs| ==> bs[i].confidence <= bound
    ensures SumConfidence(bs) <= (|bs| as real) * bound
  {
    if bs != [] {
      assert forall i :: 0 <= i < |bs| - 1 ==> bs[1..][i] == bs[i + 1];
      SumAtMostCountTimesBound(bs[1..], bound);
      assert (|bs| as real) * bound == bound + ((|bs| - 1) as real) * bound;
    }
  }

  /** The maximum confidence is never below the mean confidence. */
  lemma MaxAtLeastMean(bs: seq<Box>)
    requires bs != []
    ensures MeanConfidence(bs) <= MaxConfidence(bs)
  {
    var m := MaxConfidence(bs);
    SumAtMostCountTimesBound(bs, m);
    QuotientAtMost(SumConfidence(bs), |bs| as real, m);
  }

  lemma QuotientAtMost(x: real, n: real, m: real)
    requires n > 0.0 && x <= n * m
    ensures x / n <= m
  {
    assert x / n * n == x;
  }

  /** Σ (x2 - x1)(y2 - y1) over the boxes, in list order. */
  function TotalArea(bs: seq<Box>): (a: real)
    ensures (forall i :: 0 <= i < |bs| ==> WellFormed(bs[i])) ==> a >= 0.0
  {
    if bs == [] then 0.0 else TotalArea(bs[..|bs| - 1]) + Area(bs[|bs| - 1])
  }

  datatype Metrics = Metrics(
    highConfCount: nat,
    totalDetectionCount: nat,
    avgConfidence: real,
    maxConfidence: real,
    areaCoverageRatio: real,
    confDistribution: Distribution,
    imgArea: nat)

  /**
   * The metrics of an image of non-zero area: the high list's size, the low list's size
   * as the density, the mean and maximum confidence of the medium list (0 when it is
   * empty), its total box area over the image area, and its confidence distribution.
   */
  function MetricsOf(high: seq<Box>, medium: seq<Box>, low: seq<Box>, height: nat, width: nat): (m: Metrics)
    requires height * width > 0
    ensures m.avgConfidence <= m.maxConfidence
  {
    assert medium != [] ==> MeanConfidence(medium) <= MaxConfidence(medium) by {
      if medium != [] { MaxAtLeastMean(medium); }
    }
    Metrics(|high|, |low|,
            if medium == [] then 0.0 else MeanConfidence(medium),
            if medium == [] then 0.0 else MaxConfidence(medium),
            TotalArea(medium) / ((height * width) as real),
            AnalyzeConfidenceDistribution(medium),
            height * width)
  }

  /** Dividing the defect area by a zero image area raises ZeroDivisionError. */
  datatype ScoringError = ZeroImageArea

  /**
   * extract_multiple_metrics on the three detection lists (model runs at 0.75, 0.4 and
   * 0.25) of an image with the given height and width. The density metric counts the
   * lowest-threshold list; confidence, area and distribution come from the medium list.
   */
  method ExtractMultipleMetrics(high: seq<Box>, medium: seq<Box>, low: seq<Box>, height: nat, width: nat)
    returns (r: Result<Metrics, ScoringError>)
    ensures r.Err? <==> height * width == 0
    ensures r.Ok? ==> r.value == MetricsOf(high, medium, low, height, width)
    ensures r.Ok? ==> r.value.highConfCount == |high| && r.value.totalDetectionCount == |low|
    ensures r.Ok? ==> r.value.imgArea == height * width
    ensures r.Ok? ==> r.value.areaCoverageRatio == TotalArea(medium) / ((height * width) as real)
    ensures r.Ok? && medium == [] ==> r.value.avgConfidence == 0.0 && r.value.maxConfidence == 0.0
    ensures r.Ok? && medium != [] ==>
      (r.value.avgConfidence == MeanConfidence(medium) && r.value.maxConfidence == MaxConfidence(medium))
    ensures r.Ok? ==> r.value.avgConfidence <= r.value.maxConfidence
    ensures r.Ok? ==> r.value.confDistribution == AnalyzeConfidenceDistribution(medium)
  {
    var imgArea := height * width;
    var highConfCount := |high|;
    var totalDetectionCount := |low|;
    var avgConfidence, maxConfidence := 0.0, 0.0;
    if |medium| > 0 {
      avgConfidence := MeanConfidence(medium);
      maxConfidence := MaxConfidence(medium);
      MaxAtLeastMean(medium);
    }
    var totalDefectArea := 0.0;
    var i := 0;
    while i < |medium|
      invariant 0 <= i <= |medium|
      invariant totalDefectArea == TotalArea(medium[..i])
    {
      assert medium[..i + 1][..i] == medium[..i];
      totalDefectArea := totalDefectArea + Area(medium[i]);
      i := i + 1;
    }
    assert medium[..i] == medium;
    if imgArea == 0 {
      return Err(ZeroImageArea);
    }
    var areaCoverageRatio := totalDefectArea / (imgArea as real);
    var confDistribution := AnalyzeConfidenceDistribution(medium);
    r := Ok(Metrics(highConfCount, totalDetectionCount, avgConfidence, maxConfidence,
                    areaCoverageRatio, confDistribution, imgArea));
  }

  // ---------------------------------------------------------------------------
  // Buckets and score

  function HighConfBucket(count: nat): real
  {
    if count >= 5 then 4.0 else if count >= 3 then 3.0 else if count >= 1 then 1.5 else 0.0
  }

  function DensityBucket(count: nat): real
  {
    if count >= 15 then 3.0 else if count >= 8 then 2.0 else if count >= 4 then 1.0 else 0.0
  }

  function AvgConfidenceBucket(avg: real): real
  {
    if avg >= 0.7 then 2.5 else if avg >= 0.5 then 1.5 else if avg >= 0.3 then 0.5 else 0.0
  }

  function AreaBucket(ratio: real): real
  {
    if ratio >= 0.05 then 4.0 else if ratio >= 0.02 then 2.0 else if ratio >= 0.01 then 1.0 else 0.0
  }

  /** Every bucket grows with its metric. */
  lemma BucketsMonotone(n: nat, n': nat, x: real, x': real)
    requires n <= n' && x <= x'
    ensures HighConfBucket(n) <= HighConfBucket(n') && DensityBucket(n) <= DensityBucket(n')
    ensures AvgConfidenceBucket(x) <= AvgConfidenceBucket(x') && AreaBucket(x) <= AreaBucket(x')
  {
  }

  /** The weighted sum of the four buckets. */
  function EnsembleScore(m: Metrics): (s: real)
    ensures 0.0 <= s <= MaxScore
  {
    HighConfBucket(m.highConfCount) * HighConfWeight
    + DensityBucket(m.totalDetectionCount) * DensityWeight
    + AvgConfidenceBucket(m.avgConfidence) * AvgConfidenceWeight
    + AreaBucket(m.areaCoverageRatio) * AreaCoverageWeight
  }

  /** calculate_ensemble_score: the terms are added to the score one after another. */
  method CalculateEnsembleScore(m: Metrics) returns (score: real)
    ensures score == EnsembleScore(m)
    ensures 0.0 <= score <= MaxScore
  {
    score := 0.0;
    var highConfScore := HighConfBucket(m.highConfCount);
    score := score + highConfScore * HighConfWeight;
    var densityScore := DensityBucket(m.totalDetectionCount);
    score := score + densityScore * DensityWeight;
    var confScore := AvgConfidenceBucket(m.avgConfidence);
    score := score + confScore * AvgConfidenceWeight;
    var areaScore := AreaBucket(m.areaCoverageRatio);
    score := score + areaScore * AreaCoverageWeight;
  }

  /** Raising any metric, the others fixed or raised too, never lowers the score. */
  lemma ScoreMonotone(m: Metrics, m': Metrics)
    requires m.highConfCount <= m'.highConfCount
    requires m.totalDetectionCount <= m'.totalDetectionCount
    requires m.avgConfidence <= m'.avgConfidence
    requires m.areaCoverageRatio <= m'.areaCoverageRatio
    ensures EnsembleScore(m) <= EnsembleScore(m')
  {
    BucketsMonotone(m.highConfCount, m'.highConfCount, m.avgConfidence, m'.avgConfidence);
    BucketsMonotone(m.totalDetectionCount, m'.totalDetectionCount, m.areaCoverageRatio, m'.areaCoverageRatio);
  }

  // ---------------------------------------------------------------------------
  // Bands

  datatype Band = GoodPcb | QuestionablePcb | DefectivePcb | SeverelyDefectivePcb
  {
    function Label(): string
    {
      match this
      case GoodPcb => "GOOD PCB"
      case QuestionablePcb => "QUESTIONABLE PCB"
      case DefectivePcb => "DEFECTIVE PCB"
      case SeverelyDefectivePcb => "SEVERELY DEFECTIVE PCB"
    }

    function Confidence(): real
    {
      match this
      case GoodPcb => 0.95
      case QuestionablePcb => 0.75
      case DefectivePcb => 0.85
      case SeverelyDefectivePcb => 0.95
    }

    /** Position in the order of the bands, from good to severely defective. */
    function Rank(): nat
    {
      match this
      case GoodPcb => 0
      case QuestionablePcb => 1
      case DefectivePcb => 2
      case SeverelyDefectivePcb => 3
    }
  }

  /** The band of a score; every upper bound (2, 5, 10) belongs to the lower band. */
  function BandOf(score: real): (b: Band)
    ensures b == GoodPcb <==> score <= 2.0
    ensures b == QuestionablePcb <==> 2.0 < score <= 5.0
    ensures b == DefectivePcb <==> 5.0 < score <= 10.0
    ensures b == SeverelyDefectivePcb <==> score > 10.0
  {
    if score <= 2.0 then GoodPcb
    else if score <= 5.0 then QuestionablePcb
    else if score <= 10.0 then DefectivePcb
    else SeverelyDefectivePcb
  }

  /** A higher score never gets a better band. */
  lemma BandMonotone(s: real, s': real)
    requires s <= s'
    ensures BandOf(s).Rank() <= BandOf(s').Rank()
  {
  }

  /** Metrics of an image without any detection score 0 and make a good board. */
  lemma NoDetectionsIsGood(m: Metrics)
    requires m.highConfCount == 0 && m.totalDetectionCount == 0
    requires m.avgConfidence == 0.0 && m.areaCoverageRatio == 0.0
    ensures EnsembleScore(m) == 0.0 && BandOf(EnsembleScore(m)) == GoodPcb
  {
  }

  /** One high-confidence detection contributes 4.5, so the board is never good. */
  lemma HighConfidenceNeverGood(m: Metrics)
    requires m.highConfCount >= 1
    ensures EnsembleScore(m) >= 4.5 && BandOf(EnsembleScore(m)) != GoodPcb
  {
  }

  /** Five high-confidence detections contribute 12, so the board is severely defective. */
  lemma FiveHighConfidenceSevere(m: Metrics)
    requires m.highConfCount >= 5
    ensures EnsembleScore(m) >= 12.0 && BandOf(EnsembleScore(m)) == SeverelyDefectivePcb
  {
  }

  datatype Classification = Classification(band: Band, ensembleScore: real, metrics: Metrics)
  {
    function Label(): string { band.Label() }
    function Confidence(): real { band.Confidence() }
  }

  /** classify_pcb: metrics, then score, then band. A zero-sized image fails in the metrics step. */
  method ClassifyPcb(high: seq<Box>, medium: seq<Box>, low: seq<Box>, height: nat, width: nat)
    returns (r: Result<Classification, ScoringError>)
    ensures r.Err? <==> height * width == 0
    ensures r.Ok? ==>
      (r.value.ensembleScore == EnsembleScore(r.value.metrics)
       && r.value.band == BandOf(r.value.ensembleScore)
       && r.value.metrics.highConfCount == |high| && r.value.metrics.totalDetectionCount == |low|)
    ensures r.Ok? ==> r.value.metrics == MetricsOf(high, medium, low, height, width)
    ensures r.Ok? && |high| >= 1 ==> r.value.band != GoodPcb
    ensures r.Ok? && |high| >= 5 ==> r.value.band == SeverelyDefectivePcb
  {
    var metrics := ExtractMultipleMetrics(high, medium, low, height, width);
    if metrics.Err? {
      return Err(metrics.error);
    }
    var m := metrics.value;
    var score := CalculateEnsembleScore(m);
    if |high| >= 1 { HighConfidenceNeverGood(m); }
    if |high| >= 5 { FiveHighConfidenceSevere(m); }
    r := Ok(Classification(BandOf(score), score, m));
  }
}
