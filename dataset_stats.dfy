/**
 * The class statistics of a YOLO dataset: per split, how many label files carry
 * annotations, how many instances of each class there are and in how many images
 * each class occurs; then totals over the splits, the derived ratios, and the rows
 * of the detailed and the summary CSV reports.
 */
module DatasetStats {
  import opened Wrappers
  import opened Text
  import opened YoloLabels
  import opened Csv

  // ---------------------------------------------------------------------------
  // Counting one split

  /**
   * What one label file adds: whether it counts as annotated, the class of each
   * instance line read, and the classes credited with one more image.
   */
  datatype FileScan = FileScan(annotated: bool, instances: multiset<int>, imageClasses: set<int>)

  /**
   * A file with at least one line is annotated, whatever its lines hold (content None:
   * the file could not be opened). A file whose reading stopped at a malformed line
   * keeps the instances read before it but credits no class with an image.
   */
  function ScanFile(content: Option<seq<string>>): (f: FileScan)
    ensures f.annotated <==> content.Some? && |content.value| > 0
    ensures forall c :: c in f.imageClasses ==> c in f.instances
    ensures !f.annotated ==> f.instances == multiset{} && f.imageClasses == {}
  {
    if content.None? || |content.value| == 0 then FileScan(false, multiset{}, {})
    else
      var s := ScanLines(content.value);
      FileScan(true, s.instances, if s.complete then s.classes else {})
  }

  /** The two Counters and the annotated-image count of a split. */
  datatype SplitScan = SplitScan(annotated: nat, instances: multiset<int>, imagesWithClass: multiset<int>)

  /** A class is counted at most once per image, and only in annotated images. */
  function ScanSplit(files: seq<Option<seq<string>>>): (r: SplitScan)
    ensures r.annotated <= |files|
    ensures forall c :: r.imagesWithClass[c] <= r.instances[c] && r.imagesWithClass[c] <= r.annotated
  {
    if files == [] then SplitScan(0, multiset{}, multiset{})
    else
      var p := ScanSplit(files[..|files| - 1]);
      var f := ScanFile(files[|files| - 1]);
      SplitScan(p.annotated + (if f.annotated then 1 else 0),
                p.instances + f.instances,
                p.imagesWithClass + multiset(f.imageClasses))
  }

  /** The stored figures of a split: per class, in class_names order, instances and images. */
  datatype SplitStats = SplitStats(totalImages: int, withAnnotations: int, withoutAnnotations: int,
                                   instances: seq<int>, images: seq<int>)

  /** The relations every split's figures satisfy, for n classes. */
  predicate Consistent(st: SplitStats, n: nat)
  {
    && |st.instances| == n && |st.images| == n
    && 0 <= st.withAnnotations
    && st.withAnnotations + st.withoutAnnotations == st.totalImages
    && forall k :: 0 <= k < n ==> 0 <= st.images[k] <= st.instances[k] && st.images[k] <= st.withAnnotations
  }

  /**
   * The figures stored for a split from its image count and its label files;
   * images_without_annotations is a plain difference and can be negative.
   */
  function StatsOf(names: seq<(int, string)>, totalImages: nat, files: seq<Option<seq<string>>>): (st: SplitStats)
    ensures Consistent(st, |names|)
    ensures st.withAnnotations == ScanSplit(files).annotated
    ensures st.withoutAnnotations == totalImages - ScanSplit(files).annotated
    ensures forall k :: 0 <= k < |names| ==>
      st.instances[k] == ScanSplit(files).instances[names[k].0]
      && st.images[k] == ScanSplit(files).imagesWithClass[names[k].0]
  {
    var scan := ScanSplit(files);
    SplitStats(totalImages, scan.annotated, totalImages - scan.annotated,
               PerClass(names, scan.instances), PerClass(names, scan.imagesWithClass))
  }

  /** A Counter read out in class_names order, absent classes as 0. */
  function PerClass(names: seq<(int, string)>, counter: multiset<int>): (r: seq<int>)
    ensures |r| == |names| && forall k :: 0 <= k < |names| ==> r[k] == counter[names[k].0]
  {
    seq(|names|, k requires 0 <= k < |names| => counter[names[k].0])
  }

  // ---------------------------------------------------------------------------
  // Totals over the splits

  function Zero(n: nat): (st: SplitStats)
    ensures Consistent(st, n)
  {
    SplitStats(0, 0, 0, seq(n, k => 0), seq(n, k => 0))
  }

  function AddStats(a: SplitStats, b: SplitStats, n: nat): (st: SplitStats)
    requires Consistent(a, n) && Consistent(b, n)
    ensures Consistent(st, n)
  {
    SplitStats(a.totalImages + b.totalImages, a.withAnnotations + b.withAnnotations,
               a.withoutAnnotations + b.withoutAnnotations,
               seq(n, k requires 0 <= k < n => a.instances[k] + b.instances[k]),
               seq(n, k requires 0 <= k < n => a.images[k] + b.images[k]))
  }

  predicate AllConsistent(stats: map<Split, SplitStats>, n: nat)
  {
    forall s :: s in stats ==> Consistent(stats[s], n)
  }

  /** The figures of the analysed splits among ss, in the order of ss. */
  function Present(stats: map<Split, SplitStats>, ss: seq<Split>): seq<SplitStats>
  {
    if ss == [] then []
    else
      var s := ss[|ss| - 1];
      Present(stats, ss[..|ss| - 1]) + (if s in stats then [stats[s]] else [])
  }

  lemma {:induction false} PresentConsistent(stats: map<Split, SplitStats>, ss: seq<Split>, n: nat)
    requires AllConsistent(stats, n)
    ensures forall p :: p in Present(stats, ss) ==> Consistent(p, n)
  {
    if ss != [] { PresentConsistent(stats, ss[..|ss| - 1], n); }
  }

  function SumStats(parts: seq<SplitStats>, n: nat): (st: SplitStats)
    requires forall p :: p in parts ==> Consistent(p, n)
    ensures Consistent(st, n)
  {
    if parts == [] then Zero(n)
    else AddStats(SumStats(parts[..|parts| - 1], n), parts[|parts| - 1], n)
  }

  /** stats['total']: sums over train, valid and test, with the two derived ratios per class. */
  datatype TotalStats = TotalStats(sums: SplitStats, percentageOfAnnotated: seq<Option<real>>,
                                   avgInstancesPerImage: seq<Option<real>>)

  function Totals(stats: map<Split, SplitStats>, n: nat): (t: TotalStats)
    requires AllConsistent(stats, n)
    ensures Consistent(t.sums, n)
    ensures |t.percentageOfAnnotated| == n && |t.avgInstancesPerImage| == n
  {
    PresentConsistent(stats, SplitOrder, n);
    var sum := SumStats(Present(stats, SplitOrder), n);
    TotalStats(sum, Percentages(sum, n), Averages(sum, n))
  }

  function Percentages(sum: SplitStats, n: nat): (r: seq<Option<real>>)
    requires Consistent(sum, n)
    ensures |r| == n && forall k :: 0 <= k < n ==> r[k] == PercentageOf(sum, k)
  {
    seq(n, k requires 0 <= k < n => PercentageOf(sum, k))
  }

  function Averages(sum: SplitStats, n: nat): (r: seq<Option<real>>)
    requires Consistent(sum, n)
    ensures |r| == n && forall k :: 0 <= k < n ==> r[k] == AverageOf(sum, k)
  {
    seq(n, k requires 0 <= k < n => AverageOf(sum, k))
  }

  /** images_with_class / images_with_annotations * 100, when any image is annotated. */
  function PercentageOf(sum: SplitStats, k: nat): Option<real>
    requires k < |sum.images|
  {
    if sum.withAnnotations > 0 then Some(sum.images[k] as real / sum.withAnnotations as real * 100.0) else None
  }

  /** instances / images_with_class, when the class occurs in some image. */
  function AverageOf(sum: SplitStats, k: nat): Option<real>
    requires k < |sum.images| && k < |sum.instances|
  {
    if sum.images[k] > 0 then Some(sum.instances[k] as real / sum.images[k] as real) else None
  }

  /**
   * The percentage is there exactly when some image is annotated and is at most 100;
   * the average is there exactly when the class occurs in an image and is at least 1.
   */
  lemma DerivedRatiosBounded(stats: map<Split, SplitStats>, n: nat, k: nat)
    requires AllConsistent(stats, n) && k < n
    ensures var t := Totals(stats, n);
      && (t.percentageOfAnnotated[k].Some? <==> t.sums.withAnnotations > 0)
      && (t.percentageOfAnnotated[k].Some? ==> 0.0 <= t.percentageOfAnnotated[k].value <= 100.0)
      && (t.avgInstancesPerImage[k].Some? <==> t.sums.images[k] > 0)
      && (t.avgInstancesPerImage[k].Some? ==> t.avgInstancesPerImage[k].value >= 1.0)
  {
    PresentConsistent(stats, SplitOrder, n);
    var sum := SumStats(Present(stats, SplitOrder), n);
    if sum.withAnnotations > 0 {
      RatioAtMostOne(sum.images[k] as real, sum.withAnnotations as real);
    }
    if sum.images[k] > 0 {
      RatioAtLeastOne(sum.instances[k] as real, sum.images[k] as real);
    }
  }

  lemma RatioAtMostOne(a: real, b: real)
    requires 0.0 <= a <= b && b > 0.0
    ensures 0.0 <= a / b * 100.0 <= 100.0
  {
    assert a / b <= 1.0;
  }

  lemma RatioAtLeastOne(a: real, b: real)
    requires 0.0 < b <= a
    ensures a / b >= 1.0
  {
  }

  /** Each total is the sum of the analysed splits' figures. */
  lemma {:induction false} SumStatsIsSum(parts: seq<SplitStats>, n: nat, k: nat)
    requires forall p :: p in parts ==> Consistent(p, n)
    requires k < n
    ensures SumStats(parts, n).instances[k] == SumInstances(parts, k)
  {
    if parts != [] {
      assert forall p :: p in parts[..|parts| - 1] ==> p in parts;
      assert parts[|parts| - 1] in parts;
      SumStatsIsSum(parts[..|parts| - 1], n, k);
    }
  }

  function SumInstances(parts: seq<SplitStats>, k: nat): int
  {
    if parts == [] then 0
    else
      var last := parts[|parts| - 1];
      SumInstances(parts[..|parts| - 1], k) + (if k < |last.instances| then last.instances[k] else 0)
  }

  // ---------------------------------------------------------------------------
  // Report rows

  /** A row of the detailed report: the given cells padded with empty cells to seven. */
  function Row(cells: seq<Cell>): (r: seq<Cell>)
    requires |cells| <= 7
    ensures |r| == 7 && r[..|cells|] == cells
  {
    Padded(cells, 7)
  }

  /** The figure of a split for class k, or 0 when the split was not analysed. */
  function SplitInstances(stats: map<Split, SplitStats>, s: Split, k: nat): int
  {
    if s in stats && k < |stats[s].instances| then stats[s].instances[k] else 0
  }

  function TotalCell(total: TotalStats, which: nat): Cell
  {
    if which == 0 then Int(total.sums.totalImages)
    else if which == 1 then Int(total.sums.withAnnotations)
    else Int(total.sums.withoutAnnotations)
  }

  /**
   * stats['total'] before the totals are generated: stats is a defaultdict, so the lookup
   * gives an empty entry, from which every .get(..., 0) reads 0.
   */
  const NoTotals: TotalStats := TotalStats(SplitStats(0, 0, 0, [], []), [], [])

  /** The totals the reports read: the generated ones, or the empty entry. */
  function TotalsOrEmpty(total: Option<TotalStats>): TotalStats
  {
    if total.Some? then total.value else NoTotals
  }

  /** From the empty entry every overview and per-class total cell reads 0, the percentage "0%". */
  lemma NoTotalsReadZero(which: nat, k: nat)
    ensures TotalCell(NoTotals, which) == Int(0)
    ensures TotalInstancesCell(NoTotals, k) == Int(0) && TotalImagesCell(NoTotals, k) == Int(0)
    ensures PercentageCell(NoTotals, k) == Str("0%") && AverageCell(NoTotals, k) == Int(0)
  {
  }

  function OverviewRows(n: nat, total: TotalStats): seq<seq<Cell>>
  {
    [Row([Str("DATASET OVERVIEW")]),
     Row([Str("Metric"), Str("Value")]),
     Row([Str("Total Classes"), Int(n)]),
     Row([Str("Total Images (All Splits)"), TotalCell(total, 0)]),
     Row([Str("Total Images with Annotations"), TotalCell(total, 1)]),
     Row([Str("Total Images without Annotations"), TotalCell(total, 2)]),
     Row([])]
  }

  const ClassSummaryHeader: seq<Cell> :=
    [Str("Class Name"), Str("Total Instances"), Str("Total Images with Class"),
     Str("Percentage of Annotated Images"), Str("Avg Instances per Image"),
     Str("Train Instances"), Str("Valid Instances"), Str("Test Instances")]

  function TotalInstancesCell(total: TotalStats, k: nat): Cell
  {
    if k < |total.sums.instances| then Int(total.sums.instances[k]) else Int(0)
  }

  function TotalImagesCell(total: TotalStats, k: nat): Cell
  {
    if k < |total.sums.images| then Int(total.sums.images[k]) else Int(0)
  }

  /** f"{percentage}%", where a missing percentage is the integer 0. */
  function PercentageCell(total: TotalStats, k: nat): Cell
  {
    if k < |total.percentageOfAnnotated| && total.percentageOfAnnotated[k].Some?
    then Pct(total.percentageOfAnnotated[k].value) else Str("0%")
  }

  function AverageCell(total: TotalStats, k: nat): Cell
  {
    if k < |total.avgInstancesPerImage| && total.avgInstancesPerImage[k].Some?
    then Num(total.avgInstancesPerImage[k].value) else Int(0)
  }

  function ClassSummaryRow(names: seq<(int, string)>, stats: map<Split, SplitStats>, total: TotalStats, k: nat): seq<Cell>
    requires k < |names|
  {
    [Str(names[k].1), TotalInstancesCell(total, k), TotalImagesCell(total, k),
     PercentageCell(total, k), AverageCell(total, k),
     Int(SplitInstances(stats, TrainSplit, k)), Int(SplitInstances(stats, ValidSplit, k)),
     Int(SplitInstances(stats, TestSplit, k))]
  }

  function SplitHeaderRows(s: Split, st: SplitStats): seq<seq<Cell>>
  {
    [Row([Str(Upper(s.Name()) + " SPLIT DETAILS")]),
     Row([Str("Metric"), Str("Value")]),
     Row([Str("Total Images"), Int(st.totalImages)]),
     Row([Str("Images with Annotations"), Int(st.withAnnotations)]),
     Row([Str("Images without Annotations"), Int(st.withoutAnnotations)]),
     Row([]),
     Row([Str("Class"), Str("Instances"), Str("Images with Class")])]
  }

  function SplitClassRow(names: seq<(int, string)>, st: SplitStats, k: nat): seq<Cell>
    requires k < |names|
  {
    Row([Str(names[k].1),
         Int(if k < |st.instances| then st.instances[k] else 0),
         Int(if k < |st.images| then st.images[k] else 0)])
  }

  /** The detail section of one split: seven heading rows, one row per class, one empty row. */
  function SplitSection(names: seq<(int, string)>, s: Split, st: SplitStats): (rows: seq<seq<Cell>>)
    ensures |rows| == |names| + 8
  {
    SplitHeaderRows(s, st) + SplitClassRows(names, st) + [Row([])]
  }

  function SplitClassRows(names: seq<(int, string)>, st: SplitStats): (rows: seq<seq<Cell>>)
    ensures |rows| == |names| && forall k :: 0 <= k < |names| ==> rows[k] == SplitClassRow(names, st, k)
  {
    seq(|names|, k requires 0 <= k < |names| => SplitClassRow(names, st, k))
  }

  function SplitSections(names: seq<(int, string)>, stats: map<Split, SplitStats>, ss: seq<Split>): seq<seq<Cell>>
  {
    if ss == [] then []
    else
      var s := ss[|ss| - 1];
      SplitSections(names, stats, ss[..|ss| - 1]) + (if s in stats then SplitSection(names, s, stats[s]) else [])
  }

  function ClassSummaryRows(names: seq<(int, string)>, stats: map<Split, SplitStats>, total: TotalStats): (rows: seq<seq<Cell>>)
    ensures |rows| == |names| && forall k :: 0 <= k < |names| ==> rows[k] == ClassSummaryRow(names, stats, total, k)
  {
    seq(|names|, k requires 0 <= k < |names| => ClassSummaryRow(names, stats, total, k))
  }

  /** Everything before the split sections: overview, class summary, an empty row. */
  function ReportHead(names: seq<(int, string)>, stats: map<Split, SplitStats>, total: TotalStats): (rows: seq<seq<Cell>>)
    ensures |rows| == |names| + 10
  {
    OverviewRows(|names|, total) + [Row([Str("CLASS STATISTICS SUMMARY")]), ClassSummaryHeader]
    + ClassSummaryRows(names, stats, total) + [Row([])]
  }

  /** The rows of dataset_analysis.csv. */
  function ReportRows(names: seq<(int, string)>, stats: map<Split, SplitStats>, total: TotalStats): (rows: seq<seq<Cell>>)
    ensures |rows| >= |names| + 10
    ensures rows[9..9 + |names|] == ClassSummaryRows(names, stats, total)
  {
    ReportHead(names, stats, total) + SplitSections(names, stats, SplitOrder)
  }

  const SummaryHeader: seq<Cell> :=
    [Str("Class Name"), Str("Total Instances"), Str("Train Instances"), Str("Valid Instances"),
     Str("Test Instances"), Str("Total Images with Class"), Str("Percentage of Dataset")]

  function SummaryRow(names: seq<(int, string)>, stats: map<Split, SplitStats>, total: TotalStats, k: nat): seq<Cell>
    requires k < |names|
  {
    [Str(names[k].1), TotalInstancesCell(total, k),
     Int(SplitInstances(stats, TrainSplit, k)), Int(SplitInstances(stats, ValidSplit, k)),
     Int(SplitInstances(stats, TestSplit, k)), TotalImagesCell(total, k), PercentageCell(total, k)]
  }

  /** The rows of dataset_summary.csv. */
  function SummaryRows(names: seq<(int, string)>, stats: map<Split, SplitStats>, total: TotalStats): (rows: seq<seq<Cell>>)
    ensures |rows| == |names| + 1 && rows[0] == SummaryHeader
  {
    [SummaryHeader] + SummaryClassRows(names, stats, total)
  }

  /** dataset_summary.csv: after the header, line k + 1 is the summary of class k of class_names. */
  lemma SummaryLayout(names: seq<(int, string)>, stats: map<Split, SplitStats>, total: TotalStats, k: nat)
    requires k < |names|
    ensures SummaryRows(names, stats, total)[k + 1] == SummaryRow(names, stats, total, k)
  {
  }

  function SummaryClassRows(names: seq<(int, string)>, stats: map<Split, SplitStats>, total: TotalStats): (rows: seq<seq<Cell>>)
    ensures |rows| == |names| && forall k :: 0 <= k < |names| ==> rows[k] == SummaryRow(names, stats, total, k)
  {
    seq(|names|, k requires 0 <= k < |names| => SummaryRow(names, stats, total, k))
  }

  /** One detail section per analysed split, each of |names| + 8 rows. */
  lemma {:induction false} SplitSectionsLength(names: seq<(int, string)>, stats: map<Split, SplitStats>, ss: seq<Split>)
    ensures |SplitSections(names, stats, ss)| == |Present(stats, ss)| * (|names| + 8)
  {
    if ss != [] {
      var front := ss[..|ss| - 1];
      SplitSectionsLength(names, stats, front);
      var a := |Present(stats, front)|;
      var m := |names| + 8;
      assert (a + 1) * m == a * m + m;
    }
  }

  /**
   * The layout of the detailed report: overview, then the class summary with one row
   * per class in class_names order, then one section per analysed split.
   */
  lemma ReportLayout(names: seq<(int, string)>, stats: map<Split, SplitStats>, total: TotalStats)
    ensures |ReportRows(names, stats, total)| == 10 + |names| + |Present(stats, SplitOrder)| * (|names| + 8)
    ensures ReportRows(names, stats, total)[9..9 + |names|] == ClassSummaryRows(names, stats, total)
  {
    SplitSectionsLength(names, stats, SplitOrder);
    var head := ReportHead(names, stats, total);
    var rows := ReportRows(names, stats, total);
    assert rows[..|head|] == head;
    assert head[9..9 + |names|] == ClassSummaryRows(names, stats, total);
  }

  /** Once the totals are generated, a class's total instances is its train, valid and test instances summed. */
  lemma ClassSummaryAddsUp(names: seq<(int, string)>, stats: map<Split, SplitStats>, k: nat)
    requires AllConsistent(stats, |names|) && k < |names|
    ensures var row := ClassSummaryRow(names, stats, Totals(stats, |names|), k);
      row[1] == Int(row[5].value + row[6].value + row[7].value)
  {
    TotalIsSplitSum(stats, |names|, k);
  }

  lemma TotalIsSplitSum(stats: map<Split, SplitStats>, n: nat, k: nat)
    requires AllConsistent(stats, n) && k < n
    ensures Totals(stats, n).sums.instances[k]
      == SplitInstances(stats, TrainSplit, k) + SplitInstances(stats, ValidSplit, k) + SplitInstances(stats, TestSplit, k)
  {
    PresentConsistent(stats, SplitOrder, n);
    SumStatsIsSum(Present(stats, SplitOrder), n, k);
    var e: seq<Split> := [];
    var s1 := e + [TrainSplit];
    var s2 := s1 + [ValidSplit];
    var s3 := s2 + [TestSplit];
    assert s3 == SplitOrder;
    PresentStep(stats, e, TrainSplit);
    PresentStep(stats, s1, ValidSplit);
    PresentStep(stats, s2, TestSplit);
    SumInstancesStep(Present(stats, e), Present(stats, s1), k);
    SumInstancesStep(Present(stats, s1), Present(stats, s2), k);
    SumInstancesStep(Present(stats, s2), Present(stats, s3), k);
  }

  lemma PresentStep(stats: map<Split, SplitStats>, ss: seq<Split>, s: Split)
    ensures Present(stats, ss + [s]) == Present(stats, ss) + (if s in stats then [stats[s]] else [])
  {
    assert (ss + [s])[..|ss|] == ss;
  }

  lemma SumStatsStep(stats: map<Split, SplitStats>, ss: seq<Split>, s: Split, n: nat)
    requires AllConsistent(stats, n)
    ensures forall p :: p in Present(stats, ss) ==> Consistent(p, n)
    ensures forall p :: p in Present(stats, ss + [s]) ==> Consistent(p, n)
    ensures SumStats(Present(stats, ss + [s]), n) ==
      if s in stats then AddStats(SumStats(Present(stats, ss), n), stats[s], n) else SumStats(Present(stats, ss), n)
  {
    PresentStep(stats, ss, s);
    PresentConsistent(stats, ss, n);
    PresentConsistent(stats, ss + [s], n);
    var ps := Present(stats, ss);
    if s in stats {
      assert (ps + [stats[s]])[..|ps|] == ps;
    } else {
      assert ps + [] == ps;
    }
  }

  lemma SumStatsStepAt(stats: map<Split, SplitStats>, ss: seq<Split>, i: nat, n: nat)
    requires AllConsistent(stats, n) && i < |ss|
    ensures forall p :: p in Present(stats, ss[..i]) ==> Consistent(p, n)
    ensures forall p :: p in Present(stats, ss[..i + 1]) ==> Consistent(p, n)
    ensures SumStats(Present(stats, ss[..i + 1]), n) ==
      if ss[i] in stats then AddStats(SumStats(Present(stats, ss[..i]), n), stats[ss[i]], n)
      else SumStats(Present(stats, ss[..i]), n)
  {
    assert ss[..i + 1] == ss[..i] + [ss[i]];
    SumStatsStep(stats, ss[..i], ss[i], n);
  }

  lemma SumInstancesStep(ps: seq<SplitStats>, qs: seq<SplitStats>, k: nat)
    requires |ps| <= |qs| <= |ps| + 1 && qs[..|ps|] == ps
    ensures SumInstances(qs, k) == SumInstances(ps, k)
      + (if |qs| > |ps| && k < |qs[|ps|].instances| then qs[|ps|].instances[k] else 0)
  {
    if |qs| == |ps| { assert qs == ps; }
  }

  // ---------------------------------------------------------------------------
  // The analyzer

  /**
   * The inner loop of analyze_split over the lines of one annotated file: instance
   * lines are added to the split's Counter and to the file's class set, until a line
   * whose class id does not parse ends the file.
   */
  method CountFileLines(lines: seq<string>, before: multiset<int>)
    returns (classInstances: multiset<int>, classesInImage: set<int>, complete: bool)
    ensures classInstances == before + ScanLines(lines).instances
    ensures classesInImage == ScanLines(lines).classes
    ensures complete == ScanLines(lines).complete
  {
    classInstances, classesInImage := before, {};
    var j := 0;
    while j < |lines|
      invariant 0 <= j <= |lines|
      invariant ScanLines(lines[..j]).complete
      invariant classInstances == before + ScanLines(lines[..j]).instances
      invariant classesInImage == ScanLines(lines[..j]).classes
    {
      ScanLinesStep(lines, j);
      var parsed := ParseLine(lines[j]);
      if parsed.Malformed? {
        ScanStopsAtError(lines, j + 1);
        return classInstances, classesInImage, false;
      }
      if parsed.Instance? {
        classInstances := classInstances + multiset{parsed.classId};
        classesInImage := classesInImage + {parsed.classId};
      }
      j := j + 1;
    }
    assert lines[..j] == lines;
    complete := true;
  }

  /** The loop of analyze_split over the label files. */
  method CountSplit(files: seq<Option<seq<string>>>) returns (scan: SplitScan)
    ensures scan == ScanSplit(files)
  {
    var classInstances: multiset<int> := multiset{};
    var imagesWithClass: multiset<int> := multiset{};
    var imagesWithAnnotations: nat := 0;
    var i := 0;
    while i < |files|
      invariant 0 <= i <= |files|
      invariant ScanSplit(files[..i]) == SplitScan(imagesWithAnnotations, classInstances, imagesWithClass)
    {
      ghost var f := ScanFile(files[i]);
      ghost var next := SplitScan(imagesWithAnnotations + (if f.annotated then 1 else 0),
        classInstances + f.instances, imagesWithClass + multiset(f.imageClasses));
      assert ScanSplit(files[..i + 1]) == next by {
        assert files[..i + 1][..i] == files[..i];
      }
      if files[i].Some? && |files[i].value| > 0 {
        ghost var s := ScanLines(files[i].value);
        imagesWithAnnotations := imagesWithAnnotations + 1;
        var classesInImage, complete;
        classInstances, classesInImage, complete := CountFileLines(files[i].value, classInstances);
        assert classInstances == next.instances;
        if complete {
          assert f.imageClasses == classesInImage;
          imagesWithClass := imagesWithClass + multiset(classesInImage);
        } else {
          assert f.imageClasses == {};
          assert imagesWithClass == next.imagesWithClass;
        }
      } else {
        assert f == FileScan(false, multiset{}, {});
        assert next.instances == classInstances;
        assert next.imagesWithClass == imagesWithClass;
      }
      i := i + 1;
    }
    assert files[..i] == files;
    scan := SplitScan(imagesWithAnnotations, classInstances, imagesWithClass);
  }

  /** The loop over class_names that stores a Counter's figures. */
  method ReadOutCounter(names: seq<(int, string)>, counter: multiset<int>) returns (r: seq<int>)
    ensures r == PerClass(names, counter)
  {
    r := [];
    var k := 0;
    while k < |names|
      invariant 0 <= k <= |names|
      invariant |r| == k && forall q :: 0 <= q < k ==> r[q] == counter[names[q].0]
    {
      r := r + [counter[names[k].0]];
      k := k + 1;
    }
  }

  /** The loop of generate_summary_stats over train, valid and test. */
  method SumSplits(stats: map<Split, SplitStats>, n: nat) returns (sum: SplitStats)
    requires AllConsistent(stats, n)
    ensures forall p :: p in Present(stats, SplitOrder) ==> Consistent(p, n)
    ensures sum == SumStats(Present(stats, SplitOrder), n)
  {
    PresentConsistent(stats, SplitOrder, n);
    sum := Zero(n);
    var i := 0;
    while i < |SplitOrder|
      invariant 0 <= i <= |SplitOrder|
      invariant forall p :: p in Present(stats, SplitOrder[..i]) ==> Consistent(p, n)
      invariant sum == SumStats(Present(stats, SplitOrder[..i]), n)
    {
      var s := SplitOrder[i];
      SumStatsStepAt(stats, SplitOrder, i, n);
      if s in stats {
        sum := AddStats(sum, stats[s], n);
      }
      i := i + 1;
    }
    assert SplitOrder[..i] == SplitOrder;
  }

  class DatasetAnalyzer {
    /** class_names as loaded from data.yaml, in its order. */
    var classNames: seq<(int, string)>
    /** The figures of each analysed split. */
    var stats: map<Split, SplitStats>
    /** stats['total'], once generated. */
    var total: Option<TotalStats>

    predicate Valid()
      reads this
    {
      && AllConsistent(stats, |classNames|)
      && (total.Some? ==> Consistent(total.value.sums, |classNames|))
    }

    constructor (names: seq<(int, string)>)
      ensures Valid()
      ensures classNames == names && stats == map[] && total == None
    {
      classNames, stats, total := names, map[], None;
    }

    /**
     * analyze_split. labelFiles lists the readable content of each label file (None:
     * opening it failed), imageCount the number of image files; None stands for a
     * missing labels or images directory, which leaves the figures as they were.
     */
    method AnalyzeSplit(split: Split, labelFiles: Option<seq<Option<seq<string>>>>, imageCount: Option<nat>)
      requires Valid()
      modifies this
      ensures Valid()
      ensures classNames == old(classNames) && total == old(total)
      ensures stats == if labelFiles.Some? && imageCount.Some?
        then old(stats)[split := StatsOf(classNames, imageCount.value, labelFiles.value)]
        else old(stats)
    {
      if labelFiles.None? || imageCount.None? {
        return;
      }
      var totalImages := imageCount.value;
      var scan := CountSplit(labelFiles.value);
      var instancesPerClass := ReadOutCounter(classNames, scan.instances);
      var imagesPerClass := ReadOutCounter(classNames, scan.imagesWithClass);
      var st := SplitStats(totalImages, scan.annotated, totalImages - scan.annotated,
                           instancesPerClass, imagesPerClass);
      assert st == StatsOf(classNames, totalImages, labelFiles.value);
      stats := stats[split := st];
    }

    /** generate_summary_stats: totals over train, valid and test as analysed, and the ratios. */
    method GenerateSummaryStats()
      requires Valid()
      modifies this
      ensures Valid()
      ensures classNames == old(classNames) && stats == old(stats)
      ensures total == Some(Totals(stats, |classNames|))
    {
      var n := |classNames|;
      var sum := SumSplits(stats, n);
      var percentage: seq<Option<real>> := [];
      var average: seq<Option<real>> := [];
      var k := 0;
      while k < n
        invariant 0 <= k <= n
        invariant |percentage| == k && |average| == k
        invariant forall q :: 0 <= q < k ==> percentage[q] == PercentageOf(sum, q) && average[q] == AverageOf(sum, q)
      {
        percentage := percentage + [PercentageOf(sum, k)];
        average := average + [AverageOf(sum, k)];
        k := k + 1;
      }
      assert percentage == Percentages(sum, n) && average == Averages(sum, n);
      total := Some(TotalStats(sum, percentage, average));
    }

    /**
     * create_csv_report: the rows of the detailed report and of the summary report, read
     * from the generated totals or, before they exist, from the empty entry.
     */
    method CreateCsvReport() returns (report: seq<seq<Cell>>, summary: seq<seq<Cell>>)
      ensures report == ReportRows(classNames, stats, TotalsOrEmpty(total))
      ensures summary == SummaryRows(classNames, stats, TotalsOrEmpty(total))
    {
      var names, st, tot := classNames, stats, TotalsOrEmpty(total);
      var classRows := ClassSummaryLoop(names, st, tot);
      var head := OverviewRows(|names|, tot) + [Row([Str("CLASS STATISTICS SUMMARY")]), ClassSummaryHeader]
        + classRows + [Row([])];
      var sections := SplitSectionsLoop(names, st);
      var rows := head + sections;
      var summaryRows := SummaryLoop(names, st, tot);
      report, summary := rows, [SummaryHeader] + summaryRows;
    }
  }

  /** The loop of create_csv_report over class_names for the class summary. */
  method ClassSummaryLoop(names: seq<(int, string)>, stats: map<Split, SplitStats>, total: TotalStats)
    returns (rows: seq<seq<Cell>>)
    ensures rows == ClassSummaryRows(names, stats, total)
  {
    rows := [];
    var k := 0;
    while k < |names|
      invariant 0 <= k <= |names|
      invariant |rows| == k && forall q :: 0 <= q < k ==> rows[q] == ClassSummaryRow(names, stats, total, q)
    {
      rows := rows + [ClassSummaryRow(names, stats, total, k)];
      k := k + 1;
    }
  }

  /** The loop of create_csv_report over train, valid and test, for the analysed ones. */
  method SplitSectionsLoop(names: seq<(int, string)>, stats: map<Split, SplitStats>) returns (rows: seq<seq<Cell>>)
    ensures rows == SplitSections(names, stats, SplitOrder)
  {
    rows := [];
    var i := 0;
    while i < |SplitOrder|
      invariant 0 <= i <= |SplitOrder|
      invariant rows == SplitSections(names, stats, SplitOrder[..i])
    {
      var s := SplitOrder[i];
      SplitSectionsStep(names, stats, SplitOrder, i);
      if s in stats {
        var section := SplitSectionLoop(names, s, stats[s]);
        rows := rows + section;
      }
      i := i + 1;
    }
    assert SplitOrder[..i] == SplitOrder;
  }

  lemma SplitSectionsStep(names: seq<(int, string)>, stats: map<Split, SplitStats>, ss: seq<Split>, i: nat)
    requires i < |ss|
    ensures SplitSections(names, stats, ss[..i + 1]) == SplitSections(names, stats, ss[..i])
      + (if ss[i] in stats then SplitSection(names, ss[i], stats[ss[i]]) else [])
  {
    assert ss[..i + 1][..i] == ss[..i];
  }

  /** The rows create_csv_report appends for one analysed split. */
  method SplitSectionLoop(names: seq<(int, string)>, s: Split, st: SplitStats) returns (rows: seq<seq<Cell>>)
    ensures rows == SplitSection(names, s, st)
  {
    var classRows: seq<seq<Cell>> := [];
    var k := 0;
    while k < |names|
      invariant 0 <= k <= |names|
      invariant |classRows| == k && forall q :: 0 <= q < k ==> classRows[q] == SplitClassRow(names, st, q)
    {
      classRows := classRows + [SplitClassRow(names, st, k)];
      k := k + 1;
    }
    rows := SplitHeaderRows(s, st) + classRows + [Row([])];
  }

  /** The loop writing dataset_summary.csv, one row per class. */
  method SummaryLoop(names: seq<(int, string)>, stats: map<Split, SplitStats>, total: TotalStats)
    returns (rows: seq<seq<Cell>>)
    ensures rows == SummaryClassRows(names, stats, total)
  {
    rows := [];
    var k := 0;
    while k < |names|
      invariant 0 <= k <= |names|
      invariant |rows| == k && forall q :: 0 <= q < k ==> rows[q] == SummaryRow(names, stats, total, q)
    {
      rows := rows + [SummaryRow(names, stats, total, k)];
      k := k + 1;
    }
  }
}
