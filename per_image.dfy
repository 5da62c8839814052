/**
 * Per-image statistics of a YOLO dataset: one row per image file with its split, whether
 * it is annotated and its instance count per class; the per-split and combined CSV
 * tables; and the summary statistics over all rows.
 */
module PerImage {
  import opened Wrappers
  import opened Text
  import opened Csv
  import opened YoloLabels
  import opened Discovery

  /** class_names is a dict: no id occurs twice. */
  predicate DistinctIds(names: seq<(int, string)>)
  {
    forall i, j :: 0 <= i < j < |names| ==> names[i].0 != names[j].0
  }

  /** The position of a class id in class_names, or -1 when it is not a key. */
  function FindId(names: seq<(int, string)>, c: int): (r: int)
    ensures -1 <= r < |names|
    ensures r >= 0 ==> names[r].0 == c
    ensures r < 0 ==> forall k :: 0 <= k < |names| ==> names[k].0 != c
  {
    if names == [] then -1
    else if names[|names| - 1].0 == c then |names| - 1
    else FindId(names[..|names| - 1], c)
  }

  // ---------------------------------------------------------------------------
  // Image rows

  datatype ImageRow = ImageRow(imageId: string, split: Split, hasAnnotations: bool, counts: seq<nat>, totalInstances: nat)

  function Sum(xs: seq<nat>): nat
  {
    if xs == [] then 0 else Sum(xs[..|xs| - 1]) + xs[|xs| - 1]
  }

  /** The label of an image: "<stem>.txt" in the labels directory, if it exists and could be read. */
  function LabelOf(labels: map<string, seq<string>>, imageId: string): Option<seq<string>>
  {
    var name := Stem(imageId) + ".txt";
    if name in labels then Some(labels[name]) else None
  }

  function Annotated(labelFile: Option<seq<string>>): bool
  {
    labelFile.Some? && |labelFile.value| > 0
  }

  /** The class counts of an image: the instances of each class read from its label, in class_names order. */
  function ClassCounts(names: seq<(int, string)>, labelFile: Option<seq<string>>): (cs: seq<nat>)
    ensures |cs| == |names|
    ensures forall k :: 0 <= k < |names| ==>
      cs[k] == if Annotated(labelFile) then ScanLines(labelFile.value).instances[names[k].0] else 0
  {
    seq(|names|, k requires 0 <= k < |names| =>
      if Annotated(labelFile) then ScanLines(labelFile.value).instances[names[k].0] else 0)
  }

  function RowOf(names: seq<(int, string)>, split: Split, imageId: string, labelFile: Option<seq<string>>): (r: ImageRow)
    ensures r.imageId == imageId && r.split == split
    ensures r.hasAnnotations <==> labelFile.Some? && |labelFile.value| > 0
    ensures |r.counts| == |names| && r.totalInstances == Sum(r.counts)
  {
    var counts := ClassCounts(names, labelFile);
    ImageRow(imageId, split, Annotated(labelFile), counts, Sum(counts))
  }

  function ImageRows(names: seq<(int, string)>, split: Split, images: seq<string>, labels: map<string, seq<string>>): (rows: seq<ImageRow>)
    ensures |rows| == |images|
    ensures forall i :: 0 <= i < |images| ==> rows[i] == RowOf(names, split, images[i], LabelOf(labels, images[i]))
  {
    seq(|images|, i requires 0 <= i < |images| => RowOf(names, split, images[i], LabelOf(labels, images[i])))
  }

  /**
   * A row is annotated exactly when its label exists, was read and has a line; an
   * unannotated row has every count 0; the total is the sum of the counts.
   */
  lemma RowProperties(names: seq<(int, string)>, split: Split, imageId: string, labels: map<string, seq<string>>)
    ensures var r := RowOf(names, split, imageId, LabelOf(labels, imageId));
      && r.imageId == imageId && r.split == split
      && (r.hasAnnotations <==> Stem(imageId) + ".txt" in labels && |labels[Stem(imageId) + ".txt"]| > 0)
      && |r.counts| == |names|
      && r.totalInstances == Sum(r.counts)
      && (!r.hasAnnotations ==> r.totalInstances == 0 && forall k :: 0 <= k < |names| ==> r.counts[k] == 0)
  {
    var r := RowOf(names, split, imageId, LabelOf(labels, imageId));
    if !r.hasAnnotations { SumOfZeros(r.counts); }
  }

  lemma {:induction false} SumOfZeros(xs: seq<nat>)
    requires forall i :: 0 <= i < |xs| ==> xs[i] == 0
    ensures Sum(xs) == 0
  {
    if xs != [] { SumOfZeros(xs[..|xs| - 1]); }
  }

  /** A line that is a well-formed instance of a known class adds one to that class only. */
  lemma InstanceLineCounts(names: seq<(int, string)>, lines: seq<string>, line: string, k: nat)
    requires DistinctIds(names) && k < |names|
    requires ScanLines(lines).complete && ParseLine(line).Instance?
    ensures var after := ClassCounts(names, Some(lines + [line]));
      var c := ParseLine(line).classId;
      after[k] == (if |lines| > 0 then ScanLines(lines).instances[names[k].0] else 0) + (if names[k].0 == c then 1 else 0)
  {
    var all := lines + [line];
    assert all[..|all| - 1] == lines;
  }

  // ---------------------------------------------------------------------------
  // Analysing a split

  /** The inner loop over a label's lines: a known class gains one per instance line, until a malformed line. */
  method CountLabelLines(names: seq<(int, string)>, lines: seq<string>) returns (counts: seq<nat>)
    requires DistinctIds(names)
    ensures |counts| == |names|
    ensures forall k :: 0 <= k < |names| ==> counts[k] == ScanLines(lines).instances[names[k].0]
  {
    counts := seq(|names|, k => 0);
    assert lines[..0] == [];
    assert ScanLines(lines[..0]).instances == multiset{};
    var j := 0;
    while j < |lines|
      invariant 0 <= j <= |lines|
      invariant ScanLines(lines[..j]).complete
      invariant CountsOf(names, counts, ScanLines(lines[..j]).instances)
    {
      var next, malformed := CountLine(names, lines[j], counts);
      if malformed {
        MalformedLineStops(lines, j);
        return;
      }
      CountStep(names, lines, j, counts, next);
      counts := next;
      j := j + 1;
    }
    assert lines[..j] == lines;
  }

  /** One line of a label: malformed, or the counts with its class, if known, gaining one. */
  method CountLine(names: seq<(int, string)>, line: string, counts: seq<nat>) returns (next: seq<nat>, malformed: bool)
    requires |counts| == |names|
    ensures malformed == ParseLine(line).Malformed?
    ensures !malformed ==> next == Bumped(names, counts, ParseLine(line))
  {
    var parsed := ParseLine(line);
    malformed := parsed.Malformed?;
    next := counts;
    if parsed.Instance? {
      var q := FindId(names, parsed.classId);
      if q >= 0 {
        next := counts[q := counts[q] + 1];
      }
    }
  }

  /** counts holds, position by position, how often each class of names occurs in scanned. */
  predicate CountsOf(names: seq<(int, string)>, counts: seq<nat>, scanned: multiset<int>)
  {
    |counts| == |names| && forall k :: 0 <= k < |names| ==> counts[k] == scanned[names[k].0]
  }

  /** The counts after one line that parses: only the position of a known class gains one. */
  function Bumped(names: seq<(int, string)>, before: seq<nat>, p: LineParse): seq<nat>
    requires |before| == |names|
  {
    if p.Instance? && FindId(names, p.classId) >= 0
    then before[FindId(names, p.classId) := before[FindId(names, p.classId)] + 1]
    else before
  }

  lemma MalformedLineStops(lines: seq<string>, j: nat)
    requires j < |lines| && ParseLine(lines[j]).Malformed?
    requires ScanLines(lines[..j]).complete
    ensures ScanLines(lines).instances == ScanLines(lines[..j]).instances
  {
    assert lines[..j + 1][..j] == lines[..j];
    ScanStopsAtError(lines, j + 1);
  }

  lemma CountStep(names: seq<(int, string)>, lines: seq<string>, j: nat, before: seq<nat>, after: seq<nat>)
    requires DistinctIds(names) && j < |lines| && !ParseLine(lines[j]).Malformed?
    requires ScanLines(lines[..j]).complete
    requires CountsOf(names, before, ScanLines(lines[..j]).instances)
    requires after == Bumped(names, before, ParseLine(lines[j]))
    ensures ScanLines(lines[..j + 1]).complete
    ensures CountsOf(names, after, ScanLines(lines[..j + 1]).instances)
  {
    var p := ParseLine(lines[j]);
    assert lines[..j + 1][..j] == lines[..j];
    if p.Instance? {
      var c := p.classId;
      var q := FindId(names, c);
      assert ScanLines(lines[..j + 1]).instances == ScanLines(lines[..j]).instances + multiset{c};
      forall k | 0 <= k < |names|
        ensures after[k] == ScanLines(lines[..j + 1]).instances[names[k].0]
      {
        if k != q && q >= 0 { assert names[k].0 != names[q].0; }
      }
    } else {
      assert ScanLines(lines[..j + 1]) == ScanLines(lines[..j]);
    }
  }

  lemma CountsAreClassCounts(names: seq<(int, string)>, labelFile: Option<seq<string>>, counts: seq<nat>)
    requires |counts| == |names|
    requires forall k :: 0 <= k < |names| ==>
      counts[k] == if Annotated(labelFile) then ScanLines(labelFile.value).instances[names[k].0] else 0
    ensures counts == ClassCounts(names, labelFile)
  {
  }

  /** sum(image_row[name] for name in class_names.values()). */
  method SumCounts(counts: seq<nat>) returns (total: nat)
    ensures total == Sum(counts)
  {
    total := 0;
    var k := 0;
    while k < |counts|
      invariant 0 <= k <= |counts|
      invariant total == Sum(counts[..k])
    {
      assert counts[..k + 1][..k] == counts[..k];
      total := total + counts[k];
      k := k + 1;
    }
    assert counts[..k] == counts;
  }

  /**
   * The images and labels directories of a split: present is false when either is
   * missing; listing names the images directory's entries; labels maps the label files
   * that exist and could be read to their lines.
   */
  datatype SplitDir = SplitDir(present: bool, listing: seq<string>, labels: map<string, seq<string>>)

  /** The rows of a split: one per discovered image, none when a directory is missing. */
  function AnalyzedRows(names: seq<(int, string)>, split: Split, dir: SplitDir): seq<ImageRow>
  {
    if dir.present then ImageRows(names, split, Discovered(dir.listing, CasePatterns(ImageExtensions)), dir.labels)
    else []
  }

  /** analyze_split_images. */
  method AnalyzeSplitImages(names: seq<(int, string)>, split: Split, dir: SplitDir) returns (rows: seq<ImageRow>)
    requires DistinctIds(names)
    ensures rows == AnalyzedRows(names, split, dir)
  {
    if !dir.present {
      return [];
    }
    var imageFiles := DiscoverImages(dir.listing, ImageExtensions);
    rows := ImageLoop(names, split, imageFiles, dir.labels);
  }

  /** The loop over the found images, one row each. */
  method ImageLoop(names: seq<(int, string)>, split: Split, imageFiles: seq<string>, labels: map<string, seq<string>>)
    returns (rows: seq<ImageRow>)
    requires DistinctIds(names)
    ensures rows == ImageRows(names, split, imageFiles, labels)
  {
    rows := [];
    var i := 0;
    while i < |imageFiles|
      invariant 0 <= i <= |imageFiles|
      invariant |rows| == i
      invariant forall q :: 0 <= q < i ==> rows[q] == RowOf(names, split, imageFiles[q], LabelOf(labels, imageFiles[q]))
    {
      var row := AnalyzeImage(names, split, imageFiles[i], LabelOf(labels, imageFiles[i]));
      rows := rows + [row];
      i := i + 1;
    }
  }

  /** The body of the image loop: the row of one image and its label, if any. */
  method AnalyzeImage(names: seq<(int, string)>, split: Split, imageId: string, labelFile: Option<seq<string>>)
    returns (row: ImageRow)
    requires DistinctIds(names)
    ensures row == RowOf(names, split, imageId, labelFile)
  {
    var hasAnnotations := false;
    var counts: seq<nat> := seq(|names|, k => 0);
    if labelFile.Some? && |labelFile.value| > 0 {
      hasAnnotations := true;
      counts := CountLabelLines(names, labelFile.value);
    }
    CountsAreClassCounts(names, labelFile, counts);
    var total := SumCounts(counts);
    row := ImageRow(imageId, split, hasAnnotations, counts, total);
  }

  // ---------------------------------------------------------------------------
  // CSV tables

  function Columns(names: seq<(int, string)>): (cs: seq<string>)
    ensures |cs| == 4 + |names|
  {
    ["image_id", "split", "has_annotations", "total_instances"] + seq(|names|, k requires 0 <= k < |names| => names[k].1)
  }

  function YesNo(b: bool): string { if b then "Yes" else "No" }

  function CsvRow(r: ImageRow): seq<Cell>
  {
    [Str(r.imageId), Str(r.split.Name()), Str(YesNo(r.hasAnnotations)), Int(r.totalInstances)]
    + seq(|r.counts|, k requires 0 <= k < |r.counts| => Int(r.counts[k]))
  }

  /** The table of a per-image CSV file: the header, then one line per row. */
  function CsvTable(names: seq<(int, string)>, rows: seq<ImageRow>): (t: seq<seq<Cell>>)
    ensures |t| == |rows| + 1 && |t[0]| == |Columns(names)|
  {
    [seq(|Columns(names)|, k requires 0 <= k < |Columns(names)| => Str(Columns(names)[k]))]
    + seq(|rows|, i requires 0 <= i < |rows| => CsvRow(rows[i]))
  }

  /** The table starts with the column names, and line i + 1 is the CSV line of row i. */
  lemma CsvTableLines(names: seq<(int, string)>, rows: seq<ImageRow>, i: nat, k: nat)
    requires i < |rows| && k < |Columns(names)|
    ensures CsvTable(names, rows)[0][k] == Str(Columns(names)[k])
    ensures CsvTable(names, rows)[i + 1] == CsvRow(rows[i])
  {
  }

  /** Every line has one cell per column, and the cell under a class's column is that class's count. */
  lemma CsvColumnsAligned(names: seq<(int, string)>, rows: seq<ImageRow>, i: nat, k: nat)
    requires i < |rows| && |rows[i].counts| == |names| && k < |names|
    ensures |CsvTable(names, rows)[i + 1]| == |Columns(names)|
    ensures Columns(names)[4 + k] == names[k].1
    ensures CsvTable(names, rows)[i + 1][4 + k] == Int(rows[i].counts[k])
    ensures CsvTable(names, rows)[i + 1][3] == Int(rows[i].totalInstances)
  {
  }

  /** A CSV table is written only for a non-empty list of rows. */
  method TableIfAny(names: seq<(int, string)>, rows: seq<ImageRow>) returns (t: Option<seq<seq<Cell>>>)
    ensures t == if rows != [] then Some(CsvTable(names, rows)) else None
  {
    t := None;
    if rows != [] {
      t := Some(CsvTable(names, rows));
    }
  }

  /**
   * create_csv_files over train and valid: a table per split that has rows, a combined
   * table of the train rows followed by the valid rows when there are any, and the
   * summary statistics of the combined rows.
   */
  method CreateCsvFiles(names: seq<(int, string)>, train: SplitDir, valid: SplitDir)
    returns (allData: seq<ImageRow>, trainCsv: Option<seq<seq<Cell>>>, validCsv: Option<seq<seq<Cell>>>,
             combinedCsv: Option<seq<seq<Cell>>>, summary: seq<seq<Cell>>)
    requires DistinctIds(names)
    ensures var trainRows, validRows := AnalyzedRows(names, TrainSplit, train), AnalyzedRows(names, ValidSplit, valid);
      && allData == trainRows + validRows
      && trainCsv == (if trainRows != [] then Some(CsvTable(names, trainRows)) else None)
      && validCsv == (if validRows != [] then Some(CsvTable(names, validRows)) else None)
    ensures combinedCsv == if allData != [] then Some(CsvTable(names, allData)) else None
    ensures summary == SummaryTable(names, allData)
  {
    allData := [];
    var trainRows := AnalyzeSplitImages(names, TrainSplit, train);
    if trainRows != [] {
      allData := allData + trainRows;
    }
    trainCsv := TableIfAny(names, trainRows);
    assert allData == trainRows;
    var validRows := AnalyzeSplitImages(names, ValidSplit, valid);
    if validRows != [] {
      allData := allData + validRows;
    }
    validCsv := TableIfAny(names, validRows);
    assert allData == trainRows + validRows;
    combinedCsv := TableIfAny(names, allData);
    summary := CreateSummaryStatistics(names, allData);
  }

  // ---------------------------------------------------------------------------
  // Summary statistics

  function CountAt(r: ImageRow, k: nat): nat
  {
    if k < |r.counts| then r.counts[k] else 0
  }

  function RowsOf(rows: seq<ImageRow>, split: Split): (rs: seq<ImageRow>)
    ensures |rs| <= |rows|
  {
    if rows == [] then []
    else
      var front := RowsOf(rows[..|rows| - 1], split);
      var last := rows[|rows| - 1];
      if last.split == split then front + [last] else front
  }

  /** The filtered rows are exactly the rows of the split. */
  lemma {:induction false} RowsOfMembers(rows: seq<ImageRow>, split: Split)
    ensures forall r :: r in RowsOf(rows, split) <==> r in rows && r.split == split
  {
    if rows != [] {
      var front, last := rows[..|rows| - 1], rows[|rows| - 1];
      RowsOfMembers(front, split);
      assert forall r :: r in rows <==> r == last || r in front;
    }
  }

  function CountAnnotated(rows: seq<ImageRow>): (n: nat)
    ensures n <= |rows|
  {
    if rows == [] then 0 else CountAnnotated(rows[..|rows| - 1]) + (if rows[|rows| - 1].hasAnnotations then 1 else 0)
  }

  function SumTotals(rows: seq<ImageRow>): nat
  {
    if rows == [] then 0 else SumTotals(rows[..|rows| - 1]) + rows[|rows| - 1].totalInstances
  }

  /** sum(row[class_name] for row in rows). */
  function ClassTotal(rows: seq<ImageRow>, k: nat): nat
  {
    if rows == [] then 0 else ClassTotal(rows[..|rows| - 1], k) + CountAt(rows[|rows| - 1], k)
  }

  /** sum of the class's counts that are not zero. */
  function NonZeroSum(rows: seq<ImageRow>, k: nat): nat
  {
    if rows == [] then 0
    else NonZeroSum(rows[..|rows| - 1], k) + (if CountAt(rows[|rows| - 1], k) > 0 then CountAt(rows[|rows| - 1], k) else 0)
  }

  /** The rows in which the class occurs. */
  function ImagesWithClass(rows: seq<ImageRow>, k: nat): (n: nat)
    ensures n <= |rows|
  {
    if rows == [] then 0 else ImagesWithClass(rows[..|rows| - 1], k) + (if CountAt(rows[|rows| - 1], k) > 0 then 1 else 0)
  }

  function ZeroCount(rows: seq<ImageRow>, k: nat): nat
  {
    if rows == [] then 0 else ZeroCount(rows[..|rows| - 1], k) + (if CountAt(rows[|rows| - 1], k) == 0 then 1 else 0)
  }

  /** min(class_counts), or 0 for no rows. */
  function MinCount(rows: seq<ImageRow>, k: nat): (m: nat)
    ensures rows != [] ==> exists i :: 0 <= i < |rows| && CountAt(rows[i], k) == m
    ensures forall i :: 0 <= i < |rows| ==> m <= CountAt(rows[i], k)
    ensures rows == [] ==> m == 0
  {
    if rows == [] then 0
    else if |rows| == 1 then CountAt(rows[0], k)
    else
      var front := rows[..|rows| - 1];
      var m := MinCount(front, k);
      assert forall i :: 0 <= i < |front| ==> front[i] == rows[i];
      var c := CountAt(rows[|rows| - 1], k);
      if c < m then c else m
  }

  /** max(class_counts), or 0 for no rows. */
  function MaxCount(rows: seq<ImageRow>, k: nat): (m: nat)
    ensures rows != [] ==> exists i :: 0 <= i < |rows| && CountAt(rows[i], k) == m
    ensures forall i :: 0 <= i < |rows| ==> CountAt(rows[i], k) <= m
    ensures rows == [] ==> m == 0
  {
    if rows == [] then 0
    else
      var front := rows[..|rows| - 1];
      var m := MaxCount(front, k);
      assert forall i :: 0 <= i < |front| ==> front[i] == rows[i];
      var c := CountAt(rows[|rows| - 1], k);
      if c > m then c else m
  }

  /** sum(non_zero_counts) / len(non_zero_counts), or 0 when the class never occurs. */
  function AverageNonZero(rows: seq<ImageRow>, k: nat): real
  {
    if ImagesWithClass(rows, k) == 0 then 0.0
    else NonZeroSum(rows, k) as real / ImagesWithClass(rows, k) as real
  }

  /** Every row has either no instance of the class or at least one. */
  lemma {:induction false} ZeroAndNonZeroPartition(rows: seq<ImageRow>, k: nat)
    ensures ZeroCount(rows, k) + ImagesWithClass(rows, k) == |rows|
  {
    if rows != [] { ZeroAndNonZeroPartition(rows[..|rows| - 1], k); }
  }

  /** Leaving out the zero counts does not change the sum. */
  lemma {:induction false} NonZeroSumIsClassTotal(rows: seq<ImageRow>, k: nat)
    ensures NonZeroSum(rows, k) == ClassTotal(rows, k)
  {
    if rows != [] { NonZeroSumIsClassTotal(rows[..|rows| - 1], k); }
  }

  lemma {:induction false} NonZeroSumAtLeastCount(rows: seq<ImageRow>, k: nat)
    ensures NonZeroSum(rows, k) >= ImagesWithClass(rows, k)
  {
    if rows != [] { NonZeroSumAtLeastCount(rows[..|rows| - 1], k); }
  }

  /** The distribution figures: min <= max, and the average of the non-zero counts is 0 or at least 1. */
  lemma DistributionBounds(rows: seq<ImageRow>, k: nat)
    ensures MinCount(rows, k) <= MaxCount(rows, k)
    ensures ImagesWithClass(rows, k) == 0 ==> AverageNonZero(rows, k) == 0.0
    ensures ImagesWithClass(rows, k) > 0 ==> AverageNonZero(rows, k) >= 1.0
    ensures ImagesWithClass(rows, k) > 0 ==> AverageNonZero(rows, k) <= MaxCount(rows, k) as real
  {
    if rows != [] {
      assert MinCount(rows, k) <= CountAt(rows[0], k) <= MaxCount(rows, k);
    }
    if ImagesWithClass(rows, k) > 0 {
      NonZeroSumAtLeastCount(rows, k);
      NonZeroSumAtMostMax(rows, k, MaxCount(rows, k));
      QuotientBetween(NonZeroSum(rows, k), ImagesWithClass(rows, k), MaxCount(rows, k));
    }
  }

  lemma QuotientBetween(s: nat, n: nat, m: nat)
    requires 0 < n <= s <= n * m
    ensures 1.0 <= s as real / n as real <= m as real
  {
    var S, N, M := s as real, n as real, m as real;
    var q := S / N;
    assert S <= N * M;
    assert (q - 1.0) * N == S - N;
    assert (M - q) * N == N * M - S;
    NonNegativeFactor(q - 1.0, N);
    NonNegativeFactor(M - q, N);
  }

  lemma NonNegativeFactor(x: real, y: real)
    requires y > 0.0 && x * y >= 0.0
    ensures x >= 0.0
  {
  }

  lemma {:induction false} NonZeroSumAtMostMax(rows: seq<ImageRow>, k: nat, m: nat)
    requires forall i :: 0 <= i < |rows| ==> CountAt(rows[i], k) <= m
    ensures NonZeroSum(rows, k) <= ImagesWithClass(rows, k) * m
  {
    if rows != [] {
      var front := rows[..|rows| - 1];
      assert forall i :: 0 <= i < |front| ==> front[i] == rows[i];
      NonZeroSumAtMostMax(front, k, m);
      var a := ImagesWithClass(front, k);
      assert (a + 1) * m == a * m + m;
    }
  }

  lemma {:induction false} ClassTotalAppend(a: seq<ImageRow>, b: seq<ImageRow>, k: nat)
    ensures ClassTotal(a + b, k) == ClassTotal(a, k) + ClassTotal(b, k)
    ensures SumTotals(a + b) == SumTotals(a) + SumTotals(b)
  {
    if b == [] {
      assert a + b == a;
    } else {
      assert (a + b)[..|a + b| - 1] == a + b[..|b| - 1];
      ClassTotalAppend(a, b[..|b| - 1], k);
    }
  }

  lemma {:induction false} RowsOfAppend(a: seq<ImageRow>, b: seq<ImageRow>, split: Split)
    ensures RowsOf(a + b, split) == RowsOf(a, split) + RowsOf(b, split)
  {
    if b == [] {
      assert a + b == a;
    } else {
      var front, last := b[..|b| - 1], b[|b| - 1];
      assert (a + b)[..|a + b| - 1] == a + front;
      assert (a + b)[|a + b| - 1] == last;
      RowsOfAppend(a, front, split);
      assert RowsOf(a + b, split) == RowsOf(a + front, split) + (if last.split == split then [last] else []);
    }
  }

  lemma {:induction false} RowsOfOwnSplit(rows: seq<ImageRow>, split: Split)
    requires forall i :: 0 <= i < |rows| ==> rows[i].split == split
    ensures RowsOf(rows, split) == rows
  {
    if rows != [] {
      var front := rows[..|rows| - 1];
      assert forall i :: 0 <= i < |front| ==> front[i] == rows[i];
      RowsOfOwnSplit(front, split);
      RowsOfLast(rows, split);
      assert front + [rows[|rows| - 1]] == rows;
    }
  }

  lemma RowsOfLast(rows: seq<ImageRow>, split: Split)
    requires rows != []
    ensures RowsOf(rows, split) == RowsOf(rows[..|rows| - 1], split)
      + (if rows[|rows| - 1].split == split then [rows[|rows| - 1]] else [])
  {
  }

  lemma {:induction false} RowsOfOtherSplit(rows: seq<ImageRow>, split: Split)
    requires forall i :: 0 <= i < |rows| ==> rows[i].split != split
    ensures RowsOf(rows, split) == []
  {
    if rows != [] {
      var front := rows[..|rows| - 1];
      assert forall i :: 0 <= i < |front| ==> front[i] == rows[i];
      RowsOfOtherSplit(front, split);
    }
  }

  /**
   * For the combined rows, train rows followed by valid rows: picking the train and the
   * valid rows gives each part back, and combined totals are the two splits' totals added.
   */
  lemma CombinedIsTrainPlusValid(trainRows: seq<ImageRow>, validRows: seq<ImageRow>, k: nat)
    requires forall i :: 0 <= i < |trainRows| ==> trainRows[i].split == TrainSplit
    requires forall i :: 0 <= i < |validRows| ==> validRows[i].split == ValidSplit
    ensures RowsOf(trainRows + validRows, TrainSplit) == trainRows
    ensures RowsOf(trainRows + validRows, ValidSplit) == validRows
    ensures ClassTotal(trainRows + validRows, k) == ClassTotal(trainRows, k) + ClassTotal(validRows, k)
    ensures SumTotals(trainRows + validRows) == SumTotals(trainRows) + SumTotals(validRows)
  {
    RowsOfAppend(trainRows, validRows, TrainSplit);
    RowsOfAppend(trainRows, validRows, ValidSplit);
    RowsOfOwnSplit(trainRows, TrainSplit);
    RowsOfOtherSplit(validRows, TrainSplit);
    RowsOfOwnSplit(validRows, ValidSplit);
    RowsOfOtherSplit(trainRows, ValidSplit);
    assert trainRows + [] == trainRows;
    ClassTotalAppend(trainRows, validRows, k);
  }

  /** The rows analysed for a split all carry that split. */
  lemma ImageRowsSplit(names: seq<(int, string)>, split: Split, images: seq<string>, labels: map<string, seq<string>>)
    ensures forall i :: 0 <= i < |images| ==> ImageRows(names, split, images, labels)[i].split == split
  {
  }

  function Row5(cells: seq<Cell>): (r: seq<Cell>)
    requires |cells| <= 5
    ensures |r| == 5
  {
    Padded(cells, 5)
  }

  function OverallRows(allData: seq<ImageRow>): seq<seq<Cell>>
  {
    var trainData := RowsOf(allData, TrainSplit);
    var validData := RowsOf(allData, ValidSplit);
    [Row5([Str("OVERALL STATISTICS")]),
     [Str("Metric"), Str("Value"), Str("Train"), Str("Valid"), Str("Combined")],
     [Str("Total Images"), Str(""), Int(|trainData|), Int(|validData|), Int(|allData|)],
     [Str("Images with Annotations"), Str(""),
      Int(CountAnnotated(trainData)), Int(CountAnnotated(validData)), Int(CountAnnotated(allData))],
     [Str("Total Instances"), Str(""), Int(SumTotals(trainData)), Int(SumTotals(validData)), Int(SumTotals(allData))],
     Row5([])]
  }

  function ClassStatRow(names: seq<(int, string)>, allData: seq<ImageRow>, k: nat): seq<Cell>
    requires k < |names|
  {
    var trainInstances := ClassTotal(RowsOf(allData, TrainSplit), k);
    var validInstances := ClassTotal(RowsOf(allData, ValidSplit), k);
    [Str(names[k].1), Int(trainInstances + validInstances), Int(trainInstances), Int(validInstances),
     Int(ImagesWithClass(allData, k))]
  }

  function DistributionRow(names: seq<(int, string)>, allData: seq<ImageRow>, k: nat): seq<Cell>
    requires k < |names|
  {
    [Str(names[k].1), Int(MinCount(allData, k)), Int(MaxCount(allData, k)),
     Fixed2(AverageNonZero(allData, k)), Int(ZeroCount(allData, k))]
  }

  function ClassStatRows(names: seq<(int, string)>, allData: seq<ImageRow>): (rows: seq<seq<Cell>>)
    ensures |rows| == |names| && forall k :: 0 <= k < |names| ==> rows[k] == ClassStatRow(names, allData, k)
  {
    seq(|names|, k requires 0 <= k < |names| => ClassStatRow(names, allData, k))
  }

  function DistributionRows(names: seq<(int, string)>, allData: seq<ImageRow>): (rows: seq<seq<Cell>>)
    ensures |rows| == |names| && forall k :: 0 <= k < |names| ==> rows[k] == DistributionRow(names, allData, k)
  {
    seq(|names|, k requires 0 <= k < |names| => DistributionRow(names, allData, k))
  }

  /** The rows of per_image_summary_stats.csv. */
  function SummaryTable(names: seq<(int, string)>, allData: seq<ImageRow>): (t: seq<seq<Cell>>)
    ensures |t| == 11 + 2 * |names|
  {
    OverallRows(allData)
    + [Row5([Str("CLASS STATISTICS")]),
       [Str("Class Name"), Str("Total Instances"), Str("Train Instances"), Str("Valid Instances"), Str("Images with Class")]]
    + ClassStatRows(names, allData)
    + [Row5([])]
    + [Row5([Str("DISTRIBUTION STATISTICS")]),
       [Str("Class Name"), Str("Min per Image"), Str("Max per Image"), Str("Avg per Image"), Str("Images with 0 instances")]]
    + DistributionRows(names, allData)
  }

  /** The first loop of create_summary_statistics: one row of totals per class. */
  method ClassStatLoop(names: seq<(int, string)>, allData: seq<ImageRow>) returns (classRows: seq<seq<Cell>>)
    ensures classRows == ClassStatRows(names, allData)
  {
    classRows := [];
    var k := 0;
    while k < |names|
      invariant 0 <= k <= |names|
      invariant |classRows| == k && forall q :: 0 <= q < k ==> classRows[q] == ClassStatRow(names, allData, q)
    {
      classRows := classRows + [ClassStatRow(names, allData, k)];
      k := k + 1;
    }
  }

  /** The second loop of create_summary_statistics: one row of per-image figures per class. */
  method DistributionLoop(names: seq<(int, string)>, allData: seq<ImageRow>) returns (distributionRows: seq<seq<Cell>>)
    ensures distributionRows == DistributionRows(names, allData)
  {
    distributionRows := [];
    var k := 0;
    while k < |names|
      invariant 0 <= k <= |names|
      invariant |distributionRows| == k && forall q :: 0 <= q < k ==> distributionRows[q] == DistributionRow(names, allData, q)
    {
      distributionRows := distributionRows + [DistributionRow(names, allData, k)];
      k := k + 1;
    }
  }

  /** create_summary_statistics: the fixed rows, then the two loops over class_names. */
  method CreateSummaryStatistics(names: seq<(int, string)>, allData: seq<ImageRow>) returns (summaryData: seq<seq<Cell>>)
    ensures summaryData == SummaryTable(names, allData)
  {
    var classRows := ClassStatLoop(names, allData);
    var distributionRows := DistributionLoop(names, allData);
    summaryData := OverallRows(allData)
      + [Row5([Str("CLASS STATISTICS")]),
         [Str("Class Name"), Str("Total Instances"), Str("Train Instances"), Str("Valid Instances"), Str("Images with Class")]]
      + classRows
      + [Row5([])]
      + [Row5([Str("DISTRIBUTION STATISTICS")]),
         [Str("Class Name"), Str("Min per Image"), Str("Max per Image"), Str("Avg per Image"), Str("Images with 0 instances")]]
      + distributionRows;
  }
}
