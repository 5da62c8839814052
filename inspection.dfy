/**
 * The decision and selection rules of the AOI inspection backend: PASS/FAIL from
 * the model's detections, one defect record per detection, the primary defect and its
 * display name, PCB ids in a batch, picking the latest result file of a PCB, and the
 * age-based cleanup of the upload and result directories.
 */
module Inspection {
  import opened Wrappers
  import opened Text
  import opened Boxes

  /** The eight defect classes of the trained model. */
  const ClassNames: map<int, string> := map[
    0 := "falsecopper", 1 := "missinghole", 2 := "mousebite", 3 := "opencircuit",
    4 := "pinhole", 5 := "scratch", 6 := "shortcircuit", 7 := "spur"]

  // ---------------------------------------------------------------------------
  // Defect records

  datatype DefectRecord = DefectRecord(defectType: string, confidence: real, bbox: seq<real>, area: real)

  /** class_names.get(id, f'unknown_{id}'). */
  function DefectTypeName(names: map<int, string>, classId: int): string
  {
    if classId in names then names[classId] else "unknown_" + IntToString(classId)
  }

  /** The fallback name of an unknown class carries that class id, readable back with int(). */
  lemma UnknownTypeCarriesId(names: map<int, string>, classId: int)
    requires classId !in names
    ensures StartsWith(DefectTypeName(names, classId), "unknown_")
    ensures ParseInt(DefectTypeName(names, classId)[8..]) == Some(classId)
  {
    var t := DefectTypeName(names, classId);
    assert t[8..] == IntToString(classId);
    ParseIntOfIntToString(classId);
  }

  /** The integer nearest to y, a tie going to the even one. */
  function NearestInt(y: real): (n: int)
    ensures -0.5 <= n as real - y <= 0.5
  {
    var f := y.Floor;
    if y - f as real > 0.5 then f + 1
    else if y - f as real < 0.5 then f
    else if f % 2 == 0 then f else f + 1
  }

  /** Steps of round(x, 3) and round(x, 1): 10 to the power of the digits kept. */
  const Thousandths: real := 1000.0
  const Tenths: real := 10.0

  /**
   * round(x, ndigits) on an exact value, with scale = 10^ndigits: the nearest multiple
   * of 1/scale, a tie going to the even multiple.
   */
  function Round(x: real, scale: real): real
    requires scale > 0.0
  {
    NearestInt(x * scale) as real / scale
  }

  /** A rounded value is a whole number of 1/scale steps, at most half a step from x. */
  lemma RoundIsNearest(x: real, scale: real)
    requires scale > 0.0
    ensures Round(x, scale) * scale == NearestInt(x * scale) as real
    ensures -0.5 <= Round(x, scale) * scale - x * scale <= 0.5
  {
    var n := NearestInt(x * scale) as real;
    assert (n / scale) * scale == n;
  }

  /** A value less than half a step above n thousandths is rounded to n thousandths. */
  lemma RoundToThousandths(x: real, n: int)
    requires n as real <= x * Thousandths < n as real + 0.5
    ensures Round(x, Thousandths) == n as real / Thousandths
  {
    assert (x * Thousandths).Floor == n;
  }

  /**
   * The record of a detection, with the confidence stored as round(conf, 3) and the
   * corners and the area as round(v, 1).
   */
  function ToRecord(names: map<int, string>, b: Box): (r: DefectRecord)
    ensures r.defectType == DefectTypeName(names, b.classId)
    ensures -0.0005 <= r.confidence - b.confidence <= 0.0005
    ensures |r.bbox| == 4
    ensures -0.05 <= r.bbox[0] - b.x1 <= 0.05 && -0.05 <= r.bbox[1] - b.y1 <= 0.05
    ensures -0.05 <= r.bbox[2] - b.x2 <= 0.05 && -0.05 <= r.bbox[3] - b.y2 <= 0.05
    ensures -0.05 <= r.area - Area(b) <= 0.05
  {
    RoundIsNearest(b.confidence, Thousandths);
    RoundIsNearest(b.x1, Tenths);
    RoundIsNearest(b.y1, Tenths);
    RoundIsNearest(b.x2, Tenths);
    RoundIsNearest(b.y2, Tenths);
    RoundIsNearest(Area(b), Tenths);
    DefectRecord(DefectTypeName(names, b.classId), Round(b.confidence, Thousandths),
                 [Round(b.x1, Tenths), Round(b.y1, Tenths), Round(b.x2, Tenths), Round(b.y2, Tenths)],
                 Round(Area(b), Tenths))
  }

  /** One record per detection, in detection order. */
  function Records(names: map<int, string>, bs: seq<Box>): (ds: seq<DefectRecord>)
    ensures |ds| == |bs|
    ensures forall i :: 0 <= i < |bs| ==> ds[i] == ToRecord(names, bs[i])
  {
    seq(|bs|, i requires 0 <= i < |bs| => ToRecord(names, bs[i]))
  }

  /** _extract_defect_details: one record per detection, in detection order. */
  method ExtractDefectDetails(names: map<int, string>, detections: seq<Box>) returns (defects: seq<DefectRecord>)
    ensures |defects| == |detections|
    ensures forall i :: 0 <= i < |detections| ==>
      defects[i].defectType == DefectTypeName(names, detections[i].classId)
      && defects[i].confidence == Round(detections[i].confidence, Thousandths)
      && defects[i].bbox == [Round(detections[i].x1, Tenths), Round(detections[i].y1, Tenths),
                             Round(detections[i].x2, Tenths), Round(detections[i].y2, Tenths)]
      && defects[i].area == Round(Area(detections[i]), Tenths)
    ensures defects == Records(names, detections)
  {
    defects := [];
    var i := 0;
    while i < |detections|
      invariant 0 <= i <= |detections|
      invariant defects == Records(names, detections[..i])
    {
      defects := defects + [ToRecord(names, detections[i])];
      i := i + 1;
    }
    assert detections[..i] == detections;
  }

  // ---------------------------------------------------------------------------
  // Primary defect

  /** max(defects, key=confidence): the first record whose confidence no other record exceeds. */
  function FirstMaxIndex(defects: seq<DefectRecord>): (k: nat)
    requires defects != []
    ensures k < |defects|
    ensures forall j :: 0 <= j < |defects| ==> defects[j].confidence <= defects[k].confidence
    ensures forall j :: 0 <= j < k ==> defects[j].confidence < defects[k].confidence
  {
    if |defects| == 1 then 0
    else
      var front := defects[..|defects| - 1];
      var k := FirstMaxIndex(front);
      assert forall j :: 0 <= j < |front| ==> front[j] == defects[j];
      if defects[|defects| - 1].confidence > defects[k].confidence then |defects| - 1 else k
  }

  /** str.replace('_', ' '). */
  function ReplaceUnderscores(s: string): (r: string)
    ensures |r| == |s| && '_' !in r
    ensures forall i :: 0 <= i < |s| && s[i] != '_' ==> r[i] == s[i]
  {
    if s == [] then [] else [if s[0] == '_' then ' ' else s[0]] + ReplaceUnderscores(s[1..])
  }

  /** str.title() on ASCII text, given whether the character before s was a letter. */
  function TitleFrom(s: string, afterLetter: bool): (r: string)
    ensures |r| == |s|
  {
    if s == [] then []
    else
      var c := s[0];
      var d := if !IsAsciiLetter(c) then c else if afterLetter then ToLower(c) else ToUpper(c);
      [d] + TitleFrom(s[1..], IsAsciiLetter(c))
  }

  function Title(s: string): (r: string)
    ensures |r| == |s|
  {
    TitleFrom(s, false)
  }

  /** title() upper-cases each letter that starts a word and lower-cases every other letter. */
  lemma {:induction false} TitleFromAt(s: string, afterLetter: bool, i: nat)
    requires i < |s|
    ensures TitleFrom(s, afterLetter)[i] ==
      (var before := if i == 0 then afterLetter else IsAsciiLetter(s[i - 1]);
       if !IsAsciiLetter(s[i]) then s[i] else if before then ToLower(s[i]) else ToUpper(s[i]))
  {
    if i > 0 {
      TitleFromAt(s[1..], IsAsciiLetter(s[0]), i - 1);
    }
  }

  /** Title-casing a title-cased string changes nothing. */
  lemma {:induction false} TitleFromIdempotent(s: string, afterLetter: bool)
    ensures TitleFrom(TitleFrom(s, afterLetter), afterLetter) == TitleFrom(s, afterLetter)
  {
    if s != [] {
      var t := TitleFrom(s, afterLetter);
      assert t[1..] == TitleFrom(s[1..], IsAsciiLetter(s[0]));
      assert IsAsciiLetter(t[0]) == IsAsciiLetter(s[0]);
      TitleFromIdempotent(s[1..], IsAsciiLetter(s[0]));
    }
  }

  /** How a defect type is shown: underscores become spaces, then title case. */
  function DisplayName(defectType: string): string
  {
    Title(ReplaceUnderscores(defectType))
  }

  /** _get_primary_defect: "None" for no records, else the display name of the first most confident one. */
  function PrimaryDefect(defects: seq<DefectRecord>): (name: string)
    ensures defects == [] ==> name == "None"
  {
    if defects == [] then "None" else DisplayName(defects[FirstMaxIndex(defects)].defectType)
  }

  /**
   * The primary defect is named after a record of maximal confidence, and no earlier
   * record reaches that confidence.
   */
  lemma PrimaryDefectIsFirstMostConfident(defects: seq<DefectRecord>)
    requires defects != []
    ensures exists k ::
      && 0 <= k < |defects|
      && PrimaryDefect(defects) == DisplayName(defects[k].defectType)
      && (forall j :: 0 <= j < |defects| ==> defects[j].confidence <= defects[k].confidence)
      && (forall j :: 0 <= j < k ==> defects[j].confidence < defects[k].confidence)
  {
    var k := FirstMaxIndex(defects);
    assert PrimaryDefect(defects) == DisplayName(defects[k].defectType);
  }

  /** Confidences 0.8001 and 0.8004 are both stored as 0.8. */
  lemma RoundedConfidencesTie()
    ensures Round(0.8001, Thousandths) == 0.8 && Round(0.8004, Thousandths) == 0.8
  {
    RoundToThousandths(0.8001, 800);
    RoundToThousandths(0.8004, 800);
  }

  /** Of two records with equal confidence, the first is the primary one. */
  lemma TieGoesToFirst(defects: seq<DefectRecord>)
    requires |defects| == 2 && defects[0].confidence == defects[1].confidence
    ensures FirstMaxIndex(defects) == 0
    ensures PrimaryDefect(defects) == DisplayName(defects[0].defectType)
  {
  }

  /**
   * The primary defect is chosen on the stored, rounded confidences: 0.8001 and 0.8004
   * both become 0.8, so the first of the two detections is the primary one.
   */
  lemma PrimaryDefectOnRoundedConfidence()
    ensures var boxes := [Box(1, 0.8001, 0.0, 0.0, 1.0, 1.0), Box(2, 0.8004, 0.0, 0.0, 1.0, 1.0)];
      var defects := Records(ClassNames, boxes);
      defects[0].confidence == defects[1].confidence == 0.8
      && FirstMaxIndex(defects) == 0
      && PrimaryDefect(defects) == DisplayName("missinghole")
  {
    var boxes := [Box(1, 0.8001, 0.0, 0.0, 1.0, 1.0), Box(2, 0.8004, 0.0, 0.0, 1.0, 1.0)];
    var defects := Records(ClassNames, boxes);
    RoundedConfidencesTie();
    assert defects[0].confidence == Round(0.8001, Thousandths);
    assert defects[1].confidence == Round(0.8004, Thousandths);
    assert defects[0].defectType == "missinghole";
    TieGoesToFirst(defects);
  }

  // ---------------------------------------------------------------------------
  // Inspection of one image

  datatype Status = Pass | Fail | Error
  {
    function Name(): string
    {
      match this
      case Pass => "PASS"
      case Fail => "FAIL"
      case Error => "ERROR"
    }
  }

  /**
   * What decoding, saving and running the model on an image gave: the detections
   * (None when the model returned no box list), or the message of the exception raised.
   */
  datatype ModelOutcome = Detections(boxes: Option<seq<Box>>) | Raised(message: string)

  /** The JSON answer of process_pcb_image; Failed is the answer with "error": true. */
  datatype InspectionResult =
    | Inspected(pcbId: string, status: Status, defectType: string, totalDefects: nat,
                defectsDetected: seq<DefectRecord>)
    | Failed(pcbId: string, status: Status, defectType: string)

  function Inspect(names: map<int, string>, pcbId: string, outcome: ModelOutcome): (r: InspectionResult)
    ensures r.pcbId == pcbId
    ensures r.status == Error <==> outcome.Raised?
    ensures r.Inspected? ==> r.totalDefects == |r.defectsDetected|
    ensures r.Inspected? ==> (r.status == Fail <==> r.defectsDetected != [])
  {
    match outcome
    case Raised(msg) => Failed(pcbId, Error, "Processing Error: " + msg)
    case Detections(found) =>
      if found.Some? && |found.value| > 0 then
        var defects := Records(names, found.value);
        Inspected(pcbId, Fail, PrimaryDefect(defects), |defects|, defects)
      else
        Inspected(pcbId, Pass, "None", 0, [])
  }

  /** The inspection rule: any detection fails the board; an exception gives an ERROR answer. */
  lemma InspectionVerdict(names: map<int, string>, pcbId: string, outcome: ModelOutcome)
    ensures Inspect(names, pcbId, outcome).pcbId == pcbId
    ensures outcome.Raised? <==> Inspect(names, pcbId, outcome).Failed?
    ensures outcome.Raised? ==>
      Inspect(names, pcbId, outcome) == Failed(pcbId, Error, "Processing Error: " + outcome.message)
    ensures outcome.Detections? ==>
      var r := Inspect(names, pcbId, outcome);
      var found := if outcome.boxes.Some? then outcome.boxes.value else [];
      && (r.status == Fail <==> |found| > 0)
      && (r.status == Pass <==> |found| == 0)
      && r.totalDefects == |r.defectsDetected| == |found|
      && (r.status == Pass ==> r.defectsDetected == [] && r.defectType == "None")
      && (r.status == Fail ==> r.defectType == PrimaryDefect(r.defectsDetected))
      && forall i :: 0 <= i < |found| ==> r.defectsDetected[i] == ToRecord(names, found[i])
  {
  }

  /** process_pcb_image with the PCB id given. */
  method ProcessPcbImage(names: map<int, string>, pcbId: string, outcome: ModelOutcome)
    returns (r: InspectionResult)
    ensures r == Inspect(names, pcbId, outcome)
    ensures outcome.Detections? ==> (r.status == Fail <==> outcome.boxes.Some? && |outcome.boxes.value| > 0)
  {
    if outcome.Raised? {
      return Failed(pcbId, Error, "Processing Error: " + outcome.message);
    }
    if outcome.boxes.Some? && |outcome.boxes.value| > 0 {
      var defectsFound := ExtractDefectDetails(names, outcome.boxes.value);
      var primary := PrimaryDefect(defectsFound);
      r := Inspected(pcbId, Fail, primary, |defectsFound|, defectsFound);
    } else {
      r := Inspected(pcbId, Pass, "None", 0, []);
    }
  }

  // ---------------------------------------------------------------------------
  // Batch inspection

  datatype Upload = Upload(filename: string, outcome: ModelOutcome)

  /** f"PCB-{i+1:03d}" for the file at 0-based position i of the upload list. */
  function BatchId(i: nat): (id: string)
    ensures |id| >= 7 && StartsWith(id, "PCB-")
  {
    "PCB-" + ZeroPad(NatToString(i + 1), 3)
  }

  lemma BatchIdDigits(i: nat)
    ensures |BatchId(i)| >= 7 && StartsWith(BatchId(i), "PCB-")
    ensures AllDigits(BatchId(i)[4..]) && DigitsValue(BatchId(i)[4..]) == i + 1
  {
    var s := NatToString(i + 1);
    var p := ZeroPad(s, 3);
    assert BatchId(i)[4..] == p;
    NatToStringValue(i + 1);
    LeadingZerosValue(|p| - |s|, s);
  }

  /** Different positions get different ids. */
  lemma BatchIdInjective(i: nat, j: nat)
    requires BatchId(i) == BatchId(j)
    ensures i == j
  {
    BatchIdDigits(i);
    BatchIdDigits(j);
  }

  /** The positions of the uploads that have a file name, in upload order. */
  function ProcessedPositions(files: seq<Upload>): (ps: seq<nat>)
    ensures forall k :: 0 <= k < |ps| ==> ps[k] < |files| && files[ps[k]].filename != ""
    ensures forall k, l :: 0 <= k < l < |ps| ==> ps[k] < ps[l]
    ensures forall i :: 0 <= i < |files| && files[i].filename != "" ==> i in ps
  {
    if files == [] then []
    else
      var front := ProcessedPositions(files[..|files| - 1]);
      assert forall i :: 0 <= i < |files| - 1 ==> files[..|files| - 1][i] == files[i];
      if files[|files| - 1].filename != "" then front + [|files| - 1] else front
  }

  /**
   * inspect_batch: each upload with a file name is inspected under the id of its
   * position; uploads without a name are skipped but still use up their position.
   */
  method InspectBatch(names: map<int, string>, files: seq<Upload>)
    returns (r: Result<seq<InspectionResult>, HttpError>)
    ensures files == [] <==> r.Err?
    ensures r.Err? ==> r.error == HttpError(400, "No image files provided")
    ensures r.Ok? ==>
      var ps := ProcessedPositions(files);
      && |r.value| == |ps|
      && forall k :: 0 <= k < |ps| ==>
           r.value[k] == Inspect(names, BatchId(ps[k]), files[ps[k]].outcome)
           && r.value[k].pcbId == BatchId(ps[k])
  {
    if files == [] {
      return Err(HttpError(400, "No image files provided"));
    }
    var results := BatchLoop(names, files);
    r := Ok(results);
  }

  /** The loop of inspect_batch over the uploads. */
  method BatchLoop(names: map<int, string>, files: seq<Upload>) returns (results: seq<InspectionResult>)
    ensures |results| == |ProcessedPositions(files)|
    ensures forall k :: 0 <= k < |results| ==>
      var p := ProcessedPositions(files)[k];
      results[k] == Inspect(names, BatchId(p), files[p].outcome) && results[k].pcbId == BatchId(p)
  {
    results := [];
    var i := 0;
    assert files[..0] == [];
    while i < |files|
      invariant 0 <= i <= |files|
      invariant InspectedAt(names, files, ProcessedPositions(files[..i]), results)
    {
      if files[i].filename != "" {
        var result := ProcessPcbImage(names, BatchId(i), files[i].outcome);
        InspectedStep(names, files, i, results, result);
        results := results + [result];
      } else {
        ProcessedPositionsSnoc(files, i);
      }
      i := i + 1;
    }
    assert files[..i] == files;
  }

  /** results holds, in order, the inspection of the upload at each of the positions ps. */
  predicate InspectedAt(names: map<int, string>, files: seq<Upload>, ps: seq<nat>, results: seq<InspectionResult>)
  {
    && |results| == |ps|
    && forall k :: 0 <= k < |ps| ==>
         && ps[k] < |files|
         && results[k] == Inspect(names, BatchId(ps[k]), files[ps[k]].outcome)
         && results[k].pcbId == BatchId(ps[k])
  }

  lemma InspectedStep(names: map<int, string>, files: seq<Upload>, i: nat, results: seq<InspectionResult>,
                      result: InspectionResult)
    requires i < |files| && files[i].filename != ""
    requires InspectedAt(names, files, ProcessedPositions(files[..i]), results)
    requires result == Inspect(names, BatchId(i), files[i].outcome)
    ensures InspectedAt(names, files, ProcessedPositions(files[..i + 1]), results + [result])
  {
    ProcessedPositionsSnoc(files, i);
    InspectionVerdict(names, BatchId(i), files[i].outcome);
  }

  lemma ProcessedPositionsSnoc(files: seq<Upload>, i: nat)
    requires i < |files|
    ensures ProcessedPositions(files[..i + 1])
      == ProcessedPositions(files[..i]) + (if files[i].filename != "" then [i] else [])
  {
    assert files[..i + 1][..i] == files[..i];
  }

  // ---------------------------------------------------------------------------
  // Latest result of a PCB

  /** The name under which process_pcb_image saves a result. */
  function ResultFileName(pcbId: string, timestamp: string): string
  {
    pcbId + "_" + timestamp + "_result.json"
  }

  /** sorted(names)[-1]: the greatest name in code-point order. */
  function GreatestName(names: seq<string>): (g: string)
    requires names != []
    ensures g in names
    ensures forall f :: f in names ==> !LexLess(g, f)
  {
    if |names| == 1 then
      LexLessIrreflexive(names[0]);
      names[0]
    else
      var rest := GreatestName(names[1..]);
      assert forall f :: f in names ==> f == names[0] || f in names[1..];
      GreaterOfTwo(names[0], rest, names[1..]);
      if LexLess(names[0], rest) then rest else names[0]
  }

  /** The greater of a and the maximum of fs is not below a, nor below anything in fs. */
  lemma GreaterOfTwo(a: string, m: string, fs: seq<string>)
    requires forall f :: f in fs ==> !LexLess(m, f)
    ensures var g := if LexLess(a, m) then m else a;
      !LexLess(g, a) && forall f :: f in fs ==> !LexLess(g, f)
  {
    LexLessIrreflexive(a);
    LexLessTotal(a, m);
    if LexLess(a, m) {
      if LexLess(m, a) { LexLessTransitive(m, a, m); LexLessIrreflexive(m); }
    } else if a != m {
      forall f | f in fs ensures !LexLess(a, f) {
        if LexLess(a, f) { LexLessTransitive(m, a, f); }
      }
    }
  }

  function FilesMatching(listing: seq<string>, prefix: string): (fs: seq<string>)
    ensures forall f :: f in fs <==> f in listing && StartsWith(f, prefix) && EndsWith(f, "_result.json")
  {
    if listing == [] then []
    else
      var rest := FilesMatching(listing[1..], prefix);
      assert forall f :: f in listing ==> f == listing[0] || f in listing[1..];
      if StartsWith(listing[0], prefix) && EndsWith(listing[0], "_result.json")
      then [listing[0]] + rest else rest
  }

  /**
   * get_result as written: the greatest name in the results directory that starts with
   * the id and ends in "_result.json", or 404.
   */
  function GetResultAsWritten(pcbId: string, listing: seq<string>): (r: Result<string, HttpError>)
    ensures r.Err? <==> forall f :: f in listing ==> !(StartsWith(f, pcbId) && EndsWith(f, "_result.json"))
    ensures r.Err? ==> r.error == HttpError(404, "Result not found")
    ensures r.Ok? ==> r.value in listing && StartsWith(r.value, pcbId) && EndsWith(r.value, "_result.json")
    ensures r.Ok? ==> forall f :: f in listing && StartsWith(f, pcbId) && EndsWith(f, "_result.json") ==>
      !LexLess(r.value, f)
  {
    var candidates := FilesMatching(listing, pcbId);
    if candidates == [] then Err(HttpError(404, "Result not found")) else Ok(GreatestName(candidates))
  }

  /** Asked for PCB-100, which has no result, get_result returns the result of PCB-1000. */
  lemma GetResultAsWrittenMixesIds()
    ensures GetResultAsWritten("PCB-100", [ResultFileName("PCB-1000", "20240101_120000")])
      == Ok(ResultFileName("PCB-1000", "20240101_120000"))
    ensures GetResult("PCB-100", [ResultFileName("PCB-1000", "20240101_120000")])
      == Err(HttpError(404, "Result not found"))
  {
    var other := ResultFileName("PCB-1000", "20240101_120000");
    assert StartsWith(other, "PCB-100");
    assert EndsWith(other, "_result.json");
    assert other[7] == '0';
    assert !StartsWith(other, "PCB-100_");
  }

  /**
   * get_result with the match the file names call for: the id followed by the '_'
   * that ends it in every result name.
   */
  function GetResult(pcbId: string, listing: seq<string>): (r: Result<string, HttpError>)
    ensures r.Err? <==> forall f :: f in listing ==> !(StartsWith(f, pcbId + "_") && EndsWith(f, "_result.json"))
    ensures r.Err? ==> r.error == HttpError(404, "Result not found")
    ensures r.Ok? ==> r.value in listing && StartsWith(r.value, pcbId + "_") && EndsWith(r.value, "_result.json")
    ensures r.Ok? ==> forall f :: f in listing && StartsWith(f, pcbId + "_") && EndsWith(f, "_result.json") ==>
      !LexLess(r.value, f)
  {
    var candidates := FilesMatching(listing, pcbId + "_");
    if candidates == [] then Err(HttpError(404, "Result not found"))
    else Ok(GreatestName(candidates))
  }

  /** For ids without '_', the file returned was saved for that id and no other. */
  lemma GetResultIsOwnResult(pcbId: string, listing: seq<string>, savedId: string, timestamp: string)
    requires '_' !in pcbId && '_' !in savedId
    requires GetResult(pcbId, listing) == Ok(ResultFileName(savedId, timestamp))
    ensures savedId == pcbId
  {
    var f := ResultFileName(savedId, timestamp);
    var p := pcbId + "_";
    assert p <= f;
    assert p[|pcbId|] == '_' && f[|savedId|] == '_';
    assert pcbId == p[..|pcbId|] && savedId == f[..|savedId|];
  }

  // ---------------------------------------------------------------------------
  // Age-based cleanup

  /**
   * A directory entry as os.listdir, os.path.isfile and os.path.getmtime see it;
   * mtime None means getmtime raised, removable false means os.remove raised.
   */
  datatype Entry = Entry(name: string, isFile: bool, mtime: Option<real>, removable: bool)

  /** An entry the cleanup deletes: a regular file modified before the cutoff. */
  predicate Expired(e: Entry, cutoff: real)
  {
    e.isFile && e.mtime.Some? && e.mtime.value < cutoff && e.removable
  }

  function Survivors(entries: seq<Entry>, cutoff: real): (kept: seq<Entry>)
    ensures |kept| <= |entries|
    ensures forall e :: e in kept <==> e in entries && !Expired(e, cutoff)
  {
    if entries == [] then []
    else
      var front := Survivors(entries[..|entries| - 1], cutoff);
      var last := entries[|entries| - 1];
      assert forall e :: e in entries ==> e == last || e in entries[..|entries| - 1];
      if Expired(last, cutoff) then front else front + [last]
  }

  function CountExpired(entries: seq<Entry>, cutoff: real): nat
  {
    if entries == [] then 0
    else CountExpired(entries[..|entries| - 1], cutoff) + (if Expired(entries[|entries| - 1], cutoff) then 1 else 0)
  }

  /** Every entry is either deleted and counted, or kept. */
  lemma {:induction false} SurvivorsAndExpiredPartition(entries: seq<Entry>, cutoff: real)
    ensures |Survivors(entries, cutoff)| + CountExpired(entries, cutoff) == |entries|
  {
    if entries != [] { SurvivorsAndExpiredPartition(entries[..|entries| - 1], cutoff); }
  }

  /** The inner loop over one directory's listing. */
  method CleanDirectory(entries: seq<Entry>, cutoff: real) returns (kept: seq<Entry>, removed: nat)
    ensures kept == Survivors(entries, cutoff)
    ensures removed == CountExpired(entries, cutoff)
    ensures removed + |kept| == |entries|
  {
    kept, removed := [], 0;
    var i := 0;
    while i < |entries|
      invariant 0 <= i <= |entries|
      invariant kept == Survivors(entries[..i], cutoff)
      invariant removed == CountExpired(entries[..i], cutoff)
    {
      assert entries[..i + 1][..i] == entries[..i];
      var e := entries[i];
      if e.isFile && e.mtime.Some? && e.mtime.value < cutoff && e.removable {
        removed := removed + 1;
      } else {
        kept := kept + [e];
      }
      i := i + 1;
    }
    assert entries[..i] == entries;
    SurvivorsAndExpiredPartition(entries, cutoff);
  }

  /** The window cleanup_old_files keeps when called without one. */
  const DefaultPreserveMinutes: int := 10

  /** The window the cleanup route uses: the posted preserve_minutes, else the default. */
  function PreserveMinutes(requested: Option<int>): (m: int)
    ensures requested.Some? ==> m == requested.value
    ensures requested.None? ==> m == DefaultPreserveMinutes
  {
    if requested.Some? then requested.value else DefaultPreserveMinutes
  }

  /**
   * The cleanup route: cleanup_old_files over both directories with the posted window,
   * answering the window it used.
   */
  method CleanupRoute(uploads: Directory, results: Directory, now: real, requested: Option<int>)
    returns (uploadsAfter: Directory, resultsAfter: Directory, preserve: int)
    ensures preserve == PreserveMinutes(requested)
    ensures var cutoff := now - (preserve * 60) as real;
      && uploadsAfter == Cleaned(uploads, cutoff)
      && resultsAfter == (if uploads.Unlistable? then results else Cleaned(results, cutoff))
  {
    preserve := PreserveMinutes(requested);
    var removed;
    uploadsAfter, resultsAfter, removed := CleanupOldFiles(uploads, results, now, preserve);
  }

  /**
   * A directory as cleanup_old_files finds it: absent (os.path.exists is false), present
   * but refusing os.listdir, or listed with its entries.
   */
  datatype Directory = Missing | Unlistable | Listed(entries: seq<Entry>)

  /** A directory after its files older than the cutoff are removed; only a listed one changes. */
  function Cleaned(dir: Directory, cutoff: real): (after: Directory)
    ensures after.Listed? <==> dir.Listed?
    ensures after.Listed? ==> forall e :: e in after.entries <==> e in dir.entries && !Expired(e, cutoff)
  {
    if dir.Listed? then Listed(Survivors(dir.entries, cutoff)) else dir
  }

  /** The number of files the cleanup of a directory removes. */
  function RemovedFrom(dir: Directory, cutoff: real): (n: nat)
    ensures dir.Listed? ==> n + |Cleaned(dir, cutoff).entries| == |dir.entries|
    ensures !dir.Listed? ==> n == 0
  {
    if dir.Listed? then
      SurvivorsAndExpiredPartition(dir.entries, cutoff);
      CountExpired(dir.entries, cutoff)
    else 0
  }

  /**
   * cleanup_old_files over the "uploads" and "results" directories: files modified more
   * than preserveMinutes minutes before now go. A directory that refuses os.listdir raises
   * into the outer handler, which ends the whole cleanup, so "results" is then left as it
   * is when "uploads" could not be listed.
   */
  method CleanupOldFiles(uploads: Directory, results: Directory, now: real, preserveMinutes: int)
    returns (uploadsAfter: Directory, resultsAfter: Directory, removed: nat)
    ensures var cutoff := now - (preserveMinutes * 60) as real;
      && uploadsAfter == Cleaned(uploads, cutoff)
      && resultsAfter == (if uploads.Unlistable? then results else Cleaned(results, cutoff))
      && removed == RemovedFrom(uploads, cutoff) + (if uploads.Unlistable? then 0 else RemovedFrom(results, cutoff))
  {
    var cutoff := now - (preserveMinutes * 60) as real;
    var fromUploads, fromResults, failed;
    uploadsAfter, fromUploads, failed := CleanIfPresent(uploads, cutoff);
    if failed {
      resultsAfter, removed := results, fromUploads;
      return;
    }
    resultsAfter, fromResults, failed := CleanIfPresent(results, cutoff);
    removed := fromUploads + fromResults;
  }

  /**
   * One directory of cleanup_old_files: skipped when it does not exist, and failed when
   * it cannot be listed.
   */
  method CleanIfPresent(dir: Directory, cutoff: real) returns (after: Directory, removed: nat, failed: bool)
    ensures after == Cleaned(dir, cutoff)
    ensures removed == RemovedFrom(dir, cutoff)
    ensures failed <==> dir.Unlistable?
  {
    after, removed, failed := dir, 0, dir.Unlistable?;
    if dir.Listed? {
      var kept;
      kept, removed := CleanDirectory(dir.entries, cutoff);
      after := Listed(kept);
    }
  }
}
