# PCB inspection pipeline: a verified Dafny model

This project models the decision and bookkeeping logic of a printed-circuit-board (PCB)
defect inspection system and proves properties of it. The system has six parts:

- **Ensemble scorer.** It turns three lists of detections (high, medium and low confidence)
  into metrics, scores the metrics by graded buckets and weights, and cuts the score into
  four bands from "GOOD PCB" to "SEVERELY DEFECTIVE PCB".
- **Inspection backend.** It contains:
  - the PASS/FAIL/ERROR verdict for one board image;
  - defect records with their unknown-class fallback;
  - the primary defect name and the batch board IDs ("PCB-001", ...);
  - the choice of the latest result file;
  - the age-based cleanup of the upload and result directories.
- **Dataset analyzer.** It gives per-split counts of annotated images and class instances
  in YOLO label files, totals and derived ratios over the splits, and the rows of its two
  CSV reports.
- **Per-image analyzer.** It produces one row per image with its per-class instance
  counts, the per-split and combined CSV tables, and the summary statistics table.
- **Safety telemetry store.** It holds the current sensor reading, a history bounded to the
  latest 100 readings, a connected flag, demo readings, and the validation done by the
  update route.
- **Good-board organizer.** It discovers images, splits them 80/20 into train and valid, and
  names an empty label file for each.

Modules:

- `Wrappers`: `Option`, `Result`, HTTP errors.
- `Text`: decimal rendering and parsing, `str.split`, `Path.stem`, string order, ASCII case.
- `Boxes`: a detection box and its area.
- `YoloLabels`: the label-line parser and per-file scan, which both analyzers share.
- `Csv`: report cells.
- `Discovery`: image globbing.
- `Ensemble`, `Inspection`, `DatasetStats`, `PerImage`, `Telemetry` and `Organizer`:
  one module per part.

Some operations work by changing state step by step. These are methods with loops or
classes with `modifies` clauses, each proved against a specification function. This covers
the dataset analyzer, the telemetry store and the organizing and counting loops. The rest is
functions and lemmas.

Where the code and its prose disagree, the model follows the code:

- The metric-explanation text in `ensemble_scoring_explained.py` (around line 354) says the
  detection density counts the medium-confidence detections. The code at line 58 counts the
  low-confidence list.
- The model uses the weights 3.0 / 2.0 / 1.5 / 2.5 and the band bounds 2 / 5 / 10 as the
  code writes them.
- Image globbing uses path globbing, which also matches names starting with a dot. The
  model does not skip them.

## Model

| member | source | states |
|---|---|---|
| Ensemble.ConfidenceClassesPartition | ensemble_scoring_explained.py:110-114 | the high (> 0.7), medium ([0.4, 0.7]) and low (< 0.4) counts add up to the number of confidences |
| Ensemble.AnalyzeConfidenceDistribution | ensemble_scoring_explained.py:103-120 | an empty list gives high 0, low 1 and no medium ratio; otherwise the three ratios sum to 1 and each of them, the medium ratio included, lies in [0, 1] |
| Ensemble.MaxConfidence | ensemble_scoring_explained.py:61-64 | the maximum bounds every confidence and is attained by one of them |
| Ensemble.MaxAtLeastMean | ensemble_scoring_explained.py:61-64 | the mean confidence of a non-empty list never exceeds its maximum |
| Ensemble.TotalArea | ensemble_scoring_explained.py:69-74 | the summed box area is non-negative when every box is well formed |
| Ensemble.MetricsOf | ensemble_scoring_explained.py:54-89 | the metrics of three detection lists and an image size, whose average confidence never exceeds the maximum |
| Ensemble.ExtractMultipleMetrics | ensemble_scoring_explained.py:54-89 | the result is MetricsOf the lists and the image size: high count = size of the high list, detection count = size of the low list, avg and max confidence over the medium list (0 when it is empty, avg <= max), area ratio = total medium area / image area, distribution of the medium list; a zero image area is an error |
| Ensemble.BucketsMonotone | ensemble_scoring_explained.py:134-192 | each of the four graded buckets is monotone in its metric |
| Ensemble.EnsembleScore | ensemble_scoring_explained.py:122-200 | the weighted bucket sum lies in [0, 31.75] |
| Ensemble.CalculateEnsembleScore | ensemble_scoring_explained.py:122-200 | the accumulated score equals the weighted bucket sum and lies in [0, 31.75] |
| Ensemble.ScoreMonotone | ensemble_scoring_explained.py:134-192 | raising any metric with the others fixed never lowers the score |
| Ensemble.BandOf | ensemble_scoring_explained.py:216-232 | GOOD iff score <= 2, QUESTIONABLE iff 2 < score <= 5, DEFECTIVE iff 5 < score <= 10, SEVERELY DEFECTIVE iff score > 10 |
| Ensemble.BandMonotone | ensemble_scoring_explained.py:216-232 | a higher score never gets a better band |
| Ensemble.NoDetectionsIsGood | ensemble_scoring_explained.py:131-192 | all-zero metrics score 0 and give a good board |
| Ensemble.HighConfidenceNeverGood | ensemble_scoring_explained.py:136-145 | one high-confidence detection adds at least 4.5, so the board is never good |
| Ensemble.FiveHighConfidenceSevere | ensemble_scoring_explained.py:136-145 | five high-confidence detections add 12, so the board is severely defective |
| Ensemble.ClassifyPcb | ensemble_scoring_explained.py:202-261 | the result's metrics are MetricsOf the three lists and the image size, and its band is the band of the score of those metrics; any high-confidence detection rules out GOOD; five or more give SEVERELY DEFECTIVE; a zero image area is an error |
| Boxes.Area | aoi_backend_server.py:165 | (x2 - x1)(y2 - y1) is non-negative for a well-formed box and 0 for a degenerate one |
| Inspection.UnknownTypeCarriesId | aoi_backend_server.py:162 | a class id missing from class_names gives the type "unknown_" followed by the id, which parses back to the id |
| Inspection.NearestInt | aoi_backend_server.py:163 | the integer chosen is at most 1/2 away from the value (ties go to the even integer, as round() does) |
| Inspection.RoundIsNearest | aoi_backend_server.py:163-165 | round(x, ndigits), with scale = 10^ndigits, is a whole number of 1/scale steps, at most half a step from x |
| Inspection.RoundToThousandths | aoi_backend_server.py:163 | a value less than half a thousandth above n thousandths rounds to n thousandths |
| Inspection.ToRecord | aoi_backend_server.py:157-166 | the type is the class name or the unknown-class fallback; the stored confidence is within 0.0005 of the detection's and the four corners and the area within 0.05 of the exact values |
| Inspection.Records | aoi_backend_server.py:156-166 | the reference definition ExtractDefectDetails is proved against: one record per detection, record i being ToRecord of detection i; the properties of a record are those of ToRecord and RoundIsNearest |
| Inspection.ExtractDefectDetails | aoi_backend_server.py:149-168 | one record per detection, in order, with its type, confidence rounded to 3 places, four corners and area rounded to 1 place |
| Inspection.FirstMaxIndex | aoi_backend_server.py:176-177 | the chosen record has maximal confidence, and every earlier record has strictly lower confidence (the first maximum wins) |
| Inspection.PrimaryDefect | aoi_backend_server.py:173-174 | no records give "None" |
| Inspection.PrimaryDefectIsFirstMostConfident | aoi_backend_server.py:170-178 | with records, the primary defect is the display name of a record of maximal confidence that no earlier record equals |
| Inspection.RoundedConfidencesTie | aoi_backend_server.py:163 | confidences 0.8001 and 0.8004 are both stored as 0.8 |
| Inspection.TieGoesToFirst | aoi_backend_server.py:177 | of two records with equal confidence, the first is the primary one |
| Inspection.PrimaryDefectOnRoundedConfidence | aoi_backend_server.py:163-178 | the primary defect is chosen on the rounded confidences: detections at 0.8001 and 0.8004 tie at 0.8, and the first one (missing hole) is primary |
| Inspection.ReplaceUnderscores | aoi_backend_server.py:178 | the result keeps the length, contains no '_', and keeps every other character |
| Inspection.TitleFromAt | aoi_backend_server.py:178 | title case: a letter is upper-cased exactly when the previous character is not a letter, other letters are lower-cased, non-letters are kept |
| Inspection.TitleFromIdempotent | aoi_backend_server.py:178 | title-casing a title-cased name changes nothing |
| Inspection.Inspect | aoi_backend_server.py:96-145 | the answer keeps the PCB id; ERROR exactly when an exception was raised; otherwise total_defects is the number of records, and FAIL holds exactly when there are records |
| Inspection.InspectionVerdict | aoi_backend_server.py:96-145 | the pcbId is kept; an exception gives ERROR with "Processing Error: " and the message; otherwise FAIL iff a detection exists and PASS iff none does; total_defects = number of records = number of detections; PASS has no records and type "None"; FAIL names the primary defect; each detection gives its record |
| Inspection.ProcessPcbImage | aoi_backend_server.py:96-145 | the result is the specified inspection, and FAIL holds exactly when the model returned a non-empty box list |
| Inspection.BatchId | aoi_backend_server.py:227 | an ID is "PCB-" followed by at least three characters |
| Inspection.BatchIdDigits | aoi_backend_server.py:227 | a batch ID is "PCB-" and at least three digits whose value is the one-based position |
| Inspection.BatchIdInjective | aoi_backend_server.py:227 | different positions get different IDs |
| Inspection.ProcessedPositions | aoi_backend_server.py:225-226 | exactly the positions with a non-empty filename, in increasing order |
| Inspection.InspectBatch | aoi_backend_server.py:220-229 | an empty upload list gives 400 "No image files provided"; otherwise one result per named file, in order, inspected under the ID of its original position |
| Inspection.BatchLoop | aoi_backend_server.py:224-229 | the loop inspects, in upload order, exactly the named uploads, each under the ID of its own position |
| Inspection.GreatestName | aoi_backend_server.py:262 | sorted(...)[-1]: a member of the list that no other member exceeds in string order |
| Inspection.FilesMatching | aoi_backend_server.py:257 | a name is kept iff it is in the listing, starts with the prefix and ends with "_result.json" |
| Inspection.GetResultAsWritten | aoi_backend_server.py:257-263 | as written: 404 "Result not found" iff no listed name starts with the ID and ends with "_result.json"; otherwise the greatest such name |
| Inspection.GetResultAsWrittenMixesIds | aoi_backend_server.py:257-263 | with the code's bare prefix match, the request for "PCB-100" returns the result file of "PCB-1000", where the corrected lookup answers 404 |
| Inspection.GetResult | aoi_backend_server.py:257-263 | 404 "Result not found" iff no result file of the ID exists; otherwise the greatest such file name |
| Inspection.GetResultIsOwnResult | aoi_backend_server.py:257 | for IDs without '_', the returned result file was written for the requested ID |
| Inspection.Survivors | aoi_backend_server.py:50-57 | a directory entry survives iff it is not a regular file with a known mtime below the cutoff |
| Inspection.SurvivorsAndExpiredPartition | aoi_backend_server.py:50-57 | survivors plus removed files account for every entry |
| Inspection.CleanDirectory | aoi_backend_server.py:50-57 | the loop keeps exactly the survivors and counts exactly the expired files |
| Inspection.CleanupOldFiles | aoi_backend_server.py:38-62 | cutoff = now - minutes * 60; each listed directory keeps its survivors and `removed` counts the expired files; a missing directory is skipped; an "uploads" directory that cannot be listed ends the cleanup, leaving "results" as it was |
| Inspection.CleanIfPresent | aoi_backend_server.py:48-50 | a listed directory keeps its survivors and reports its expired count; a missing one is skipped with nothing removed; the call fails exactly when the directory cannot be listed |
| Inspection.PreserveMinutes | aoi_backend_server.py:278-279 | the posted preserve_minutes when there is one, else the 10 minutes cleanup_old_files keeps by default |
| Inspection.Cleaned | aoi_backend_server.py:48-57 | only a listed directory changes, and it keeps exactly the entries that are not expired |
| Inspection.RemovedFrom | aoi_backend_server.py:55-56 | the removed files and the kept entries of a listed directory add up to its entries; nothing is removed from any other |
| Inspection.CleanupRoute | aoi_backend_server.py:272-281 | the route answers the window it used, and the directories are cleaned as by cleanup_old_files with the cutoff now - window * 60 |
| Text.ParseInt | dataset_analysis.py:82 | a token int() accepts is not empty |
| Text.ParseIntAccepts | dataset_analysis.py:82 | int() accepts exactly one or more digits after an optional '+' or '-', and reads them as a decimal number, negated after '-' |
| Text.ParseIntOfIntToString | aoi_backend_server.py:162 | int(str(i)) == i for every integer |
| Text.Tokens | dataset_analysis.py:80 | every token of str.split() is non-empty and free of whitespace |
| Text.TokensOfBlank | dataset_analysis.py:78-80 | split() gives no token exactly for an empty or whitespace-only line |
| Text.TokensOfJoined | dataset_analysis.py:80 | splitting a space-joined list of words gives the words back |
| Text.Stem | per_image_analysis.py:64 | the stem is a prefix of the name |
| Text.StemCutsLastSuffix | per_image_analysis.py:64 | a stem shorter than the name ends just before the last '.', which has a character before and after it |
| Text.StemOfSuffixed | per_image_analysis.py:64 | the stem of "base.ext" is base |
| Text.LexLessTransitive | aoi_backend_server.py:262 | the string order that sorting uses is transitive |
| Text.LexLessTotal | aoi_backend_server.py:262 | any two distinct strings are ordered one way or the other |
| YoloLabels.ParseLine | dataset_analysis.py:77-84 | a line with fewer than five fields adds nothing; otherwise it is an instance of the class int() reads from its first field, or malformed when int() rejects that field |
| YoloLabels.ParseFormattedLine | dataset_analysis.py:77-84 | a line of a class id and at least four more fields counts one instance of that class |
| YoloLabels.BlankLineIsNoInstance | dataset_analysis.py:78-79 | a blank line adds nothing |
| YoloLabels.ScanLines | dataset_analysis.py:77-84 | the classes of a scanned file are exactly those with an instance, and a file has at most one instance per line |
| YoloLabels.ScanStopsAtError | dataset_analysis.py:68-91 | once a line fails to parse, later lines change nothing |
| YoloLabels.ScanOfInstanceLines | dataset_analysis.py:77-84 | a file of well-formed lines completes with one instance per line |
| DatasetStats.ScanFile | dataset_analysis.py:69-88 | a file is annotated iff it was read and has a line; an image's classes are among its instances; an unannotated file adds nothing |
| DatasetStats.ScanSplit | dataset_analysis.py:68-91 | annotated files <= label files; for every class, images with it <= its instances and <= annotated images |
| DatasetStats.StatsOf | dataset_analysis.py:93-101 | the split figures are consistent, without = total images - annotated (not clamped), and per class the instance and image counters |
| DatasetStats.CountFileLines | dataset_analysis.py:77-84 | the line loop adds exactly the file's scanned instances and classes |
| DatasetStats.CountSplit | dataset_analysis.py:68-91 | the file loop computes the split scan |
| DatasetStats.DatasetAnalyzer.AnalyzeSplit | dataset_analysis.py:39-101 | a split with both directories gets its figures; a missing directory changes nothing |
| DatasetStats.SumStatsIsSum | dataset_analysis.py:116-120 | the totals' per-class instances are the sum over the analysed splits |
| DatasetStats.Totals | dataset_analysis.py:108-141 | the totals are consistent figures for the n classes, with one percentage and one average per class |
| DatasetStats.TotalIsSplitSum | dataset_analysis.py:116-120 | a class's total instances = train + valid + test instances, each 0 when not analysed |
| DatasetStats.DerivedRatiosBounded | dataset_analysis.py:131-141 | the percentage exists iff some image is annotated, and then lies in [0, 100]; the average exists iff some image has the class, and then is >= 1 |
| DatasetStats.DatasetAnalyzer.GenerateSummaryStats | dataset_analysis.py:108-141 | the stored totals are the sums over train, valid and test with their ratios |
| DatasetStats.ReportRows | dataset_analysis.py:148-201 | the detailed report has at least 10 + n rows, and rows 9 to 9 + n are the class summary |
| DatasetStats.ReportLayout | dataset_analysis.py:148-201 | the report has 10 + n rows plus n + 8 rows per analysed split, and rows 9 to 9 + n are the class summary in class_names order |
| DatasetStats.ClassSummaryAddsUp | dataset_analysis.py:163-184 | in a class-summary row of generated totals, total instances = train + valid + test |
| DatasetStats.SplitSectionsLength | dataset_analysis.py:187-201 | each analysed split adds n + 8 rows, in train, valid, test order |
| DatasetStats.SummaryRows | dataset_analysis.py:217-235 | dataset_summary.csv is its header and one row per class |
| DatasetStats.SummaryLayout | dataset_analysis.py:218-235 | after the header, row k + 1 is the summary of class k, in class_names order |
| DatasetStats.DatasetAnalyzer.CreateCsvReport | dataset_analysis.py:143-238 | the rows built are the detailed report and the summary report, read from the generated totals, or before they exist from the empty entry the defaultdict gives |
| DatasetStats.NoTotalsReadZero | dataset_analysis.py:154-167 | from the empty totals entry every overview and per-class total cell reads 0, and the percentage reads "0%" |
| DatasetStats.SplitSectionsLoop | dataset_analysis.py:186-201 | the detail sections of the analysed splits, in the order train, valid, test |
| Csv.Padded | dataset_analysis.py:151-157 | a report row is the given cells followed by blanks up to the row width |
| PerImage.FindId | per_image_analysis.py:92 | the position of the class id in class_names, or -1 exactly when the id is not a key |
| PerImage.ClassCounts | per_image_analysis.py:67-94 | each class count is the label's instances of that class when the label is annotated, else 0 |
| PerImage.RowOf | per_image_analysis.py:62-104 | a row keeps its image id and split, is annotated iff its label was read and has a line, has one count per class, and its total is the sum of the counts |
| PerImage.RowProperties | per_image_analysis.py:62-104 | a row is annotated iff "<stem>.txt" exists and has a line; an unannotated row has all counts 0; total = sum of the counts |
| PerImage.InstanceLineCounts | per_image_analysis.py:86-94 | a well-formed line adds one to its class when the id is known, and nothing otherwise |
| PerImage.CountLabelLines | per_image_analysis.py:83-94 | the counting loop gives, per class in class_names, the label's instances of that class |
| PerImage.CountLine | per_image_analysis.py:87-94 | one label line: whether it is malformed, and otherwise the counts with only the known class of an instance line raised by one |
| PerImage.SumCounts | per_image_analysis.py:100 | total_instances is the sum of the class counts |
| PerImage.AnalyzeSplitImages | per_image_analysis.py:39-110 | one row per discovered image, in discovery order; no rows when a directory is missing |
| PerImage.ImageLoop | per_image_analysis.py:62-104 | one row per image, in the order found, each the row of that image and its label |
| PerImage.CsvTable | per_image_analysis.py:143-149 | a table is one header line with one cell per column, then one line per row |
| PerImage.CsvTableLines | per_image_analysis.py:143-149 | the header holds the column names, and line i + 1 is the CSV line of row i |
| PerImage.CsvColumnsAligned | per_image_analysis.py:143-148 | the columns are image_id, split, has_annotations, total_instances, then the class names, and each row's cells sit under them |
| PerImage.CreateCsvFiles | per_image_analysis.py:112-132 | all data = train rows then valid rows (test is not analysed); a split's and the combined table exist only when non-empty; the summary is built from all data |
| PerImage.TableIfAny | per_image_analysis.py:122-130 | a table is produced exactly when there are rows, and it is the CSV table of those rows |
| PerImage.RowsOfMembers | per_image_analysis.py:205-206 | the filtered rows are exactly those of the split |
| PerImage.CombinedIsTrainPlusValid | per_image_analysis.py:205-228 | filtering the combined rows by split gives back the train and valid rows, so class totals and instance totals add up |
| PerImage.MinCount | per_image_analysis.py:244 | the minimum count is attained and bounds every row, and is 0 with no rows |
| PerImage.MaxCount | per_image_analysis.py:245 | the maximum count is attained and bounds every row, and is 0 with no rows |
| PerImage.ZeroAndNonZeroPartition | per_image_analysis.py:242-247 | rows with 0 of a class plus rows with some of it = all rows |
| PerImage.NonZeroSumIsClassTotal | per_image_analysis.py:242-246 | the sum of the non-zero counts is the class total |
| PerImage.DistributionBounds | per_image_analysis.py:240-249 | min <= max; the average over non-zero counts is 0 when there are none, otherwise between 1 and the maximum |
| PerImage.SummaryTable | per_image_analysis.py:200-249 | the summary has 11 + 2n rows |
| PerImage.CreateSummaryStatistics | per_image_analysis.py:192-249 | the built table is the summary table |
| Discovery.Glob | per_image_analysis.py:54-55 | a name is matched iff it is in the listing and ends with the extension |
| Discovery.Discovered | per_image_analysis.py:52-55 | a name is found iff it is in the listing and ends with one of the patterns |
| Discovery.CasePatternsAt | pcb_dataset_downloader.py:61-63 | the patterns are each extension, then its upper-case form, in order |
| Discovery.DiscoverImages | pcb_dataset_downloader.py:57-63 | the extend loop yields the concatenated globs of the case patterns, in order |
| Discovery.ImagesFound | per_image_analysis.py:51-55 | a file with a lower- or upper-case image extension is found |
| Telemetry.ReadingOf | safety_backend_server.py:65-72 | the reference definition UpdateSensorData is proved against: each of the five readings is data.get(key, 0), with the update time as timestamp; ReadingOfComplete and ReadingOfEmpty state what it promises |
| Telemetry.ReadingOfComplete | safety_backend_server.py:63-72 | a body carrying all five fields is recorded value for value |
| Telemetry.ReadingOfEmpty | safety_backend_server.py:65-70 | absent fields are recorded as 0 |
| Telemetry.Appended | safety_backend_server.py:75-77 | the new reading is last; below the limit nothing is dropped; at the limit exactly the oldest reading is dropped; the bound of 100 is kept |
| Telemetry.SafetyBackend.Record | safety_backend_server.py:75-77 | the reading is appended to the bounded history; the current reading and the connected flag are unchanged |
| Telemetry.AppendedIsWindow | safety_backend_server.py:75-77 | an append keeps the latest 100 readings |
| Telemetry.AppendAllIsWindow | safety_backend_server.py:56-59 | any number of appends leaves exactly the latest min(100, n) readings, oldest first |
| Telemetry.Clamped | safety_backend_server.py:49-52 | a demo reading has humidity in [0, 100] and distance and air quality >= 0, and values already in range are kept |
| Telemetry.ReplayKeepsBound | safety_backend_server.py:56-59 | no series of updates and demo ticks makes the history exceed 100 |
| Telemetry.ConnectedIffUpdated | safety_backend_server.py:79 | the store is connected iff it started connected or a device update happened |
| Telemetry.DemoIgnoredOnceConnected | safety_backend_server.py:36 | once connected, demo ticks change nothing: the state is that of the device updates alone |
| Telemetry.UpdatesKeepLatest | safety_backend_server.py:63-80 | a series of device updates leaves the latest 100 readings as history and the last one as current |
| Telemetry.FirstMissing | safety_backend_server.py:145-148 | None iff every required field is present; otherwise the first absent field, in order |
| Telemetry.Validate | safety_backend_server.py:139-148 | non-JSON gives 400 "Content-Type must be application/json"; a JSON body passes iff it has all five fields; otherwise 400 "Missing required field: " and the first absent field, in the order of the required-field list |
| Telemetry.ValidateNamesFirstMissing | safety_backend_server.py:145-148 | when field i is absent and all earlier fields are present, the error names field i |
| Telemetry.SafetyBackend.constructor | safety_backend_server.py:17-27 | starts with 22.5 / 45.0 / 150.0 / 1013.2 / 285.0, an empty history and not connected |
| Telemetry.SafetyBackend.UpdateSensorData | safety_backend_server.py:63-80 | the body becomes the current reading, is appended to the history, the store is connected, and the reading is returned |
| Telemetry.SafetyBackend.GenerateDemoReading | safety_backend_server.py:33-59 | while not connected the clamped sample becomes current and is appended; once connected nothing changes |
| Telemetry.SafetyBackend.GetStatus | safety_backend_server.py:90-96 | connected flag, timestamp of the current reading, and data_points = history length <= 100 |
| Telemetry.SafetyBackend.UpdateRoute | safety_backend_server.py:135-157 | a rejected request answers its 400 error and changes nothing; an accepted one updates the store and answers success with the new reading |
| Organizer.TrainCount | pcb_dataset_downloader.py:68 | the train size t satisfies 5t <= 4n < 5(t + 1), so train is 80 percent rounded down |
| Organizer.Plan | pcb_dataset_downloader.py:70-83 | the reference definition PlaceImages is proved against: image i goes to train when i is below the train count and to valid otherwise, with the label "<stem>.txt"; PlanSplits and PlanCounts state what it promises |
| Organizer.PlanSplits | pcb_dataset_downloader.py:70-74 | the image at position i trains iff i < train count, and is valid otherwise |
| Organizer.PrefixCounts | pcb_dataset_downloader.py:70-74 | with train as a prefix of length t, train holds min(n, t) images and valid the rest |
| Organizer.PlanCounts | pcb_dataset_downloader.py:85-87 | train holds the train count, valid holds n minus it, and the two add up to n |
| Organizer.LabelName | pcb_dataset_downloader.py:81 | the label of an image ends in ".txt" |
| Organizer.LabelNameKeepsStem | pcb_dataset_downloader.py:81 | an image and its label have the same stem |
| Organizer.PlacedLabelsReadUnannotated | pcb_dataset_downloader.py:80-83 | the empty label created for an image is the one the per-image analysis looks up, which reads it as unannotated |
| Organizer.OrganizeGoodPcbs | pcb_dataset_downloader.py:57-87 | the placements follow the plan over the discovered images, and the reported counts are the train and valid placements and sum to the number found |
| Organizer.PlaceImages | pcb_dataset_downloader.py:67-80 | each image, in discovery order, goes to train when its position is below int(n * 0.8) and to valid otherwise, with the label of its stem |

## Left out

- Object detection, image decoding and drawing are not modelled. This covers YOLO, OpenCV,
  PIL and base64. The model's outputs and image sizes are inputs.
- Flask routing, CORS, JSON encoding and file I/O are not modelled. Directory listings,
  label-file contents and posted bodies are inputs. The model's results are the values or
  rows the code would answer or write.
- Clocks, `uuid` and timestamps are parameters: `now`, the result-file timestamp, and the
  ISO text of a reading.
- The demo generator's randomness, sine and cosine terms, thread and one-second sleep are
  not modelled. A tick takes its raw sample as a parameter. The store's fields are shared
  with the Flask threads without a lock, and that concurrency is not modelled.
- The rounding of defect records (`round(conf, 3)`, `round(v, 1)`) is modelled on exact
  values. Python rounds the binary floating-point value, so a value such as 2.675 can round
  down where the model rounds to even on the exact decimal. Display formatting (`:.2f`,
  `:.3f`) is not modelled.
- DatasetStats.Totals: the stored percentages and averages are exact ratios; the code stores
  them as `round(x, 2)`.
- Floating point is modelled as exact `real` arithmetic. This includes `int(n * 0.8)`, which
  agrees with `n * 4 / 5` for every realistic image count.
- Loading `data.yaml` is not modelled. class_names is given as a list of (id, name) pairs
  with distinct ids. Two ids with the same name would share one column in the source's
  dicts, and that is not modelled.
- Python's `str.split`, `str.title`, `str.upper` and `int()` are modelled on ASCII only.
  `int()` accepting underscores between digits, surrounding whitespace and non-ASCII digits
  is not modelled. The tokens it sees come from `split()`, so they never carry whitespace.
- Image globbing is modelled on a flat, case-sensitive listing. On a case-insensitive file
  system the lower- and upper-case globs would both match a file. `rglob` descending into
  sub-directories is represented by giving the listing in its order.
- Organizer.OrganizeGoodPcbs: copying images and creating label files are represented by
  the placement records. Two images with the same base name in different
  sub-directories, which overwrite each other in the target, are not modelled.
- Values posted to the telemetry routes are numbers. The JSON non-object case and a `float()`
  conversion failure are not modelled; both end in the route's 500 answer.
- The 500 answers of the routes' outer `except Exception` handlers are not modelled. The
  exceptions the code catches inside an operation are modelled as values: process_pcb_image's
  ERROR result, a label file that cannot be read or fails to parse, a file that cannot be
  stat'ed or removed during cleanup, and a directory that cannot be listed, which reaches
  cleanup_old_files' own outer handler and ends the cleanup there.
- The route that inspects one uploaded image is not modelled. Its request checks return 400
  when no file was sent. The image-serving route, the health routes and the Arduino alias
  route are not modelled either; the alias forwards to the update route, which is modelled.
- The post-batch cleanup call in the batch route is modelled separately by
  Inspection.CleanupOldFiles.
- Inspection.CleanupRoute: the posted preserve_minutes is taken as already converted
  by `int()`; a value `int()` rejects ends in the route's 500 answer.
- A cleanup entry without an mtime (stat failed) or that cannot be removed is kept and not
  counted, as the inner handler skips it.
- Console printing, the launcher, setup and video scripts, the dataset catalogues and the
  download functions (Roboflow, Kaggle) are not part of this model.

## Findings

| source | as written | input that shows it | evidently intended | confidence | as-written member | corrected member |
|---|---|---|---|---|---|---|
| aoi_backend_server.py:257 | a result file is selected when its name starts with the requested ID (`f.startswith(pcb_id)`) | ID "PCB-100" when the only result file is "PCB-1000_20240101_120000_result.json": the file of PCB-1000 is returned instead of 404 | select only files written for that ID, whose names start with the ID followed by '_' (they are written as ID_timestamp_result.json at line 131) | not executed | Inspection.GetResultAsWritten, Inspection.GetResultAsWrittenMixesIds | Inspection.GetResult, Inspection.GetResultIsOwnResult |
