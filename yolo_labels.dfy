/**
 * YOLO label files: one object per line, "class_id x y w h". Both dataset tools
 * read them the same way: strip and split each line, skip lines with fewer than
 * five fields, and take int() of the first field as the class id; a first field
 * int() rejects raises, which ends the reading of that file.
 */
module YoloLabels {
  import opened Wrappers
  import opened Text

  /** The dataset splits, in the order the tools visit them. */
  datatype Split = TrainSplit | ValidSplit | TestSplit
  {
    function Name(): string
    {
      match this
      case TrainSplit => "train"
      case ValidSplit => "valid"
      case TestSplit => "test"
    }
  }

  const SplitOrder: seq<Split> := [TrainSplit, ValidSplit, TestSplit]

  datatype LineParse = NoInstance | Instance(classId: int) | Malformed

  /** What one line contributes. Stripping first changes nothing that split() sees. */
  function ParseLine(line: string): (p: LineParse)
    ensures p == NoInstance <==> |Tokens(line)| < 5
    ensures p.Instance? ==> ParseInt(Tokens(line)[0]) == Some(p.classId)
    ensures p == Malformed <==> |Tokens(line)| >= 5 && ParseInt(Tokens(line)[0]).None?
  {
    var parts := Tokens(line);
    if |parts| < 5 then NoInstance
    else match ParseInt(parts[0])
      case Some(c) => Instance(c)
      case None => Malformed
  }

  /** A line written as " ".join([str(c)] + fields) with at least four further fields is an instance of c. */
  lemma ParseFormattedLine(c: int, fields: seq<string>)
    requires |fields| >= 4
    requires forall k :: 0 <= k < |fields| ==> IsWord(fields[k])
    ensures ParseLine(JoinSpaced([IntToString(c)] + fields)) == Instance(c)
  {
    var ws := [IntToString(c)] + fields;
    IntToStringIsWord(c);
    forall k | 0 <= k < |ws| ensures IsWord(ws[k]) {
      if k > 0 { assert ws[k] == fields[k - 1]; }
    }
    TokensOfJoined(ws);
    assert Tokens(JoinSpaced(ws))[0] == IntToString(c);
    ParseIntOfIntToString(c);
  }

  lemma IntToStringIsWord(c: int)
    ensures IsWord(IntToString(c))
  {
    var s := IntToString(c);
    if c < 0 {
      var d := NatToString(-c);
      assert s == "-" + d;
      forall i | 1 <= i < |s| ensures !IsSpace(s[i]) { assert s[i] == d[i - 1]; }
    }
  }

  /** A line that is empty or whitespace only contributes nothing. */
  lemma BlankLineIsNoInstance(line: string)
    requires forall i :: 0 <= i < |line| ==> IsSpace(line[i])
    ensures ParseLine(line) == NoInstance
  {
    var t := SkipSpacesOfBlank(line);
  }

  lemma {:induction false} SkipSpacesOfBlank(line: string) returns (t: string)
    requires forall i :: 0 <= i < |line| ==> IsSpace(line[i])
    ensures t == SkipSpaces(line) == []
  {
    if line == [] {
      t := [];
    } else {
      t := SkipSpacesOfBlank(line[1..]);
    }
  }

  /**
   * The effect of reading a file's lines in order: the class of every instance line
   * (a Counter, as a multiset), the set of classes seen, and whether the reading got
   * to the end or stopped at a line whose class id did not parse.
   */
  datatype Scan = Scan(instances: multiset<int>, classes: set<int>, complete: bool)

  function ScanLines(lines: seq<string>): (r: Scan)
    ensures forall c :: c in r.classes <==> c in r.instances
    ensures |r.instances| <= |lines|
  {
    if lines == [] then Scan(multiset{}, {}, true)
    else
      var p := ScanLines(lines[..|lines| - 1]);
      if !p.complete then p
      else match ParseLine(lines[|lines| - 1])
        case NoInstance => p
        case Instance(c) => Scan(p.instances + multiset{c}, p.classes + {c}, true)
        case Malformed => Scan(p.instances, p.classes, false)
  }

  /** Reading one more line after a prefix that was read to its end. */
  lemma ScanLinesStep(lines: seq<string>, j: nat)
    requires j < |lines| && ScanLines(lines[..j]).complete
    ensures var p, q := ScanLines(lines[..j]), ScanLines(lines[..j + 1]);
      match ParseLine(lines[j])
      case NoInstance => q == p
      case Instance(c) => q == Scan(p.instances + multiset{c}, p.classes + {c}, true)
      case Malformed => q == Scan(p.instances, p.classes, false)
  {
    assert lines[..j + 1][..j] == lines[..j];
  }

  /** Once a line has stopped the reading, the lines after it change nothing. */
  lemma {:induction false} ScanStopsAtError(lines: seq<string>, j: nat)
    requires j <= |lines|
    requires !ScanLines(lines[..j]).complete
    ensures ScanLines(lines) == ScanLines(lines[..j])
    decreases |lines| - j
  {
    if j < |lines| {
      var next := lines[..j + 1];
      assert next[..j] == lines[..j];
      assert ScanLines(next) == ScanLines(lines[..j]);
      ScanStopsAtError(lines, j + 1);
    } else {
      assert lines[..j] == lines;
    }
  }

  /** A file whose every line is an instance line is read to the end, one instance per line. */
  lemma {:induction false} ScanOfInstanceLines(lines: seq<string>)
    requires forall i :: 0 <= i < |lines| ==> ParseLine(lines[i]).Instance?
    ensures ScanLines(lines).complete && |ScanLines(lines).instances| == |lines|
  {
    if lines != [] {
      ScanOfInstanceLines(lines[..|lines| - 1]);
    }
  }
}
