/**
 * The string helpers the tools rely on, on ASCII text: decimal rendering and
 * parsing of integers (str and int), whitespace splitting (str.split with no
 * argument), file-name stems (PurePath.stem), prefix and suffix tests, code-point
 * ordering of strings (Python's < on str) and ASCII case mapping.
 */
module Text {
  import opened Wrappers

  // ---------------------------------------------------------------------------
  // Decimal digits

  predicate IsDigit(c: char) { '0' <= c <= '9' }

  predicate AllDigits(s: string) { forall i :: 0 <= i < |s| ==> IsDigit(s[i]) }

  function DigitValue(c: char): (d: nat)
    requires IsDigit(c)
    ensures d < 10
  {
    (c as int) - ('0' as int)
  }

  function DigitChar(d: nat): (c: char)
    requires d < 10
    ensures IsDigit(c) && DigitValue(c) == d
  {
    (('0' as int) + d) as char
  }

  /** The value of a string of decimal digits, read most significant first. */
  function DigitsValue(s: string): nat
    requires AllDigits(s)
  {
    if s == [] then 0 else 10 * DigitsValue(s[..|s| - 1]) + DigitValue(s[|s| - 1])
  }

  /** str(n) for a natural number: its shortest decimal representation. */
  function NatToString(n: nat): (s: string)
    ensures |s| >= 1 && AllDigits(s)
    ensures (s[0] == '0') <==> n == 0
  {
    if n < 10 then [DigitChar(n)] else NatToString(n / 10) + [DigitChar(n % 10)]
  }

  lemma {:induction false} NatToStringValue(n: nat)
    ensures DigitsValue(NatToString(n)) == n
  {
    if n >= 10 {
      var s := NatToString(n);
      assert s[..|s| - 1] == NatToString(n / 10);
      NatToStringValue(n / 10);
    }
  }

  /** str(i) for any integer: a minus sign in front of negative numbers. */
  function IntToString(i: int): (s: string)
    ensures |s| >= 1
    ensures (s[0] == '-') <==> i < 0
  {
    if i < 0 then "-" + NatToString(-i) else NatToString(i)
  }

  /**
   * int(s) on a token: an optional sign followed by at least one ASCII digit.
   * None stands for the ValueError Python raises on anything else.
   */
  function ParseInt(s: string): (r: Option<int>)
    ensures r.Some? ==> |s| >= 1
  {
    var signed := |s| >= 1 && (s[0] == '+' || s[0] == '-');
    var body := if signed then s[1..] else s;
    if |body| >= 1 && AllDigits(body) then
      var v: int := DigitsValue(body);
      Some(if signed && s[0] == '-' then -v else v)
    else
      None
  }

  /**
   * The tokens int() accepts: one or more digits after an optional '+' or '-', read as
   * a decimal number, negated after '-'.
   */
  lemma ParseIntAccepts(s: string)
    ensures ParseInt(s).Some? <==> |s| >= 1 && (forall i :: 1 <= i < |s| ==> IsDigit(s[i]))
                                   && (IsDigit(s[0]) || (|s| >= 2 && (s[0] == '+' || s[0] == '-')))
    ensures ParseInt(s).Some? && IsDigit(s[0]) ==> ParseInt(s).value == DigitsValue(s)
    ensures ParseInt(s).Some? && s[0] == '+' ==> ParseInt(s).value == DigitsValue(s[1..])
    ensures ParseInt(s).Some? && s[0] == '-' ==> ParseInt(s).value == -(DigitsValue(s[1..]) as int)
  {
    if |s| >= 1 && (s[0] == '+' || s[0] == '-') {
      assert forall i :: 1 <= i < |s| ==> s[i] == s[1..][i - 1];
    }
  }

  /** Parsing the decimal rendering of an integer gives the integer back. */
  lemma ParseIntOfIntToString(i: int)
    ensures ParseInt(IntToString(i)) == Some(i)
  {
    var s := IntToString(i);
    if i < 0 {
      var digits := NatToString(-i);
      NatToStringValue(-i);
      assert s == "-" + digits;
      assert s[1..] == digits;
    } else {
      NatToStringValue(i);
      assert s == NatToString(i);
      assert IsDigit(s[0]);
    }
  }

  function Zeros(k: nat): (s: string)
    ensures |s| == k && AllDigits(s)
    ensures forall j :: 0 <= j < k ==> s[j] == '0'
  {
    if k == 0 then [] else Zeros(k - 1) + "0"
  }

  /** f"{s:0>width}" for a digit string: left-padded with zeros to the width. */
  function ZeroPad(s: string, width: nat): (r: string)
    ensures |r| == if |s| >= width then |s| else width
    ensures r == Zeros(|r| - |s|) + s
  {
    if |s| >= width then s else Zeros(width - |s|) + s
  }

  lemma {:induction false} LeadingZerosValue(k: nat, s: string)
    requires AllDigits(s)
    ensures AllDigits(Zeros(k) + s) && DigitsValue(Zeros(k) + s) == DigitsValue(s)
  {
    if s == [] {
      ZerosValue(k);
      assert Zeros(k) + s == Zeros(k);
    } else {
      var t := Zeros(k) + s;
      assert t[..|t| - 1] == Zeros(k) + s[..|s| - 1];
      LeadingZerosValue(k, s[..|s| - 1]);
    }
  }

  lemma {:induction false} ZerosValue(k: nat)
    ensures DigitsValue(Zeros(k)) == 0
  {
    if k > 0 {
      assert Zeros(k)[..k - 1] == Zeros(k - 1);
      ZerosValue(k - 1);
    }
  }

  // ---------------------------------------------------------------------------
  // Whitespace splitting

  /** The characters below 128 for which Python's str.isspace holds. */
  predicate IsSpace(c: char) {
    c == ' ' || c == '\t' || c == '\n' || c == '\r' || c == '\U{B}' || c == '\U{C}'
    || ('\U{1C}' <= c <= '\U{1F}')
  }

  /** A token of str.split(): non-empty and free of whitespace. */
  predicate IsWord(w: string) { |w| >= 1 && forall i :: 0 <= i < |w| ==> !IsSpace(w[i]) }

  function SkipSpaces(s: string): (r: string)
    ensures |r| <= |s|
    ensures r == [] || !IsSpace(r[0])
  {
    if s != [] && IsSpace(s[0]) then SkipSpaces(s[1..]) else s
  }

  function WordLength(s: string): (n: nat)
    ensures n <= |s|
    ensures forall i :: 0 <= i < n ==> !IsSpace(s[i])
    ensures n == |s| || IsSpace(s[n])
  {
    if s == [] || IsSpace(s[0]) then 0 else 1 + WordLength(s[1..])
  }

  /** str.split() with no argument: the maximal runs of non-whitespace, in order. */
  function Tokens(s: string): (r: seq<string>)
    ensures forall k :: 0 <= k < |r| ==> IsWord(r[k])
    decreases |s|
  {
    var t := SkipSpaces(s);
    if t == [] then []
    else
      var n := WordLength(t);
      var w := t[..n];
      assert n > 0;
      assert IsWord(w);
      [w] + Tokens(t[n..])
  }

  /** Leading whitespace is dropped, and nothing else. */
  lemma {:induction false} SkipSpacesDropsSpaces(s: string)
    ensures SkipSpaces(s) == s[|s| - |SkipSpaces(s)|..]
    ensures forall i :: 0 <= i < |s| - |SkipSpaces(s)| ==> IsSpace(s[i])
  {
    if s != [] && IsSpace(s[0]) {
      SkipSpacesDropsSpaces(s[1..]);
    }
  }

  /** str.split() gives no token exactly for a blank string. */
  lemma TokensOfBlank(s: string)
    ensures Tokens(s) == [] <==> forall i :: 0 <= i < |s| ==> IsSpace(s[i])
  {
    var t := SkipSpaces(s);
    SkipSpacesDropsSpaces(s);
    if t != [] {
      assert s[|s| - |t|] == t[0];
    }
  }

  /** " ".join(ws). */
  function JoinSpaced(ws: seq<string>): string
  {
    if ws == [] then "" else if |ws| == 1 then ws[0] else ws[0] + " " + JoinSpaced(ws[1..])
  }

  lemma {:induction false} WordLengthOfWord(w: string, rest: string)
    requires forall i :: 0 <= i < |w| ==> !IsSpace(w[i])
    requires rest == [] || IsSpace(rest[0])
    ensures WordLength(w + rest) == |w|
  {
    if w != [] {
      assert (w + rest)[1..] == w[1..] + rest;
      WordLengthOfWord(w[1..], rest);
    }
  }

  lemma {:induction false} TokensSkipsSpace(s: string)
    ensures Tokens(" " + s) == Tokens(s)
  {
    assert (" " + s)[1..] == s;
    assert SkipSpaces(" " + s) == SkipSpaces(s);
  }

  /** Splitting words joined by single spaces gives the words back. */
  lemma {:induction false} TokensOfJoined(ws: seq<string>)
    requires forall k :: 0 <= k < |ws| ==> IsWord(ws[k])
    ensures Tokens(JoinSpaced(ws)) == ws
  {
    if ws == [] {
    } else if |ws| == 1 {
      var w := ws[0];
      assert SkipSpaces(w) == w;
      WordLengthOfWord(w, "");
      assert w + "" == w;
      assert w[|w|..] == [];
      assert w[..|w|] == w;
    } else {
      var w := ws[0];
      var rest := JoinSpaced(ws[1..]);
      var s := w + " " + rest;
      assert s == w + (" " + rest);
      assert SkipSpaces(s) == s;
      WordLengthOfWord(w, " " + rest);
      assert s[..|w|] == w;
      assert s[|w|..] == " " + rest;
      TokensSkipsSpace(rest);
      TokensOfJoined(ws[1..]);
    }
  }

  // ---------------------------------------------------------------------------
  // File names

  /** str.rfind(c): the last index holding c, or -1. */
  function LastIndexOf(s: string, c: char): (r: int)
    ensures -1 <= r < |s|
    ensures r >= 0 ==> s[r] == c
    ensures forall i :: r < i < |s| ==> s[i] != c
  {
    if s == [] then -1
    else if s[|s| - 1] == c then |s| - 1
    else LastIndexOf(s[..|s| - 1], c)
  }

  /** PurePath.stem: the name without its last suffix; a leading or trailing dot is no suffix. */
  function Stem(name: string): (r: string)
    ensures r <= name
  {
    var i := LastIndexOf(name, '.');
    if 0 < i < |name| - 1 then name[..i] else name
  }

  /** A stem that is not the whole name stops at the last '.', which has a character on each side. */
  lemma StemCutsLastSuffix(name: string)
    ensures var r := Stem(name);
      r != name ==> 0 < |r| < |name| - 1 && name[|r|] == '.' && forall i :: |r| < i < |name| ==> name[i] != '.'
  {
  }

  /** A non-empty base name with a one-part extension appended has that base as its stem. */
  lemma StemOfSuffixed(base: string, ext: string)
    requires |base| >= 1 && |ext| >= 1 && '.' !in ext
    ensures Stem(base + "." + ext) == base
  {
    var name := base + "." + ext;
    var i := LastIndexOf(name, '.');
    assert name[|base|] == '.';
    forall j | |base| < j < |name| ensures name[j] != '.' {
      assert name[j] == ext[j - |base| - 1];
    }
    assert i == |base|;
    assert name[..i] == base;
  }

  predicate StartsWith(s: string, prefix: string) { prefix <= s }

  predicate EndsWith(s: string, suffix: string)
  {
    |suffix| <= |s| && s[|s| - |suffix|..] == suffix
  }

  // ---------------------------------------------------------------------------
  // Code-point order of strings

  /** Python's a < b on str: the first differing code point decides, a proper prefix is smaller. */
  predicate LexLess(a: string, b: string)
  {
    if a == [] then b != []
    else if b == [] then false
    else if a[0] != b[0] then a[0] < b[0]
    else LexLess(a[1..], b[1..])
  }

  lemma {:induction false} LexLessIrreflexive(a: string)
    ensures !LexLess(a, a)
  {
    if a != [] { LexLessIrreflexive(a[1..]); }
  }

  lemma {:induction false} LexLessTransitive(a: string, b: string, c: string)
    requires LexLess(a, b) && LexLess(b, c)
    ensures LexLess(a, c)
  {
    if a != [] && b != [] && c != [] && a[0] == b[0] && b[0] == c[0] {
      LexLessTransitive(a[1..], b[1..], c[1..]);
    }
  }

  lemma {:induction false} LexLessTotal(a: string, b: string)
    ensures a == b || LexLess(a, b) || LexLess(b, a)
  {
    if a != [] && b != [] && a[0] == b[0] {
      LexLessTotal(a[1..], b[1..]);
      if a[1..] == b[1..] {
        assert a == [a[0]] + a[1..] && b == [b[0]] + b[1..];
      }
    }
  }

  // ---------------------------------------------------------------------------
  // ASCII case

  predicate IsAsciiLetter(c: char) { 'a' <= c <= 'z' || 'A' <= c <= 'Z' }

  function ToUpper(c: char): (u: char)
    ensures IsAsciiLetter(u) == IsAsciiLetter(c)
    ensures !IsAsciiLetter(c) ==> u == c
    ensures 'a' <= c <= 'z' ==> 'A' <= u <= 'Z'
  {
    if 'a' <= c <= 'z' then ((c as int) - 32) as char else c
  }

  function ToLower(c: char): (l: char)
    ensures IsAsciiLetter(l) == IsAsciiLetter(c)
    ensures !IsAsciiLetter(c) ==> l == c
    ensures 'A' <= c <= 'Z' ==> 'a' <= l <= 'z'
  {
    if 'A' <= c <= 'Z' then ((c as int) + 32) as char else c
  }

  /** str.upper() on ASCII text. */
  function Upper(s: string): (r: string)
    ensures |r| == |s| && forall i :: 0 <= i < |s| ==> r[i] == ToUpper(s[i])
  {
    if s == [] then [] else [ToUpper(s[0])] + Upper(s[1..])
  }
}
