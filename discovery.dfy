/**
 * How the dataset tools find image files: one glob per extension, each extension in
 * lower case and then in upper case, the results appended in that order.
 */
module Discovery {
  import opened Text

  /** The image extensions both tools look for, in their order. */
  const ImageExtensions: seq<string> := [".jpg", ".jpeg", ".png", ".bmp"]

  /** Each extension followed by its upper-case form. */
  function CasePatterns(exts: seq<string>): (ps: seq<string>)
    ensures |ps| == 2 * |exts|
  {
    if exts == [] then [] else [exts[0], Upper(exts[0])] + CasePatterns(exts[1..])
  }

  lemma {:induction false} CasePatternsAt(exts: seq<string>, i: nat)
    requires i < |exts|
    ensures CasePatterns(exts)[2 * i] == exts[i] && CasePatterns(exts)[2 * i + 1] == Upper(exts[i])
  {
    if i > 0 { CasePatternsAt(exts[1..], i - 1); }
  }

  /**
   * The names of a directory listing that a path glob "*" + suffix matches, in listing
   * order: those that end with the suffix (path globbing does not skip hidden names).
   */
  function Glob(listing: seq<string>, suffix: string): (r: seq<string>)
    ensures forall f :: f in r <==> f in listing && EndsWith(f, suffix)
    ensures |r| <= |listing|
  {
    if listing == [] then []
    else
      var rest := Glob(listing[1..], suffix);
      var f := listing[0];
      assert forall g :: g in listing <==> g == f || g in listing[1..];
      if EndsWith(f, suffix) then [f] + rest else rest
  }

  /** The concatenated results of one glob per pattern. */
  function Discovered(listing: seq<string>, patterns: seq<string>): (r: seq<string>)
    ensures forall f :: f in r <==> f in listing && exists p :: p in patterns && EndsWith(f, p)
  {
    if patterns == [] then []
    else
      var front := Discovered(listing, patterns[..|patterns| - 1]);
      var last := patterns[|patterns| - 1];
      assert forall p :: p in patterns <==> p == last || p in patterns[..|patterns| - 1];
      front + Glob(listing, last)
  }

  /**
   * The loop that builds the image list: for each extension, extend by its lower-case
   * glob, then by its upper-case glob.
   */
  method DiscoverImages(listing: seq<string>, exts: seq<string>) returns (files: seq<string>)
    ensures files == Discovered(listing, CasePatterns(exts))
  {
    files := [];
    var i := 0;
    while i < |exts|
      invariant 0 <= i <= |exts|
      invariant files == Discovered(listing, CasePatterns(exts[..i]))
    {
      var ext := exts[i];
      CasePatternsSnoc(exts[..i], ext);
      assert exts[..i + 1] == exts[..i] + [ext];
      var ps := CasePatterns(exts[..i]);
      DiscoveredSnoc(listing, ps, ext);
      assert ps + [ext, Upper(ext)] == (ps + [ext]) + [Upper(ext)];
      DiscoveredSnoc(listing, ps + [ext], Upper(ext));
      files := files + Glob(listing, ext);
      files := files + Glob(listing, Upper(ext));
      i := i + 1;
    }
    assert exts[..i] == exts;
  }

  lemma DiscoveredSnoc(listing: seq<string>, patterns: seq<string>, p: string)
    ensures Discovered(listing, patterns + [p]) == Discovered(listing, patterns) + Glob(listing, p)
  {
    assert (patterns + [p])[..|patterns|] == patterns;
  }

  lemma {:induction false} CasePatternsSnoc(exts: seq<string>, e: string)
    ensures CasePatterns(exts + [e]) == CasePatterns(exts) + [e, Upper(e)]
  {
    if exts == [] {
      assert [e][1..] == [];
    } else {
      assert (exts + [e])[1..] == exts[1..] + [e];
      CasePatternsSnoc(exts[1..], e);
    }
  }

  /** A file with a lower-case or an upper-case image extension is found. */
  lemma ImagesFound(listing: seq<string>, f: string, i: nat)
    requires f in listing && i < |ImageExtensions|
    requires EndsWith(f, ImageExtensions[i]) || EndsWith(f, Upper(ImageExtensions[i]))
    ensures f in Discovered(listing, CasePatterns(ImageExtensions))
  {
    CasePatternsAt(ImageExtensions, i);
    var ps := CasePatterns(ImageExtensions);
    assert ps[2 * i] in ps && ps[2 * i + 1] in ps;
  }
}
