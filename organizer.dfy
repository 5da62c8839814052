/**
 * Organizing a folder of good (defect-free) board images for training: the images are
 * found extension by extension, the first 80 percent go to the train split and the rest
 * to the valid split, and each image gets an empty label file of the same stem.
 */
module Organizer {
  import opened Wrappers
  import opened Text
  import opened YoloLabels
  import opened Discovery
  import PerImage

  /** int(n * 0.8), the size of the train split. */
  function TrainCount(n: nat): (t: nat)
    ensures t <= n
    ensures 5 * t <= 4 * n < 5 * (t + 1)
  {
    n * 4 / 5
  }

  /** The split of the image at position i when the first trainCount images train. */
  function SplitAt(i: nat, trainCount: nat): Split {
    if i < trainCount then TrainSplit else ValidSplit
  }

  /** The name of the empty label file that goes with an image. */
  function LabelName(image: string): (labelFile: string)
    ensures EndsWith(labelFile, ".txt")
  {
    Stem(image) + ".txt"
  }

  /** An image and its label file have the same stem, so the label is found by the image's stem. */
  lemma LabelNameKeepsStem(image: string)
    requires |Stem(image)| >= 1
    ensures Stem(LabelName(image)) == Stem(image)
  {
    var base := Stem(image);
    assert LabelName(image) == base + "." + "txt";
    StemOfSuffixed(base, "txt");
  }

  /** One image copied into a split, and the label file created beside it. */
  datatype Placement = Placement(image: string, split: Split, labelName: string)

  /** Where each found image goes, in discovery order. */
  function Plan(files: seq<string>): (ps: seq<Placement>)
    ensures |ps| == |files|
    ensures forall i :: 0 <= i < |files| ==>
      ps[i] == Placement(files[i], SplitAt(i, TrainCount(|files|)), LabelName(files[i]))
  {
    seq(|files|, i requires 0 <= i < |files| =>
      Placement(files[i], SplitAt(i, TrainCount(|files|)), LabelName(files[i])))
  }

  /** The number of placements into a split. */
  function CountIn(ps: seq<Placement>, split: Split): (n: nat)
    ensures n <= |ps|
  {
    if ps == [] then 0
    else CountIn(ps[..|ps| - 1], split) + (if ps[|ps| - 1].split == split then 1 else 0)
  }

  /** The train split is a prefix of the discovery order and the valid split the rest. */
  lemma PlanSplits(files: seq<string>, i: nat)
    requires i < |files|
    ensures Plan(files)[i].split == TrainSplit <==> i < TrainCount(|files|)
    ensures Plan(files)[i].split == ValidSplit <==> i >= TrainCount(|files|)
    ensures Plan(files)[i].image == files[i]
  {
  }

  lemma {:induction false} PrefixCounts(ps: seq<Placement>, t: nat)
    requires forall i :: 0 <= i < |ps| ==> ps[i].split == SplitAt(i, t)
    ensures CountIn(ps, TrainSplit) == if |ps| <= t then |ps| else t
    ensures CountIn(ps, ValidSplit) == if |ps| <= t then 0 else |ps| - t
  {
    if ps != [] {
      var front := ps[..|ps| - 1];
      assert forall i :: 0 <= i < |front| ==> front[i] == ps[i];
      PrefixCounts(front, t);
    }
  }

  /**
   * The train split receives exactly TrainCount(n) images and the valid split the other
   * n - TrainCount(n), so the two reported counts add up to the number found.
   */
  lemma PlanCounts(files: seq<string>)
    ensures CountIn(Plan(files), TrainSplit) == TrainCount(|files|)
    ensures CountIn(Plan(files), ValidSplit) == |files| - TrainCount(|files|)
    ensures CountIn(Plan(files), TrainSplit) + CountIn(Plan(files), ValidSplit) == |files|
  {
    PrefixCounts(Plan(files), TrainCount(|files|));
  }

  /**
   * The label created for an image is the one the per-image analysis looks up for it, and
   * since it is empty that analysis reads the image as unannotated.
   */
  lemma PlacedLabelsReadUnannotated(p: Placement, labels: map<string, seq<string>>)
    requires p.labelName == LabelName(p.image)
    requires labels == map[p.labelName := []]
    ensures PerImage.LabelOf(labels, p.image) == Some([])
    ensures !PerImage.Annotated(PerImage.LabelOf(labels, p.image))
  {
  }

  /** The organizing loop: find the images, then place them one by one. */
  method OrganizeGoodPcbs(listing: seq<string>)
    returns (placements: seq<Placement>, trainCount: nat, validCount: nat)
    ensures placements == Plan(Discovered(listing, CasePatterns(ImageExtensions)))
    ensures trainCount == CountIn(placements, TrainSplit)
    ensures validCount == CountIn(placements, ValidSplit)
    ensures trainCount + validCount == |placements|
  {
    var imageFiles := DiscoverImages(listing, ImageExtensions);
    placements := PlaceImages(imageFiles);
    trainCount := TrainCount(|imageFiles|);
    validCount := |imageFiles| - trainCount;
    PlanCounts(imageFiles);
  }

  /** The copying loop: the first TrainCount(n) images to train, the rest to valid. */
  method PlaceImages(imageFiles: seq<string>) returns (placements: seq<Placement>)
    ensures placements == Plan(imageFiles)
  {
    var trainCount := TrainCount(|imageFiles|);
    placements := [];
    var i := 0;
    while i < |imageFiles|
      invariant 0 <= i <= |imageFiles|
      invariant |placements| == i
      invariant forall q :: 0 <= q < i ==>
        placements[q] == Placement(imageFiles[q], SplitAt(q, trainCount), LabelName(imageFiles[q]))
    {
      var split := if i < trainCount then TrainSplit else ValidSplit;
      placements := placements + [Placement(imageFiles[i], split, Stem(imageFiles[i]) + ".txt")];
      i := i + 1;
    }
  }
}
