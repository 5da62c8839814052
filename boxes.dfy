/** A detection box as the YOLO model reports it (box.cls, box.conf, box.xyxy). */
module Boxes {

  datatype Box = Box(classId: int, confidence: real, x1: real, y1: real, x2: real, y2: real)

  /** The corners are in order, as the model emits them. */
  predicate WellFormed(b: Box) { b.x1 <= b.x2 && b.y1 <= b.y2 }

  /** (x2 - x1) * (y2 - y1): the box's area in square pixels. */
  function Area(b: Box): (a: real)
    ensures WellFormed(b) ==> a >= 0.0
    ensures b.x1 == b.x2 || b.y1 == b.y2 ==> a == 0.0
  {
    (b.x2 - b.x1) * (b.y2 - b.y1)
  }

  function Confidences(bs: seq<Box>): (cs: seq<real>)
    ensures |cs| == |bs| && forall i :: 0 <= i < |bs| ==> cs[i] == bs[i].confidence
  {
    if bs == [] then [] else [bs[0].confidence] + Confidences(bs[1..])
  }
}
