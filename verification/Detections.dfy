/** Detections, the two orders they are sorted by, and the overlap of their boxes. */
module Detections {
  import opened Sorting
  import opened Text

  datatype Box = Box(x: real, y: real, w: real, h: real)

  /** The provenance and the model version of a detection take no part in any comparison. */
  datatype Detection = Detection(timestamp: real, box: Box, className: string, confidence: real)

  function Min(a: real, b: real): real { if a <= b then a else b }

  function Max(a: real, b: real): real { if a >= b then a else b }

  function Abs(a: real): real { if a >= 0.0 then a else -a }

  // ---------------------------------------------------------------------------------------------
  // Orders.
  // ---------------------------------------------------------------------------------------------

  predicate BoxLe(a: Box, b: Box) {
    if a.x != b.x then a.x < b.x
    else if a.y != b.y then a.y < b.y
    else if a.w != b.w then a.w < b.w
    else a.h <= b.h
  }

  /** The key (timestamp, class, -confidence, box). */
  predicate TimelineLe(a: Detection, b: Detection) {
    if a.timestamp != b.timestamp then a.timestamp < b.timestamp
    else if a.className != b.className then StringLe(a.className, b.className)
    else if a.confidence != b.confidence then a.confidence > b.confidence
    else BoxLe(a.box, b.box)
  }

  /** The key (-confidence, timestamp, class): different boxes can tie. */
  predicate ConfidenceLe(a: Detection, b: Detection) {
    if a.confidence != b.confidence then a.confidence > b.confidence
    else if a.timestamp != b.timestamp then a.timestamp < b.timestamp
    else StringLe(a.className, b.className)
  }

  /** Most confident first, ties broken by the timeline order. */
  function RankLe(): (Detection, Detection) -> bool {
    Lex(ConfidenceLe, TimelineLe)
  }

  lemma TimelineIsTotalOrder()
    ensures TotalOrder(TimelineLe)
  {
    StringLeIsTotalOrder();
    hide StringLe;
  }

  lemma ConfidenceIsTotalPreorder()
    ensures TotalPreorder(ConfidenceLe)
  {
    StringLeIsTotalOrder();
    hide StringLe;
  }

  lemma RankIsTotalOrder()
    ensures TotalOrder(RankLe())
  {
    TimelineIsTotalOrder();
    ConfidenceIsTotalPreorder();
    hide TimelineLe, ConfidenceLe;
  }

  /** Not further right, nor, at the same place, further down; then not wider, nor, at the same width, higher. */
  predicate BoxInOrder(a: Box, b: Box) {
    && a.x <= b.x
    && (a.x == b.x ==> a.y <= b.y)
    && (a.x == b.x && a.y == b.y ==> a.w <= b.w)
    && (a.x == b.x && a.y == b.y && a.w == b.w ==> a.h <= b.h)
  }

  /** Time does not fall; at one time, neither does the class; within a class confidence does not rise; then the box. */
  ghost predicate InTimelineOrder(a: Detection, b: Detection) {
    && a.timestamp <= b.timestamp
    && (a.timestamp == b.timestamp ==> CodePointLe(a.className, b.className))
    && (a.timestamp == b.timestamp && a.className == b.className ==> a.confidence >= b.confidence)
    && (a.timestamp == b.timestamp && a.className == b.className && a.confidence == b.confidence ==>
          BoxInOrder(a.box, b.box))
  }

  /** Confidence does not rise; at one confidence time does not fall, then the class, then the box. */
  ghost predicate RanksFirst(a: Detection, b: Detection) {
    && a.confidence >= b.confidence
    && (a.confidence == b.confidence ==> a.timestamp <= b.timestamp)
    && (a.confidence == b.confidence && a.timestamp == b.timestamp ==> CodePointLe(a.className, b.className))
    && (a.confidence == b.confidence && a.timestamp == b.timestamp && a.className == b.className ==>
          BoxInOrder(a.box, b.box))
  }

  lemma TimelineMeans(a: Detection, b: Detection)
    ensures TimelineLe(a, b) <==> InTimelineOrder(a, b)
  {
    StringLeMeans(a.className, b.className);
    SameIsLe(a.className);
    BoxMeans(a.box, b.box);
    hide StringLe, CodePointLe, BoxLe, BoxInOrder;
  }

  lemma BoxMeans(a: Box, b: Box)
    ensures BoxLe(a, b) <==> BoxInOrder(a, b)
  {
  }

  lemma RankMeans(a: Detection, b: Detection)
    ensures RankLe()(a, b) <==> RanksFirst(a, b)
  {
    StringLeMeans(a.className, b.className);
    StringLeMeans(b.className, a.className);
    StringLeTotal(a.className, b.className);
    if StringLe(a.className, b.className) && StringLe(b.className, a.className) {
      StringLeAntisymmetric(a.className, b.className);
    }
    SameIsLe(a.className);
    BoxMeans(a.box, b.box);
    hide StringLe, CodePointLe, BoxLe, BoxInOrder;
    assert RankLe()(a, b) <==> ConfidenceLe(a, b) && (ConfidenceLe(b, a) ==> TimelineLe(a, b));
  }

  lemma SameIsLe(a: string)
    ensures StringLe(a, a)
  {
    StringLeTotal(a, a);
  }

  // ---------------------------------------------------------------------------------------------
  // Overlap.
  // ---------------------------------------------------------------------------------------------

  function InterWidth(a: Box, b: Box): real {
    Max(0.0, Min(a.x + a.w, b.x + b.w) - Max(a.x, b.x))
  }

  function InterHeight(a: Box, b: Box): real {
    Max(0.0, Min(a.y + a.h, b.y + b.h) - Max(a.y, b.y))
  }

  function Area(a: Box): real { a.w * a.h }

  /** An intersection over the union it leaves of two areas. */
  function Ratio(inter: real, areas: real): real {
    if inter <= 0.0 then 0.0
    else if areas - inter > 0.0 then inter / (areas - inter)
    else 0.0
  }

  function Inter(a: Box, b: Box): real { InterWidth(a, b) * InterHeight(a, b) }

  /** Intersection over union of two boxes. */
  function Iou(a: Box, b: Box): real {
    Ratio(Inter(a, b), Area(a) + Area(b))
  }

  /** A box that encloses some area. */
  predicate Solid(a: Box) { a.w > 0.0 && a.h > 0.0 }

  /** The boxes share an interior point. */
  ghost predicate Overlap(a: Box, b: Box) {
    exists px: real, py: real :: Inside(px, py, a) && Inside(px, py, b)
  }

  predicate Inside(px: real, py: real, a: Box) {
    a.x < px < a.x + a.w && a.y < py < a.y + a.h
  }

  lemma InterSymmetric(a: Box, b: Box)
    ensures Inter(a, b) == Inter(b, a)
  {
    assert InterWidth(a, b) == InterWidth(b, a);
    assert InterHeight(a, b) == InterHeight(b, a);
    hide InterWidth, InterHeight;
  }

  lemma IouSymmetric(a: Box, b: Box)
    ensures Iou(a, b) == Iou(b, a)
  {
    InterSymmetric(a, b);
    hide Ratio, Inter, Area;
  }

  lemma MulLe(a: real, b: real, c: real, d: real)
    requires 0.0 <= a <= b && 0.0 <= c <= d
    ensures 0.0 <= a * c <= b * d
  {
    assert a * c <= b * c <= b * d;
  }

  lemma MulPositive(a: real, b: real)
    requires a >= 0.0 && b >= 0.0
    ensures a * b >= 0.0
    ensures a * b > 0.0 <==> a > 0.0 && b > 0.0
  {
  }

  lemma InterSign(a: Box, b: Box)
    ensures Inter(a, b) >= 0.0
    ensures Inter(a, b) > 0.0 <==> InterWidth(a, b) > 0.0 && InterHeight(a, b) > 0.0
  {
    assert InterWidth(a, b) >= 0.0 && InterHeight(a, b) >= 0.0;
    hide InterWidth, InterHeight;
    MulPositive(InterWidth(a, b), InterHeight(a, b));
  }

  lemma InterSides(a: Box, b: Box)
    requires InterWidth(a, b) > 0.0 && InterHeight(a, b) > 0.0
    ensures InterWidth(a, b) <= a.w && InterWidth(a, b) <= b.w
    ensures InterHeight(a, b) <= a.h && InterHeight(a, b) <= b.h
  {
  }

  /** Where there is an intersection, it lies in both boxes. */
  lemma InterWithin(a: Box, b: Box)
    requires Inter(a, b) > 0.0
    ensures Solid(a) && Solid(b)
    ensures Inter(a, b) <= Area(a) && Inter(a, b) <= Area(b)
  {
    InterSign(a, b);
    InterSides(a, b);
    hide InterWidth, InterHeight;
    MulLe(InterWidth(a, b), a.w, InterHeight(a, b), a.h);
    MulLe(InterWidth(a, b), b.w, InterHeight(a, b), b.h);
  }

  lemma RatioBounds(inter: real, one: real, two: real)
    requires 0.0 < inter <= one && inter <= two
    ensures 0.0 < Ratio(inter, one + two) <= 1.0
    ensures Ratio(inter, one + two) == 1.0 <==> inter == one && inter == two
  {
    var union := one + two - inter;
    assert (inter / union) * union == inter;
  }

  lemma Expand(w: real, h: real, side: real, rest: real)
    ensures (w + side) * (h + rest) == w * h + w * rest + side * (h + rest)
  {
  }

  lemma AreaOfPart(w: real, h: real, bw: real, bh: real, part: real, whole: real)
    requires 0.0 < w <= bw && 0.0 < h <= bh && part == w * h && whole == bw * bh
    ensures part == whole <==> w == bw && h == bh
  {
    var rest, side := bh - h, bw - w;
    var p, q := w * rest, side * bh;
    MulPositive(w, rest);
    MulPositive(side, bh);
    Expand(w, h, side, rest);
    assert w + side == bw && h + rest == bh;
    assert bw * bh == w * h + p + q;
    assert p > 0.0 <==> rest > 0.0;
    assert q > 0.0 <==> side > 0.0;
  }

  /** The sides of the boxes' common region, from the larger of the near edges to the smaller of the far ones. */
  predicate CommonSides(a: Box, b: Box, left: real, top: real, right: real, bottom: real) {
    && left == (if a.x > b.x then a.x else b.x) && top == (if a.y > b.y then a.y else b.y)
    && right == (if a.x + a.w < b.x + b.w then a.x + a.w else b.x + b.w)
    && bottom == (if a.y + a.h < b.y + b.h then a.y + a.h else b.y + b.h)
  }

  /** The overlap is the common area over the area that the two boxes enclose together, and 0 without a common area. */
  lemma IouMeans(a: Box, b: Box, left: real, top: real, right: real, bottom: real, common: real, enclosed: real)
    requires CommonSides(a, b, left, top, right, bottom)
    requires common == (right - left) * (bottom - top) && enclosed == a.w * a.h + b.w * b.h - common
    ensures left < right && top < bottom ==> enclosed > 0.0 && Iou(a, b) * enclosed == common
    ensures !(left < right && top < bottom) ==> Iou(a, b) == 0.0
  {
    CommonArea(a, b, left, top, right, bottom);
    AreasAre(a, b);
    hide *;
    if left < right && top < bottom { IouOfCommon(a, b, common, enclosed); } else { IouOfApart(a, b); }
  }

  lemma AreasAre(a: Box, b: Box)
    ensures Area(a) == a.w * a.h && Area(b) == b.w * b.h
  {
  }

  lemma IouOfCommon(a: Box, b: Box, common: real, enclosed: real)
    requires Inter(a, b) == common > 0.0 && enclosed == Area(a) + Area(b) - common
    ensures enclosed > 0.0 && Iou(a, b) * enclosed == common
  {
    InterWithin(a, b);
    hide Inter, Area, Ratio;
    RatioMeans(common, Area(a), Area(b), enclosed);
  }

  lemma IouOfApart(a: Box, b: Box)
    requires Inter(a, b) == 0.0
    ensures Iou(a, b) == 0.0
  {
    hide Inter, Area;
  }

  lemma CommonArea(a: Box, b: Box, left: real, top: real, right: real, bottom: real)
    requires CommonSides(a, b, left, top, right, bottom)
    ensures left < right && top < bottom ==> Inter(a, b) == (right - left) * (bottom - top) && Inter(a, b) > 0.0
    ensures !(left < right && top < bottom) ==> Inter(a, b) == 0.0
  {
    CommonSpans(a, b, left, top, right, bottom);
    InterSign(a, b);
    hide InterWidth, InterHeight;
  }

  lemma CommonSpans(a: Box, b: Box, left: real, top: real, right: real, bottom: real)
    requires CommonSides(a, b, left, top, right, bottom)
    ensures InterWidth(a, b) == (if left < right then right - left else 0.0)
    ensures InterHeight(a, b) == (if top < bottom then bottom - top else 0.0)
  {
  }

  lemma RatioMeans(inter: real, one: real, two: real, enclosed: real)
    requires 0.0 < inter <= one && inter <= two && enclosed == one + two - inter
    ensures enclosed > 0.0 && Ratio(inter, one + two) * enclosed == inter
  {
  }

  lemma IouBounds(a: Box, b: Box)
    ensures 0.0 <= Iou(a, b) <= 1.0
    ensures Iou(a, b) > 0.0 <==> InterWidth(a, b) > 0.0 && InterHeight(a, b) > 0.0
  {
    InterSign(a, b);
    if Inter(a, b) > 0.0 {
      InterWithin(a, b);
      hide InterWidth, InterHeight, Inter, Area, Ratio;
      RatioBounds(Inter(a, b), Area(a), Area(b));
    } else {
      hide InterWidth, InterHeight, Inter, Area;
    }
  }

  /** The overlap is a number in [0, 1], and positive exactly when the boxes share an interior point. */
  lemma IouPositive(a: Box, b: Box)
    ensures 0.0 <= Iou(a, b) <= 1.0
    ensures Iou(a, b) > 0.0 <==> Overlap(a, b)
  {
    IouBounds(a, b);
    hide Iou;
    if InterWidth(a, b) > 0.0 && InterHeight(a, b) > 0.0 {
      SharedPoint(a, b);
    } else if px: real, py: real :| Inside(px, py, a) && Inside(px, py, b) {
      SharedPointSeen(a, b, px, py);
    }
  }

  lemma SharedPoint(a: Box, b: Box)
    requires InterWidth(a, b) > 0.0 && InterHeight(a, b) > 0.0
    ensures Overlap(a, b)
  {
    var px := (Max(a.x, b.x) + Min(a.x + a.w, b.x + b.w)) / 2.0;
    var py := (Max(a.y, b.y) + Min(a.y + a.h, b.y + b.h)) / 2.0;
    assert Inside(px, py, a) && Inside(px, py, b);
  }

  lemma SharedPointSeen(a: Box, b: Box, px: real, py: real)
    requires Inside(px, py, a) && Inside(px, py, b)
    ensures InterWidth(a, b) > 0.0 && InterHeight(a, b) > 0.0
  {
  }

  /** An intersection as large as a box is all of it. */
  lemma InterIsAll(a: Box, b: Box)
    requires Inter(a, b) > 0.0
    ensures Inter(a, b) == Area(a) <==> InterWidth(a, b) == a.w && InterHeight(a, b) == a.h
    ensures Inter(a, b) == Area(b) <==> InterWidth(a, b) == b.w && InterHeight(a, b) == b.h
  {
    var w, h := InterWidth(a, b), InterHeight(a, b);
    InterSign(a, b);
    InterSides(a, b);
    assert Inter(a, b) == w * h;
    AreasAre(a, b);
    hide *;
    AreaOfPart(w, h, a.w, a.h, Inter(a, b), Area(a));
    AreaOfPart(w, h, b.w, b.h, Inter(a, b), Area(b));
  }

  lemma SidesOfSame(a: Box, b: Box)
    requires InterWidth(a, b) > 0.0 && InterHeight(a, b) > 0.0
    ensures InterWidth(a, b) == a.w == b.w && InterHeight(a, b) == a.h == b.h <==> a == b
  {
  }

  /** Full overlap means the same box, and a box overlaps itself fully when it has an area. */
  lemma IouFull(a: Box, b: Box)
    ensures Iou(a, b) == 1.0 <==> a == b && Solid(a)
  {
    InterSign(a, b);
    if Inter(a, b) > 0.0 {
      InterWithin(a, b);
      InterIsAll(a, b);
      SidesOfSame(a, b);
      hide InterWidth, InterHeight, Inter, Area, Ratio;
      RatioBounds(Inter(a, b), Area(a), Area(b));
    } else {
      assert a == b && Solid(a) ==> InterWidth(a, b) > 0.0 && InterHeight(a, b) > 0.0;
      hide InterWidth, InterHeight, Inter, Area;
    }
  }
}
