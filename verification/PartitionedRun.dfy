/** The promise of the orchestrator: a partitioned run reports what the unpartitioned run reports. */
module PartitionedRun {
  import opened Dedupe
  import opened Detections
  import opened Greedy
  import opened Options
  import opened Orchestrator
  import opened Partition
  import opened Rounding
  import opened Sets

  const WHOLE := Split(1, 1, 1, 0.0)

  /** Some window of the split contains the detection's frame. */
  ghost predicate Timely(video: Video, input: RunInput, split: Split, d: Detection) {
    exists w :: w in Windows(video, input, split) && InWindow(d.timestamp, w)
  }

  /** Some tile of the split contains the detection's centre. */
  ghost predicate Placed(video: Video, input: RunInput, split: Split, d: Detection)
    requires Sound(split)
  {
    exists t :: t in Tiles(video, input, split) && OnInputTile(d.box, t)
  }

  /** What the children of a split report between them. */
  lemma ChildrenReport(video: Video, input: RunInput, split: Split, d: Detection)
    requires Sound(split)
    ensures InSomeGroup(d, Children(video, Partitions(video, input, split)))
            <==> d in Detect(video) && Timely(video, input, split, d) && Placed(video, input, split, d)
  {
    hide Windows, Tiles, Product, ChildDetections, Detect, InWindow, OnInputTile;
    var parts := Partitions(video, input, split);
    var groups := Children(video, parts);
    if g :| 0 <= g < |groups| && d in groups[g] {
      ChildReports(video, parts[g], d);
      ProductMembers(Windows(video, input, split), Tiles(video, input, split), parts[g]);
    }
    if d in Detect(video) && Timely(video, input, split, d) && Placed(video, input, split, d) {
      var w :| w in Windows(video, input, split) && InWindow(d.timestamp, w);
      var t :| t in Tiles(video, input, split) && OnInputTile(d.box, t);
      ProductMembers(Windows(video, input, split), Tiles(video, input, split), RunInput(w, t));
      var g :| 0 <= g < |parts| && parts[g] == RunInput(w, t);
      ChildReports(video, parts[g], d);
      assert d in groups[g];
    }
  }

  /** Which frames the windows reach: those between the rounded ends of the video. */
  lemma TimelyMeans(video: Video, input: RunInput, split: Split, d: Detection)
    requires Sound(split)
    ensures Timely(video, input, split, d)
            <==> if Timed(split) then RoundTo(StartOf(video), MICRO) <= d.timestamp <= RoundTo(EndOf(video), MICRO)
                 else InWindow(d.timestamp, input.window)
  {
    var windows := Windows(video, input, split);
    if Timed(split) {
      hide StartOf, EndOf, RoundTo, WindowAt, Within;
      var start, end := StartOf(video), EndOf(video);
      WindowsCover(start, end, split.windows, split.overlap, d.timestamp);
      if w :| w in windows && InWindow(d.timestamp, w) {
        var i :| 0 <= i < |windows| && windows[i] == w;
        assert Within(d.timestamp, WindowAt(start, end, split.windows, split.overlap, i));
      }
      if i :| 0 <= i < split.windows && Within(d.timestamp, WindowAt(start, end, split.windows, split.overlap, i)) {
        assert windows[i] in windows && InWindow(d.timestamp, windows[i]);
      }
    } else {
      assert windows[0] in windows;
    }
  }

  function CenterX(b: Box): real { b.x + b.w / 2.0 }

  function CenterY(b: Box): real { b.y + b.h / 2.0 }

  lemma OnTileMeans(video: Video, split: Split, b: Box, col: nat, row: nat)
    requires Tiled(split) && Sound(split)
    ensures CenterInTile(b, TileAt(WidthOf(video), HeightOf(video), split.nx, split.ny, split.overlap, col, row))
            <==> OnTile(CenterX(b), WidthOf(video), split.nx, split.overlap, col)
                 && OnTile(CenterY(b), HeightOf(video), split.ny, split.overlap, row)
  {
    hide WidthOf, HeightOf, Offset, Length;
  }

  lemma TilesAre(video: Video, input: RunInput, split: Split, t: Option<Tile>)
    requires Tiled(split) && Sound(split)
    ensures t in Tiles(video, input, split)
            <==> t.Some? && (exists col: nat, row: nat ::
                               (col < split.nx && row < split.ny && t.value == TileAt(
                                 WidthOf(video), HeightOf(video), split.nx, split.ny, split.overlap, col, row)))
  {
    var grid := TileGrid(WidthOf(video), HeightOf(video), split.nx, split.ny, split.overlap, split.ny);
    TileGridMeans(WidthOf(video), HeightOf(video), split.nx, split.ny, split.overlap, split.ny);
    hide WidthOf, HeightOf, TileAt, TileGrid;
    var tiles := Tiles(video, input, split);
    if t.Some? && t.value in grid {
      var i :| 0 <= i < |grid| && grid[i] == t.value;
      assert tiles[i] == t;
    }
  }

  /** Which centres the tiles reach: each coordinate lies on some tile of its axis. */
  lemma PlacedMeans(video: Video, input: RunInput, split: Split, d: Detection)
    requires Sound(split)
    ensures Placed(video, input, split, d)
            <==> if Tiled(split) then InSomeTile(CenterX(d.box), WidthOf(video), split.nx, split.overlap)
                                      && InSomeTile(CenterY(d.box), HeightOf(video), split.ny, split.overlap)
                 else OnInputTile(d.box, input.tile)
  {
    var tiles := Tiles(video, input, split);
    if Tiled(split) {
      hide Tiles, WidthOf, HeightOf, TileAt, CenterInTile, OnTile, CenterX, CenterY;
      if t :| t in tiles && OnInputTile(d.box, t) {
        TilesAre(video, input, split, t);
        var col: nat, row: nat :| col < split.nx && row < split.ny
          && t.value == TileAt(WidthOf(video), HeightOf(video), split.nx, split.ny, split.overlap, col, row);
        OnTileMeans(video, split, d.box, col, row);
      }
      if col: nat, row: nat :| (col < split.nx && OnTile(CenterX(d.box), WidthOf(video), split.nx, split.overlap, col))
                               && (row < split.ny && OnTile(CenterY(d.box), HeightOf(video), split.ny, split.overlap,
                                                            row)) {
        var t := Some(TileAt(WidthOf(video), HeightOf(video), split.nx, split.ny, split.overlap, col, row));
        OnTileMeans(video, split, d.box, col, row);
        TilesAre(video, input, split, t);
        assert t in tiles && OnInputTile(d.box, t);
      }
    } else {
      assert tiles[0] in tiles;
    }
  }

  /** A split that replaces no window and no tile the request itself carries. */
  predicate Independent(input: RunInput, split: Split) {
    && (Timed(split) ==> input.window.None?)
    && (Tiled(split) ==> input.tile.None?)
  }

  /** The unpartitioned run de-duplicates the one child's report. */
  lemma WholeRun(video: Video, input: RunInput, iouThreshold: real)
    ensures RunDetections(video, input, WHOLE, iouThreshold) == Kept(ChildDetections(video, input), iouThreshold, true)
  {
    var parts := Partitions(video, input, WHOLE);
    assert Product([], [input.tile]) == [];
    assert parts == [RunInput(input.window, input.tile)] == [input];
    var groups := Children(video, parts);
    assert groups == [ChildDetections(video, input)];
    assert Concat([]) == [];
    assert Concat(groups) == ChildDetections(video, input);
  }

  // ---------------------------------------------------------------------------------------------
  // Exactly when the cut run reports what the uncut run reports.
  // ---------------------------------------------------------------------------------------------

  /** Some window of the split contains the moment. */
  predicate TimeReached(video: Video, input: RunInput, split: Split, t: real) {
    if Timed(split) then RoundTo(StartOf(video), MICRO) <= t <= RoundTo(EndOf(video), MICRO)
    else InWindow(t, input.window)
  }

  predicate PointOnTile(x: real, y: real, tile: Option<Tile>) {
    tile.Some? ==>
      && tile.value.x <= x <= tile.value.x + tile.value.w
      && tile.value.y <= y <= tile.value.y + tile.value.h
  }

  ghost predicate OnGrid(video: Video, split: Split, x: real, y: real)
    requires Sound(split) && Tiled(split)
  {
    InSomeTile(x, WidthOf(video), split.nx, split.overlap) && InSomeTile(y, HeightOf(video), split.ny, split.overlap)
  }

  /** Some tile of the split contains the point. */
  ghost predicate PointReached(video: Video, input: RunInput, split: Split, x: real, y: real)
    requires Sound(split)
  {
    if Tiled(split) then OnGrid(video, split, x, y) else PointOnTile(x, y, input.tile)
  }

  /** The cut run sees what is centred there and then. */
  ghost predicate CutSees(video: Video, input: RunInput, split: Split, t: real, x: real, y: real)
    requires Sound(split)
  {
    TimeReached(video, input, split, t) && PointReached(video, input, split, x, y)
  }

  /** The request asks for what is centred there and then. */
  predicate Requested(input: RunInput, t: real, x: real, y: real) {
    InWindow(t, input.window) && PointOnTile(x, y, input.tile)
  }

  ghost predicate CutHas(video: Video, input: RunInput, split: Split, d: Detection)
    requires Sound(split)
  {
    CutSees(video, input, split, d.timestamp, CenterX(d.box), CenterY(d.box))
  }

  predicate RequestHas(input: RunInput, d: Detection) {
    Requested(input, d.timestamp, CenterX(d.box), CenterY(d.box))
  }

  lemma OnInputTileMeans(b: Box, tile: Option<Tile>)
    ensures OnInputTile(b, tile) <==> PointOnTile(CenterX(b), CenterY(b), tile)
  {
  }

  /** The detections the children of a split hold between them. */
  function CutList(video: Video, input: RunInput, split: Split): seq<Detection>
    requires Sound(split)
  {
    Concat(Children(video, Partitions(video, input, split)))
  }

  lemma CutListMeans(video: Video, input: RunInput, split: Split, d: Detection)
    requires Sound(split)
    ensures d in CutList(video, input, split) <==> d in Detect(video) && CutHas(video, input, split, d)
  {
    hide Children, Partitions, Detect, InWindow, OnInputTile, InSomeTile, Timely, Placed, StartOf, EndOf, RoundTo;
    ConcatMembers(Children(video, Partitions(video, input, split)), d);
    ChildrenReport(video, input, split, d);
    TimelyMeans(video, input, split, d);
    PlacedMeans(video, input, split, d);
    OnInputTileMeans(d.box, input.tile);
    hide CenterX, CenterY, PointOnTile;
  }

  lemma ChildMeans(video: Video, input: RunInput, d: Detection)
    ensures d in ChildDetections(video, input) <==> d in Detect(video) && RequestHas(input, d)
  {
    ChildReports(video, input, d);
    OnInputTileMeans(d.box, input.tile);
    hide ChildDetections, Detect, CenterX, CenterY, PointOnTile, OnInputTile;
  }

  lemma BothProper(video: Video, input: RunInput, split: Split, iouThreshold: real)
    requires Sound(split) && Proper(Detect(video), iouThreshold)
    ensures Proper(CutList(video, input, split), iouThreshold) && Proper(ChildDetections(video, input), iouThreshold)
  {
    hide CutList, ChildDetections, Detect, CutHas, RequestHas;
    forall d | d in CutList(video, input, split) ensures d in Detect(video) { CutListMeans(video, input, split, d); }
    forall d | d in ChildDetections(video, input) ensures d in Detect(video) { ChildMeans(video, input, d); }
  }

  lemma CutRun(video: Video, input: RunInput, split: Split, iouThreshold: real)
    requires Sound(split)
    ensures RunDetections(video, input, split, iouThreshold) == Kept(CutList(video, input, split), iouThreshold, true)
  {
  }

  /**
   * For every request, with or without a window and a tile of its own: the cut run reports what the uncut run
   * reports if and only if the cut run sees all that the uncut run reports, and all that the cut run reports
   * was requested.
   */
  lemma PartitioningLosesNothingExactly(video: Video, input: RunInput, split: Split, iouThreshold: real)
    requires Sound(split) && Proper(Detect(video), iouThreshold)
    ensures RunDetections(video, input, split, iouThreshold) == RunDetections(video, input, WHOLE, iouThreshold)
            <==> (forall d :: d in RunDetections(video, input, WHOLE, iouThreshold) ==> CutHas(video, input, split, d))
                 && (forall d :: d in RunDetections(video, input, split, iouThreshold) ==> RequestHas(input, d))
  {
    var cut, whole := CutList(video, input, split), ChildDetections(video, input);
    BothProper(video, input, split, iouThreshold);
    WholeRun(video, input, iouThreshold);
    CutRun(video, input, split, iouThreshold);
    hide *;
    SameKeptExactly(cut, whole, iouThreshold);
    forall d | d in Kept(whole, iouThreshold, true) ensures d in cut <==> CutHas(video, input, split, d) {
      KeptOfProper(whole, iouThreshold, d);
      ChildMeans(video, input, d);
      CutListMeans(video, input, split, d);
    }
    forall d | d in Kept(cut, iouThreshold, true) ensures d in whole <==> RequestHas(input, d) {
      KeptOfProper(cut, iouThreshold, d);
      ChildMeans(video, input, d);
      CutListMeans(video, input, split, d);
    }
  }

  /** Rounding the ends of the video does not move them inwards, so that no frame falls out. */
  predicate SpanKept(video: Video) {
    RoundTo(StartOf(video), MICRO) <= StartOf(video) && EndOf(video) <= RoundTo(EndOf(video), MICRO)
  }

  /** Every detection is centred on the frame. */
  ghost predicate Centred(video: Video) {
    forall d :: d in Detect(video) ==> OnFrame(video, CenterX(d.box), CenterY(d.box))
  }

  predicate OnFrame(video: Video, x: real, y: real) {
    0.0 <= x <= WidthOf(video) as real && 0.0 <= y <= HeightOf(video) as real
  }

  /** The grid covers the frame in spite of rounding. */
  predicate GridCovers(video: Video, split: Split)
    requires Sound(split) && Tiled(split)
  {
    && WidthOf(video) >= 1 && HeightOf(video) >= 1
    && Gapless(WidthOf(video), split.nx, split.overlap) && Gapless(HeightOf(video), split.ny, split.overlap)
  }

  /**
   * The promise: for boxes with an area and a threshold of at most 1, splitting a run into windows
   * and tiles, with any overlap, does not change what it reports.
   */
  lemma PartitionedEqualsWhole(video: Video, input: RunInput, split: Split, iouThreshold: real)
    requires Sound(split) && Independent(input, split) && Proper(Detect(video), iouThreshold)
    requires Timed(split) ==> SpanKept(video)
    requires Tiled(split) ==> GridCovers(video, split) && Centred(video)
    ensures RunDetections(video, input, split, iouThreshold) == RunDetections(video, input, WHOLE, iouThreshold)
  {
    BothProper(video, input, split, iouThreshold);
    WholeRun(video, input, iouThreshold);
    CutRun(video, input, split, iouThreshold);
    forall d | d in RunDetections(video, input, WHOLE, iouThreshold) ensures CutHas(video, input, split, d) {
      KeptOfProper(ChildDetections(video, input), iouThreshold, d);
      ChildMeans(video, input, d);
      DetectionCovered(video, input, split, d);
    }
    forall d | d in RunDetections(video, input, split, iouThreshold) ensures RequestHas(input, d) {
      KeptOfProper(CutList(video, input, split), iouThreshold, d);
      CutListMeans(video, input, split, d);
      CutWithinRequest(video, input, split, d);
    }
    hide *;
    PartitioningLosesNothingExactly(video, input, split, iouThreshold);
  }

  lemma CutWithinRequest(video: Video, input: RunInput, split: Split, d: Detection)
    requires Sound(split) && Independent(input, split) && CutHas(video, input, split, d)
    ensures RequestHas(input, d)
  {
    hide StartOf, EndOf, RoundTo, InSomeTile, CenterX, CenterY;
  }

  lemma DetectionCovered(video: Video, input: RunInput, split: Split, d: Detection)
    requires Sound(split) && d in Detect(video) && RequestHas(input, d)
    requires Timed(split) ==> SpanKept(video)
    requires Tiled(split) ==> GridCovers(video, split) && Centred(video)
    ensures CutHas(video, input, split, d)
  {
    hide InSomeTile, Gapless, RoundTo, WidthOf, HeightOf, StartOf, EndOf, CenterX, CenterY, PointOnTile, Detect,
      InWindow;
    TimeWithinSpan(video, d);
    if Tiled(split) {
      assert OnFrame(video, CenterX(d.box), CenterY(d.box));
      TilesCoverExactly(WidthOf(video), split.nx, split.overlap);
      TilesCoverExactly(HeightOf(video), split.ny, split.overlap);
    }
  }

  lemma TimeWithinSpan(video: Video, d: Detection)
    requires d in Detect(video)
    ensures StartOf(video) <= d.timestamp <= EndOf(video)
  {
    DetectMembers(video, d);
    hide Detect, Least, Greatest;
    var f :| f in video && Shows(f, d);
    var i :| 0 <= i < |video| && video[i] == f;
    assert Times(video)[i] == d.timestamp;
    assert d.timestamp in Times(video);
  }

  // ---------------------------------------------------------------------------------------------
  // Exactly when a split is safe, told from the frames alone.
  // ---------------------------------------------------------------------------------------------

  function Bare(f: Frame): Frame { f.(objects := []) }

  /** The same frames, whatever is seen on them. */
  ghost predicate SameFrames(v: Video, video: Video) {
    |v| == |video| && forall i :: 0 <= i < |v| ==> Bare(v[i]) == Bare(video[i])
  }

  /** A video on these frames: every box has an area and is centred on the frame. */
  ghost predicate Filling(v: Video, video: Video) {
    SameFrames(v, video) && Centred(v) && forall d :: d in Detect(v) ==> Solid(d.box)
  }

  lemma SameSpan(v: Video, video: Video)
    requires SameFrames(v, video)
    ensures StartOf(v) == StartOf(video) && EndOf(v) == EndOf(video)
    ensures WidthOf(v) == WidthOf(video) && HeightOf(v) == HeightOf(video)
  {
    assert forall i :: 0 <= i < |v| ==>
                         Bare(v[i]).timestamp == v[i].timestamp && Bare(v[i]).width == v[i].width
                           && Bare(v[i]).height == v[i].height;
    assert Times(v) == Times(video);
    assert seq(|v|, i requires 0 <= i < |v| => v[i].width)
           == seq(|video|, i requires 0 <= i < |video| => video[i].width);
    assert seq(|v|, i requires 0 <= i < |v| => v[i].height)
           == seq(|video|, i requires 0 <= i < |video| => video[i].height);
  }

  lemma SameSight(v: Video, video: Video, input: RunInput, split: Split, t: real, x: real, y: real)
    requires Sound(split) && SameFrames(v, video)
    ensures CutSees(v, input, split, t, x, y) <==> CutSees(video, input, split, t, x, y)
    ensures OnFrame(v, x, y) <==> OnFrame(video, x, y)
  {
    SameSpan(v, video);
    hide StartOf, EndOf, WidthOf, HeightOf, RoundTo, InSomeTile, SameFrames;
  }

  /** On every frame and at every point of it, the cut run sees exactly what was requested. */
  ghost predicate SeesAsRequested(video: Video, input: RunInput, split: Split)
    requires Sound(split)
  {
    forall f, x, y :: f in video && OnFrame(video, x, y)
      ==> (CutSees(video, input, split, f.timestamp, x, y) <==> Requested(input, f.timestamp, x, y))
  }

  /** A video with one box, on frame `i`, centred at a point. */
  function OneBox(video: Video, i: nat, x: real, y: real): Video
    requires i < |video|
  {
    seq(|video|, k requires 0 <= k < |video| =>
      video[k].(objects := if k == i then [Object(Box(x - 0.5, y - 0.5, 1.0, 1.0), "car", 0.9)] else []))
  }

  function TheBox(video: Video, i: nat, x: real, y: real): Detection
    requires i < |video|
  {
    Detection(video[i].timestamp, Box(x - 0.5, y - 0.5, 1.0, 1.0), "car", 0.9)
  }

  lemma OneBoxDetects(video: Video, i: nat, x: real, y: real, d: Detection)
    requires i < |video|
    ensures d in Detect(OneBox(video, i, x, y)) <==> d == TheBox(video, i, x, y)
  {
    var v := OneBox(video, i, x, y);
    DetectMembers(v, d);
    assert v[i].objects[0] in v[i].objects;
    assert Shows(v[i], TheBox(video, i, x, y));
    forall f | f in v && Shows(f, d) ensures d == TheBox(video, i, x, y) {
      var k :| 0 <= k < |v| && v[k] == f;
      assert k == i;
    }
  }

  lemma OneBoxFills(video: Video, i: nat, x: real, y: real)
    requires i < |video| && OnFrame(video, x, y)
    ensures Filling(OneBox(video, i, x, y), video)
  {
    var v := OneBox(video, i, x, y);
    assert SameFrames(v, video);
    SameSpan(v, video);
    hide WidthOf, HeightOf, Detect;
    forall d | d in Detect(v)
      ensures OnFrame(v, CenterX(d.box), CenterY(d.box)) && Solid(d.box)
    {
      OneBoxDetects(video, i, x, y, d);
    }
  }

  /** Of copies of one detection, one is reported. */
  lemma KeptOfOne(ds: seq<Detection>, one: Detection, iouThreshold: real)
    requires forall d :: d in ds ==> d == one
    ensures one in Kept(ds, iouThreshold, true) <==> one in ds
  {
    KeptIsKernel(ds, iouThreshold, true);
    hide Kept, RankLe;
    assert one in Elements(ds) <==> one in ds;
    assert one in Elements(Kept(ds, iouThreshold, true)) <==> one in Kept(ds, iouThreshold, true);
    forall k | k in Elements(Kept(ds, iouThreshold, true)) ensures !Better(k, one, RankLe()) {
      assert k in Elements(ds);
    }
  }

  /** What the two runs report of a video with one box. */
  lemma OneBoxReported(video: Video, i: nat, x: real, y: real, input: RunInput, split: Split, iouThreshold: real)
    requires Sound(split) && i < |video|
    ensures var v, d := OneBox(video, i, x, y), TheBox(video, i, x, y);
            && (d in RunDetections(v, input, split, iouThreshold) <==> CutSees(video, input, split, d.timestamp, x, y))
            && (d in RunDetections(v, input, WHOLE, iouThreshold) <==> Requested(input, d.timestamp, x, y))
  {
    var v, d := OneBox(video, i, x, y), TheBox(video, i, x, y);
    assert CenterX(d.box) == x && CenterY(d.box) == y;
    assert SameFrames(v, video);
    CutRun(v, input, split, iouThreshold);
    WholeRun(v, input, iouThreshold);
    hide RunDetections, OneBox, TheBox, SameFrames, Detect, ChildDetections, CutList, CutSees, Requested, Kept,
      CenterX, CenterY;
    SameSight(v, video, input, split, d.timestamp, x, y);
    forall e ensures e in Detect(v) <==> e == d { OneBoxDetects(video, i, x, y, e); }
    forall e | e in CutList(v, input, split) ensures e == d { CutListMeans(v, input, split, e); }
    forall e | e in ChildDetections(v, input) ensures e == d { ChildMeans(v, input, e); }
    CutListMeans(v, input, split, d);
    ChildMeans(v, input, d);
    KeptOfOne(CutList(v, input, split), d, iouThreshold);
    KeptOfOne(ChildDetections(v, input), d, iouThreshold);
  }

  /** Where both see the same, both report the same. */
  lemma SameSightSameReport(v: Video, video: Video, input: RunInput, split: Split, iouThreshold: real)
    requires Sound(split) && Filling(v, video) && iouThreshold <= 1.0 && SeesAsRequested(video, input, split)
    ensures RunDetections(v, input, split, iouThreshold) == RunDetections(v, input, WHOLE, iouThreshold)
  {
    assert Proper(Detect(v), iouThreshold);
    var cut, whole := CutList(v, input, split), ChildDetections(v, input);
    BothProper(v, input, split, iouThreshold);
    CutRun(v, input, split, iouThreshold);
    WholeRun(v, input, iouThreshold);
    hide RunDetections, CutList, ChildDetections, CutSees, Requested, Detect, Proper, OnFrame, SameFrames, CenterX,
      CenterY, Kept;
    forall d | d in Detect(v) ensures CutHas(v, input, split, d) <==> RequestHas(input, d) {
      FrameOf(v, video, d);
      SameSight(v, video, input, split, d.timestamp, CenterX(d.box), CenterY(d.box));
    }
    forall d ensures d in cut <==> d in whole {
      CutListMeans(v, input, split, d);
      ChildMeans(v, input, d);
    }
    hide CutHas, RequestHas, SeesAsRequested, Filling;
    forall d | d in Kept(cut, iouThreshold, true) ensures d in whole { KeptOfProper(cut, iouThreshold, d); }
    forall d | d in Kept(whole, iouThreshold, true) ensures d in cut { KeptOfProper(whole, iouThreshold, d); }
    SameKeptExactly(cut, whole, iouThreshold);
  }

  /** A detection's moment is that of one of the frames. */
  lemma FrameOf(v: Video, video: Video, d: Detection)
    requires SameFrames(v, video) && d in Detect(v)
    ensures exists f :: f in video && f.timestamp == d.timestamp
  {
    DetectMembers(v, d);
    hide Detect;
    var f :| f in v && Shows(f, d);
    var i :| 0 <= i < |v| && v[i] == f;
    assert Bare(v[i]) == Bare(video[i]);
    assert video[i] in video && video[i].timestamp == d.timestamp;
  }

  /**
   * Which splits are safe, told before anything is detected: whatever is seen on these frames, the cut run
   * reports what the uncut run reports, if and only if on every frame it sees exactly what was requested.
   */
  lemma SplitIsSafeExactly(video: Video, input: RunInput, split: Split, iouThreshold: real)
    requires Sound(split) && iouThreshold <= 1.0
    ensures (forall v :: Filling(v, video)
                         ==> RunDetections(v, input, split, iouThreshold)
                             == RunDetections(v, input, WHOLE, iouThreshold))
            <==> SeesAsRequested(video, input, split)
  {
    hide RunDetections, CutSees, Requested, OnFrame, Filling;
    if SeesAsRequested(video, input, split) {
      forall v | Filling(v, video)
        ensures RunDetections(v, input, split, iouThreshold) == RunDetections(v, input, WHOLE, iouThreshold)
      {
        SameSightSameReport(v, video, input, split, iouThreshold);
      }
    } else {
      var f, x, y :| f in video && OnFrame(video, x, y)
        && !(CutSees(video, input, split, f.timestamp, x, y) <==> Requested(input, f.timestamp, x, y));
      var i: nat :| i < |video| && video[i] == f;
      OneBoxFills(video, i, x, y);
      OneBoxReported(video, i, x, y, input, split, iouThreshold);
    }
  }

  /** The grid has no point of the frame. */
  predicate GridMisses(video: Video, split: Split)
    requires Sound(split) && Tiled(split)
  {
    AllEmpty(WidthOf(video), split.nx, split.overlap) || AllEmpty(HeightOf(video), split.ny, split.overlap)
  }

  /**
   * The windows reach the requested frames, and the grid covers them if there are any; and they reach no other
   * frame, unless the grid shows nothing of it.
   */
  ghost predicate FramesSafe(video: Video, input: RunInput, split: Split)
    requires Sound(split)
  {
    && (forall f :: f in video && InWindow(f.timestamp, input.window) ==>
          TimeReached(video, input, split, f.timestamp) && (Tiled(split) ==> GridCovers(video, split)))
    && (forall f :: f in video && TimeReached(video, input, split, f.timestamp) ==>
          InWindow(f.timestamp, input.window) || (Tiled(split) && GridMisses(video, split)))
  }

  /** What the grid's numbers say about the points of the frame. */
  lemma GridMeans(video: Video, input: RunInput, split: Split)
    requires Sound(split) && input.tile.None? && WidthOf(video) >= 1 && HeightOf(video) >= 1
    ensures (Tiled(split) ==> GridCovers(video, split))
            <==> forall x, y :: OnFrame(video, x, y) ==> PointReached(video, input, split, x, y)
    ensures (Tiled(split) && GridMisses(video, split))
            <==> forall x, y :: OnFrame(video, x, y) ==> !PointReached(video, input, split, x, y)
  {
    hide WidthOf, HeightOf, InSomeTile, Gapless, AllEmpty;
    assert OnFrame(video, 0.0, 0.0);
    if Tiled(split) {
      TilesCoverExactly(WidthOf(video), split.nx, split.overlap);
      TilesCoverExactly(HeightOf(video), split.ny, split.overlap);
      AllEmptyExactly(WidthOf(video), split.nx, split.overlap);
      AllEmptyExactly(HeightOf(video), split.ny, split.overlap);
      FrameCovered(video, split);
      FrameMissed(video, split);
    }
  }

  lemma FrameCovered(video: Video, split: Split)
    requires Sound(split) && Tiled(split) && WidthOf(video) >= 1 && HeightOf(video) >= 1
    ensures (forall x, y :: OnFrame(video, x, y) ==> OnGrid(video, split, x, y))
            <==> (forall c :: 0.0 <= c <= WidthOf(video) as real ==>
                                InSomeTile(c, WidthOf(video), split.nx, split.overlap))
                 && (forall c :: 0.0 <= c <= HeightOf(video) as real ==>
                                   InSomeTile(c, HeightOf(video), split.ny, split.overlap))
  {
    hide WidthOf, HeightOf, InSomeTile;
    if forall x, y :: OnFrame(video, x, y) ==> OnGrid(video, split, x, y) {
      forall c | 0.0 <= c <= WidthOf(video) as real ensures InSomeTile(c, WidthOf(video), split.nx, split.overlap) {
        assert OnFrame(video, c, 0.0) && OnGrid(video, split, c, 0.0);
      }
      forall c | 0.0 <= c <= HeightOf(video) as real ensures InSomeTile(c, HeightOf(video), split.ny, split.overlap) {
        assert OnFrame(video, 0.0, c) && OnGrid(video, split, 0.0, c);
      }
    }
  }

  lemma FrameMissed(video: Video, split: Split)
    requires Sound(split) && Tiled(split) && WidthOf(video) >= 1 && HeightOf(video) >= 1
    ensures (forall x, y :: OnFrame(video, x, y) ==> !OnGrid(video, split, x, y))
            <==> (forall c :: 0.0 <= c <= WidthOf(video) as real ==>
                                !InSomeTile(c, WidthOf(video), split.nx, split.overlap))
                 || (forall c :: 0.0 <= c <= HeightOf(video) as real ==>
                                   !InSomeTile(c, HeightOf(video), split.ny, split.overlap))
  {
    hide WidthOf, HeightOf, InSomeTile;
    if x, y :| 0.0 <= x <= WidthOf(video) as real && InSomeTile(x, WidthOf(video), split.nx, split.overlap)
               && 0.0 <= y <= HeightOf(video) as real && InSomeTile(y, HeightOf(video), split.ny, split.overlap) {
      assert OnFrame(video, x, y) && OnGrid(video, split, x, y);
    }
  }

  /** For requests without a tile, safety is a matter of the frames' times and the grid's numbers. */
  lemma SafeByFrames(video: Video, input: RunInput, split: Split)
    requires Sound(split) && input.tile.None? && WidthOf(video) >= 1 && HeightOf(video) >= 1
    ensures SeesAsRequested(video, input, split) <==> FramesSafe(video, input, split)
  {
    GridMeans(video, input, split);
    assert OnFrame(video, 0.0, 0.0);
    hide WidthOf, HeightOf, OnFrame, PointReached, GridCovers, GridMisses, TimeReached, InWindow;
    if SeesAsRequested(video, input, split) {
      forall f | f in video && InWindow(f.timestamp, input.window)
        ensures TimeReached(video, input, split, f.timestamp) && (Tiled(split) ==> GridCovers(video, split))
      {
        assert CutSees(video, input, split, f.timestamp, 0.0, 0.0) <==> Requested(input, f.timestamp, 0.0, 0.0);
        forall x, y | OnFrame(video, x, y) ensures PointReached(video, input, split, x, y) {
          assert CutSees(video, input, split, f.timestamp, x, y) <==> Requested(input, f.timestamp, x, y);
        }
      }
      forall f | f in video && TimeReached(video, input, split, f.timestamp) && !InWindow(f.timestamp, input.window)
        ensures Tiled(split) && GridMisses(video, split)
      {
        forall x, y | OnFrame(video, x, y) ensures !PointReached(video, input, split, x, y) {
          assert CutSees(video, input, split, f.timestamp, x, y) <==> Requested(input, f.timestamp, x, y);
        }
      }
    }
  }

  /** Without a requested window, all frames are reached exactly when rounding keeps the span. */
  lemma AllFramesReached(video: Video, input: RunInput, split: Split)
    requires Timed(split) && video != []
    ensures (forall f :: f in video ==> TimeReached(video, input, split, f.timestamp)) <==> SpanKept(video)
  {
    hide Least, Greatest, RoundTo;
    assert StartOf(video) in Times(video) && EndOf(video) in Times(video);
    var a :| 0 <= a < |video| && Times(video)[a] == StartOf(video);
    var b :| 0 <= b < |video| && Times(video)[b] == EndOf(video);
    assert video[a] in video && video[b] in video;
    forall f | f in video ensures StartOf(video) <= f.timestamp <= EndOf(video) {
      var i :| 0 <= i < |video| && video[i] == f;
      assert Times(video)[i] == f.timestamp;
      assert f.timestamp in Times(video);
    }
  }

  /**
   * For plain requests: a split is safe on these frames exactly when rounding keeps their span and the grid covers
   * them.
   */
  lemma PlainSplitIsSafeExactly(video: Video, split: Split, iouThreshold: real)
    requires Sound(split) && iouThreshold <= 1.0 && video != [] && WidthOf(video) >= 1 && HeightOf(video) >= 1
    ensures var plain := RunInput(None, None);
            (forall v :: Filling(v, video)
                         ==> RunDetections(v, plain, split, iouThreshold)
                             == RunDetections(v, plain, WHOLE, iouThreshold))
            <==> (Timed(split) ==> SpanKept(video)) && (Tiled(split) ==> GridCovers(video, split))
  {
    var plain := RunInput(None, None);
    assert video[0] in video;
    SplitIsSafeExactly(video, plain, split, iouThreshold);
    SafeByFrames(video, plain, split);
    hide RunDetections, Filling, FramesSafe;
    if Timed(split) { AllFramesReached(video, plain, split); }
    hide SeesAsRequested, SpanKept, GridCovers, RoundTo, StartOf, EndOf;
  }

  /** What a split leaves of a request: the window if it is not cut into windows, the tile if not into tiles. */
  function LeftOf(input: RunInput, split: Split): RunInput {
    RunInput(if Timed(split) then None else input.window, if Tiled(split) then None else input.tile)
  }

  /**
   * A request with a window or a tile of its own, cut: what the split replaces is discarded. So the cut run reports
   * what the uncut run reports exactly when everything the run reports without it was requested.
   */
  lemma RequestHonouredExactly(video: Video, input: RunInput, split: Split, iouThreshold: real)
    requires Sound(split) && Proper(Detect(video), iouThreshold)
    requires Timed(split) ==> SpanKept(video)
    requires Tiled(split) ==> GridCovers(video, split) && Centred(video)
    ensures RunDetections(video, input, split, iouThreshold) == RunDetections(video, input, WHOLE, iouThreshold)
            <==> forall d :: d in RunDetections(video, LeftOf(input, split), WHOLE, iouThreshold) ==>
                               RequestHas(input, d)
  {
    var plain := LeftOf(input, split);
    BothProper(video, input, split, iouThreshold);
    WholeRun(video, input, iouThreshold);
    forall d | d in RunDetections(video, input, WHOLE, iouThreshold) ensures CutHas(video, input, split, d) {
      KeptOfProper(ChildDetections(video, input), iouThreshold, d);
      ChildMeans(video, input, d);
      DetectionCovered(video, input, split, d);
    }
    OnlyLeftMatters(video, input, split, iouThreshold);
    assert Independent(plain, split);
    hide *;
    PartitionedEqualsWhole(video, plain, split, iouThreshold);
    PartitioningLosesNothingExactly(video, input, split, iouThreshold);
  }

  lemma OnlyLeftMatters(video: Video, input: RunInput, split: Split, iouThreshold: real)
    requires Sound(split)
    ensures RunDetections(video, LeftOf(input, split), split, iouThreshold)
            == RunDetections(video, input, split, iouThreshold)
  {
    assert Windows(video, LeftOf(input, split), split) == Windows(video, input, split);
    assert Tiles(video, LeftOf(input, split), split) == Tiles(video, input, split);
  }

  // ---------------------------------------------------------------------------------------------
  // Where the promise fails.
  // ---------------------------------------------------------------------------------------------

  /** One frame of one pixel, and a car centred at x = 0.66665. */
  function OnePixel(): Video { [Frame(0, 0.0, 1, 1, [])] }

  function OneCar(): Video { OneBox(OnePixel(), 0, 0.66665, 0.5) }

  lemma OnePixelFrame()
    ensures WidthOf(OnePixel()) == 1 && HeightOf(OnePixel()) == 1 && StartOf(OnePixel()) == 0.0
            && EndOf(OnePixel()) == 0.0
  {
    assert seq(|OnePixel()|, i requires 0 <= i < |OnePixel()| => OnePixel()[i].width) == [1];
    assert seq(|OnePixel()|, i requires 0 <= i < |OnePixel()| => OnePixel()[i].height) == [1];
    assert Times(OnePixel()) == [0.0];
  }

  /** Tiles without overlap can lose a detection between them. */
  lemma SeamLosesDetection()
    ensures var split := Split(1, 3, 1, 0.0);
            RunDetections(OneCar(), RunInput(None, None), split, 0.5)
            != RunDetections(OneCar(), RunInput(None, None), WHOLE, 0.5)
  {
    var input, split := RunInput(None, None), Split(1, 3, 1, 0.0);
    OpenSeam();
    OnePixelFrame();
    assert !CutSees(OnePixel(), input, split, 0.0, 0.66665, 0.5);
    hide RunDetections, CutSees, OneBox;
    OneBoxReported(OnePixel(), 0, 0.66665, 0.5, input, split, 0.5);
  }

  /** A request for seconds 1 to 2 is answered, once split, with the car seen at second 0. */
  lemma RequestedWindowLost()
    ensures var input, split := RunInput(Some(TimeWindow(Some(1.0), Some(2.0))), None), Split(2, 1, 1, 0.0);
            RunDetections(OneCar(), input, split, 0.5) != RunDetections(OneCar(), input, WHOLE, 0.5)
  {
    var input, split := RunInput(Some(TimeWindow(Some(1.0), Some(2.0))), None), Split(2, 1, 1, 0.0);
    OnePixelFrame();
    RoundFixes(0.0, MICRO);
    assert CutSees(OnePixel(), input, split, 0.0, 0.66665, 0.5);
    assert !Requested(input, 0.0, 0.66665, 0.5);
    hide RunDetections, CutSees, OneBox;
    OneBoxReported(OnePixel(), 0, 0.66665, 0.5, input, split, 0.5);
  }
}
