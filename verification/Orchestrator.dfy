/**
 * A run over a video, split into windows and tiles, executed piece by piece and merged again.
 * The frames of a video and the objects on them stand for what the extractor and the model return.
 */
module Orchestrator {
  import opened Dedupe
  import opened Detections
  import opened Filters
  import opened Options
  import opened Partition
  import opened Sorting

  datatype Object = Object(box: Box, className: string, confidence: real)

  datatype Frame = Frame(index: int, timestamp: real, width: int, height: int, objects: seq<Object>)

  type Video = seq<Frame>

  /** What distinguishes one run request from another: its time window, and the tile among its flags. */
  datatype RunInput = RunInput(window: Option<TimeWindow>, tile: Option<Tile>)

  /** A run's detections, and the counts of its summary. */
  datatype RunOutput = RunOutput(detections: seq<Detection>, framesProcessed: nat, totalDetections: nat)

  datatype Merged = Merged(output: RunOutput, partitionsMerged: nat, preMerge: nat)

  // ---------------------------------------------------------------------------------------------
  // One partition.
  // ---------------------------------------------------------------------------------------------

  predicate InWindow(t: real, window: Option<TimeWindow>) {
    window.Some? ==> Within(t, window.value)
  }

  predicate FrameLe(a: Frame, b: Frame) {
    if a.timestamp != b.timestamp then a.timestamp < b.timestamp else a.index <= b.index
  }

  /** The frames of a window, in order. */
  function FramesIn(video: Video, window: Option<TimeWindow>): seq<Frame> {
    StableSort(Filter(video, (f: Frame) => InWindow(f.timestamp, window)), FrameLe)
  }

  /** A window's frames are those of the video in it, by time, and at one time by their index. */
  lemma FramesInOrder(video: Video, window: Option<TimeWindow>)
    ensures
      var frames := FramesIn(video, window);
      && (forall i, j :: 0 <= i < j < |frames| ==>
            frames[i].timestamp < frames[j].timestamp
            || (frames[i].timestamp == frames[j].timestamp && frames[i].index <= frames[j].index))
      && (forall f :: f in frames <==> f in video && InWindow(f.timestamp, window))
  {
    var some := Filter(video, (f: Frame) => InWindow(f.timestamp, window));
    SortSorts(some, FrameLe);
    forall f ensures f in FramesIn(video, window) <==> f in some { SortMembers(some, FrameLe, f); }
  }

  function DetectionOf(f: Frame, o: Object): Detection {
    Detection(f.timestamp, o.box, o.className, o.confidence)
  }

  /** One detection for each object of each frame. */
  function Detect(frames: seq<Frame>): seq<Detection> {
    if frames == [] then []
    else
      var f := frames[|frames| - 1];
      Detect(frames[..|frames| - 1]) + seq(|f.objects|, i requires 0 <= i < |f.objects| => DetectionOf(f, f.objects[i]))
  }

  method RunInference(frames: seq<Frame>) returns (r: seq<Detection>)
    ensures r == Detect(frames)
  {
    r := [];
    for i := 0 to |frames|
      invariant r == Detect(frames[..i])
    {
      var f := frames[i];
      ghost var before := r;
      for k := 0 to |f.objects|
        invariant r == before + seq(k, j requires 0 <= j < k => DetectionOf(f, f.objects[j]))
      {
        r := r + [DetectionOf(f, f.objects[k])];
      }
      assert frames[..i + 1][..i] == frames[..i];
    }
    assert frames[..|frames|] == frames;
  }

  predicate CenterInTile(box: Box, tile: Tile) {
    var cx, cy := box.x + box.w / 2.0, box.y + box.h / 2.0;
    && tile.x <= cx <= tile.x + tile.w
    && tile.y <= cy <= tile.y + tile.h
  }

  predicate OnInputTile(box: Box, tile: Option<Tile>) {
    tile.Some? ==> CenterInTile(box, tile.value)
  }

  /** What the child of a partition reports. */
  function ChildDetections(video: Video, input: RunInput): seq<Detection> {
    Filter(StableSort(Detect(FramesIn(video, input.window)), TimelineLe),
           (d: Detection) => OnInputTile(d.box, input.tile))
  }

  method ProcessPartition(video: Video, input: RunInput) returns (output: RunOutput)
    ensures output.detections == ChildDetections(video, input)
    ensures output.totalDetections == |output.detections|
    ensures output.framesProcessed == |FramesIn(video, input.window)|
  {
    var frames := FramesIn(video, input.window);
    var raw := RunInference(frames);
    var detections := StableSort(raw, TimelineLe);
    output := RunOutput(detections, |frames|, |detections|);
    match input.tile
    case None =>
      FilterAll(detections, (d: Detection) => OnInputTile(d.box, input.tile));
    case Some(tile) =>
      var kept := Filter(detections, (d: Detection) => CenterInTile(d.box, tile));
      FilterSame(detections, (d: Detection) => CenterInTile(d.box, tile),
                 (d: Detection) => OnInputTile(d.box, input.tile));
      output := output.(detections := kept, totalDetections := |kept|);
  }

  ghost predicate Shows(f: Frame, d: Detection) {
    exists o :: o in f.objects && DetectionOf(f, o) == d
  }

  lemma FrameShows(f: Frame, d: Detection)
    ensures d in seq(|f.objects|, i requires 0 <= i < |f.objects| => DetectionOf(f, f.objects[i])) <==> Shows(f, d)
  {
    var own := seq(|f.objects|, i requires 0 <= i < |f.objects| => DetectionOf(f, f.objects[i]));
    if Shows(f, d) {
      var i :| 0 <= i < |f.objects| && DetectionOf(f, f.objects[i]) == d;
      assert own[i] == d;
    }
  }

  lemma {:induction false} DetectMembers(frames: seq<Frame>, d: Detection)
    ensures d in Detect(frames) <==> exists f :: f in frames && Shows(f, d)
  {
    if frames != [] {
      var n := |frames| - 1;
      var f := frames[n];
      DetectMembers(frames[..n], d);
      FrameShows(f, d);
      hide Shows;
      assert frames == frames[..n] + [f];
    }
  }

  /** A child reports exactly the detections of the video inside its window and its tile. */
  lemma ChildReports(video: Video, input: RunInput, d: Detection)
    ensures d in ChildDetections(video, input)
            <==> d in Detect(video) && InWindow(d.timestamp, input.window) && OnInputTile(d.box, input.tile)
  {
    var frames := FramesIn(video, input.window);
    SortMembers(Detect(frames), TimelineLe, d);
    DetectMembers(frames, d);
    DetectMembers(video, d);
    forall f ensures f in frames <==> f in video && InWindow(f.timestamp, input.window) {
      SortMembers(Filter(video, (f: Frame) => InWindow(f.timestamp, input.window)), FrameLe, f);
    }
    hide TimelineLe, CenterInTile, Detect;
  }

  /** What is seen on a frame: the frame's time, the object's box, class and confidence. */
  ghost predicate SeenIn(d: Detection, video: Video) {
    exists f, o :: f in video && o in f.objects
                   && d.timestamp == f.timestamp && d.box == o.box
                   && d.className == o.className && d.confidence == o.confidence
  }

  /** The request asks for this time and this place: both bounds of a window count, and all four edges of a tile. */
  predicate AskedFor(input: RunInput, t: real, x: real, y: real) {
    && (input.window.Some? && input.window.value.start.Some? ==> input.window.value.start.value <= t)
    && (input.window.Some? && input.window.value.end.Some? ==> t <= input.window.value.end.value)
    && (input.tile.Some? ==> input.tile.value.x <= x <= input.tile.value.x + input.tile.value.w
                             && input.tile.value.y <= y <= input.tile.value.y + input.tile.value.h)
  }

  /** A child's report on the fields: what is seen, where it was asked for, forwards in time. */
  lemma ReportInOrder(video: Video, input: RunInput)
    ensures var report := ChildDetections(video, input);
            && (forall i, j :: 0 <= i < j < |report| ==> InTimelineOrder(report[i], report[j]))
            && (forall d :: d in report <==>
                              SeenIn(d, video)
                              && AskedFor(input, d.timestamp, d.box.x + d.box.w / 2.0, d.box.y + d.box.h / 2.0))
  {
    var report := ChildDetections(video, input);
    var raw := Detect(FramesIn(video, input.window));
    TimelineIsTotalOrder();
    SortSorts(raw, TimelineLe);
    FilterSorted(StableSort(raw, TimelineLe), (d: Detection) => OnInputTile(d.box, input.tile), TimelineLe);
    hide InTimelineOrder, TimelineLe, FramesIn, SeenIn, AskedFor;
    forall i, j | 0 <= i < j < |report| ensures InTimelineOrder(report[i], report[j]) {
      TimelineMeans(report[i], report[j]);
    }
    hide ChildDetections;
    forall d ensures d in report <==>
                       SeenIn(d, video)
                       && AskedFor(input, d.timestamp, d.box.x + d.box.w / 2.0, d.box.y + d.box.h / 2.0) {
      ReportedIfAsked(video, input, d);
    }
  }

  lemma ReportedIfAsked(video: Video, input: RunInput, d: Detection)
    ensures d in ChildDetections(video, input)
            <==> SeenIn(d, video) && AskedFor(input, d.timestamp, d.box.x + d.box.w / 2.0, d.box.y + d.box.h / 2.0)
  {
    ChildReports(video, input, d);
    DetectMembers(video, d);
    SeenIffShown(video, d);
    hide ChildDetections, Detect, SeenIn;
  }

  lemma SeenIffShown(video: Video, d: Detection)
    ensures SeenIn(d, video) <==> exists f :: f in video && Shows(f, d)
  {
    if f, o :| f in video && o in f.objects && d.timestamp == f.timestamp && d.box == o.box
               && d.className == o.className && d.confidence == o.confidence {
      assert DetectionOf(f, o) == d;
      assert Shows(f, d);
    }
  }

  // ---------------------------------------------------------------------------------------------
  // The partitions of a run.
  // ---------------------------------------------------------------------------------------------

  function Least(ts: seq<real>): (m: real)
    requires ts != []
    ensures m in ts && forall t :: t in ts ==> m <= t
  {
    if |ts| == 1 then ts[0] else
      var m := Least(ts[..|ts| - 1]);
      assert ts == ts[..|ts| - 1] + [ts[|ts| - 1]];
      Min(m, ts[|ts| - 1])
  }

  function Greatest(ts: seq<real>): (m: real)
    requires ts != []
    ensures m in ts && forall t :: t in ts ==> t <= m
  {
    if |ts| == 1 then ts[0] else
      var m := Greatest(ts[..|ts| - 1]);
      assert ts == ts[..|ts| - 1] + [ts[|ts| - 1]];
      Max(m, ts[|ts| - 1])
  }

  function Widest(sizes: seq<int>): (m: int)
    requires sizes != []
    ensures m in sizes && forall s :: s in sizes ==> s <= m
  {
    if |sizes| == 1 then sizes[0] else
      var m := Widest(sizes[..|sizes| - 1]);
      assert sizes == sizes[..|sizes| - 1] + [sizes[|sizes| - 1]];
      if m >= sizes[|sizes| - 1] then m else sizes[|sizes| - 1]
  }

  function Times(video: Video): seq<real> { seq(|video|, i requires 0 <= i < |video| => video[i].timestamp) }

  function StartOf(video: Video): real { if video == [] then 0.0 else Least(Times(video)) }

  function EndOf(video: Video): real { if video == [] then 0.0 else Greatest(Times(video)) }

  /** The frame size the tiles divide: the largest of any frame, and 1 where that is 0. */
  function WidthOf(video: Video): int {
    var w := if video == [] then 0 else Widest(seq(|video|, i requires 0 <= i < |video| => video[i].width));
    if w == 0 then 1 else w
  }

  function HeightOf(video: Video): int {
    var h := if video == [] then 0 else Widest(seq(|video|, i requires 0 <= i < |video| => video[i].height));
    if h == 0 then 1 else h
  }

  /** How a run is to be split. */
  datatype Split = Split(windows: int, nx: int, ny: int, overlap: real)

  predicate Timed(split: Split) { split.windows > 1 }

  predicate Tiled(split: Split) { split.nx > 1 || split.ny > 1 }

  /** The splits that raise no error. */
  predicate Sound(split: Split) {
    && (Timed(split) ==> 0.0 <= split.overlap < 1.0)
    && (Tiled(split) ==> split.nx >= 1 && split.ny >= 1)
  }

  function Windows(video: Video, input: RunInput, split: Split): seq<Option<TimeWindow>> {
    if Timed(split) then
      seq(split.windows, i => Some(WindowAt(StartOf(video), EndOf(video), split.windows, split.overlap, i)))
    else [input.window]
  }

  function Tiles(video: Video, input: RunInput, split: Split): seq<Option<Tile>>
    requires Sound(split)
  {
    if Tiled(split) then
      var grid := TileGrid(WidthOf(video), HeightOf(video), split.nx, split.ny, split.overlap, split.ny);
      seq(|grid|, i requires 0 <= i < |grid| => Some(grid[i]))
    else [input.tile]
  }

  /** One window with each of the first `n` tiles. */
  function Row(window: Option<TimeWindow>, tiles: seq<Option<Tile>>, n: nat): seq<RunInput>
    requires n <= |tiles|
  {
    seq(n, i requires 0 <= i < n => RunInput(window, tiles[i]))
  }

  /** Every window with every tile. */
  function Product(windows: seq<Option<TimeWindow>>, tiles: seq<Option<Tile>>): seq<RunInput> {
    if windows == [] then []
    else Product(windows[..|windows| - 1], tiles) + Row(windows[|windows| - 1], tiles, |tiles|)
  }

  function Partitions(video: Video, input: RunInput, split: Split): seq<RunInput>
    requires Sound(split)
  {
    Product(Windows(video, input, split), Tiles(video, input, split))
  }

  /** The span is that of the frames' times, and the frame size the largest of any frame, or 1 where that is 0. */
  lemma VideoInNumbers(video: Video)
    ensures video == [] ==> StartOf(video) == EndOf(video) == 0.0 && WidthOf(video) == HeightOf(video) == 1
    ensures forall f :: f in video ==> StartOf(video) <= f.timestamp <= EndOf(video)
    ensures video != [] ==> exists f :: f in video && f.timestamp == StartOf(video)
    ensures video != [] ==> exists f :: f in video && f.timestamp == EndOf(video)
    ensures video != [] ==>
              (exists f :: f in video && f.width != 0 && f.width == WidthOf(video))
              || (WidthOf(video) == 1 && exists f :: f in video && f.width == 0)
    ensures forall f :: f in video && f.width != 0 && WidthOf(video) != 1 ==> f.width <= WidthOf(video)
    ensures video != [] ==>
              (exists f :: f in video && f.height != 0 && f.height == HeightOf(video))
              || (HeightOf(video) == 1 && exists f :: f in video && f.height == 0)
    ensures forall f :: f in video && f.height != 0 && HeightOf(video) != 1 ==> f.height <= HeightOf(video)
  {
    if video != [] { SpanAndSize(video); }
  }

  lemma SpanAndSize(video: Video)
    requires video != []
    ensures forall f :: f in video ==> StartOf(video) <= f.timestamp <= EndOf(video)
    ensures exists f :: f in video && f.timestamp == StartOf(video)
    ensures exists f :: f in video && f.timestamp == EndOf(video)
    ensures (exists f :: f in video && f.width != 0 && f.width == WidthOf(video))
            || (WidthOf(video) == 1 && exists f :: f in video && f.width == 0)
    ensures forall f :: f in video && f.width != 0 && WidthOf(video) != 1 ==> f.width <= WidthOf(video)
    ensures (exists f :: f in video && f.height != 0 && f.height == HeightOf(video))
            || (HeightOf(video) == 1 && exists f :: f in video && f.height == 0)
    ensures forall f :: f in video && f.height != 0 && HeightOf(video) != 1 ==> f.height <= HeightOf(video)
  {
    var times, widths, heights := Times(video), seq(|video|, i requires 0 <= i < |video| => video[i].width),
      seq(|video|, i requires 0 <= i < |video| => video[i].height);
    hide Least, Greatest, Widest;
    forall f | f in video ensures f.timestamp in times && f.width in widths && f.height in heights {
      var i :| 0 <= i < |video| && video[i] == f;
      assert times[i] == f.timestamp && widths[i] == f.width && heights[i] == f.height;
    }
    var a :| 0 <= a < |video| && times[a] == StartOf(video);
    var b :| 0 <= b < |video| && times[b] == EndOf(video);
    var c :| 0 <= c < |video| && widths[c] == Widest(widths);
    var d :| 0 <= d < |video| && heights[d] == Widest(heights);
    assert video[a] in video && video[b] in video && video[c] in video && video[d] in video;
  }

  /** One of the windows that the span is cut into. */
  ghost predicate IsCutWindow(video: Video, split: Split, w: Option<TimeWindow>)
    requires split.windows > 1
  {
    var start, end := StartOf(video), EndOf(video);
    exists i :: 0 <= i < split.windows && w == Some(WindowAt(start, end, split.windows, split.overlap, i))
  }

  /** One of the tiles that the frame is cut into. */
  ghost predicate IsCutTile(video: Video, split: Split, t: Option<Tile>)
    requires split.nx >= 1 && split.ny >= 1
  {
    var width, height := WidthOf(video), HeightOf(video);
    exists col: nat, row: nat ::
      col < split.nx && row < split.ny
      && t == Some(TileAt(width, height, split.nx, split.ny, split.overlap, col, row))
  }

  /** Every window with every tile: those of the cut, or the request's own where there is none. */
  lemma PartitionsInNumbers(video: Video, input: RunInput, split: Split, p: RunInput)
    requires Sound(split)
    ensures
      p in Partitions(video, input, split) <==>
      && (if split.windows > 1 then IsCutWindow(video, split, p.window) else p.window == input.window)
      && (if split.nx > 1 || split.ny > 1 then IsCutTile(video, split, p.tile) else p.tile == input.tile)
  {
    ProductMembers(Windows(video, input, split), Tiles(video, input, split), p);
    hide Product, IsCutWindow, IsCutTile;
    if Timed(split) { WindowChoices(video, input, split, p.window); }
    hide Windows;
    if Tiled(split) { TileChoices(video, input, split, p.tile); }
  }

  lemma WindowChoices(video: Video, input: RunInput, split: Split, w: Option<TimeWindow>)
    requires Timed(split)
    ensures w in Windows(video, input, split) <==> IsCutWindow(video, split, w)
  {
    hide WindowAt, StartOf, EndOf;
    var windows, start, end := Windows(video, input, split), StartOf(video), EndOf(video);
    if i :| 0 <= i < split.windows && w == Some(WindowAt(start, end, split.windows, split.overlap, i)) {
      assert windows[i] == w;
    }
  }

  lemma TileChoices(video: Video, input: RunInput, split: Split, t: Option<Tile>)
    requires Sound(split) && Tiled(split)
    ensures t in Tiles(video, input, split) <==> IsCutTile(video, split, t)
  {
    hide TileAt, WidthOf, HeightOf;
    var grid := TileGrid(WidthOf(video), HeightOf(video), split.nx, split.ny, split.overlap, split.ny);
    TileGridMeans(WidthOf(video), HeightOf(video), split.nx, split.ny, split.overlap, split.ny);
    hide TileGrid;
    var tiles := Tiles(video, input, split);
    assert forall i :: 0 <= i < |grid| ==> tiles[i] == Some(grid[i]);
    if t.Some? && t.value in grid {
      var i :| 0 <= i < |grid| && grid[i] == t.value;
      assert tiles[i] == t;
    }
  }

  method BuildPartitions(video: Video, input: RunInput, split: Split) returns (r: Result<seq<RunInput>>)
    ensures r.Ok? <==> Sound(split)
    ensures r.Ok? ==> r.value == Partitions(video, input, split)
  {
    hide WindowAt, TileGrid, StartOf, EndOf, WidthOf, HeightOf;
    var timeWindows: seq<Option<TimeWindow>> := [input.window];
    if split.windows > 1 {
      var cut := PartitionTimeWindows(StartOf(video), EndOf(video), split.windows, split.overlap);
      if cut.ValueError? { return ValueError(cut.message); }
      timeWindows := seq(|cut.value|, i requires 0 <= i < |cut.value| => Some(cut.value[i]));
    }
    assert timeWindows == Windows(video, input, split);
    var spatial: seq<Option<Tile>> := [input.tile];
    if split.nx > 1 || split.ny > 1 {
      var grid := PartitionTiles(WidthOf(video), HeightOf(video), split.nx, split.ny, split.overlap);
      if grid.ValueError? { return ValueError(grid.message); }
      spatial := seq(|grid.value|, i requires 0 <= i < |grid.value| => Some(grid.value[i]));
    }
    assert spatial == Tiles(video, input, split);
    hide Windows, Tiles;
    var partitions: seq<RunInput> := [];
    for wi := 0 to |timeWindows|
      invariant partitions == Product(timeWindows[..wi], spatial)
    {
      ghost var before := partitions;
      for ti := 0 to |spatial|
        invariant partitions == before + Row(timeWindows[wi], spatial, ti)
      {
        partitions := partitions + [RunInput(timeWindows[wi], spatial[ti])];
      }
      assert timeWindows[..wi + 1][..wi] == timeWindows[..wi];
    }
    assert timeWindows[..|timeWindows|] == timeWindows;
    return Ok(partitions);
  }

  lemma {:induction false} ProductMembers(windows: seq<Option<TimeWindow>>, tiles: seq<Option<Tile>>, p: RunInput)
    ensures p in Product(windows, tiles) <==> p.window in windows && p.tile in tiles
  {
    if windows != [] {
      var n := |windows| - 1;
      ProductMembers(windows[..n], tiles, p);
      var row := Row(windows[n], tiles, |tiles|);
      assert windows == windows[..n] + [windows[n]];
      assert p in row <==> p.window == windows[n] && p.tile in tiles by {
        if p.window == windows[n] && p.tile in tiles {
          var i :| 0 <= i < |tiles| && tiles[i] == p.tile;
          assert row[i] == p;
        }
      }
    }
  }

  // ---------------------------------------------------------------------------------------------
  // The run.
  // ---------------------------------------------------------------------------------------------

  function Children(video: Video, parts: seq<RunInput>): (r: seq<seq<Detection>>)
    ensures |r| == |parts| && forall i :: 0 <= i < |parts| ==> r[i] == ChildDetections(video, parts[i])
  {
    seq(|parts|, i requires 0 <= i < |parts| => ChildDetections(video, parts[i]))
  }

  /** The merged detections of a run. */
  function RunDetections(video: Video, input: RunInput, split: Split, iouThreshold: real): seq<Detection>
    requires Sound(split)
  {
    Kept(Concat(Children(video, Partitions(video, input, split))), iouThreshold, true)
  }

  function DetectionsOf(outputs: seq<RunOutput>): (r: seq<seq<Detection>>)
    ensures |r| == |outputs| && forall i :: 0 <= i < |outputs| ==> r[i] == outputs[i].detections
  {
    seq(|outputs|, i requires 0 <= i < |outputs| => outputs[i].detections)
  }

  function TotalFrames(outputs: seq<RunOutput>): nat {
    if outputs == [] then 0 else TotalFrames(outputs[..|outputs| - 1]) + outputs[|outputs| - 1].framesProcessed
  }

  function TotalLength(groups: seq<seq<Detection>>): nat {
    if groups == [] then 0 else TotalLength(groups[..|groups| - 1]) + |groups[|groups| - 1]|
  }

  /** The frames of the parts add up. */
  lemma {:induction false} FramesAddUp(a: seq<RunOutput>, b: seq<RunOutput>)
    ensures TotalFrames(a + b) == TotalFrames(a) + TotalFrames(b)
    ensures |b| == 1 ==> TotalFrames(b) == b[0].framesProcessed
  {
    if b == [] {
      assert a + b == a;
    } else {
      assert (a + b)[..|a + b| - 1] == a + b[..|b| - 1];
      FramesAddUp(a, b[..|b| - 1]);
    }
  }

  method MergeRunOutputs(outputs: seq<RunOutput>, iouThreshold: real) returns (r: Result<Merged>)
    ensures r.ValueError? <==> outputs == []
    ensures r.Ok? ==> r.value.output.detections == Kept(Concat(DetectionsOf(outputs)), iouThreshold, true)
    ensures r.Ok? ==> r.value.output.totalDetections == |r.value.output.detections| <= r.value.preMerge
    ensures r.Ok? ==> r.value.preMerge == TotalLength(DetectionsOf(outputs)) && r.value.partitionsMerged == |outputs|
    ensures r.Ok? ==> r.value.output.framesProcessed == TotalFrames(outputs)
  {
    if outputs == [] { return ValueError("merge_run_outputs requires at least one RunOutput"); }
    var groups := DetectionsOf(outputs);
    var merged := MergeDetectionSets(groups, iouThreshold);
    KeptIsShorter(Concat(groups), iouThreshold, true);
    ConcatLength(groups);
    return Ok(Merged(RunOutput(merged, TotalFrames(outputs), |merged|), |outputs|, TotalLength(groups)));
  }

  lemma {:induction false} ConcatLength(groups: seq<seq<Detection>>)
    ensures |Concat(groups)| == TotalLength(groups)
  {
    if groups != [] { ConcatLength(groups[..|groups| - 1]); }
  }

  /** Execute every child. */
  method Execute(video: Video, parts: seq<RunInput>) returns (outputs: seq<RunOutput>)
    ensures |outputs| == |parts| && DetectionsOf(outputs) == Children(video, parts)
  {
    outputs := [];
    hide ChildDetections, FramesIn;
    for i := 0 to |parts|
      invariant |outputs| == i
      invariant forall k :: 0 <= k < i ==> outputs[k].detections == ChildDetections(video, parts[k])
    {
      var output := ProcessPartition(video, parts[i]);
      outputs := outputs + [output];
    }
    assert DetectionsOf(outputs) == Children(video, parts);
  }

  /** Partition, execute every child, merge. */
  method Run(video: Video, input: RunInput, split: Split, iouThreshold: real) returns (r: Result<Merged>)
    ensures r.Ok? <==> Sound(split)
    ensures r.Ok? ==> r.value.output.detections == RunDetections(video, input, split, iouThreshold)
    ensures r.Ok? ==> r.value.partitionsMerged == |Partitions(video, input, split)|
    ensures r.Ok? ==> r.value.output.totalDetections == |r.value.output.detections| <= r.value.preMerge
  {
    var parts := BuildPartitions(video, input, split);
    if parts.ValueError? { return ValueError(parts.message); }
    hide *;
    var outputs := Execute(video, parts.value);
    SomePartition(video, input, split);
    RunDetectionsAre(video, input, split, iouThreshold);
    r := MergeRunOutputs(outputs, iouThreshold);
  }

  lemma RunDetectionsAre(video: Video, input: RunInput, split: Split, iouThreshold: real)
    requires Sound(split)
    ensures RunDetections(video, input, split, iouThreshold)
            == Kept(Concat(Children(video, Partitions(video, input, split))), iouThreshold, true)
  {
  }

  /** A run always has a partition, so the merge never sees the empty list it refuses. */
  lemma SomePartition(video: Video, input: RunInput, split: Split)
    requires Sound(split)
    ensures Partitions(video, input, split) != []
  {
    if Tiled(split) { TileGridMeans(WidthOf(video), HeightOf(video), split.nx, split.ny, split.overlap, split.ny); }
    hide TileGrid, WindowAt;
    var windows, tiles := Windows(video, input, split), Tiles(video, input, split);
    assert |windows| >= 1 && |tiles| >= 1;
    var p := RunInput(windows[0], tiles[0]);
    ProductMembers(windows, tiles, p);
  }
}
