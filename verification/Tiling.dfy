/** Cutting a frame into overlapping tiles for a model, in whole pixels. */
module Tiling {
  import opened Division

  /** The region of the frame a tile covers. */
  datatype TileMeta = TileMeta(xOff: nat, yOff: nat, width: nat, height: nat)

  /** `int(tile * (1 - overlap))`, but at least 1. */
  function Step(tile: nat, overlap: real): (step: nat)
    requires 0.0 <= overlap < 1.0
    ensures step >= 1
    ensures tile >= 1 ==> step <= tile
    ensures tile >= 2 ==> (step == tile <==> overlap == 0.0)
  {
    var part := tile as real * (1.0 - overlap);
    Shrinks(tile as real, overlap);
    if part.Floor < 1 then 1 else part.Floor
  }

  lemma Shrinks(tile: real, overlap: real)
    requires tile >= 0.0 && 0.0 <= overlap < 1.0
    ensures 0.0 <= tile * (1.0 - overlap) <= tile
    ensures tile > 0.0 ==> (tile * (1.0 - overlap) == tile <==> overlap == 0.0)
  {
    assert tile * (1.0 - overlap) == tile - tile * overlap;
    assert tile * overlap >= 0.0;
    assert tile * (1.0 - overlap) >= 0.0;
    if tile > 0.0 && overlap > 0.0 { assert tile * overlap > 0.0; }
  }

  /** Where the tiles of an axis stop starting. */
  function Limit(size: nat): nat { if size >= 2 then size - 1 else 1 }

  /** The offsets `range(from, limit, step)`. */
  function Starts(from: nat, limit: nat, step: nat): seq<nat>
    requires step >= 1
    decreases if from < limit then limit - from else 0
  {
    if from < limit then [from] + Starts(from + step, limit, step) else []
  }

  /** The end of the tile that starts at `start`. */
  function Stop(start: nat, tile: nat, size: nat): nat {
    if start + tile <= size then start + tile else size
  }

  /** The tile at an offset, unless its region is empty. */
  function TilesAt(x: nat, y: nat, w: nat, h: nat, tileW: nat, tileH: nat): seq<TileMeta> {
    if Stop(x, tileW, w) > x && Stop(y, tileH, h) > y
    then [TileMeta(x, y, Stop(x, tileW, w) - x, Stop(y, tileH, h) - y)]
    else []
  }

  function RowOf(xs: seq<nat>, y: nat, w: nat, h: nat, tileW: nat, tileH: nat): seq<TileMeta> {
    if xs == [] then []
    else RowOf(xs[..|xs| - 1], y, w, h, tileW, tileH) + TilesAt(xs[|xs| - 1], y, w, h, tileW, tileH)
  }

  /** Row by row, left to right. */
  function Grid(xs: seq<nat>, ys: seq<nat>, w: nat, h: nat, tileW: nat, tileH: nat): seq<TileMeta> {
    if ys == [] then []
    else Grid(xs, ys[..|ys| - 1], w, h, tileW, tileH) + RowOf(xs, ys[|ys| - 1], w, h, tileW, tileH)
  }

  /** The tiles of a frame of `w` by `h` pixels. */
  function Tiles(w: nat, h: nat, tileW: nat, tileH: nat, overlap: real): seq<TileMeta>
    requires 0.0 <= overlap < 1.0
  {
    Grid(Starts(0, Limit(w), Step(tileW, overlap)), Starts(0, Limit(h), Step(tileH, overlap)), w, h, tileW, tileH)
  }

  /** The inner loop: one row of tiles. */
  method GenerateRow(xs: seq<nat>, y0: nat, w: nat, h: nat, tileW: nat, tileH: nat) returns (row: seq<TileMeta>)
    ensures row == RowOf(xs, y0, w, h, tileW, tileH)
  {
    row := [];
    for i := 0 to |xs|
      invariant row == RowOf(xs[..i], y0, w, h, tileW, tileH)
    {
      var x0 := xs[i];
      assert xs[..i + 1][..i] == xs[..i];
      var x1, y1 := Stop(x0, tileW, w), Stop(y0, tileH, h);
      if x1 <= x0 || y1 <= y0 { continue; }
      row := row + [TileMeta(x0, y0, x1 - x0, y1 - y0)];
    }
    assert xs[..|xs|] == xs;
  }

  method GenerateTiles(w: nat, h: nat, tileW: nat, tileH: nat, overlap: real) returns (tiles: seq<TileMeta>)
    requires 0.0 <= overlap < 1.0
    ensures tiles == Tiles(w, h, tileW, tileH, overlap)
  {
    hide RowOf, Starts, Step;
    var stepX, stepY := Step(tileW, overlap), Step(tileH, overlap);
    var ys, xs := Starts(0, Limit(h), stepY), Starts(0, Limit(w), stepX);
    tiles := [];
    for j := 0 to |ys|
      invariant tiles == Grid(xs, ys[..j], w, h, tileW, tileH)
    {
      var row := GenerateRow(xs, ys[j], w, h, tileW, tileH);
      assert ys[..j + 1][..j] == ys[..j];
      tiles := tiles + row;
    }
    assert ys[..|ys|] == ys;
  }

  // ---------------------------------------------------------------------------------------------
  // One axis.
  // ---------------------------------------------------------------------------------------------

  lemma {:induction false} StartsMean(from: nat, limit: nat, step: nat, s: nat)
    requires step >= 1
    ensures s in Starts(from, limit, step) <==> from <= s < limit && (s - from) % step == 0
    decreases if from < limit then limit - from else 0
  {
    if from < limit {
      StartsMean(from + step, limit, step, s);
      if from <= s && s < from + step {
        assert (s - from) % step == s - from;
      } else if from + step <= s {
        AddStep(s - from - step, step);
      }
    }
  }

  lemma AddStep(a: nat, step: nat)
    requires step >= 1
    ensures (a + step) % step == a % step
  {
    assert a == a / step * step + a % step;
    assert a + step == (a / step + 1) * step + a % step;
    Remainder(a / step + 1, step, a % step);
  }

  /** The last start at or below `p`. */
  lemma LastStart(limit: nat, step: nat, p: nat) returns (s: nat)
    requires step >= 1 && p < limit
    ensures s in Starts(0, limit, step) && s <= p < s + step
  {
    s := p / step * step;
    assert p == p / step * step + p % step;
    Remainder(p / step, step, 0);
    StartsMean(0, limit, step, s);
  }

  ghost predicate AxisCovers(size: nat, tile: nat, step: nat, p: nat)
    requires step >= 1
  {
    exists s :: s in Starts(0, Limit(size), step) && s <= p < Stop(s, tile, size)
  }

  /** The pixel no tile reaches: the last one, when a further tile would have started on it. */
  predicate Missed(size: nat, tile: nat, step: nat, p: nat)
    requires step >= 1
  {
    step == tile && p == size - 1 && p > 0 && p % step == 0
  }

  /**
   * Every pixel of an axis is covered but one: the last, exactly when tiles do not overlap and it is a multiple of the
   * step.
   */
  lemma AxisCoverage(size: nat, tile: nat, step: nat, p: nat)
    requires 1 <= step <= tile && p < size
    ensures AxisCovers(size, tile, step, p) <==> !Missed(size, tile, step, p)
  {
    var limit := Limit(size);
    if p < limit {
      var s := LastStart(limit, step, p);
      assert s <= p < Stop(s, tile, size);
    } else {
      var s := LastStart(limit, step, limit - 1);
      StartsMean(0, limit, step, s);
      if p == s + step { AddStep(s, step); }
      forall t | t in Starts(0, limit, step) ensures t <= s { LastIsLast(limit, step, s, t); }
      if p < s + tile {
        assert s <= p < Stop(s, tile, size);
        if p % step == 0 && step == tile { MultiplesApart(s, p, step); }
      }
    }
  }

  lemma MultiplesApart(a: nat, b: nat, step: nat)
    requires step >= 1 && a % step == 0 && b % step == 0 && a < b
    ensures a + step <= b
  {
    var k := b / step - a / step;
    assert a == a / step * step && b == b / step * step;
    assert k * step == b - a;
    if b - a < step { SmallMultiple(k, step); }
  }

  lemma LastIsLast(limit: nat, step: nat, s: nat, t: nat)
    requires step >= 1 && limit >= 1 && s <= limit - 1 < s + step
    requires s in Starts(0, limit, step) && t in Starts(0, limit, step)
    ensures t <= s
  {
    StartsMean(0, limit, step, s);
    StartsMean(0, limit, step, t);
    if t > s { MultiplesApart(s, t, step); }
  }

  /** The stretch from `a` of length `len` lies within one tile. */
  ghost predicate AxisHolds(size: nat, tile: nat, step: nat, a: nat, len: nat)
    requires step >= 1
  {
    exists s :: s in Starts(0, Limit(size), step) && s <= a && a + len <= Stop(s, tile, size)
  }

  /** With overlap, whatever is at most the overlap plus one pixel long lies wholly in some tile. */
  lemma AxisHoldsSmall(size: nat, tile: nat, step: nat, a: nat, len: nat)
    requires 1 <= step < tile && 1 <= len <= tile - step + 1 && a + len <= size
    ensures AxisHolds(size, tile, step, a, len)
  {
    var limit := Limit(size);
    var s := LastStart(limit, step, if a < limit then a else limit - 1);
    assert s <= a && a + len <= Stop(s, tile, size);
  }

  /**
   * And that length is the most that can be promised, unless one tile is enough: anything longer can straddle two
   * tiles.
   */
  lemma AxisHoldsExactly(size: nat, tile: nat, step: nat, len: nat)
    requires 1 <= step < tile && 1 <= len <= size
    ensures (forall a: nat :: a + len <= size ==> AxisHolds(size, tile, step, a, len))
            <==> len <= tile - step + 1 || size <= tile
  {
    if len <= tile - step + 1 {
      forall a: nat | a + len <= size ensures AxisHolds(size, tile, step, a, len) {
        AxisHoldsSmall(size, tile, step, a, len);
      }
    } else if size <= tile {
      StartsMean(0, Limit(size), step, 0);
      forall a: nat | a + len <= size ensures AxisHolds(size, tile, step, a, len) {
        assert a + len <= Stop(0, tile, size);
      }
    } else {
      var a: nat := if step - 1 + len <= size then step - 1 else size - len;
      forall s | s in Starts(0, Limit(size), step) && s <= a ensures a + len > Stop(s, tile, size) {
        StartsMean(0, Limit(size), step, s);
        if s > 0 { MultiplesApart(0, s, step); }
      }
      assert !AxisHolds(size, tile, step, a, len);
    }
  }

  // ---------------------------------------------------------------------------------------------
  // The frame.
  // ---------------------------------------------------------------------------------------------

  lemma {:induction false} RowMembers(xs: seq<nat>, y: nat, w: nat, h: nat, tileW: nat, tileH: nat, t: TileMeta)
    ensures t in RowOf(xs, y, w, h, tileW, tileH) <==> t.xOff in xs && t in TilesAt(t.xOff, y, w, h, tileW, tileH)
  {
    if xs != [] {
      var n := |xs| - 1;
      RowMembers(xs[..n], y, w, h, tileW, tileH, t);
      assert xs == xs[..n] + [xs[n]];
    }
  }

  lemma {:induction false} GridMembers(xs: seq<nat>, ys: seq<nat>, w: nat, h: nat, tileW: nat, tileH: nat, t: TileMeta)
    ensures t in Grid(xs, ys, w, h, tileW, tileH)
            <==> t.xOff in xs && t.yOff in ys && t in TilesAt(t.xOff, t.yOff, w, h, tileW, tileH)
  {
    if ys != [] {
      var n := |ys| - 1;
      GridMembers(xs, ys[..n], w, h, tileW, tileH, t);
      RowMembers(xs, ys[n], w, h, tileW, tileH, t);
      assert ys == ys[..n] + [ys[n]];
    }
  }

  /** Every tile is non-empty and inside the frame, and no larger than asked for. */
  lemma TilesInside(w: nat, h: nat, tileW: nat, tileH: nat, overlap: real, t: TileMeta)
    requires 0.0 <= overlap < 1.0 && t in Tiles(w, h, tileW, tileH, overlap)
    ensures 1 <= t.width <= tileW && t.xOff + t.width <= w
    ensures 1 <= t.height <= tileH && t.yOff + t.height <= h
  {
    GridMembers(Starts(0, Limit(w), Step(tileW, overlap)), Starts(0, Limit(h), Step(tileH, overlap)), w, h, tileW,
                tileH, t);
  }

  /** The largest whole number of pixels that is at most `tile * (1 - overlap)`, or 1 where that is 0. */
  predicate Spaced(tile: nat, overlap: real, s: nat) {
    var spacing := tile as real * (1.0 - overlap);
    s >= 1 && if spacing < 1.0 then s == 1 else s as real <= spacing < s as real + 1.0
  }

  lemma StepIs(tile: nat, overlap: real, s: nat)
    requires 0.0 <= overlap < 1.0 && Spaced(tile, overlap, s)
    ensures Step(tile, overlap) == s
  {
    var spacing := tile as real * (1.0 - overlap);
    FloorIs(spacing, s);
  }

  lemma FloorIs(x: real, s: nat)
    ensures s as real <= x < s as real + 1.0 ==> x.Floor == s
    ensures 0.0 <= x < 1.0 ==> x.Floor == 0
  {
  }

  /**
   * The place of a tile along one axis: a multiple of the spacing in front of the last pixel, and cut off at the edge.
   */
  predicate OnAxis(size: nat, tile: nat, s: nat, offset: nat, length: nat)
    requires s >= 1
  {
    && offset % s == 0 && offset < (if size >= 2 then size - 1 else 1)
    && offset + length == (if offset + tile <= size then offset + tile else size) && length >= 1
  }

  /**
   * The tiles in numbers: along each axis they start at the multiples of one spacing, the largest whole one that
   * leaves neighbours the overlap asked for; and all of these are there.
   */
  lemma TilesInNumbers(w: nat, h: nat, tileW: nat, tileH: nat, overlap: real, sx: nat, sy: nat, t: TileMeta)
    requires 0.0 <= overlap < 1.0 && Spaced(tileW, overlap, sx) && Spaced(tileH, overlap, sy)
    ensures t in Tiles(w, h, tileW, tileH, overlap) <==>
            OnAxis(w, tileW, sx, t.xOff, t.width) && OnAxis(h, tileH, sy, t.yOff, t.height)
  {
    StepIs(tileW, overlap, sx);
    StepIs(tileH, overlap, sy);
    var xs, ys := Starts(0, Limit(w), sx), Starts(0, Limit(h), sy);
    assert Tiles(w, h, tileW, tileH, overlap) == Grid(xs, ys, w, h, tileW, tileH) && sx >= 1 && sy >= 1;
    hide *;
    GridMembers(xs, ys, w, h, tileW, tileH, t);
    StartsMean(0, Limit(w), sx, t.xOff);
    StartsMean(0, Limit(h), sy, t.yOff);
    TileOnAxes(w, h, tileW, tileH, sx, sy, t);
  }

  lemma TileOnAxes(w: nat, h: nat, tileW: nat, tileH: nat, sx: nat, sy: nat, t: TileMeta)
    requires sx >= 1 && sy >= 1
    ensures
      && t.xOff < Limit(w) && t.xOff % sx == 0 && t.yOff < Limit(h) && t.yOff % sy == 0
      && t in TilesAt(t.xOff, t.yOff, w, h, tileW, tileH)
      <==> OnAxis(w, tileW, sx, t.xOff, t.width) && OnAxis(h, tileH, sy, t.yOff, t.height)
  {
    var mx, my := t.xOff % sx, t.yOff % sy;
  }

  /** In a row above, or in the same row further left. */
  predicate Earlier(a: TileMeta, b: TileMeta) {
    a.yOff < b.yOff || (a.yOff == b.yOff && a.xOff < b.xOff)
  }

  ghost predicate InOrder(tiles: seq<TileMeta>) {
    forall i, j :: 0 <= i < j < |tiles| ==> Earlier(tiles[i], tiles[j])
  }

  /** The tiles are listed row by row and from left to right, none twice. */
  lemma TilesInOrder(w: nat, h: nat, tileW: nat, tileH: nat, overlap: real)
    requires 0.0 <= overlap < 1.0
    ensures InOrder(Tiles(w, h, tileW, tileH, overlap))
  {
    hide Step;
    var xs, ys := Starts(0, Limit(w), Step(tileW, overlap)), Starts(0, Limit(h), Step(tileH, overlap));
    StartsRise(0, Limit(w), Step(tileW, overlap));
    StartsRise(0, Limit(h), Step(tileH, overlap));
    GridInOrder(xs, ys, w, h, tileW, tileH);
  }

  ghost predicate Rising(s: seq<nat>) { forall i, j :: 0 <= i < j < |s| ==> s[i] < s[j] }

  lemma {:induction false} StartsRise(from: nat, limit: nat, step: nat)
    requires step >= 1
    ensures Rising(Starts(from, limit, step)) && forall i :: 0 <= i < |Starts(from, limit, step)| ==>
                                                               Starts(from, limit, step)[i] >= from
    decreases if from < limit then limit - from else 0
  {
    if from < limit { StartsRise(from + step, limit, step); }
  }

  lemma {:induction false} RowInOrder(xs: seq<nat>, y: nat, w: nat, h: nat, tileW: nat, tileH: nat)
    requires Rising(xs)
    ensures InOrder(RowOf(xs, y, w, h, tileW, tileH))
  {
    if xs != [] {
      var n := |xs| - 1;
      var front := RowOf(xs[..n], y, w, h, tileW, tileH);
      RowInOrder(xs[..n], y, w, h, tileW, tileH);
      forall i | 0 <= i < |front| ensures front[i].yOff == y && front[i].xOff < xs[n] {
        RowMembers(xs[..n], y, w, h, tileW, tileH, front[i]);
        assert front[i] in front;
        var k :| 0 <= k < n && xs[..n][k] == front[i].xOff;
        assert xs[k] < xs[n];
      }
    }
  }

  lemma {:induction false} GridInOrder(xs: seq<nat>, ys: seq<nat>, w: nat, h: nat, tileW: nat, tileH: nat)
    requires Rising(xs) && Rising(ys)
    ensures InOrder(Grid(xs, ys, w, h, tileW, tileH))
  {
    if ys != [] {
      var n := |ys| - 1;
      var front, row := Grid(xs, ys[..n], w, h, tileW, tileH), RowOf(xs, ys[n], w, h, tileW, tileH);
      GridInOrder(xs, ys[..n], w, h, tileW, tileH);
      RowInOrder(xs, ys[n], w, h, tileW, tileH);
      forall i | 0 <= i < |front| ensures front[i].yOff < ys[n] {
        GridMembers(xs, ys[..n], w, h, tileW, tileH, front[i]);
        assert front[i] in front;
        var k :| 0 <= k < n && ys[..n][k] == front[i].yOff;
        assert ys[k] < ys[n];
      }
      forall j | 0 <= j < |row| ensures row[j].yOff == ys[n] {
        RowMembers(xs, ys[n], w, h, tileW, tileH, row[j]);
        assert row[j] in row;
      }
    }
  }

  /** Neighbouring tiles of full size share the overlap asked for, and less than a pixel more. */
  lemma NeighboursShare(tile: nat, overlap: real, s: nat, common: int)
    requires 0.0 <= overlap < 1.0 && Spaced(tile, overlap, s) && tile as real * (1.0 - overlap) >= 1.0
    requires common == tile - s
    ensures overlap * tile as real <= common as real < overlap * tile as real + 1.0
  {
    var x := tile as real;
    assert x * (1.0 - overlap) == x - overlap * x;
  }

  /** The tile contains the rectangle of `bw` by `bh` pixels at (`x`, `y`). */
  predicate Contains(t: TileMeta, x: nat, y: nat, bw: nat, bh: nat) {
    && t.xOff <= x && x + bw <= t.xOff + t.width
    && t.yOff <= y && y + bh <= t.yOff + t.height
  }

  ghost predicate SomeTileContains(w: nat, h: nat, tileW: nat, tileH: nat, overlap: real, x: nat, y: nat, bw: nat,
                                   bh: nat)
    requires 0.0 <= overlap < 1.0
  {
    exists t :: t in Tiles(w, h, tileW, tileH, overlap) && Contains(t, x, y, bw, bh)
  }

  /** A rectangle lies in a tile exactly when its two sides do, each along its own axis. */
  lemma ByAxes(w: nat, h: nat, tileW: nat, tileH: nat, overlap: real, x: nat, y: nat, bw: nat, bh: nat)
    requires 0.0 <= overlap < 1.0 && bw >= 1 && bh >= 1
    ensures SomeTileContains(w, h, tileW, tileH, overlap, x, y, bw, bh)
            <==> AxisHolds(w, tileW, Step(tileW, overlap), x, bw) && AxisHolds(h, tileH, Step(tileH, overlap), y, bh)
  {
    hide Step, Starts, Limit, Grid;
    var stepX, stepY := Step(tileW, overlap), Step(tileH, overlap);
    var xs, ys := Starts(0, Limit(w), stepX), Starts(0, Limit(h), stepY);
    if t :| t in Tiles(w, h, tileW, tileH, overlap) && Contains(t, x, y, bw, bh) {
      GridMembers(xs, ys, w, h, tileW, tileH, t);
      assert t.xOff in xs && x + bw <= Stop(t.xOff, tileW, w);
      assert t.yOff in ys && y + bh <= Stop(t.yOff, tileH, h);
    }
    if AxisHolds(w, tileW, stepX, x, bw) && AxisHolds(h, tileH, stepY, y, bh) {
      var x0 :| x0 in xs && x0 <= x && x + bw <= Stop(x0, tileW, w);
      var y0 :| y0 in ys && y0 <= y && y + bh <= Stop(y0, tileH, h);
      var t := TileMeta(x0, y0, Stop(x0, tileW, w) - x0, Stop(y0, tileH, h) - y0);
      assert t in TilesAt(x0, y0, w, h, tileW, tileH);
      GridMembers(xs, ys, w, h, tileW, tileH, t);
      assert t in Tiles(w, h, tileW, tileH, overlap) && Contains(t, x, y, bw, bh);
    }
  }

  lemma PixelByAxis(size: nat, tile: nat, step: nat, p: nat)
    requires step >= 1
    ensures AxisHolds(size, tile, step, p, 1) <==> AxisCovers(size, tile, step, p)
  {
    if s :| s in Starts(0, Limit(size), step) && s <= p && p + 1 <= Stop(s, tile, size) {
      assert s <= p < Stop(s, tile, size);
    }
    if s :| s in Starts(0, Limit(size), step) && s <= p < Stop(s, tile, size) {
      assert s <= p && p + 1 <= Stop(s, tile, size);
    }
  }

  /**
   * Coverage: a pixel of the frame is in some tile unless its row or its column is the missed one.
   * So with any overlap (of tiles of two pixels or more) all are covered.
   */
  lemma PixelCoverage(w: nat, h: nat, tileW: nat, tileH: nat, overlap: real, x: nat, y: nat)
    requires 0.0 <= overlap < 1.0 && tileW >= 1 && tileH >= 1 && x < w && y < h
    ensures SomeTileContains(w, h, tileW, tileH, overlap, x, y, 1, 1)
            <==> !Missed(w, tileW, Step(tileW, overlap), x) && !Missed(h, tileH, Step(tileH, overlap), y)
    ensures overlap > 0.0 && tileW >= 2 && tileH >= 2 ==> SomeTileContains(w, h, tileW, tileH, overlap, x, y, 1, 1)
  {
    var stepX, stepY := Step(tileW, overlap), Step(tileH, overlap);
    ByAxes(w, h, tileW, tileH, overlap, x, y, 1, 1);
    PixelByAxis(w, tileW, stepX, x);
    PixelByAxis(h, tileH, stepY, y);
    AxisCoverage(w, tileW, stepX, x);
    AxisCoverage(h, tileH, stepY, y);
    hide SomeTileContains, AxisHolds, AxisCovers;
  }

  /** Where tiles overlap, an object no larger than the overlap plus one pixel is seen whole by some tile. */
  lemma SmallObjectsSeenWhole(w: nat, h: nat, tileW: nat, tileH: nat, overlap: real, x: nat, y: nat, bw: nat, bh: nat)
    requires 0.0 <= overlap < 1.0 && Step(tileW, overlap) < tileW && Step(tileH, overlap) < tileH
    requires 1 <= bw <= tileW - Step(tileW, overlap) + 1 && x + bw <= w
    requires 1 <= bh <= tileH - Step(tileH, overlap) + 1 && y + bh <= h
    ensures SomeTileContains(w, h, tileW, tileH, overlap, x, y, bw, bh)
  {
    AxisHoldsSmall(w, tileW, Step(tileW, overlap), x, bw);
    AxisHoldsSmall(h, tileH, Step(tileH, overlap), y, bh);
    hide SomeTileContains, AxisHolds;
    ByAxes(w, h, tileW, tileH, overlap, x, y, bw, bh);
  }
}
