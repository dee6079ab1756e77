/** The partitioning of a run: overlapping time windows and a grid of overlapping tiles. */
module Partition {
  import opened Detections
  import opened Options
  import opened Rounding

  /** A time window in seconds; a bound that is missing does not bind. */
  datatype TimeWindow = TimeWindow(start: Option<real>, end: Option<real>)

  datatype Tile = Tile(x: real, y: real, w: real, h: real, col: nat, row: nat)

  const MICRO: real := 1000000.0
  const TENTH_MILLI: real := 10000.0

  function Share(span: real, n: int): real
    requires n != 0
  {
    span / n as real
  }

  function Pad(step: real, overlap: real): real { step * overlap }

  /** The lower edge of piece `i`: `pad` below its share, but not below `low`. */
  function LowEdge(low: real, step: real, pad: real, i: int): real {
    Max(low, low + i as real * step - pad)
  }

  /** The upper edge of piece `i`: `pad` above its share, but not above `high`. */
  function HighEdge(low: real, high: real, step: real, pad: real, i: int): real {
    Min(high, low + (i + 1) as real * step + pad)
  }

  lemma WholeSteps(span: real, n: int, overlap: real)
    requires span >= 0.0 && n >= 1 && overlap >= 0.0
    ensures n as real * Share(span, n) == span
    ensures Share(span, n) >= 0.0 && Pad(Share(span, n), overlap) >= 0.0
  {
    var step := Share(span, n);
    assert n as real * step == span;
    assert step >= 0.0;
  }

  lemma Shares(step: real, n: int, i: int)
    requires step >= 0.0 && 0 <= i < n
    ensures 0.0 <= i as real * step && (i + 1) as real * step == i as real * step + step
    ensures (i + 1) as real * step <= n as real * step
  {
    assert (n - i - 1) as real * step >= 0.0;
  }

  /** Pieces stay between `low` and `high`, the first and the last reach them, and neighbours meet. */
  lemma PieceEdges(low: real, high: real, step: real, pad: real, n: int, i: int)
    requires low <= high && step >= 0.0 && pad >= 0.0 && 0 <= i < n && n as real * step == high - low
    ensures low <= LowEdge(low, step, pad, i) <= HighEdge(low, high, step, pad, i) <= high
    ensures i == 0 ==> LowEdge(low, step, pad, i) == low
    ensures i == n - 1 ==> HighEdge(low, high, step, pad, i) == high
    ensures i < n - 1 ==> LowEdge(low, step, pad, i + 1) <= HighEdge(low, high, step, pad, i)
  {
    Shares(step, n, i);
    var here, next := i as real * step, (i + 1) as real * step;
    hide Max, Min;
    Clipped(low, high, here, next, pad);
  }

  lemma Clipped(low: real, high: real, here: real, next: real, pad: real)
    requires 0.0 <= here <= next <= high - low && pad >= 0.0
    ensures low <= Max(low, low + here - pad) <= Min(high, low + next + pad) <= high
    ensures here == 0.0 ==> Max(low, low + here - pad) == low
    ensures next == high - low ==> Min(high, low + next + pad) == high
    ensures Max(low, low + next - pad) <= Min(high, low + next + pad)
  {
  }

  // ---------------------------------------------------------------------------------------------
  // Time windows.
  // ---------------------------------------------------------------------------------------------

  function Span(start: real, end: real): real { Max(0.0, end - start) }

  function WindowStart(start: real, end: real, count: int, overlap: real, i: int): real
    requires count >= 1
  {
    var width := Share(Span(start, end), count);
    LowEdge(start, width, Pad(width, overlap), i)
  }

  function WindowEnd(start: real, end: real, count: int, overlap: real, i: int): real
    requires count >= 1
  {
    var width := Share(Span(start, end), count);
    HighEdge(start, end, width, Pad(width, overlap), i)
  }

  function WindowAt(start: real, end: real, count: int, overlap: real, i: int): TimeWindow
    requires count >= 1
  {
    TimeWindow(Some(RoundTo(WindowStart(start, end, count, overlap, i), MICRO)),
               Some(RoundTo(WindowEnd(start, end, count, overlap, i), MICRO)))
  }

  /** The larger of two numbers. */
  predicate IsLarger(m: real, a: real, b: real) { m == if a < b then b else a }

  /** The smaller of two numbers. */
  predicate IsSmaller(m: real, a: real, b: real) { m == if b < a then b else a }

  /**
   * Window `i` in numbers: with `width` an equal share of the span, it reaches from `overlap` widths before its share
   * to as much behind it, cut off at the ends of the span and rounded to microseconds.
   */
  lemma WindowInNumbers(start: real, end: real, count: int, overlap: real, i: int, width: real, low: real, high: real)
    requires count >= 1 && width * count as real == (if start < end then end - start else 0.0)
    requires IsLarger(low, start, start + i as real * width - overlap * width)
    requires IsSmaller(high, end, start + (i + 1) as real * width + overlap * width)
    ensures WindowAt(start, end, count, overlap, i)
            == TimeWindow(Some(RoundTo(low, 1000000.0)), Some(RoundTo(high, 1000000.0)))
  {
    ShareIs(Span(start, end), count, width);
    PadIs(width, overlap);
    hide RoundTo, Share, Pad;
  }

  lemma ShareIs(span: real, n: int, width: real)
    requires n >= 1 && width * n as real == span
    ensures Share(span, n) == width
  {
    var x := n as real;
    assert width * x / x == width;
  }

  method PartitionTimeWindows(start: real, end: real, count: int, overlap: real) returns (r: Result<seq<TimeWindow>>)
    ensures r.ValueError? <==> count < 1 || !(0.0 <= overlap < 1.0)
    ensures r.Ok? ==> (|r.value| == count
                       && forall i :: 0 <= i < count ==> r.value[i] == WindowAt(start, end, count, overlap, i))
  {
    if count < 1 { return ValueError("count must be >= 1"); }
    if !(0.0 <= overlap < 1.0) { return ValueError("overlap must be in [0, 1)"); }
    var span := Span(start, end);
    var width := Share(span, count);
    var pad := Pad(width, overlap);
    var windows: seq<TimeWindow> := [];
    hide RoundTo, LowEdge, HighEdge, Span, Share, Pad;
    for i := 0 to count
      invariant |windows| == i
      invariant forall k :: 0 <= k < i ==> windows[k] == WindowAt(start, end, count, overlap, k)
    {
      var wStart := LowEdge(start, width, pad, i);
      var wEnd := HighEdge(start, end, width, pad, i);
      windows := windows + [TimeWindow(Some(RoundTo(wStart, MICRO)), Some(RoundTo(wEnd, MICRO)))];
    }
    return Ok(windows);
  }

  /** The test a frame's timestamp is put to. */
  predicate Within(t: real, w: TimeWindow) {
    && !(w.start.Some? && t < w.start.value)
    && !(w.end.Some? && t > w.end.value)
  }

  /** Some window of the partition contains `t`. */
  ghost predicate InSomeWindow(start: real, end: real, count: int, overlap: real, t: real)
    requires count >= 1
  {
    exists i :: 0 <= i < count && Within(t, WindowAt(start, end, count, overlap, i))
  }

  /** Before rounding: windows stay in the span, start and end with it, and leave nothing between them. */
  lemma WindowEdges(start: real, end: real, count: int, overlap: real, i: int)
    requires 0 <= i < count && 0.0 <= overlap && start <= end
    ensures start <= WindowStart(start, end, count, overlap, i) <= end
    ensures start <= WindowEnd(start, end, count, overlap, i) <= end
    ensures i == 0 ==> WindowStart(start, end, count, overlap, i) == start
    ensures i == count - 1 ==> WindowEnd(start, end, count, overlap, i) == end
    ensures i > 0 ==> WindowStart(start, end, count, overlap, i) <= WindowEnd(start, end, count, overlap, i - 1)
  {
    var width := Share(Span(start, end), count);
    var pad := Pad(width, overlap);
    WholeSteps(Span(start, end), count, overlap);
    hide LowEdge, HighEdge, Share, Pad;
    PieceEdges(start, end, width, pad, count, i);
    if i > 0 { PieceEdges(start, end, width, pad, count, i - 1); }
  }

  /** If the span is empty or reversed, every window is the whole of it. */
  lemma WindowOfNothing(start: real, end: real, count: int, overlap: real, i: int)
    requires 0 <= i < count && start >= end
    ensures WindowStart(start, end, count, overlap, i) == start
    ensures WindowEnd(start, end, count, overlap, i) == end
  {
    assert Span(start, end) == 0.0;
    assert Share(Span(start, end), count) == 0.0;
  }

  /** The windows together are exactly the rounded span: no gap between them, nothing outside. */
  lemma WindowsCover(start: real, end: real, count: int, overlap: real, t: real)
    requires count >= 1 && 0.0 <= overlap < 1.0
    ensures InSomeWindow(start, end, count, overlap, t) <==> RoundTo(start, MICRO) <= t <= RoundTo(end, MICRO)
  {
    if start >= end {
      forall i | 0 <= i < count
        ensures Within(t, WindowAt(start, end, count, overlap, i)) <==>
                RoundTo(start, MICRO) <= t <= RoundTo(end, MICRO)
      {
        WindowOfNothing(start, end, count, overlap, i);
      }
      if RoundTo(start, MICRO) <= t <= RoundTo(end, MICRO) {
        assert Within(t, WindowAt(start, end, count, overlap, 0));
      }
    } else {
      if i :| 0 <= i < count && Within(t, WindowAt(start, end, count, overlap, i)) {
        WindowEdges(start, end, count, overlap, i);
        RoundMonotone(start, WindowStart(start, end, count, overlap, i), MICRO);
        RoundMonotone(WindowEnd(start, end, count, overlap, i), end, MICRO);
      }
      if RoundTo(start, MICRO) <= t <= RoundTo(end, MICRO) {
        var i := FirstReaching(start, end, count, overlap, t);
        assert Within(t, WindowAt(start, end, count, overlap, i));
      }
    }
  }

  /** The first window whose end is not before `t` has its start not after `t`. */
  lemma FirstReaching(start: real, end: real, count: int, overlap: real, t: real) returns (i: int)
    requires count >= 1 && 0.0 <= overlap < 1.0 && start <= end
    requires RoundTo(start, MICRO) <= t <= RoundTo(end, MICRO)
    ensures 0 <= i < count && Within(t, WindowAt(start, end, count, overlap, i))
  {
    hide WindowStart, WindowEnd, RoundTo;
    i := 0;
    WindowEdges(start, end, count, overlap, 0);
    while t > WindowAt(start, end, count, overlap, i).end.value
      invariant 0 <= i < count && WindowAt(start, end, count, overlap, i).start.value <= t
      decreases count - i
    {
      WindowEdges(start, end, count, overlap, i);
      i := i + 1;
      WindowEdges(start, end, count, overlap, i);
      RoundMonotone(WindowStart(start, end, count, overlap, i), WindowEnd(start, end, count, overlap, i - 1), MICRO);
    }
  }

  /** All of [start, end] is covered exactly when rounding does not move its two ends inwards. */
  lemma SpanCovered(start: real, end: real, count: int, overlap: real)
    requires count >= 1 && 0.0 <= overlap < 1.0 && start <= end
    ensures (forall t :: start <= t <= end ==> InSomeWindow(start, end, count, overlap, t))
            <==> RoundTo(start, MICRO) <= start && end <= RoundTo(end, MICRO)
  {
    hide InSomeWindow, RoundTo;
    forall t
      ensures InSomeWindow(start, end, count, overlap, t) <==> RoundTo(start, MICRO) <= t <= RoundTo(end, MICRO)
    {
      WindowsCover(start, end, count, overlap, t);
    }
    if forall t :: start <= t <= end ==> InSomeWindow(start, end, count, overlap, t) {
      assert InSomeWindow(start, end, count, overlap, start);
      assert InSomeWindow(start, end, count, overlap, end);
    }
  }

  // ---------------------------------------------------------------------------------------------
  // Tiles: one axis of the grid.
  // ---------------------------------------------------------------------------------------------

  /** The lower edge of tile `i` along an axis of `size` pixels cut in `n`, before rounding. */
  function EdgeLow(size: int, n: int, overlap: real, i: int): real
    requires n >= 1
  {
    var step := Share(size as real, n);
    LowEdge(0.0, step, Pad(step, overlap), i)
  }

  function EdgeHigh(size: int, n: int, overlap: real, i: int): real
    requires n >= 1
  {
    var step := Share(size as real, n);
    HighEdge(0.0, size as real, step, Pad(step, overlap), i)
  }

  function Offset(size: int, n: int, overlap: real, i: int): real
    requires n >= 1
  {
    RoundTo(EdgeLow(size, n, overlap, i), TENTH_MILLI)
  }

  /** The length of a tile is rounded apart from its offset. */
  function Length(size: int, n: int, overlap: real, i: int): real
    requires n >= 1
  {
    RoundTo(EdgeHigh(size, n, overlap, i) - EdgeLow(size, n, overlap, i), TENTH_MILLI)
  }

  function TileAt(width: int, height: int, nx: int, ny: int, overlap: real, col: nat, row: nat): Tile
    requires nx >= 1 && ny >= 1
  {
    Tile(Offset(width, nx, overlap, col), Offset(height, ny, overlap, row),
         Length(width, nx, overlap, col), Length(height, ny, overlap, row), col, row)
  }

  /**
   * Tile `i` of an axis in numbers: with `step` an equal share of the pixels, it reaches from `overlap` steps before
   * its share to as much behind it, cut off at the frame; its start and its length are rounded to four decimals.
   */
  lemma AxisInNumbers(size: int, n: int, overlap: real, i: int, step: real, low: real, high: real)
    requires n >= 1 && step * n as real == size as real
    requires IsLarger(low, 0.0, i as real * step - overlap * step)
    requires IsSmaller(high, size as real, (i + 1) as real * step + overlap * step)
    ensures Offset(size, n, overlap, i) == RoundTo(low, 10000.0)
    ensures Length(size, n, overlap, i) == RoundTo(high - low, 10000.0)
  {
    ShareIs(size as real, n, step);
    PadIs(step, overlap);
    hide RoundTo, Share, Pad;
    var here, next, pad := i as real * step, (i + 1) as real * step, overlap * step;
    assert EdgeLow(size, n, overlap, i) == Max(0.0, 0.0 + here - pad) == low;
    assert EdgeHigh(size, n, overlap, i) == Min(size as real, 0.0 + next + pad) == high;
    hide EdgeLow, EdgeHigh;
  }

  lemma PadIs(step: real, overlap: real)
    ensures Pad(step, overlap) == overlap * step
  {
  }

  /** The columns divide the width, the rows the height. */
  lemma TileInNumbers(width: int, height: int, nx: int, ny: int, overlap: real, col: nat, row: nat, stepX: real,
                      stepY: real, left: real, right: real, top: real, bottom: real)
    requires nx >= 1 && ny >= 1 && stepX * nx as real == width as real && stepY * ny as real == height as real
    requires IsLarger(left, 0.0, col as real * stepX - overlap * stepX)
    requires IsSmaller(right, width as real, (col + 1) as real * stepX + overlap * stepX)
    requires IsLarger(top, 0.0, row as real * stepY - overlap * stepY)
    requires IsSmaller(bottom, height as real, (row + 1) as real * stepY + overlap * stepY)
    ensures TileAt(width, height, nx, ny, overlap, col, row)
            == Tile(RoundTo(left, 10000.0), RoundTo(top, 10000.0),
                    RoundTo(right - left, 10000.0), RoundTo(bottom - top, 10000.0), col, row)
  {
    AxisInNumbers(width, nx, overlap, col, stepX, left, right);
    AxisInNumbers(height, ny, overlap, row, stepY, top, bottom);
    hide Offset, Length, RoundTo;
  }

  /** The tiles of one row, left to right. */
  function TileRow(width: int, height: int, nx: int, ny: int, overlap: real, row: nat, cols: nat): (r: seq<Tile>)
    requires nx >= 1 && ny >= 1
  {
    seq(cols, col requires 0 <= col => TileAt(width, height, nx, ny, overlap, col, row))
  }

  lemma TileRowMeans(width: int, height: int, nx: int, ny: int, overlap: real, row: nat, cols: nat)
    requires nx >= 1 && ny >= 1
    ensures var r := TileRow(width, height, nx, ny, overlap, row, cols);
            |r| == cols
            && forall t :: t in r <==>
                             exists col: nat :: col < cols && t == TileAt(width, height, nx, ny, overlap, col, row)
  {
    hide TileAt;
    var r := TileRow(width, height, nx, ny, overlap, row, cols);
    forall col: nat | col < cols ensures TileAt(width, height, nx, ny, overlap, col, row) in r {
      assert r[col] == TileAt(width, height, nx, ny, overlap, col, row);
    }
  }

  /** The first `rows` rows, top to bottom. */
  function TileGrid(width: int, height: int, nx: int, ny: int, overlap: real, rows: nat): seq<Tile>
    requires nx >= 1 && ny >= 1
  {
    if rows == 0 then []
    else TileGrid(width, height, nx, ny, overlap, rows - 1) + TileRow(width, height, nx, ny, overlap, rows - 1, nx)
  }

  lemma {:induction false} TileGridMeans(width: int, height: int, nx: int, ny: int, overlap: real, rows: nat)
    requires nx >= 1 && ny >= 1
    ensures var tiles := TileGrid(width, height, nx, ny, overlap, rows);
            |tiles| == nx * rows
            && forall t :: t in tiles <==> exists col: nat, row: nat ::
                             col < nx && row < rows && t == TileAt(width, height, nx, ny, overlap, col, row)
  {
    if rows > 0 {
      hide TileAt, TileRow;
      TileRowMeans(width, height, nx, ny, overlap, rows - 1, nx);
      TileGridMeans(width, height, nx, ny, overlap, rows - 1);
      assert nx * rows == nx * (rows - 1) + nx;
    }
  }

  method PartitionTiles(width: int, height: int, nx: int, ny: int, overlap: real) returns (r: Result<seq<Tile>>)
    ensures r.ValueError? <==> nx < 1 || ny < 1
    ensures r.Ok? ==> r.value == TileGrid(width, height, nx, ny, overlap, ny)
  {
    if nx < 1 || ny < 1 { return ValueError("nx and ny must be >= 1"); }
    hide RoundTo, LowEdge, HighEdge, Share, Pad;
    var tw, th := Share(width as real, nx), Share(height as real, ny);
    var padX, padY := Pad(tw, overlap), Pad(th, overlap);
    var tiles: seq<Tile> := [];
    for j := 0 to ny
      invariant tiles == TileGrid(width, height, nx, ny, overlap, j)
    {
      for i := 0 to nx
        invariant tiles == TileGrid(width, height, nx, ny, overlap, j) + TileRow(width, height, nx, ny, overlap, j, i)
      {
        var x := LowEdge(0.0, tw, padX, i);
        var y := LowEdge(0.0, th, padY, j);
        var x2 := HighEdge(0.0, width as real, tw, padX, i);
        var y2 := HighEdge(0.0, height as real, th, padY, j);
        var tile := Tile(RoundTo(x, TENTH_MILLI), RoundTo(y, TENTH_MILLI),
                         RoundTo(x2 - x, TENTH_MILLI), RoundTo(y2 - y, TENTH_MILLI), i, j);
        assert tile == TileAt(width, height, nx, ny, overlap, i, j);
        tiles := tiles + [tile];
      }
    }
    return Ok(tiles);
  }

  /** The test a box centre's coordinate is put to. */
  predicate OnTile(c: real, size: int, n: int, overlap: real, i: int)
    requires n >= 1
  {
    Offset(size, n, overlap, i) <= c <= Offset(size, n, overlap, i) + Length(size, n, overlap, i)
  }

  ghost predicate InSomeTile(c: real, size: int, n: int, overlap: real)
    requires n >= 1
  {
    exists i: nat :: i < n && OnTile(c, size, n, overlap, i)
  }

  /** `c` falls between tile `i` and the next. */
  predicate InSeam(c: real, size: int, n: int, overlap: real, i: int)
    requires n >= 1
  {
    Offset(size, n, overlap, i) + Length(size, n, overlap, i) < c < Offset(size, n, overlap, i + 1)
  }

  /** The tiles are whole pixels, or neighbours overlap by more than rounding can take away. */
  predicate Seamless(size: int, n: int, overlap: real)
    requires n >= 1
  {
    n == 1 || size % n == 0 || Pad(Share(size as real, n), overlap) > 0.25 / TENTH_MILLI
  }

  lemma EdgesOnAxis(size: int, n: int, overlap: real, i: int)
    requires size >= 1 && 0 <= i < n && overlap >= 0.0
    ensures 0.0 <= EdgeLow(size, n, overlap, i) <= EdgeHigh(size, n, overlap, i) <= size as real
    ensures i == 0 ==> EdgeLow(size, n, overlap, i) == 0.0
    ensures i == n - 1 ==> EdgeHigh(size, n, overlap, i) == size as real
  {
    var step := Share(size as real, n);
    WholeSteps(size as real, n, overlap);
    hide LowEdge, HighEdge, Share, Pad;
    PieceEdges(0.0, size as real, step, Pad(step, overlap), n, i);
  }

  /** Before rounding, neighbours overlap by two pads, unless one of them is cut off by the frame. */
  lemma EdgesMeet(size: int, n: int, overlap: real, pad: real, i: int)
    requires n >= 1 && pad == Pad(Share(size as real, n), overlap)
    ensures || EdgeHigh(size, n, overlap, i) == size as real
            || EdgeLow(size, n, overlap, i + 1) == 0.0
            || EdgeLow(size, n, overlap, i + 1) == EdgeHigh(size, n, overlap, i) - 2.0 * pad
  {
  }

  lemma Even(half: int)
    ensures 2 * half % 2 == 0
  {
  }

  /**
   * Rounding two parts of a length apart: within a unit of the sum, and exact where the sum is the whole even length.
   */
  lemma TwoParts(x: real, y: real, half: int)
    requires x + y <= (2 * half) as real
    ensures var far := RoundInt(x) + RoundInt(y);
            x + y - 1.0 <= far as real <= x + y + 1.0 && far <= 2 * half
              && (x + y == (2 * half) as real ==> far == 2 * half)
  {
    Even(half);
    RoundIntNear(x);
    RoundIntNear(y);
    RoundIntReflects(x, 2 * half);
    RoundIntMonotone(y, (2 * half) as real - x);
    hide RoundInt;
  }

  lemma ScaledParts(size: int, low: real, high: real, x: real, y: real)
    requires high <= size as real && x == low * TENTH_MILLI && y == (high - low) * TENTH_MILLI
    ensures x + y == high * TENTH_MILLI && x + y <= (size * 10000) as real
    ensures high == size as real ==> x + y == (size * 10000) as real
  {
  }

  /** The far edge of a tile in units of 1e-4: within a unit of the true edge, and exact at the frame's own edge. */
  lemma FarEdge(size: int, low: real, high: real)
    requires high <= size as real
    ensures var far := RoundInt(low * TENTH_MILLI) + RoundInt((high - low) * TENTH_MILLI);
            high * TENTH_MILLI - 1.0 <= far as real <= high * TENTH_MILLI + 1.0
            && far <= size * 10000 && (high == size as real ==> far == size * 10000)
  {
    hide RoundInt;
    var x, y := low * TENTH_MILLI, (high - low) * TENTH_MILLI;
    ScaledParts(size, low, high, x, y);
    TwoParts(x, y, size * 5000);
  }

  /** Where a tile ends. */
  function FarEnd(size: int, n: int, overlap: real, i: int): real
    requires n >= 1
  {
    Offset(size, n, overlap, i) + Length(size, n, overlap, i)
  }

  /** A tile starts and ends inside the frame, whatever the overlap. */
  lemma TileInFrame(size: int, n: int, overlap: real, i: int)
    requires n >= 1
    ensures 0.0 <= Offset(size, n, overlap, i) && FarEnd(size, n, overlap, i) <= size as real
    ensures EdgeHigh(size, n, overlap, i) == size as real ==> FarEnd(size, n, overlap, i) == size as real
    ensures -0.0001 <= FarEnd(size, n, overlap, i) - EdgeHigh(size, n, overlap, i) <= 0.0001
  {
    var low, high := EdgeLow(size, n, overlap, i), EdgeHigh(size, n, overlap, i);
    assert low >= 0.0 && high <= size as real;
    FarEdge(size, low, high);
    RoundIntMonotone(0.0, low * TENTH_MILLI);
    hide EdgeLow, EdgeHigh, RoundInt;
    RoundIntFixes(0);
  }

  /** Unless the tiles are pushed apart, the first starts at 0 and the last ends exactly at the edge. */
  lemma TileEnds(size: int, n: int, overlap: real, i: int)
    requires size >= 1 && 0 <= i < n
    ensures 0.0 <= Offset(size, n, overlap, i) && FarEnd(size, n, overlap, i) <= size as real
    ensures overlap >= 0.0 ==> Length(size, n, overlap, i) >= 0.0
    ensures overlap >= 0.0 && i == 0 ==> Offset(size, n, overlap, i) == 0.0
    ensures overlap >= 0.0 && i == n - 1 ==> FarEnd(size, n, overlap, i) == size as real
  {
    TileInFrame(size, n, overlap, i);
    if overlap >= 0.0 {
      EdgesOnAxis(size, n, overlap, i);
      RoundMonotone(0.0, EdgeHigh(size, n, overlap, i) - EdgeLow(size, n, overlap, i), TENTH_MILLI);
      RoundFixes(0.0, TENTH_MILLI);
    }
  }

  /** How far neighbours are apart, or overlap: as far as their true edges, give or take what rounding does. */
  lemma SeamWidth(size: int, n: int, overlap: real, i: int)
    requires n >= 1
    ensures var gap := Offset(size, n, overlap, i + 1) - FarEnd(size, n, overlap, i);
            var apart := EdgeLow(size, n, overlap, i + 1) - EdgeHigh(size, n, overlap, i);
            apart - 0.00015 <= gap <= apart + 0.00015
  {
    TileInFrame(size, n, overlap, i);
    hide EdgeLow, EdgeHigh, Length;
    RoundNear(EdgeLow(size, n, overlap, i + 1), TENTH_MILLI);
  }

  /** The same in units of 1e-4, where everything rounded is whole. */
  lemma SeamUnits(size: int, low: real, high: real, next: real, pad: real)
    requires 0.0 <= low <= high <= size as real && 0.0 <= next <= size as real && pad >= 0.0
    requires high == size as real || next == 0.0 || next == high - 2.0 * pad
    ensures var gap :=
            RoundInt(next * TENTH_MILLI) - (RoundInt(low * TENTH_MILLI) + RoundInt((high - low) * TENTH_MILLI));
            gap <= 1 && (pad > 0.25 / TENTH_MILLI ==> gap <= 0)
  {
    FarEdge(size, low, high);
    RoundIntNear(next * TENTH_MILLI);
    RoundIntMonotone(next * TENTH_MILLI, (size * 10000) as real);
    RoundIntFixes(size * 10000);
    RoundIntMonotone(0.0, low * TENTH_MILLI);
    RoundIntMonotone(0.0, (high - low) * TENTH_MILLI);
    hide RoundInt;
  }

  /** Tiles of whole pixels, with a pad too small to tell, still meet. */
  lemma SeamOfWholePixels(size: int, n: int, overlap: real, i: int)
    requires size >= 1 && 0 <= i < n - 1 && overlap >= 0.0 && size % n == 0
    requires Pad(Share(size as real, n), overlap) <= 0.25 / TENTH_MILLI
    ensures var low, high, next :=
            EdgeLow(size, n, overlap, i), EdgeHigh(size, n, overlap, i), EdgeLow(size, n, overlap, i + 1);
            RoundInt(next * TENTH_MILLI) <= RoundInt(low * TENTH_MILLI) + RoundInt((high - low) * TENTH_MILLI)
  {
    var step, here := PixelPosition(size, n, i);
    WholeSteps(size as real, n, overlap);
    hide Share, Pad;
    PixelEdges(size, n, overlap, i, step, here, Pad(Share(size as real, n), overlap));
    hide EdgeLow, EdgeHigh, RoundInt;
    SeamInPixels(here, step, EdgeLow(size, n, overlap, i), EdgeHigh(size, n, overlap, i),
                 EdgeLow(size, n, overlap, i + 1));
  }

  lemma ExactDivision(size: int, n: int)
    requires size >= 1 && n >= 1 && size % n == 0
    ensures size == size / n * n && size / n >= 1
  {
  }

  lemma RealProduct(a: int, b: int)
    ensures a as real * b as real == (a * b) as real
  {
  }

  lemma PixelPosition(size: int, n: int, i: int) returns (step: int, here: int)
    requires size >= 1 && 0 <= i < n - 1 && size % n == 0
    ensures step >= 1 && Share(size as real, n) == step as real
    ensures i as real * step as real == here as real && (i + 1) as real * step as real == here as real + step as real
    ensures 0 <= here && here + 2 * step <= size
  {
    ExactDivision(size, n);
    step := size / n;
    here := i * step;
    WholeShare(size, n, step);
    RealProduct(i, step);
    RealProduct(i + 1, step);
    hide Share;
    StepsFit(step, n, i);
  }

  lemma StepsFit(step: int, n: int, i: int)
    requires step >= 1 && 0 <= i < n - 1
    ensures (i + 1) * step == i * step + step && 0 <= i * step && i * step + 2 * step <= step * n
  {
    assert (n - i - 2) * step >= 0;
  }

  lemma WholeShare(size: int, n: int, step: int)
    requires n >= 1 && size == step * n
    ensures Share(size as real, n) == step as real
  {
    RealProduct(step, n);
    var x := n as real;
    assert step as real * x / x == step as real;
  }

  lemma PixelEdges(size: int, n: int, overlap: real, i: int, step: int, here: int, pad: real)
    requires 0 <= i < n - 1 && step >= 1 && Share(size as real, n) == step as real
    requires pad == Pad(step as real, overlap) && 0.0 <= pad <= 0.25 / TENTH_MILLI
    requires i as real * step as real == here as real && (i + 1) as real * step as real == here as real + step as real
    requires 0 <= here && here + 2 * step <= size
    ensures here as real - pad <= EdgeLow(size, n, overlap, i) <= here as real
    ensures EdgeHigh(size, n, overlap, i) - EdgeLow(size, n, overlap, i) >= step as real
    ensures EdgeLow(size, n, overlap, i + 1) <= (here + step) as real
  {
    hide Share, Pad;
  }

  lemma SeamInPixels(here: int, step: int, low: real, high: real, next: real)
    requires here as real - 0.25 / TENTH_MILLI <= low && step as real <= high - low && next <= (here + step) as real
    ensures RoundInt(next * TENTH_MILLI) <= RoundInt(low * TENTH_MILLI) + RoundInt((high - low) * TENTH_MILLI)
  {
    RoundIntNear(low * TENTH_MILLI);
    RoundIntMonotone((step * 10000) as real, (high - low) * TENTH_MILLI);
    RoundIntFixes(step * 10000);
    RoundIntMonotone(next * TENTH_MILLI, ((here + step) * 10000) as real);
    RoundIntFixes((here + step) * 10000);
    hide RoundInt;
  }

  /** What the gap in units of 1e-4 says about the tiles. */
  lemma SeamInTiles(size: int, n: int, overlap: real, i: int, units: int)
    requires n >= 1
    requires var low, high, next :=
             EdgeLow(size, n, overlap, i), EdgeHigh(size, n, overlap, i), EdgeLow(size, n, overlap, i + 1);
             units == RoundInt(next * TENTH_MILLI)
                      - (RoundInt(low * TENTH_MILLI) + RoundInt((high - low) * TENTH_MILLI))
    ensures Offset(size, n, overlap, i + 1) - (Offset(size, n, overlap, i) + Length(size, n, overlap, i))
            == units as real / TENTH_MILLI
  {
    hide EdgeLow, EdgeHigh, RoundInt;
  }

  /** Between neighbours there is at most 1e-4, and nothing at all when the grid is seamless. */
  lemma SeamIsNarrow(size: int, n: int, overlap: real, i: int)
    requires size >= 1 && 0 <= i < n - 1 && overlap >= 0.0
    ensures var gap := Offset(size, n, overlap, i + 1) - (Offset(size, n, overlap, i) + Length(size, n, overlap, i));
            gap <= 0.0001 && (Seamless(size, n, overlap) ==> gap <= 0.0)
  {
    EdgesOnAxis(size, n, overlap, i);
    EdgesOnAxis(size, n, overlap, i + 1);
    var pad := Pad(Share(size as real, n), overlap);
    EdgesMeet(size, n, overlap, pad, i);
    WholeSteps(size as real, n, overlap);
    hide Share, Pad, EdgeLow, EdgeHigh, RoundInt, Offset, Length;
    var low, high, next := EdgeLow(size, n, overlap, i), EdgeHigh(size, n, overlap, i),
      EdgeLow(size, n, overlap, i + 1);
    SeamUnits(size, low, high, next, pad);
    SeamInTiles(size, n, overlap, i,
                RoundInt(next * TENTH_MILLI) - (RoundInt(low * TENTH_MILLI) + RoundInt((high - low) * TENTH_MILLI)));
    if size % n == 0 && pad <= 0.25 / TENTH_MILLI { SeamOfWholePixels(size, n, overlap, i); }
  }

  /**
   * A coordinate of the frame lies on some tile, in a seam, or, where tiles are pushed apart, before the first or
   * beyond the last; and nothing outside the frame lies on a tile.
   */
  lemma TilesCover(c: real, size: int, n: int, overlap: real)
    requires size >= 1 && n >= 1
    ensures InSomeTile(c, size, n, overlap) ==> 0.0 <= c <= size as real
    ensures 0.0 <= c <= size as real
            ==> || InSomeTile(c, size, n, overlap)
                || (exists i :: 0 <= i < n - 1 && InSeam(c, size, n, overlap, i))
                || (overlap < 0.0 && (c < Offset(size, n, overlap, 0) || c > FarEnd(size, n, overlap, n - 1)))
    ensures overlap >= 0.0 && Seamless(size, n, overlap) ==>
            (InSomeTile(c, size, n, overlap) <==> 0.0 <= c <= size as real)
  {
    hide Offset, Length, Seamless;
    if i: nat :| i < n && OnTile(c, size, n, overlap, i) { TileEnds(size, n, overlap, i); }
    TileEnds(size, n, overlap, 0);
    TileEnds(size, n, overlap, n - 1);
    if 0.0 <= c <= size as real && Offset(size, n, overlap, 0) <= c <= FarEnd(size, n, overlap, n - 1) {
      var i: nat := 0;
      while c > FarEnd(size, n, overlap, i)
        invariant i < n
        invariant i > 0 ==> c > FarEnd(size, n, overlap, i - 1)
        decreases n - i
      {
        i := i + 1;
      }
      if c >= Offset(size, n, overlap, i) {
        assert OnTile(c, size, n, overlap, i);
      } else {
        assert InSeam(c, size, n, overlap, i - 1);
        if overlap >= 0.0 { SeamIsNarrow(size, n, overlap, i - 1); }
      }
    }
  }

  // ---------------------------------------------------------------------------------------------
  // Tiles: when they cover their axis.
  // ---------------------------------------------------------------------------------------------

  /**
   * The first tile starts at 0, each other starts there too or no later than some earlier one ends or the axis does,
   * and some tile reaches the end.
   */
  predicate Gapless(size: int, n: int, overlap: real)
    requires n >= 1
  {
    && Offset(size, n, overlap, 0) == 0.0
    && (forall i :: 0 <= i < n - 1 ==> Reached(size, n, overlap, i))
    && exists j :: 0 <= j < n && FarEnd(size, n, overlap, j) >= size as real
  }

  predicate Reached(size: int, n: int, overlap: real, i: int)
    requires n >= 1
  {
    var next := Offset(size, n, overlap, i + 1);
    next == 0.0 || exists j :: 0 <= j <= i && Min(next, size as real) <= FarEnd(size, n, overlap, j)
  }

  /** The next tile starts no later than some earlier one ends. */
  predicate Met(size: int, n: int, overlap: real, i: int)
    requires n >= 1
  {
    exists j :: 0 <= j <= i && Offset(size, n, overlap, i + 1) <= FarEnd(size, n, overlap, j)
  }

  /** With overlap, or none, only the starts of the tiles matter. */
  lemma GaplessWithOverlap(size: int, n: int, overlap: real)
    requires size >= 1 && n >= 1 && overlap >= 0.0
    ensures Gapless(size, n, overlap)
            <==> forall i :: 0 <= i < n - 1 ==> Met(size, n, overlap, i)
  {
    hide Offset, Length, EdgeLow, EdgeHigh;
    TileEnds(size, n, overlap, 0);
    TileEnds(size, n, overlap, n - 1);
    assert FarEnd(size, n, overlap, n - 1) >= size as real;
    forall i | 0 <= i < n - 1
      ensures Reached(size, n, overlap, i) <==> Met(size, n, overlap, i)
    {
      TileEnds(size, n, overlap, i + 1);
      assert 0.0 <= FarEnd(size, n, overlap, 0);
    }
  }

  lemma OffsetsRise(size: int, n: int, overlap: real, i: int, j: int)
    requires size >= 1 && n >= 1 && i <= j
    ensures Offset(size, n, overlap, i) <= Offset(size, n, overlap, j)
  {
    var step := Share(size as real, n);
    WholeSteps(size as real, n, 0.0);
    assert (j - i) as real * step >= 0.0;
    assert j as real * step - i as real * step == (j - i) as real * step;
    RoundMonotone(EdgeLow(size, n, overlap, i), EdgeLow(size, n, overlap, j), TENTH_MILLI);
  }

  /** The last tile that starts at or before `c`. */
  lemma LastBefore(size: int, n: int, overlap: real, c: real) returns (i: int)
    requires size >= 1 && n >= 1 && Offset(size, n, overlap, 0) <= c
    ensures 0 <= i < n && Offset(size, n, overlap, i) <= c && (i < n - 1 ==> Offset(size, n, overlap, i + 1) > c)
  {
    hide Offset;
    i := 0;
    while i < n - 1 && Offset(size, n, overlap, i + 1) <= c
      invariant 0 <= i < n && Offset(size, n, overlap, i) <= c
    {
      i := i + 1;
    }
  }

  /** How far the first tiles reach. */
  lemma Furthest(size: int, n: int, overlap: real, i: int) returns (far: real)
    requires n >= 1 && i >= 0
    ensures forall j :: 0 <= j <= i ==> FarEnd(size, n, overlap, j) <= far
    ensures exists j :: 0 <= j <= i && FarEnd(size, n, overlap, j) == far
  {
    hide FarEnd;
    var k := 0;
    far := FarEnd(size, n, overlap, 0);
    while k < i
      invariant 0 <= k <= i
      invariant forall j :: 0 <= j <= k ==> FarEnd(size, n, overlap, j) <= far
      invariant exists j :: 0 <= j <= k && FarEnd(size, n, overlap, j) == far
    {
      k := k + 1;
      if FarEnd(size, n, overlap, k) > far { far := FarEnd(size, n, overlap, k); }
    }
  }

  /** A gap is really uncovered: halfway between the reach of the first tiles and the start of the next. */
  lemma GapUncovered(size: int, n: int, overlap: real, i: int) returns (c: real)
    requires size >= 1 && 0 <= i < n - 1 && !Reached(size, n, overlap, i)
    ensures 0.0 <= c <= size as real && !InSomeTile(c, size, n, overlap)
  {
    hide Offset, Length, EdgeLow, EdgeHigh;
    var far := Furthest(size, n, overlap, i);
    var next := Offset(size, n, overlap, i + 1);
    TileEnds(size, n, overlap, i + 1);
    c := (Max(far, 0.0) + Min(next, size as real)) / 2.0;
    forall j: nat | j < n ensures !OnTile(c, size, n, overlap, j) {
      if j > i { OffsetsRise(size, n, overlap, i + 1, j); } else { assert FarEnd(size, n, overlap, j) <= far; }
    }
  }

  /** The tiles cover their axis exactly when there is no gap. */
  lemma TilesCoverExactly(size: int, n: int, overlap: real)
    requires size >= 1 && n >= 1
    ensures (forall c :: 0.0 <= c <= size as real ==> InSomeTile(c, size, n, overlap)) <==> Gapless(size, n, overlap)
  {
    hide Offset, Length, Reached, InSomeTile;
    if Gapless(size, n, overlap) {
      forall c | 0.0 <= c <= size as real ensures InSomeTile(c, size, n, overlap) {
        GaplessCovers(size, n, overlap, c);
      }
    } else if i :| 0 <= i < n - 1 && !Reached(size, n, overlap, i) {
      var c := GapUncovered(size, n, overlap, i);
    } else {
      EndUncovered(size, n, overlap);
    }
  }

  /** One end of an axis is uncovered if no tile reaches it. */
  lemma EndUncovered(size: int, n: int, overlap: real)
    requires size >= 1 && n >= 1
    ensures Offset(size, n, overlap, 0) != 0.0 ==> !InSomeTile(0.0, size, n, overlap)
    ensures (forall j :: 0 <= j < n ==> FarEnd(size, n, overlap, j) < size as real) ==>
            !InSomeTile(size as real, size, n, overlap)
  {
    hide Offset, Length;
    TileEnds(size, n, overlap, 0);
    forall i: nat | i < n ensures Offset(size, n, overlap, 0) <= Offset(size, n, overlap, i) {
      OffsetsRise(size, n, overlap, 0, i);
    }
    var c := size as real;
    if i: nat :| i < n && OnTile(c, size, n, overlap, i) { assert FarEnd(size, n, overlap, i) >= c; }
  }

  /** Every tile is empty: tiles are pushed so far apart that nothing is left of them. */
  predicate AllEmpty(size: int, n: int, overlap: real)
    requires n >= 1
  {
    forall i: nat :: i < n ==> FarEnd(size, n, overlap, i) < Offset(size, n, overlap, i)
  }

  lemma AllEmptyExactly(size: int, n: int, overlap: real)
    requires size >= 1 && n >= 1
    ensures AllEmpty(size, n, overlap) <==> forall c :: 0.0 <= c <= size as real ==> !InSomeTile(c, size, n, overlap)
  {
    hide Offset, Length;
    if i: nat :| i < n && FarEnd(size, n, overlap, i) >= Offset(size, n, overlap, i) {
      var c := Offset(size, n, overlap, i);
      TileEnds(size, n, overlap, i);
      assert OnTile(c, size, n, overlap, i);
      assert 0.0 <= c <= size as real && InSomeTile(c, size, n, overlap);
    }
    if AllEmpty(size, n, overlap) {
      forall c | 0.0 <= c <= size as real ensures !InSomeTile(c, size, n, overlap) {
        forall i: nat | i < n ensures !OnTile(c, size, n, overlap, i) {
          assert FarEnd(size, n, overlap, i) < Offset(size, n, overlap, i);
        }
      }
    }
  }

  lemma GaplessCovers(size: int, n: int, overlap: real, c: real)
    requires size >= 1 && n >= 1 && Gapless(size, n, overlap) && 0.0 <= c <= size as real
    ensures InSomeTile(c, size, n, overlap)
  {
    hide Offset, Length, EdgeLow, EdgeHigh;
    var i := LastBefore(size, n, overlap, c);
    var j: nat;
    if i == n - 1 {
      j :| j < n && FarEnd(size, n, overlap, j) >= size as real;
    } else {
      assert Reached(size, n, overlap, i);
      j :| j <= i && Min(Offset(size, n, overlap, i + 1), size as real) <= FarEnd(size, n, overlap, j);
    }
    OffsetsRise(size, n, overlap, j, i);
    assert OnTile(c, size, n, overlap, j);
  }

  /** Tiles of whole pixels, and tiles padded by more than rounding can take away, leave no gap. */
  lemma SeamlessIsGapless(size: int, n: int, overlap: real)
    requires size >= 1 && n >= 1 && overlap >= 0.0 && Seamless(size, n, overlap)
    ensures Gapless(size, n, overlap)
  {
    hide Offset, Length, Seamless, Gapless;
    forall i | 0 <= i < n - 1
      ensures Met(size, n, overlap, i)
    {
      SeamIsNarrow(size, n, overlap, i);
      assert Offset(size, n, overlap, i + 1) <= FarEnd(size, n, overlap, i);
    }
    GaplessWithOverlap(size, n, overlap);
  }

  lemma ThirdOfAPixel(i: nat)
    requires i < 3
    ensures Offset(1, 3, 0.0, i) == [0.0, 0.3333, 0.6667][i]
    ensures Length(1, 3, 0.0, i) == 0.3333
  {
    assert EdgeLow(1, 3, 0.0, i) == i as real / 3.0;
    assert EdgeHigh(1, 3, 0.0, i) == (i + 1) as real / 3.0;
    hide EdgeLow, EdgeHigh;
    assert RoundInt(10000.0 / 3.0) == 3333;
    if i == 1 {
      assert RoundTo(1.0 / 3.0, TENTH_MILLI) == 0.3333;
    } else if i == 2 {
      assert RoundInt(20000.0 / 3.0) == 6667;
    }
  }

  /** Without overlap the seams can be open: three tiles over one pixel leave (0.6666, 0.6667) out. */
  lemma OpenSeam()
    ensures !InSomeTile(0.66665, 1, 3, 0.0)
  {
    forall i: nat | i < 3 ensures !OnTile(0.66665, 1, 3, 0.0, i) { ThirdOfAPixel(i); }
  }
}
