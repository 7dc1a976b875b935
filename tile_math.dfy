/**
 * The tile-grid planner of `GetMapTask` (index.js): the tile range that covers
 * the canvas, the sub-tile origin offset, and the ordered tile descriptors that
 * `getTiles` pushes into its queue.
 *
 * The centre pixel is an input: the Web Mercator projection that produces it is
 * floating point and is not part of this model. Canvas corners are `real`
 * because half the width of an odd canvas is a half-integer.
 */
module TileMath {
  import opened Wrappers

  /** A pixel position in the global pixel space of one zoom level. */
  datatype Point = Point(x: real, y: real)

  /** The inclusive tile range `xyzBounds`, before wrapping and clamping. */
  datatype Bounds = Bounds(minX: int, maxX: int, minY: int, maxY: int)

  /**
   * One tile request: the tile column and row to fetch, where to draw it on the
   * canvas, and the URL template it was assigned (`None` stands for the
   * `undefined` that an empty URL list yields).
   */
  datatype Tile = Tile(x: int, y: int, offset: Point, urlTemplate: Option<string>)

  /** Everything `getTiles` reads from its task. */
  datatype Grid = Grid(bounds: Bounds, offset: Point, zoom: nat, size: int, urls: seq<string>)

  // ---------------------------------------------------------------------------
  // Integer helpers

  /** `Math.pow(2, zoom)`: the number of tiles along one axis. */
  function Pow2(n: nat): (p: int)
    ensures p >= 1
  {
    if n == 0 then 1 else 2 * Pow2(n - 1)
  }

  /** JavaScript's `%`: truncates toward zero, so the remainder takes the sign of `a`. */
  function JsRem(a: int, b: int): (r: int)
    requires b > 0
    ensures -b < r < b
    ensures a >= 0 ==> r >= 0
    ensures a <= 0 ==> r <= 0
    ensures (a - r) % b == 0
  {
    if a >= 0 then
      var q := a / b;
      assert a - a % b == q * b;
      MultipleModZero(q, b);
      a % b
    else
      var m := -a;
      var q := m / b;
      assert a - (-(m % b)) == (-q) * b;
      MultipleModZero(-q, b);
      -(m % b)
  }

  /** Any multiple of `n` leaves remainder 0. */
  lemma MultipleModZero(q: int, n: int)
    requires n > 0
    ensures (q * n) % n == 0
  {
    DivModOfRowColumn(q, 0, n);
    assert q * n + 0 == q * n;
  }

  /** For a positive factor `n`, a positive multiplier yields at least `n`. */
  lemma MulAtLeastFactor(a: int, n: int)
    requires a >= 1 && n > 0
    ensures a * n >= n
  {
  }

  /** Euclidean division of `r * n + c` by `n` recovers the row `r` and column `c`. */
  lemma DivModOfRowColumn(r: int, c: int, n: int)
    requires n > 0 && 0 <= c < n
    ensures (r * n + c) / n == r && (r * n + c) % n == c
  {
    var k := r * n + c;
    var d := k / n;
    var m := k % n;
    assert k == d * n + m;
    assert (r - d) * n == m - c;
    if r - d >= 1 {
      MulAtLeastFactor(r - d, n);
    } else if d - r >= 1 {
      MulAtLeastFactor(d - r, n);
    }
  }

  /** A value `r` in `[0, e)` congruent to `x` modulo `e` is `x % e`. */
  lemma ModUnique(x: int, r: int, e: int)
    requires e > 0 && 0 <= r < e && (x - r) % e == 0
    ensures x % e == r
  {
    var q := (x - r) / e;
    assert x - r == q * e;
    DivModOfRowColumn(q, r, e);
  }

  /** The column normalisation `((x % extent) + extent) % extent`. */
  function Wrap(x: int, extent: int): (r: int)
    requires extent > 0
    ensures 0 <= r < extent
    ensures (x - r) % extent == 0
  {
    var inner := JsRem(x, extent);
    var r := JsRem(inner + extent, extent);
    MultiplesCombine(x - inner, inner + extent - r, extent);
    r
  }

  /** Two multiples of `n`, minus `n`, give a multiple of `n`. */
  lemma MultiplesCombine(a: int, b: int, n: int)
    requires n > 0 && a % n == 0 && b % n == 0
    ensures (a + b - n) % n == 0
  {
    var qa, qb := a / n, b / n;
    assert a == qa * n;
    assert b == qb * n;
    assert a + b - n == (qa + qb - 1) * n;
    MultipleModZero(qa + qb - 1, n);
  }

  /** With a positive divisor, the double JavaScript remainder is Euclidean `%`. */
  lemma WrapIsEuclideanMod(x: int, extent: int)
    requires extent > 0
    ensures Wrap(x, extent) == x % extent
  {
    ModUnique(x, Wrap(x, extent), extent);
  }

  // ---------------------------------------------------------------------------
  // Bounds and origin offset (`initBounds`)

  lemma RealMulLe(x: real, y: real, s: real)
    requires x <= y && s > 0.0
    ensures x * s <= y * s
  {
  }

  lemma RealMulLt(x: real, y: real, s: real)
    requires x < y && s > 0.0
    ensures x * s < y * s
  {
  }

  /** The floor of `a / s` names the span of width `s` that holds `a`. */
  lemma FloorDivBounds(a: real, s: real)
    requires s > 0.0
    ensures (a / s).Floor as real * s <= a
    ensures a < ((a / s).Floor + 1) as real * s
  {
    var t := a / s;
    var q := t.Floor;
    var u := (q + 1) as real;
    assert a == t * s;
    RealMulLe(q as real, t, s);
    RealMulLt(t, u, s);
    assert t * s < u * s;
    assert a < u * s;
  }

  /** `Math.floor(a / size)`: the tile index whose span `[q*size, (q+1)*size)` holds `a`. */
  function FloorDiv(a: real, size: int): int
    requires size > 0
  {
    (a / size as real).Floor
  }

  /** `FloorDiv(a, size)` names the tile `[q*size, (q+1)*size)` that holds `a`. */
  lemma FloorDivSpan(a: real, size: int)
    requires size > 0
    ensures FloorDiv(a, size) as real * size as real <= a < (FloorDiv(a, size) + 1) as real * size as real
  {
    FloorDivBounds(a, size as real);
  }

  /**
   * One axis of `initBounds`: the canvas spans the pixels `[Low, High)` around
   * its centre, and `Span` names the first and last tile index along that axis.
   */
  datatype Span = Span(first: int, last: int)

  /** `topLeft` along one axis: the centre minus half the canvas length. */
  function Low(center: int, length: nat): real
  {
    center as real - length as real / 2.0
  }

  /** `bottomRight` along one axis: the centre plus half the canvas length. */
  function High(center: int, length: nat): real
  {
    center as real + length as real / 2.0
  }

  /**
   * `Math.floor(topLeft / size)` and `Math.floor((bottomRight - 1) / size)`:
   * the first tile holds the canvas's first pixel edge, the last tile holds the
   * pixel edge one before the far edge (so a far edge exactly on a tile
   * boundary adds no tile).
   */
  function AxisSpan(center: int, length: nat, size: int): Span
    requires size > 0
  {
    Span(FloorDiv(Low(center, length), size), FloorDiv(High(center, length) - 1.0, size))
  }

  /** The first tile holds the canvas's near edge, the last one the pixel before its far edge. */
  lemma AxisSpanBounds(center: int, length: nat, size: int)
    requires size > 0
    ensures var sp := AxisSpan(center, length, size);
      && sp.first as real * size as real <= center as real - length as real / 2.0
      && center as real - length as real / 2.0 < (sp.first + 1) as real * size as real
      && sp.last as real * size as real <= center as real + length as real / 2.0 - 1.0
      && center as real + length as real / 2.0 - 1.0 < (sp.last + 1) as real * size as real
  {
    FloorDivSpan(Low(center, length), size);
    FloorDivSpan(High(center, length) - 1.0, size);
  }

  /**
   * The origin offset along one axis, `min * size - topLeft`: where the first
   * tile's edge lands on the canvas; never past the canvas origin and less than
   * one tile before it.
   */
  function AxisOffset(center: int, length: nat, size: int): (o: real)
    requires size > 0
    ensures -(size as real) < o <= 0.0
  {
    var first := FloorDiv(Low(center, length), size);
    FloorDivSpan(Low(center, length), size);
    TileCountTimesSize(first, first, size as real);
    first as real * size as real - Low(center, length)
  }

  /** A canvas at least one pixel long needs at least one tile along that axis. */
  lemma SpanNonEmpty(center: int, length: nat, size: int)
    requires size > 0 && length >= 1
    ensures AxisSpan(center, length, size).first <= AxisSpan(center, length, size).last
  {
    AxisSpanBounds(center, length, size);
    var sp := AxisSpan(center, length, size);
    var lo := center as real - length as real / 2.0;
    var hi := center as real + length as real / 2.0 - 1.0;
    assert lo <= hi;
    var left := sp.first as real * size as real;
    var right := (sp.last + 1) as real * size as real;
    assert left <= lo && hi < right;
    if sp.last < sp.first {
      RealMulLe((sp.last + 1) as real, sp.first as real, size as real);
      assert false;
    }
  }

  /** The pixel width of the tiles `first..last`, and of the same run less its two end tiles. */
  lemma TileCountTimesSize(first: int, last: int, s: real)
    ensures (first + 1) as real * s == first as real * s + s
    ensures (last + 1) as real * s == last as real * s + s
    ensures (last - first + 1) as real * s == last as real * s - first as real * s + s
    ensures (last - first - 1) as real * s == last as real * s - first as real * s - s
  {
    RealSubMul(last as real + 1.0, first as real, s);
    RealSubMul(last as real - 1.0, first as real, s);
  }

  lemma IntMulAsReal(a: int, b: int)
    ensures (a * b) as real == a as real * b as real
  {
  }

  /**
   * The tiles of one axis cover the whole canvas length with less than one
   * spare tile: `n * size >= length` and `(n - 2) * size < length - 1` for the
   * `n` tiles from first to last.
   */
  lemma SpanTight(center: int, length: nat, size: int)
    requires size > 0 && length >= 1
    ensures var sp := AxisSpan(center, length, size);
      (sp.last - sp.first + 1) * size >= length &&
      ((sp.last - sp.first - 1) as real) * size as real < length as real - 1.0
  {
    AxisSpanBounds(center, length, size);
    var sp := AxisSpan(center, length, size);
    var s := size as real;
    var c := sp.last - sp.first + 1;
    TileCountTimesSize(sp.first, sp.last, s);
    IntMulAsReal(c, size);
  }

  /** `xyzBounds`: the column span of the width and the row span of the height. */
  function XyzBounds(cx: int, cy: int, width: nat, height: nat, size: int): Bounds
    requires size > 0
  {
    var xs := AxisSpan(cx, width, size);
    var ys := AxisSpan(cy, height, size);
    Bounds(xs.first, xs.last, ys.first, ys.last)
  }

  /** `offset`: the origin offsets of both axes. */
  function OriginOffset(cx: int, cy: int, width: nat, height: nat, size: int): Point
    requires size > 0
  {
    Point(AxisOffset(cx, width, size), AxisOffset(cy, height, size))
  }

  // ---------------------------------------------------------------------------
  // Tile enumeration (`getTiles`)

  /** The grid of one render request: `initBounds` followed by the configuration. */
  function TaskGrid(cx: int, cy: int, width: nat, height: nat, zoom: nat, size: int, urls: seq<string>): (g: Grid)
    requires size > 0
    ensures g.size == size && g.zoom == zoom && g.urls == urls
  {
    Grid(XyzBounds(cx, cy, width, height, size), OriginOffset(cx, cy, width, height, size), zoom, size, urls)
  }

  /** `y0`: rows above the north edge of the world are skipped. */
  function FirstRow(g: Grid): (r: int)
    ensures r >= 0 && r >= g.bounds.minY
    ensures g.bounds.minY >= 0 ==> r == g.bounds.minY
  {
    Max(0, g.bounds.minY)
  }

  /** `y1`: rows below the south edge of the world are skipped. */
  function LastRow(g: Grid): (r: int)
    ensures r < Pow2(g.zoom) && r <= g.bounds.maxY
    ensures g.bounds.maxY < Pow2(g.zoom) ==> r == g.bounds.maxY
  {
    Min(Pow2(g.zoom) - 1, g.bounds.maxY)
  }

  function RowCount(g: Grid): nat
  {
    if LastRow(g) < FirstRow(g) then 0 else LastRow(g) - FirstRow(g) + 1
  }

  function ColumnCount(g: Grid): nat
  {
    if g.bounds.maxX < g.bounds.minX then 0 else g.bounds.maxX - g.bounds.minX + 1
  }

  /** The number of tiles `getTiles` pushes: every clamped row times every column. */
  function TileCount(g: Grid): nat
  {
    RowCount(g) * ColumnCount(g)
  }

  /** The unclamped row of the `k`-th emitted tile (rows outer, ascending). */
  function RowOf(g: Grid, k: int): int
    requires 0 <= k < TileCount(g)
  {
    FirstRow(g) + k / ColumnCount(g)
  }

  /** The unwrapped column of the `k`-th emitted tile (columns inner, ascending). */
  function ColumnOf(g: Grid, k: int): int
    requires 0 <= k < TileCount(g)
  {
    g.bounds.minX + k % ColumnCount(g)
  }

  /**
   * The draw offset of the tile in unclamped row `row` and unwrapped column
   * `col`, counted from the origin offset in whole tiles.
   */
  function DrawOffset(g: Grid, row: int, col: int): Point
  {
    Point((col - g.bounds.minX) as real * g.size as real + g.offset.x,
          (row - g.bounds.minY) as real * g.size as real + g.offset.y)
  }

  /** The `k`-th tile `getTiles` pushes; `k` is the running `tileCount`. */
  function TileAt(g: Grid, k: int): Tile
    requires 0 <= k < TileCount(g)
  {
    var row := RowOf(g, k);
    var col := ColumnOf(g, k);
    Tile(Wrap(col, Pow2(g.zoom)),
         row,
         DrawOffset(g, row, col),
         if |g.urls| == 0 then None else Some(g.urls[k % |g.urls|]))
  }

  /** Below `rows * cols`, the quotient by `cols` is a row index below `rows`. */
  lemma QuotientBelowRows(k: int, rows: int, cols: int)
    requires 0 <= k < rows * cols && cols > 0
    ensures 0 <= k / cols < rows
  {
    var q := k / cols;
    assert k == q * cols + k % cols;
    if q >= rows {
      MulMonotone(rows, q, cols);
      assert false;
    }
  }

  lemma MulMonotone(a: int, b: int, n: int)
    requires a <= b && n >= 0
    ensures a * n <= b * n
  {
  }

  /** Of two indices, the smaller has the smaller (row, column) pair in row-major order. */
  lemma QuotientOrder(j: int, k: int, n: int)
    requires 0 <= j < k && n > 0
    ensures j / n < k / n || (j / n == k / n && j % n < k % n)
  {
    assert j == (j / n) * n + j % n;
    assert k == (k / n) * n + k % n;
    if j / n > k / n {
      MulMonotone(k / n + 1, j / n, n);
      assert false;
    }
  }

  /** `rows * cols` is positive only when there is at least one column. */
  lemma ColumnsOfNonEmptyGrid(g: Grid, k: int)
    requires 0 <= k < TileCount(g)
    ensures ColumnCount(g) > 0 && RowCount(g) > 0
  {
  }

  /** The `k`-th tile lies in an existing clamped row and an existing column of the range. */
  lemma RowAndColumnInRange(g: Grid, k: int)
    requires 0 <= k < TileCount(g)
    ensures FirstRow(g) <= RowOf(g, k) <= LastRow(g)
    ensures g.bounds.minX <= ColumnOf(g, k) <= g.bounds.maxX
  {
    ColumnsOfNonEmptyGrid(g, k);
    QuotientBelowRows(k, RowCount(g), ColumnCount(g));
  }

  /**
   * Every emitted tile index is inside the world: the column is wrapped into
   * `[0, 2^zoom)` and is congruent to its unwrapped column, the row is one of
   * the clamped rows `max(0, minY) .. min(2^zoom - 1, maxY)`.
   */
  lemma TileInWorld(g: Grid, k: int)
    requires 0 <= k < TileCount(g)
    ensures 0 <= TileAt(g, k).x < Pow2(g.zoom)
    ensures TileAt(g, k).x == ColumnOf(g, k) % Pow2(g.zoom)
    ensures 0 <= TileAt(g, k).y < Pow2(g.zoom)
    ensures FirstRow(g) <= TileAt(g, k).y <= LastRow(g)
  {
    RowAndColumnInRange(g, k);
    WrapIsEuclideanMod(ColumnOf(g, k), Pow2(g.zoom));
  }

  /** Emission is row-major: a later tile is in a later row, or further right in the same row. */
  lemma RowMajorOrder(g: Grid, j: int, k: int)
    requires 0 <= j < k < TileCount(g)
    ensures RowOf(g, j) < RowOf(g, k) || (RowOf(g, j) == RowOf(g, k) && ColumnOf(g, j) < ColumnOf(g, k))
  {
    ColumnsOfNonEmptyGrid(g, k);
    QuotientOrder(j, k, ColumnCount(g));
  }

  /**
   * Every cell of the clamped range is emitted, at index
   * `(row - y0) * cols + (col - minX)`; with RowAndColumnInRange this says the
   * emitted cells are exactly the clamped range.
   */
  lemma EveryCellEmitted(g: Grid, row: int, col: int)
    requires FirstRow(g) <= row <= LastRow(g)
    requires g.bounds.minX <= col <= g.bounds.maxX
    ensures var k := (row - FirstRow(g)) * ColumnCount(g) + (col - g.bounds.minX);
      0 <= k < TileCount(g) && RowOf(g, k) == row && ColumnOf(g, k) == col
  {
    var cols := ColumnCount(g);
    var r := row - FirstRow(g);
    var c := col - g.bounds.minX;
    var k := r * cols + c;
    MulMonotone(r + 1, RowCount(g), cols);
    assert k < TileCount(g);
    DivModOfRowColumn(r, c, cols);
  }

  /** The tile `getTiles` builds for the cell in `row` and `col` is the one at that cell's place in the order. */
  lemma CellTile(g: Grid, row: int, col: int, k: int)
    requires FirstRow(g) <= row <= LastRow(g)
    requires g.bounds.minX <= col <= g.bounds.maxX
    requires k == (row - FirstRow(g)) * ColumnCount(g) + (col - g.bounds.minX)
    ensures 0 <= k < TileCount(g)
    ensures TileAt(g, k) == Tile(Wrap(col, Pow2(g.zoom)), row, DrawOffset(g, row, col),
                                 if |g.urls| == 0 then None else Some(g.urls[k % |g.urls|]))
  {
    EveryCellEmitted(g, row, col);
  }

  /** The tile after the `k`-th one, when `k` is not at the end of its row, is its right neighbour. */
  lemma NextInRow(g: Grid, k: int)
    requires 0 <= k < TileCount(g)
    requires ColumnOf(g, k) < g.bounds.maxX
    ensures k + 1 < TileCount(g)
    ensures RowOf(g, k + 1) == RowOf(g, k) && ColumnOf(g, k + 1) == ColumnOf(g, k) + 1
  {
    var cols := ColumnCount(g);
    ColumnsOfNonEmptyGrid(g, k);
    RowAndColumnInRange(g, k);
    assert k == (k / cols) * cols + k % cols;
    EveryCellEmitted(g, RowOf(g, k), ColumnOf(g, k) + 1);
  }

  /**
   * Horizontally adjacent tiles of one row are emitted one after the other and
   * drawn exactly one tile size apart, at the same height.
   */
  lemma AdjacentTilesOneSizeApart(g: Grid, k: int)
    requires 0 <= k < TileCount(g)
    requires ColumnOf(g, k) < g.bounds.maxX
    ensures k + 1 < TileCount(g)
    ensures TileAt(g, k + 1).y == TileAt(g, k).y
    ensures TileAt(g, k + 1).offset.x == TileAt(g, k).offset.x + g.size as real
    ensures TileAt(g, k + 1).offset.y == TileAt(g, k).offset.y
  {
    NextInRow(g, k);
    var c := ColumnOf(g, k) - g.bounds.minX;
    var s := g.size as real;
    assert (c + 1) as real * s == c as real * s + s;
  }

  lemma RealSubMul(a: real, b: real, s: real)
    ensures (a - b) * s == a * s - b * s
  {
  }

  /**
   * Along one axis, counting whole tiles from the first one and adding the
   * origin offset gives the tile's pixel position relative to the canvas edge.
   */
  lemma AxisDrawOffset(center: int, length: nat, size: int, i: int)
    requires size > 0
    ensures (i - AxisSpan(center, length, size).first) as real * size as real + AxisOffset(center, length, size)
         == i as real * size as real - Low(center, length)
  {
    var first := AxisSpan(center, length, size).first;
    RealSubMul(i as real, first as real, size as real);
  }

  /**
   * Every tile is drawn exactly where it belongs on the canvas: at its global
   * pixel position minus the canvas's top-left pixel. This holds for every
   * cell, so also in rows below a skipped polar row, because the offset
   * counts from the unclamped minY; `TileAt` uses this offset for each tile.
   */
  lemma DrawOffsetIsPixelPosition(cx: int, cy: int, width: nat, height: nat, zoom: nat, size: int,
                         urls: seq<string>, row: int, col: int)
    requires size > 0
    ensures DrawOffset(TaskGrid(cx, cy, width, height, zoom, size, urls), row, col)
         == Point(col as real * size as real - Low(cx, width), row as real * size as real - Low(cy, height))
  {
    var g := TaskGrid(cx, cy, width, height, zoom, size, urls);
    var d := DrawOffset(g, row, col);
    assert d.x == (col - AxisSpan(cx, width, size).first) as real * size as real + AxisOffset(cx, width, size);
    assert d.y == (row - AxisSpan(cy, height, size).first) as real * size as real + AxisOffset(cy, height, size);
    AxisDrawOffset(cx, width, size, col);
    AxisDrawOffset(cy, height, size, row);
  }

  /** URL templates are assigned round-robin: tiles `|urls|` apart share a template. */
  lemma RoundRobinTemplates(g: Grid, k: int)
    requires |g.urls| > 0
    requires 0 <= k && k + |g.urls| < TileCount(g)
    ensures TileAt(g, k + |g.urls|).urlTemplate == TileAt(g, k).urlTemplate
  {
    var n := |g.urls|;
    assert k == (k / n) * n + k % n;
    assert k + n == (k / n + 1) * n + k % n;
    DivModOfRowColumn(k / n + 1, k % n, n);
  }

  // ---------------------------------------------------------------------------
  // The span is determined by its floor inequalities

  /** A tile index whose tile starts at or before `a` is at most the index of the tile holding `a`. */
  lemma FloorBelow(a: real, s: real, p: int, q: int)
    requires s > 0.0
    requires q as real * s <= a < (p + 1) as real * s
    ensures q <= p
  {
    if p < q {
      RealMulLe((p + 1) as real, q as real, s);
      assert false;
    }
  }

  /** Two integers whose tiles both contain `a` are equal. */
  lemma FloorUnique(a: real, s: real, p: int, q: int)
    requires s > 0.0
    requires p as real * s <= a < (p + 1) as real * s
    requires q as real * s <= a < (q + 1) as real * s
    ensures p == q
  {
    FloorBelow(a, s, p, q);
    FloorBelow(a, s, q, p);
  }

  /** `Math.floor(a / size)` is the only tile index whose tile holds `a`. */
  lemma FloorDivUnique(a: real, size: int, q: int)
    requires size > 0
    requires q as real * size as real <= a < (q + 1) as real * size as real
    ensures FloorDiv(a, size) == q
  {
    FloorDivSpan(a, size);
    FloorUnique(a, size as real, FloorDiv(a, size), q);
  }

  // ---------------------------------------------------------------------------
  // Worked examples: the four map requests of the repository's test suite,
  // starting from the centre pixel the projection yields for each.

  /** 256 x 256 canvas at zoom 15 around centre pixel (4367637, 2952164): four tiles, row-major. */
  lemma ExampleZoom15(url: string)
    ensures var g := TaskGrid(4367637, 2952164, 256, 256, 15, 256, [url]);
      && g.bounds == Bounds(17060, 17061, 11531, 11532)
      && g.offset == Point(-149.0, -100.0)
      && TileCount(g) == 4
      && TileAt(g, 0) == Tile(17060, 11531, Point(-149.0, -100.0), Some(url))
      && TileAt(g, 1) == Tile(17061, 11531, Point(107.0, -100.0), Some(url))
      && TileAt(g, 2) == Tile(17060, 11532, Point(-149.0, 156.0), Some(url))
      && TileAt(g, 3) == Tile(17061, 11532, Point(107.0, 156.0), Some(url))
  {
    var g := TaskGrid(4367637, 2952164, 256, 256, 15, 256, [url]);
    assert g.bounds == Bounds(17060, 17061, 11531, 11532);
    assert g.offset == Point(-149.0, -100.0);
    assert Pow2(15) == 32768;
    assert TileCount(g) == 4;
  }

  /** 512 x 512 canvas at zoom 5 centred on the antimeridian: column 32 wraps to column 0. */
  lemma ExampleAcrossAntimeridian(url: string)
    ensures var g := TaskGrid(8192, 4096, 512, 512, 5, 256, [url]);
      && g.bounds == Bounds(31, 32, 15, 16)
      && g.offset == Point(0.0, 0.0)
      && TileCount(g) == 4
      && TileAt(g, 0) == Tile(31, 15, Point(0.0, 0.0), Some(url))
      && TileAt(g, 1) == Tile(0, 15, Point(256.0, 0.0), Some(url))
      && TileAt(g, 2) == Tile(31, 16, Point(0.0, 256.0), Some(url))
      && TileAt(g, 3) == Tile(0, 16, Point(256.0, 256.0), Some(url))
  {
    var g := TaskGrid(8192, 4096, 512, 512, 5, 256, [url]);
    assert g.bounds == Bounds(31, 32, 15, 16);
    assert g.offset == Point(0.0, 0.0);
    assert Pow2(5) == 32;
    assert TileCount(g) == 4;
  }

  /**
   * 256 x 4096 canvas at zoom 1: the range spans rows -7 .. 8 but only the two
   * rows of the world are emitted, each drawn at its unclamped position.
   */
  lemma ExamplePolarRowsSkipped(url: string)
    ensures var g := TaskGrid(384, 256, 256, 4096, 1, 256, [url]);
      && g.bounds == Bounds(1, 1, -7, 8)
      && g.offset == Point(0.0, 0.0)
      && TileCount(g) == 2
      && TileAt(g, 0) == Tile(1, 0, Point(0.0, 1792.0), Some(url))
      && TileAt(g, 1) == Tile(1, 1, Point(0.0, 2048.0), Some(url))
  {
    var g := TaskGrid(384, 256, 256, 4096, 1, 256, [url]);
    assert g.bounds == Bounds(1, 1, -7, 8);
    assert g.offset == Point(0.0, 0.0);
    assert Pow2(1) == 2;
    assert TileCount(g) == 2;
  }

  /** Three templates at zoom 5: the fourth tile goes back to the first template. */
  lemma ExampleSubdomains(a: string, b: string, c: string)
    ensures var g := TaskGrid(4265, 2883, 256, 256, 5, 256, [a, b, c]);
      && g.bounds == Bounds(16, 17, 10, 11)
      && g.offset == Point(-41.0, -195.0)
      && TileCount(g) == 4
      && TileAt(g, 0) == Tile(16, 10, Point(-41.0, -195.0), Some(a))
      && TileAt(g, 1) == Tile(17, 10, Point(215.0, -195.0), Some(b))
      && TileAt(g, 2) == Tile(16, 11, Point(-41.0, 61.0), Some(c))
      && TileAt(g, 3) == Tile(17, 11, Point(215.0, 61.0), Some(a))
  {
    var g := TaskGrid(4265, 2883, 256, 256, 5, 256, [a, b, c]);
    assert g.bounds == Bounds(16, 17, 10, 11);
    assert g.offset == Point(-41.0, -195.0);
    assert Pow2(5) == 32;
    assert TileCount(g) == 4;
  }
}
