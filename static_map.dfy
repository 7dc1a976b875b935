/**
 * `StaticMap` and `GetMapTask` (index.js): the option defaults, the task that
 * computes the tile range of one map, pushes its tiles into a bounded queue,
 * and draws each loaded tile onto the canvas.
 *
 * The canvas records its draw calls instead of painting. The tile loader is
 * an oracle: the image it delivers is an argument. The projection of the
 * map centre is left to the caller, who passes the centre pixel.
 */
module StaticMaps {
  import opened Wrappers
  import opened TileMath
  import opened TileUrl
  import opened TaskQueue
  import opened TokenBuckets
  import opened RateLimiters

  // ---------------------------------------------------------------------------
  // Options

  /** The `urls` argument: one template, or a list of them. */
  datatype UrlsArg = One(url: string) | Many(urls: seq<string>)

  /**
   * The caller's `options`; `None` stands for a missing or falsy value
   * (`undefined`, `null`, `0`).
   */
  datatype UserOptions = UserOptions(concurrency: Option<int>, size: Option<int>, rateLimit: Option<real>)

  /** `this.options` of a `StaticMap`, without the tile loader and the limiter object. */
  datatype Config = Config(concurrency: Limit, size: int, urls: seq<string>, rateLimit: Option<real>)

  /**
   * The defaults of the `StaticMap` constructor: `concurrency || Infinity`,
   * `size || 256`, a single URL wrapped into a list, and a rate limit only
   * when one is given.
   */
  function ResolveOptions(urls: UrlsArg, options: UserOptions): (c: Config)
    ensures options.concurrency.None? || options.concurrency == Some(0) ==> c.concurrency == Unbounded
    ensures options.concurrency.Some? && options.concurrency != Some(0) ==> c.concurrency == Finite(options.concurrency.value)
    ensures options.size.None? || options.size == Some(0) ==> c.size == 256
    ensures options.size.Some? && options.size != Some(0) ==> c.size == options.size.value
    ensures urls.One? ==> c.urls == [urls.url]
    ensures urls.Many? ==> c.urls == urls.urls
    ensures c.rateLimit.Some? <==> options.rateLimit.Some? && options.rateLimit != Some(0.0)
    ensures c.rateLimit.Some? ==> c.rateLimit == options.rateLimit
  {
    Config(
      if options.concurrency.None? || options.concurrency == Some(0) then Unbounded else Finite(options.concurrency.value),
      if options.size.None? || options.size == Some(0) then 256 else options.size.value,
      if urls.One? then [urls.url] else urls.urls,
      if options.rateLimit == Some(0.0) then None else options.rateLimit)
  }

  /**
   * Because a zero concurrency becomes `Infinity`, the queue of a map never
   * refuses its concurrency, and a positive size stays positive.
   */
  lemma ResolvedOptionsAreUsable(urls: UrlsArg, options: UserOptions)
    requires options.size.Some? ==> options.size.value >= 0
    ensures ResolveConcurrency(Some(ResolveOptions(urls, options).concurrency)).Success?
    ensures ResolveOptions(urls, options).size > 0
    ensures |ResolveOptions(urls, options).urls| >= 1 || urls == Many([])
  {
  }

  // ---------------------------------------------------------------------------
  // The canvas

  /** One `drawImage(image, x, y, width, height)` call. */
  datatype Draw = Draw(x: real, y: real, width: int, height: int)

  /** The dimensions of a loaded tile image. */
  datatype Image = Image(width: int, height: int)

  class Canvas {
    const width: nat
    const height: nat
    /** The draw calls made so far, in order. */
    var draws: seq<Draw>

    constructor (width: nat, height: nat)
      ensures this.width == width && this.height == height && draws == []
    {
      this.width := width;
      this.height := height;
      draws := [];
    }
  }

  // ---------------------------------------------------------------------------
  // One map request

  /** The tiles `getTiles` pushes, in order, up to (not including) the `n`-th. */
  function Tiles(g: Grid, n: nat): (ts: seq<Tile>)
    requires n <= TileCount(g)
    ensures |ts| == n
    ensures forall k :: 0 <= k < n ==> ts[k] == TileAt(g, k)
  {
    seq(n, k requires 0 <= k < n => TileAt(g, k))
  }

  lemma TilesNext(g: Grid, n: nat)
    requires n < TileCount(g)
    ensures Tiles(g, n + 1) == Tiles(g, n) + [TileAt(g, n)]
  {
  }

  lemma NewItemsAppend<T>(s: seq<T>, x: T)
    ensures NewItems(s + [x], 0) == NewItems(s, 0) + NewItems([x], |s|)
  {
    assert forall i :: 0 <= i < |s| ==> (s + [x])[i] == s[i];
  }

  /** The outcome of `getTile` for one tile. */
  datatype TileOutcome =
    | Drawn(url: string)
    | Deferred(ms: int)
    | WrongDimensions(url: string, width: int, height: int)
    | NoTemplate

  /** `q` holds exactly the first `n` tiles of `g`, pushed one by one and not yet started. */
  ghost predicate Filled(q: Queue<Tile>, g: Grid, n: nat)
    reads q
  {
    && n <= TileCount(g)
    && q.Valid() && q.payload == 1
    && q.run == Run(NewItems(Tiles(g, n), 0), 0, [], [], [])
    && q.nextId == n && (q.started <==> n > 0)
    && !q.drainHooked && q.drainCalls == 0 && !q.paused
  }

  /** One `q.push(tile)` of `getTiles`: the `n`-th tile joins the back of the queue. */
  method PushTile(q: Queue<Tile>, g: Grid, n: nat, tile: Tile)
    requires Filled(q, g, n) && n < TileCount(g) && tile == TileAt(g, n)
    modifies q
    ensures Filled(q, g, n + 1)
  {
    TilesNext(g, n);
    NewItemsAppend(Tiles(g, n), tile);
    var _ := q.Push([tile]);
  }

  /**
   * The inner loop of `getTiles` for row `y`: one tile per column from left
   * to right, each with its wrapped column, its draw offset and the next URL
   * template in turn.
   */
  method PushRow(q: Queue<Tile>, g: Grid, y: int, n: nat) returns (tileCount: nat)
    requires Filled(q, g, n)
    requires FirstRow(g) <= y <= LastRow(g) && n == (y - FirstRow(g)) * ColumnCount(g)
    modifies q
    ensures Filled(q, g, tileCount) && tileCount == n + ColumnCount(g)
  {
    var extent := Pow2(g.zoom);
    tileCount := n;
    var x := g.bounds.minX;
    while x <= g.bounds.maxX
      invariant g.bounds.minX <= x && (g.bounds.minX <= g.bounds.maxX ==> x <= g.bounds.maxX + 1)
      invariant tileCount == n + (x - g.bounds.minX)
      invariant Filled(q, g, tileCount)
    {
      CellTile(g, y, x, tileCount);
      var tile := Tile(Wrap(x, extent), y, DrawOffset(g, y, x),
                       if |g.urls| == 0 then None else Some(g.urls[tileCount % |g.urls|]));
      PushTile(q, g, tileCount, tile);
      tileCount := tileCount + 1;
      x := x + 1;
    }
  }

  /**
   * The outer loop of `getTiles`: every row of the range clamped to the
   * world, from top to bottom.
   */
  method PushRows(q: Queue<Tile>, g: Grid)
    requires Filled(q, g, 0)
    modifies q
    ensures Filled(q, g, TileCount(g))
  {
    var extent := Pow2(g.zoom);
    var y0 := Max(0, g.bounds.minY);
    var y1 := Min(extent - 1, g.bounds.maxY);
    ghost var cols := ColumnCount(g);
    var tileCount: nat := 0;
    var y := y0;
    while y <= y1
      invariant y0 <= y && (y0 <= y1 ==> y <= y1 + 1)
      invariant tileCount == (y - y0) * cols
      invariant Filled(q, g, tileCount)
    {
      tileCount := PushRow(q, g, y, tileCount);
      assert (y + 1 - y0) * cols == (y - y0) * cols + cols;
      y := y + 1;
    }
  }

  class GetMapTask {
    const options: Config
    /** `options.limiter`, or `null` without a rate limit. */
    const limiter: RateLimiter?
    const canvas: Canvas
    const zoom: nat
    var xyzBounds: Bounds
    var offset: Point
    /** The objects the limiter consists of. */
    ghost const LimiterRepr: set<object>

    ghost predicate Valid()
      reads this, LimiterRepr
    {
      && options.size > 0
      && options.concurrency != Finite(0)
      && (limiter == null ==> LimiterRepr == {})
      && (limiter != null ==> LimiterRepr == {limiter, limiter.bucket} && limiter.Valid())
      && canvas !in LimiterRepr
    }

    /** Everything `getTiles` reads from the task. */
    function Grid(): Grid
      reads this
    {
      TileMath.Grid(xyzBounds, offset, zoom, options.size, options.urls)
    }

    /** `new GetMapTask(options, canvas, lon, lat, zoom)` with the centre pixel `(cx, cy)`. */
    constructor (options: Config, limiter: RateLimiter?, canvas: Canvas, cx: int, cy: int, zoom: nat)
      requires options.size > 0 && options.concurrency != Finite(0)
      requires limiter != null ==> limiter.Valid() && canvas !in {limiter as object, limiter.bucket}
      ensures Valid()
      ensures this.options == options && this.limiter == limiter && this.canvas == canvas && this.zoom == zoom
      ensures Grid() == TaskGrid(cx, cy, canvas.width, canvas.height, zoom, options.size, options.urls)
    {
      this.options := options;
      this.limiter := limiter;
      this.canvas := canvas;
      this.zoom := zoom;
      LimiterRepr := if limiter == null then {} else {limiter, limiter.bucket};
      new;
      InitBounds(cx, cy);
    }

    /**
     * `initBounds`: the tile range covering the canvas around the centre
     * pixel and the offset of the range's top-left tile from the canvas
     * corner.
     */
    method InitBounds(cx: int, cy: int)
      requires options.size > 0
      modifies this`xyzBounds, this`offset
      ensures xyzBounds == XyzBounds(cx, cy, canvas.width, canvas.height, options.size)
      ensures offset == OriginOffset(cx, cy, canvas.width, canvas.height, options.size)
      ensures canvas.width >= 1 && canvas.height >= 1 ==>
        xyzBounds.minX <= xyzBounds.maxX && xyzBounds.minY <= xyzBounds.maxY
      ensures -(options.size as real) < offset.x <= 0.0 && -(options.size as real) < offset.y <= 0.0
    {
      var size := options.size;
      xyzBounds := XyzBounds(cx, cy, canvas.width, canvas.height, size);
      offset := OriginOffset(cx, cy, canvas.width, canvas.height, size);
      if canvas.width >= 1 && canvas.height >= 1 {
        SpanNonEmpty(cx, canvas.width, size);
        SpanNonEmpty(cy, canvas.height, size);
      }
    }

    /**
     * `getTiles(callback)`: a queue with the task's concurrency (one tile per
     * worker), and for every row of the clamped range from top to bottom and
     * every column from left to right, one tile pushed with its wrapped
     * column, its draw offset and the next URL template in turn. With a
     * callback, the queue's `drain` is hooked last.
     */
    method GetTiles(hook: bool) returns (q: Queue<Tile>)
      requires Valid()
      ensures fresh(q) && q.Valid()
      ensures q.concurrency == options.concurrency && q.payload == 1
      ensures q.run == Run(NewItems(Tiles(Grid(), TileCount(Grid())), 0), 0, [], [], [])
      ensures q.started <==> TileCount(Grid()) > 0
      ensures q.drainHooked == hook && q.drainCalls == 0 && !q.paused
    {
      var g := Grid();
      q := new Queue<Tile>(options.concurrency, 1);
      PushRows(q, g);
      if hook {
        q.HookDrain();
      }
    }

    /**
     * The draw step of `getTile` once the image has loaded: an image whose
     * width or height is not the tile size is rejected and nothing is drawn;
     * otherwise the image is drawn once, at the tile's offset, at tile size.
     */
    method DrawTile(tile: Tile, url: string, image: Image) returns (r: TileOutcome)
      modifies canvas
      ensures image.width != options.size || image.height != options.size ==>
        r == WrongDimensions(url, image.width, image.height) && canvas.draws == old(canvas.draws)
      ensures image.width == options.size && image.height == options.size ==>
        r == Drawn(url) && canvas.draws == old(canvas.draws) + [Draw(tile.offset.x, tile.offset.y, options.size, options.size)]
    {
      if image.width != options.size || image.height != options.size {
        return WrongDimensions(url, image.width, image.height);
      }
      canvas.draws := canvas.draws + [Draw(tile.offset.x, tile.offset.y, options.size, options.size)];
      return Drawn(url);
    }

    /**
     * `getTile(tile, callback)` with the loader delivering `image`: the URL
     * is computed first (a tile without a template throws); with a rate
     * limit, one token is requested, and a wait defers the load; the
     * limiter's error, if any, is ignored and the tile loads anyway.
     */
    method GetTile(tile: Tile, image: Image, now: int, wallNow: int) returns (r: TileOutcome)
      requires Valid() && tile.x >= 0 && tile.y >= 0
      modifies canvas, LimiterRepr
      ensures Valid()
      ensures tile.urlTemplate.None? ==> r == NoTemplate && canvas.draws == old(canvas.draws)
      ensures r.Drawn? <==> !r.Deferred? && tile.urlTemplate.Some? && image.width == options.size && image.height == options.size
      ensures r.Drawn? ==>
        && r.url == TileUrlOf(tile, zoom).value
        && canvas.draws == old(canvas.draws) + [Draw(tile.offset.x, tile.offset.y, options.size, options.size)]
      ensures !r.Drawn? ==> canvas.draws == old(canvas.draws)
      ensures limiter == null ==> !r.Deferred?
      ensures r.Deferred? ==> r.ms > 0
      ensures tile.urlTemplate.None? ==> unchanged(LimiterRepr)
      ensures limiter != null && tile.urlTemplate.Some? ==>
        && (r.Deferred? <==> old(limiter.Outcome(1.0, now, wallNow)).Wait?)
        && (r.Deferred? ==> r.ms == old(limiter.Outcome(1.0, now, wallNow)).ms)
        && limiter.State() == old(limiter.After(1.0, now, wallNow))
      ensures limiter != null && tile.urlTemplate.Some? && old(limiter.Outcome(1.0, now, wallNow)).Granted? ==>
        limiter.tokensThisInterval == old(limiter.SpentAt(now)) + 1.0
    {
      var url := TileUrlOf(tile, zoom);
      if url.Failure? {
        return NoTemplate;
      }
      if limiter != null {
        var o := limiter.RemoveTokens(1.0, now, wallNow);
        if o.Wait? {
          return Deferred(o.ms);
        }
      }
      r := DrawTile(tile, url.value, image);
    }

    /**
     * The retry of a deferred `getTile` once its wait is over: the limiter's
     * bucket is asked again, and the load and draw follow unless it asks for
     * another wait.
     */
    method ResumeTile(tile: Tile, image: Image, wallNow: int) returns (r: TileOutcome)
      requires Valid() && limiter != null && tile.x >= 0 && tile.y >= 0 && tile.urlTemplate.Some?
      modifies canvas, LimiterRepr
      ensures Valid()
      ensures r.Drawn? <==> !r.Deferred? && image.width == options.size && image.height == options.size
      ensures r.Drawn? ==>
        && r.url == TileUrlOf(tile, zoom).value
        && canvas.draws == old(canvas.draws) + [Draw(tile.offset.x, tile.offset.y, options.size, options.size)]
      ensures !r.Drawn? ==> canvas.draws == old(canvas.draws)
      ensures r.Deferred? <==> old(limiter.bucket.Outcome(1.0, wallNow)).Wait?
      ensures r.Deferred? ==> r.ms == old(limiter.bucket.Outcome(1.0, wallNow)).ms
      ensures limiter.State() == old(limiter.BucketStep(limiter.curIntervalStart, limiter.tokensThisInterval, 1.0, wallNow))
    {
      var url := TileUrlOf(tile, zoom);
      var o := limiter.RemoveFromBucket(1.0, wallNow);
      if o.Wait? {
        return Deferred(o.ms);
      }
      r := DrawTile(tile, url.value, image);
    }
  }

  // ---------------------------------------------------------------------------
  // The map

  class StaticMap {
    const options: Config
    const limiter: RateLimiter?
    /** The objects the limiter consists of. */
    ghost const LimiterRepr: set<object>

    /** The resolved options are usable by a queue and a canvas, and the limiter is sound. */
    ghost predicate Valid()
      reads this, LimiterRepr
    {
      && options.size > 0
      && options.concurrency != Finite(0)
      && (limiter == null ==> LimiterRepr == {})
      && (limiter != null ==> LimiterRepr == {limiter, limiter.bucket} && limiter.Valid())
    }

    /**
     * `new StaticMap(urls, options)` at limiter time `now` and wall-clock
     * time `wallNow`: the defaults are applied, and a rate limit creates a
     * limiter of that many tokens per second.
     */
    constructor (urls: UrlsArg, userOptions: UserOptions, now: int, wallNow: int)
      requires userOptions.size.Some? ==> userOptions.size.value >= 0
      requires userOptions.rateLimit.Some? ==> userOptions.rateLimit.value >= 0.0
      ensures Valid()
      ensures options == ResolveOptions(urls, userOptions)
      ensures (limiter != null) <==> options.rateLimit.Some?
      ensures limiter != null ==>
        && fresh(limiter) && fresh(limiter.bucket) && limiter.Valid()
        && limiter.bucket.tokensPerInterval == options.rateLimit.value
        && limiter.bucket.interval == ParseInterval(Named("second")).value
        && limiter.bucket.content == options.rateLimit.value
        && !limiter.fireImmediately
    {
      var resolved := ResolveOptions(urls, userOptions);
      ResolvedOptionsAreUsable(urls, userOptions);
      options := resolved;
      if resolved.rateLimit.Some? {
        var l := new RateLimiter(resolved.rateLimit.value, Second, false, now, wallNow);
        limiter := l;
        LimiterRepr := {l, l.bucket};
      } else {
        limiter := null;
        LimiterRepr := {};
      }
    }

    /**
     * `getMap(canvas, lon, lat, zoom, callback)` with the centre pixel
     * `(cx, cy)`: a task for the canvas, whose tiles are pushed into a new
     * queue.
     */
    method GetMap(canvas: Canvas, cx: int, cy: int, zoom: nat, hook: bool) returns (task: GetMapTask, q: Queue<Tile>)
      requires Valid() && canvas !in LimiterRepr
      ensures fresh(task) && fresh(q) && task.Valid() && q.Valid()
      ensures task.options == options && task.limiter == limiter && task.canvas == canvas
      ensures var g := TaskGrid(cx, cy, canvas.width, canvas.height, zoom, options.size, options.urls);
        && task.Grid() == g
        && q.run == Run(NewItems(Tiles(g, TileCount(g)), 0), 0, [], [], [])
        && q.drainHooked == hook
    {
      task := new GetMapTask(options, limiter, canvas, cx, cy, zoom);
      q := task.GetTiles(hook);
    }
  }
}
