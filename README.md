# static-map in Dafny

A model of the static-map renderer. A `StaticMap` holds a list of tile URL
templates, a tile size, a concurrency limit and an optional rate limit. For
each map request a `GetMapTask` does the following:

- it computes the range of slippy-map tiles that covers the canvas around the
  centre pixel, and the offset of the first tile from the canvas corner;
- it pushes one task per tile into a bounded asynchronous queue, with rows
  outside the world skipped, columns wrapped around the antimeridian and URL
  templates handed out in turn;
- for each tile it fills the template's `{x}`, `{y}` and `{z}` placeholders,
  asks the rate limiter for a token, and draws the loaded image at its offset
  if the image has the tile size.

The vendored helpers the renderer relies on are modelled too:

- the `async.util.queue` task queue, its one-item `async.queue` wrapper and
  its `only_once` guard;
- the `limiter` package's `TokenBucket` and `RateLimiter`.

Modules, one file each:

- `Wrappers` (`wrappers.dfy`): `Option`, `Result`, and `min`/`max` on integers and reals.
- `TileMath` (`tile_math.dfy`): JavaScript `%` and the column wrap, the
  floor-based tile range and origin offset of `initBounds`, and the tile
  enumeration of `getTiles` as a function `TileAt(g, k)` of the running
  `tileCount`.
- `TileUrl` (`tile_url.dfy`): decimal rendering of numbers and the global
  regular-expression replace of `tileUrl`.
- `TaskQueue` (`task_queue.dfy`): the queue as a class. Its `process` loop is
  a method proved against the function `Dispatch`. Running workers are
  accounted for through `workersList`. Every task object is an `Item` with an
  identity, and the queue's invariant keeps identities distinct, so removing
  the finished task from `workersList` by value removes the object the code
  splices out by identity.
- `TokenBuckets` (`token_buckets.dfy`): interval parsing, refill and wait
  arithmetic, and the bucket as a class.
- `RateLimiters` (`rate_limiters.dfy`): the per-interval cap on top of the
  bucket.
- `StaticMaps` (`static_map.dfy`): option defaults, the canvas, `GetMapTask`
  and `StaticMap`.

Clocks are arguments. The limiter's `getMilliseconds()` is `now`, and the
bucket's `+new Date()` is `wallNow`. Callbacks become return values:

- a removal that JavaScript answers later (`process.nextTick`, `setTimeout`)
  returns a `Removal` (granted, wait `ms`, refused, limited);
- the queue's deferred `setImmediate(q.process)` is an explicit
  `Queue.Process()` call;
- a worker's completion callback is `Queue.Complete(b)` for the `b`-th batch
  started.

The map centre arrives as the integer pixel that the projection
`toPixelCoordinates` yields. The canvas records its `drawImage` calls. The tile
loader's image is an argument.

Where the code and its documentation differ, the model follows the code:

- A map without tiles never fires its completion callback. The `drain`
  callback is hooked after all pushes, and nothing calls it when nothing was
  pushed.
- `getTile` ignores an error from the rate limiter and loads the tile anyway.
  `GetTile` therefore draws after a `Refused` or `Limited` outcome.
- A token request that had to wait for the next interval retries on the
  bucket alone, without looking at the interval again. The tokens it takes
  then count against the interval that has already ended, so
  `tokensThisInterval` may exceed `tokensPerInterval` until the next request
  resets it. `RateLimiter.RemoveFromBucket` models this retry, and
  `RateLimiter.Valid` therefore does not bound `tokensThisInterval`.

## Model

| member | source | states |
|---|---|---|
| TileMath.JsRem | index.js:56 | JavaScript `%`: the remainder is below the divisor in magnitude, takes the sign of the dividend, and differs from it by a multiple of the divisor |
| TileMath.Wrap | index.js:56 | `((x % extent) + extent) % extent` lies in `[0, extent)` and is congruent to `x` |
| TileMath.WrapIsEuclideanMod | index.js:56 | the double remainder equals the mathematical (Euclidean) `x mod extent` for every `x`, negative columns included |
| TileMath.Pow2 | index.js:49 | `Math.pow(2, zoom)`, the number of tiles along each axis of the world, is at least 1 |
| TileMath.FloorDiv | index.js:37-40 | `Math.floor(a / size)`, the tile index of a pixel coordinate; its meaning is `FloorDivSpan` |
| TileMath.FloorDivSpan | index.js:37-40 | `Math.floor(a / size)` names the tile `[q*size, (q+1)*size)` that holds `a` |
| TileMath.FloorDivUnique | index.js:37-40 | that tile index is the only integer whose tile holds `a` |
| TileMath.Low | index.js:33 | `topLeft` along one axis: the centre minus half the canvas length |
| TileMath.High | index.js:34 | `bottomRight` along one axis: the centre plus half the canvas length |
| TileMath.AxisSpan | index.js:36-41 | one axis of `xyzBounds`: the tile of `topLeft` and the tile of `bottomRight - 1`; its meaning is `AxisSpanBounds` |
| TileMath.AxisSpanBounds | index.js:33-41 | along each axis the first tile holds the canvas's top-left edge and the last tile holds the pixel before the bottom-right edge |
| TileMath.AxisOffset | index.js:43 | the origin offset `minX * size - topLeft` lies in `(-size, 0]`: the first tile starts at or before the canvas corner, less than one tile before it |
| TileMath.SpanNonEmpty | index.js:36-41 | a canvas at least one pixel long gets at least one tile along that axis |
| TileMath.SpanTight | index.js:36-41 | the tiles of an axis cover the canvas length; they reach less than one tile beyond each edge, so at most one tile more than the length needs |
| TileMath.XyzBounds | index.js:36-41 | `xyzBounds`: the column span of the width and the row span of the height |
| TileMath.OriginOffset | index.js:43 | `offset`: the origin offsets of both axes, each bounded by `AxisOffset` |
| TileMath.TaskGrid | index.js:28-44 | the grid of a request keeps the zoom, the tile size and the URL list beside the bounds and offset of `initBounds` |
| TileMath.FirstRow | index.js:50 | `y0` is never above the world's top row 0 nor above `minY`, and is `minY` when that lies inside the world |
| TileMath.LastRow | index.js:51 | `y1` is never below the world's bottom row `2^zoom - 1` nor below `maxY`, and is `maxY` when that lies inside the world |
| TileMath.TileCount | index.js:52-66 | the final `tileCount`: the clamped rows times the columns |
| TileMath.RowOf | index.js:53 | the row of the `k`-th pushed tile, rows outermost; bounded by `RowAndColumnInRange` |
| TileMath.ColumnOf | index.js:54 | the unwrapped column of the `k`-th pushed tile, columns innermost; bounded by `RowAndColumnInRange` |
| TileMath.DrawOffset | index.js:58-61 | the draw offset of a cell, whole tiles from `minX`/`minY` plus `offset`; its meaning is `DrawOffsetIsPixelPosition` |
| TileMath.TileAt | index.js:55-63 | the object pushed as the `k`-th tile; its properties are `TileInWorld`, `RowMajorOrder`, `EveryCellEmitted` and `CellTile` |
| TileMath.RowAndColumnInRange | index.js:50-54 | the `k`-th pushed tile lies in a clamped row `y0..y1` and a column `minX..maxX` |
| TileMath.TileInWorld | index.js:49-57 | every pushed tile's `x` is its column mod `2^zoom`, and its `x` and `y` lie in `[0, 2^zoom)` |
| TileMath.RowMajorOrder | index.js:53-54 | tiles are pushed row by row from the top, and left to right within a row |
| TileMath.EveryCellEmitted | index.js:53-66 | every cell of the clamped range is pushed, at position `(row - y0) * columns + (col - minX)` |
| TileMath.CellTile | index.js:55-63 | the object pushed for a cell is `TileAt` of its position: wrapped column, row, draw offset and round-robin template |
| TileMath.NextInRow | index.js:54 | the tile after one that is not at the end of its row is its right neighbour |
| TileMath.AdjacentTilesOneSizeApart | index.js:58-61 | right neighbours share a row and are drawn exactly one tile size further right |
| TileMath.DrawOffsetIsPixelPosition | index.js:43 | with the offset of `initBounds`, every tile is drawn at its global pixel position minus the canvas's top-left pixel |
| TileMath.RoundRobinTemplates | index.js:62 | tiles `|urls|` apart in push order use the same URL template |
| TileMath.ExampleZoom15 | test/static-map.test.js:43-67 | the 256x256 zoom-15 request: bounds, offset `(-149, -100)`, four tiles in row-major order with the expected draw offsets |
| TileMath.ExampleAcrossAntimeridian | test/static-map.test.js:69-93 | the antimeridian request: column 32 wraps to column 0 and the draw offsets are 0 and 256 |
| TileMath.ExamplePolarRowsSkipped | test/static-map.test.js:95-111 | the tall zoom-1 canvas: rows outside the world are skipped and only tiles `(1,0)` and `(1,1)` are pushed |
| TileMath.ExampleSubdomains | test/static-map.test.js:113-135 | the three-subdomain request: templates a, b, c, a in push order over the expected tiles |
| TileUrl.NatToString | index.js:103-105 | a substituted number is rendered as decimal digits without leading zeros |
| TileUrl.ParseNatToString | index.js:103-105 | reading the rendered digits back yields the number |
| TileUrl.NatToStringInjective | index.js:103-105 | distinct numbers are rendered as distinct strings |
| TileUrl.Lookup | index.js:98-104 | `values[key]`: the decimal `x`, `y` or `z`, and `undefined` for any other key |
| TileUrl.Fill | index.js:103-105 | `replace(/\{(\w)\}/g, ...)`, left to right and non-overlapping; its meaning is `FillPlain`, `FillAppend` and `FillPlaceholder` |
| TileUrl.FillPlain | index.js:103 | a template without any `{k}` placeholder is unchanged, stray braces included |
| TileUrl.FillAppend | index.js:103-105 | the global replace works segment by segment when no placeholder straddles the join |
| TileUrl.FillPlaceholder | index.js:103-105 | `{k}` becomes the value of key `k`: decimal `x`, `y` or `z`, and `undefined` for any other word character |
| TileUrl.FillZxyTemplate | index.js:97-106 | `<prefix>{z}/{x}/{y}<suffix>` becomes the prefix, the zoom, column and row in decimal separated by slashes, then the suffix |
| TileUrl.TileUrlOf | index.js:97-106 | `tileUrl` fails exactly when the tile has no template |
| TileUrl.EmittedTileHasUrl | index.js:62 | every pushed tile has non-negative indices, and it has a URL exactly when the URL list is not empty |
| TileUrl.ExampleUrl | test/static-map.test.js:53-58 | the first tile of the zoom-15 request gets the URL `<prefix>15/17060/11531<suffix>` |
| TaskQueue.ResolveConcurrency | static-map.js:199-203 | a missing concurrency means 1; zero is refused with an error; anything else is kept |
| TaskQueue.Reverse | static-map.js:225-226 | unshifting items one by one leaves them in reverse order |
| TaskQueue.Take | static-map.js:285-287 | one `process` step splices `payload` tasks, or all of them when `payload` is 0, and at least one when any is queued |
| TaskQueue.Dispatch | static-map.js:283-300 | every batch started is non-empty and holds at most `payload` tasks |
| TaskQueue.DispatchPreservesOrder | static-map.js:283-300 | the batches started, joined, followed by the tasks left queued, are the queue the loop found |
| TaskQueue.DispatchRespectsLimit | static-map.js:283 | the running-worker count after the loop stays within a finite concurrency |
| TaskQueue.DispatchIsMaximal | static-map.js:283 | the loop stops only when paused, at the limit or with nothing queued, so running it again starts nothing |
| TaskQueue.DispatchOneByOne | static-map.js:136-140 | with the wrapper's payload of 1, the `i`-th worker started gets exactly the `i`-th queued task |
| TaskQueue.PendingHeadsComplete | static-map.js:244-250 | completing a running batch removes exactly its first task from the heads of the running batches |
| TaskQueue.StartKeepsAccounted | static-map.js:296-297 | starting a worker below the limit keeps `workers` equal to the number of running batches, and `workersList` equal to their first tasks |
| TaskQueue.CompleteKeepsAccounted | static-map.js:240-250 | completing a running batch keeps that bookkeeping, with one worker fewer |
| TaskQueue.RemoveFirst | static-map.js:244-250 | `workersList` loses one copy of the finished task when it holds it, and is unchanged otherwise |
| TaskQueue.AfterProcess | static-map.js:282-301 | the state after the `process` loop: `Dispatch`'s batches are counted as workers, their first tasks join `workersList`, and they are outstanding |
| TaskQueue.Finished | static-map.js:238-250 | `_next` for one batch before its `process` call: one worker fewer, its first task spliced out of `workersList`, its completion recorded |
| TaskQueue.ProcessKeepsItems | static-map.js:282-301 | `process` creates and drops no task object: the batches handed out so far, followed by the queue, hold the same items in the same order before and after |
| TaskQueue.PushKeepsIdsDistinct | static-map.js:219-229 | the fresh task objects `push` creates keep every task identity distinct, below the next identity |
| TaskQueue.UnshiftKeepsIdsDistinct | static-map.js:219-227 | the fresh task objects `unshift` puts in front, in reverse, keep every task identity distinct |
| TaskQueue.ProcessStep | static-map.js:283-299 | one turn of the loop does not change the state in which the loop ends |
| TaskQueue.ProcessStopped | static-map.js:283 | once the loop condition fails, `process` changes nothing |
| TaskQueue.RunProcessLoop | static-map.js:282-301 | the loop ends in the state `AfterProcess` describes, and the worker bookkeeping still holds |
| TaskQueue.CompleteBatch | static-map.js:238-258 | `_next` counts the worker out, splices its task out of `workersList`, fires `drain` exactly when nothing is queued or running, then runs `process` |
| TaskQueue.ProcessIdempotent | static-map.js:283-300 | running `process` again right after it stopped changes nothing |
| TaskQueue.ProcessShortensQueue | static-map.js:282-304 | `length()` after `process` is the old length minus the tasks handed to workers: it never grows, and shrinks whenever a worker starts |
| TaskQueue.ProcessKeepsTaskOrder | static-map.js:283-300 | on the queue's state, `process` hands out the queue front to back in batches of at most `payload` and stays within the limit |
| TaskQueue.Queue.constructor | static-map.js:261-271 | a new queue is empty, idle, not started and not paused |
| TaskQueue.Queue.Running | static-map.js:305-307 | `running()` is the number of batches whose completion is outstanding, which is the length of `workersList` |
| TaskQueue.Queue.Idle | static-map.js:311-313 | `idle()`: nothing queued and no worker running |
| TaskQueue.Queue.IdleMeansAllDone | static-map.js:311-313 | an idle queue has no task queued, an empty `workersList` and no batch still running |
| TaskQueue.Queue.HookDrain | index.js:68-72 | `getTiles` with a callback sets `drain` |
| TaskQueue.Queue.Push | static-map.js:205-236 | `push` appends the items at the back, so `length()` grows by their number; it marks the queue started, and fires `drain` for an empty push onto an idle queue |
| TaskQueue.Queue.Unshift | static-map.js:279-281 | `unshift` puts the items in front in reverse order, so `length()` grows by their number, with the same `drain` rule |
| TaskQueue.Queue.Process | static-map.js:282-301 | `process` moves the queue to `AfterProcess` of its state, and `length()` drops by exactly the tasks handed to workers |
| TaskQueue.Queue.Complete | static-map.js:180-186 | a second call of a batch's completion callback is refused with an error and changes nothing; the first call is `CompleteBatch` |
| TaskQueue.Queue.Kill | static-map.js:275-278 | `kill` drops the queued tasks and unhooks `drain`; running workers are untouched |
| TaskQueue.Queue.Pause | static-map.js:314-316 | `pause` sets `paused` |
| TaskQueue.Queue.Resume | static-map.js:317-328 | `resume` unpauses and schedules `max(0, min(concurrency, length))` `process` runs (the `for` loop runs no turn for a count below 1), or none when the queue was not paused; never more than the queued tasks or the limit |
| TaskQueue.NewQueue | static-map.js:198-203 | `queue(...)` throws on concurrency 0 and otherwise returns a fresh empty queue with the resolved concurrency |
| TokenBuckets.ParseInterval | static-map.js:532-547 | the unit names give 1000, 60000, 3600000 and 86400000 ms, any other string is refused, and a number passes through |
| TokenBuckets.NamedIntervalsPositive | static-map.js:532-544 | every accepted unit name gives an interval of at least one second |
| TokenBuckets.Ceil | static-map.js:620-621 | `Math.ceil` is the least integer not below its argument |
| TokenBuckets.DripContent | static-map.js:670-675 | the refilled content never exceeds `bucketSize`, nor the content plus the elapsed time times the rate |
| TokenBuckets.WaitTime | static-map.js:620-621 | the `comeBackLater` wait is the time the missing tokens take at the rate, rounded up to a whole millisecond |
| TokenBuckets.DripBounds | static-map.js:674-675 | a refill never exceeds `bucketSize`, and from a content within `bucketSize` it never loses tokens |
| TokenBuckets.DripTwice | static-map.js:670-675 | two refills over `e1` and `e2` ms equal one refill over `e1 + e2` ms |
| TokenBuckets.WaitSuffices | static-map.js:618-624 | the `comeBackLater` wait is positive, and after it the refill covers the request |
| TokenBuckets.TokenBucket.constructor | static-map.js:528-552 | a new bucket is empty, with `lastDrip` set to the current time |
| TokenBuckets.TokenBucket.Refilled | static-map.js:664-676 | the content a refill leaves lies between 0 and `bucketSize` |
| TokenBuckets.TokenBucket.Drip | static-map.js:664-676 | `drip` fills a rateless bucket; otherwise it adds the tokens for the time elapsed since `lastDrip`, up to the cap, and moves `lastDrip` |
| TokenBuckets.TokenBucket.Outcome | static-map.js:572-625 | the answer of a removal: a grant exactly when the bucket is unlimited or the refilled content covers the request, reporting the refilled content minus the request; a refusal exactly for a request beyond a limited bucket; otherwise a positive wait after which the refill covers the request |
| TokenBuckets.TokenBucket.TryRemoveTokens | static-map.js:635-658 | size 0 always succeeds and a request beyond the size fails, both without a refill; otherwise the result is true exactly when the refilled content covers the request, which is then removed; the result is true exactly when `Outcome` is a grant |
| TokenBuckets.TokenBucket.RemoveTokens | static-map.js:572-625 | the answer is `Outcome` of the state before the call; size 0 grants `count`; an oversize request is refused; otherwise the bucket grants and reports what is left, which is its new content, or asks for the `comeBackLater` wait and keeps the refilled content |
| TokenBuckets.NewTokenBucket | static-map.js:528-552 | an unknown interval name throws; otherwise the bucket has the parsed interval |
| RateLimiters.IntervalWaitEndsInterval | static-map.js:441-446 | the wait for the next interval is positive, and once it has passed the interval is over |
| RateLimiters.IntervalExpired | static-map.js:429-430 | the interval is over when the clock went back or a full `interval` has passed since it began |
| RateLimiters.IntervalWait | static-map.js:441-442 | the wait until the next interval, `ceil(start + interval - now)` |
| RateLimiters.RateLimiter.SpentAt | static-map.js:429-433 | what has been spent in the interval current at `now`: nothing when a new one starts |
| RateLimiters.RateLimiter.AllowanceAt | static-map.js:437 | the tokens still allowed in the current interval: `tokensPerInterval - tokensThisInterval` |
| RateLimiters.RateLimiter.constructor | static-map.js:387-397 | a limiter starts with a full bucket of `tokensPerInterval` and nothing spent in an interval starting now |
| RateLimiters.RateLimiter.AdvanceInterval | static-map.js:427-433 | an interval that has expired, or a clock that went back, starts a new interval with nothing spent |
| RateLimiters.RateLimiter.Outcome | static-map.js:415-460 | the answer of `removeTokens`: a refusal exactly for a request beyond the bucket; `-1` at once exactly when the allowance is exceeded and `fireImmediately` is set; a grant exactly when the request passes the allowance and the bucket grants it, and then it fits in the allowance; every wait is positive |
| RateLimiters.RateLimiter.BucketStep | static-map.js:452-459 | the limiter after the bucket step: a grant adds the request to the interval's count and leaves the bucket holding what it reports as remaining; a wait leaves the bucket refilled; an unlimited bucket or a refusal leaves the bucket as it was |
| RateLimiters.RateLimiter.After | static-map.js:415-460 | the limiter after a removal: a refusal changes nothing; otherwise the interval is current, exactly the granted tokens are added to its count, and the bucket changes only when the request reached it, as in `BucketStep` |
| RateLimiters.RateLimiter.TryRemoveTokens | static-map.js:471-496 | the result is true exactly when `Outcome` is a grant, so an oversize request fails and one beyond the interval's allowance fails without touching the bucket; the new limiter and bucket state is `After` of the old one |
| RateLimiters.RateLimiter.RemoveFromBucket | static-map.js:452-459 | the answer is the bucket's `Outcome` and the new state is `BucketStep` from the current interval: a grant is counted against the interval and reports the bucket's new content; a wait is positive; errors pass through |
| RateLimiters.RateLimiter.RemoveTokens | static-map.js:415-460 | the answer is `Outcome` and the new limiter and bucket state is `After`, both of the state before the call; a grant reports the bucket's new content |
| RateLimiters.RateLimiter.GetTokensRemaining | static-map.js:502-505 | `getTokensRemaining` refills the bucket and reports its content, which lies between 0 and `bucketSize` |
| RateLimiters.NewRateLimiter | static-map.js:387-397 | an unknown interval name throws; otherwise the limiter uses the parsed interval |
| StaticMaps.ResolveOptions | index.js:112-121 | concurrency defaults to Infinity, size to 256, and a single URL is wrapped in a list; a falsy option takes the default; a rate limit is kept only when truthy |
| StaticMaps.ResolvedOptionsAreUsable | index.js:114-115 | with these defaults the queue never refuses its concurrency and the tile size is positive |
| StaticMaps.Canvas.constructor | test/static-map.test.js:23-38 | a canvas of the given width and height with no draw call made yet |
| StaticMaps.PushTile | index.js:55-64 | one `push` adds the next tile of the enumeration to the queue |
| StaticMaps.PushRow | index.js:54-65 | the inner loop pushes one tile per column of the row, in order |
| StaticMaps.PushRows | index.js:50-66 | the outer loop over the clamped rows leaves exactly the whole enumeration queued, in order, with nothing started |
| StaticMaps.GetMapTask.constructor | index.js:21-26 | a new task holds the options, canvas and zoom, and the grid of `initBounds` for the centre |
| StaticMaps.GetMapTask.InitBounds | index.js:28-44 | `xyzBounds` and `offset` are the tile range and origin offset of the canvas; the range is non-empty, and the offset lies within one tile before the corner |
| StaticMaps.GetMapTask.GetTiles | index.js:46-73 | the new queue holds exactly the tiles of the enumeration, in order, with nothing started; `drain` is hooked exactly when a callback is given |
| StaticMaps.GetMapTask.DrawTile | index.js:80-86 | an image of the wrong width or height is rejected and nothing is drawn; otherwise it is drawn once, at the tile's offset, at tile size |
| StaticMaps.GetMapTask.GetTile | index.js:75-95 | a tile without a template fails and leaves the limiter alone; with a limiter the tile is deferred exactly when the limiter's `Outcome` for one token is a wait, for that long, and the limiter's new state is `After` for one token, so a granted tile has taken one token from the interval; otherwise it is drawn exactly when the image has the tile size, under the URL of `tileUrl` |
| StaticMaps.GetMapTask.ResumeTile | index.js:89-91 | after a deferral the bucket is asked again for one token: the tile is deferred again exactly when the bucket's `Outcome` is a wait, the limiter's new state is `BucketStep`, and otherwise the tile is drawn exactly when the image has the tile size |
| StaticMaps.StaticMap.constructor | index.js:108-122 | the options are the resolved defaults and the map is valid (positive size, usable concurrency); a rate limit creates a limiter of that many tokens per second, without `fireImmediately` |
| StaticMaps.StaticMap.GetMap | index.js:124-126 | on a valid map, `getMap` creates a task for the canvas and a queue holding the task's tiles |

## Left out

- The projection `toPixelCoordinates` (`index.js:13-19`), with its logarithm, tangent and rounding, is left out because it is floating-point arithmetic. The model takes the resulting integer centre pixel as input.
- The default tile loader (`index.js:4-11`) and image decoding are I/O. The loaded image is an argument, of which only the width and height are used.
- The canvas's 2D context is left out. Drawing appends to the canvas's list of draw calls.
- The per-item task callbacks of `push` and `unshift` are left out, together with the check that a callback is a function. The map never passes one.
- `saturated` and `empty` are no-ops in the map and are left out.
- The `workersList()` accessor is left out. The list is a field of the queue's state.
- `setImmediate`, `process.nextTick` and `setTimeout` are left out. Scheduling is an explicit call by the caller: `Process`, the retry of `ResumeTile`, or another removal.
- The interleaving of concurrent callbacks is left out. Each call is one atomic step.
- TaskQueue.Queue.Push: an empty push onto an idle queue fires `drain` within the call, rather than on the next turn of the event loop.
- Parent buckets of `TokenBucket` (`static-map.js:595-610`, `652-653`) are left out, because the rate limiter always creates its bucket without a parent.
- The boolean that `removeTokens` returns ("fired immediately") is left out. The outcome `Granted` carries the same information.
- Floating-point rounding, `NaN` and `Infinity` are left out. Lengths and counts are exact reals and integers, and an infinite concurrency is the value `Unbounded`.
- StaticMaps.StaticMap.constructor: it requires a non-negative `size` and `rateLimit`, for the reason given for `ResolveOptions`.
- StaticMaps.ResolveOptions: a negative or fractional `size`, and a negative `rateLimit`, are not modelled. The map only makes sense with positive values.
- TokenBuckets.NewTokenBucket: it requires a non-negative size and rate, and a positive interval in milliseconds. Negative numbers are not handled.
- RateLimiters.NewRateLimiter: it requires a non-negative rate and a positive interval in milliseconds. Negative numbers are not handled.
- TokenBuckets.TokenBucket.TryRemoveTokens: the cap `content <= bucketSize` after a removal is stated only for a non-negative `count`.
- StaticMaps.GetMapTask.GetTile: the limiter's own error outcomes (`Refused`, `Limited`) are not reported to the caller, just as the source ignores them.
