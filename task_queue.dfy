/**
 * The vendored bounded task queue (`async.util.queue` and its one-item
 * wrapper `async.queue`): a FIFO of pending tasks, a counter of running
 * workers, and a `process` loop that starts batches of at most `payload`
 * tasks while fewer than `concurrency` workers run.
 *
 * Starting a worker is recorded as a new entry of `batches`; the worker's
 * completion callback is the explicit call `Complete(b)` for that entry.
 * Deferred calls (`setImmediate(q.process)`) are explicit `Process()` calls.
 */
module TaskQueue {
  import opened Wrappers

  /** A concurrency limit: a number, or `Infinity`. */
  datatype Limit = Finite(n: int) | Unbounded

  /** `workers < concurrency`, with `Infinity` above every count. */
  predicate Below(workers: int, limit: Limit)
  {
    limit.Unbounded? || workers < limit.n
  }

  datatype QueueError = ZeroConcurrency | CallbackAlreadyCalled

  /**
   * The concurrency argument of `queue`: a missing one (`null` or
   * `undefined`) means one worker, zero is refused with an error, anything
   * else is taken as given.
   */
  function ResolveConcurrency(concurrency: Option<Limit>): (r: Result<Limit, QueueError>)
    ensures concurrency.None? ==> r == Success(Finite(1))
    ensures r.Failure? <==> concurrency == Some(Finite(0))
    ensures r.Failure? ==> r.error == ZeroConcurrency
    ensures concurrency.Some? && r.Success? ==> r.value == concurrency.value
  {
    match concurrency
    case None => Success(Finite(1))
    case Some(limit) => if limit == Finite(0) then Failure(ZeroConcurrency) else Success(limit)
  }

  /** A queued task: its data and its identity (JavaScript compares task objects by identity). */
  datatype Item<T> = Item(id: nat, data: T)

  /** The task objects `_insert` creates for `data`, numbered from `first`. */
  function NewItems<T>(data: seq<T>, first: nat): (items: seq<Item<T>>)
    ensures |items| == |data|
    ensures forall i :: 0 <= i < |data| ==> items[i] == Item(first + i, data[i])
  {
    seq(|data|, i requires 0 <= i < |data| => Item(first + i, data[i]))
  }

  /** The items in reverse order: `unshift` of each item in turn leaves the last one first. */
  function Reverse<T>(s: seq<T>): (r: seq<T>)
    ensures |r| == |s|
    ensures forall i :: 0 <= i < |s| ==> r[i] == s[|s| - 1 - i]
  {
    if |s| == 0 then [] else Reverse(s[1..]) + [s[0]]
  }

  /** How many tasks one `process` step splices off: `payload` of them, or all when `payload` is 0. */
  function Take(payload: nat, available: nat): (n: nat)
    ensures n <= available
    ensures available > 0 ==> n > 0
    ensures payload > 0 ==> n == Min(payload, available)
    ensures payload == 0 ==> n == available
  {
    if payload == 0 then available else Min(payload, available)
  }

  /** The batches one run of the `process` loop starts, and the tasks it leaves queued. */
  datatype Dispatched<T> = Dispatched(batches: seq<seq<Item<T>>>, rest: seq<Item<T>>)

  /**
   * The `process` loop as a function: while not paused, below the limit and
   * with tasks queued, splice a batch off the front and start a worker.
   */
  function Dispatch<T>(tasks: seq<Item<T>>, workers: int, paused: bool, limit: Limit, payload: nat): (d: Dispatched<T>)
    ensures forall i :: 0 <= i < |d.batches| ==> 0 < |d.batches[i]| && (payload > 0 ==> |d.batches[i]| <= payload)
    decreases |tasks|
  {
    if paused || !Below(workers, limit) || |tasks| == 0 then Dispatched([], tasks)
    else
      var n := Take(payload, |tasks|);
      var d := Dispatch(tasks[n..], workers + 1, paused, limit, payload);
      Dispatched([tasks[..n]] + d.batches, d.rest)
  }

  function Flatten<T>(bs: seq<seq<T>>): seq<T>
  {
    if |bs| == 0 then [] else bs[0] + Flatten(bs[1..])
  }

  /** The first task of every batch: what `process` pushes onto `workersList`. */
  function Heads<T>(bs: seq<seq<T>>): seq<T>
    requires forall i :: 0 <= i < |bs| ==> |bs[i]| > 0
  {
    seq(|bs|, i requires 0 <= i < |bs| => bs[i][0])
  }

  lemma HeadsAppend<T>(bs: seq<seq<T>>, batch: seq<T>)
    requires forall i :: 0 <= i < |bs| ==> |bs[i]| > 0
    requires |batch| > 0
    ensures Heads(bs + [batch]) == Heads(bs) + [batch[0]]
  {
    assert forall i :: 0 <= i < |bs| ==> (bs + [batch])[i] == bs[i];
  }

  lemma SeqAppendAssoc<T>(a: seq<T>, b: seq<T>, c: seq<T>)
    ensures (a + b) + c == a + (b + c)
  {
  }

  function Falses(n: nat): seq<bool>
  {
    seq(n, _ => false)
  }

  /** Dispatch neither loses, duplicates nor reorders tasks: the batches, then the rest, are the queue. */
  lemma {:induction false} DispatchPreservesOrder<T>(tasks: seq<Item<T>>, workers: int, paused: bool, limit: Limit, payload: nat)
    ensures var d := Dispatch(tasks, workers, paused, limit, payload); Flatten(d.batches) + d.rest == tasks
    decreases |tasks|
  {
    var d := Dispatch(tasks, workers, paused, limit, payload);
    if paused || !Below(workers, limit) || |tasks| == 0 {
      assert d.batches == [];
    } else {
      var n := Take(payload, |tasks|);
      var d' := Dispatch(tasks[n..], workers + 1, paused, limit, payload);
      DispatchPreservesOrder(tasks[n..], workers + 1, paused, limit, payload);
      assert d.batches == [tasks[..n]] + d'.batches;
      FlattenCons(tasks[..n], d'.batches);
      SeqAppendAssoc(tasks[..n], Flatten(d'.batches), d'.rest);
      assert tasks[..n] + tasks[n..] == tasks;
    }
  }

  lemma FlattenCons<T>(x: seq<T>, bs: seq<seq<T>>)
    ensures Flatten([x] + bs) == x + Flatten(bs)
  {
    assert ([x] + bs)[1..] == bs;
  }

  /**
   * Each started worker counts against the limit, so the running count after
   * the loop is still within the limit (when it was before).
   */
  lemma {:induction false} DispatchRespectsLimit<T>(tasks: seq<Item<T>>, workers: int, paused: bool, limit: Limit, payload: nat)
    ensures var d := Dispatch(tasks, workers, paused, limit, payload);
      limit.Finite? ==> workers + |d.batches| <= Max(workers, limit.n)
    decreases |tasks|
  {
    if !(paused || !Below(workers, limit) || |tasks| == 0) {
      var n := Take(payload, |tasks|);
      DispatchRespectsLimit(tasks[n..], workers + 1, paused, limit, payload);
    }
  }

  /**
   * The loop stops only for a reason: the queue is paused, the limit is
   * reached, or no task is left. A second run therefore starts nothing.
   */
  lemma {:induction false} DispatchIsMaximal<T>(tasks: seq<Item<T>>, workers: int, paused: bool, limit: Limit, payload: nat)
    ensures var d := Dispatch(tasks, workers, paused, limit, payload);
      && (paused || !Below(workers + |d.batches|, limit) || d.rest == [])
      && Dispatch(d.rest, workers + |d.batches|, paused, limit, payload) == Dispatched([], d.rest)
    decreases |tasks|
  {
    if !(paused || !Below(workers, limit) || |tasks| == 0) {
      var n := Take(payload, |tasks|);
      DispatchIsMaximal(tasks[n..], workers + 1, paused, limit, payload);
    }
  }

  /**
   * With the one-task payload of the `async.queue` wrapper, the `i`-th worker
   * started gets exactly the `i`-th queued task.
   */
  lemma {:induction false} DispatchOneByOne<T>(tasks: seq<Item<T>>, workers: int, paused: bool, limit: Limit)
    ensures var d := Dispatch(tasks, workers, paused, limit, 1);
      && |d.batches| <= |tasks|
      && (forall i :: 0 <= i < |d.batches| ==> d.batches[i] == [tasks[i]])
      && d.rest == tasks[|d.batches|..]
    decreases |tasks|
  {
    if !(paused || !Below(workers, limit) || |tasks| == 0) {
      DispatchOneByOne(tasks[1..], workers + 1, paused, limit);
      var d' := Dispatch(tasks[1..], workers + 1, paused, limit, 1);
      var d := Dispatch(tasks, workers, paused, limit, 1);
      assert d.batches == [tasks[..1]] + d'.batches;
      forall i | 0 <= i < |d.batches|
        ensures d.batches[i] == [tasks[i]]
      {
        if i > 0 {
          assert d.batches[i] == d'.batches[i - 1];
          assert tasks[1..][i - 1] == tasks[i];
        }
      }
      assert tasks[1..][|d'.batches|..] == tasks[|d.batches|..];
    }
  }

  /**
   * The first task of each batch that has not completed yet, in start order:
   * the contents of `workersList` up to order.
   */
  function PendingHeads<T>(bs: seq<seq<T>>, done: seq<bool>): seq<T>
    requires |done| == |bs|
    requires forall i :: 0 <= i < |bs| ==> |bs[i]| > 0
  {
    if |bs| == 0 then []
    else PendingHeads(bs[..|bs| - 1], done[..|bs| - 1]) + (if done[|bs| - 1] then [] else [bs[|bs| - 1][0]])
  }

  /** Starting one more batch adds its first task to the pending heads. */
  lemma PendingHeadsStart<T>(bs: seq<seq<T>>, done: seq<bool>, batch: seq<T>)
    requires |done| == |bs| && |batch| > 0
    requires forall i :: 0 <= i < |bs| ==> |bs[i]| > 0
    ensures PendingHeads(bs + [batch], done + [false]) == PendingHeads(bs, done) + [batch[0]]
  {
    assert (bs + [batch])[..|bs|] == bs;
    assert (done + [false])[..|bs|] == done;
  }

  lemma MultisetRemoveThenAdd<T>(f: multiset<T>, t: multiset<T>, h: T)
    requires h in f
    ensures (f - multiset{h}) + t == (f + t) - multiset{h}
  {
    assert forall x :: ((f - multiset{h}) + t)[x] == ((f + t) - multiset{h})[x];
  }

  /** Completing the most recently started batch drops the last pending head. */
  lemma PendingHeadsCompleteLast<T>(bs: seq<seq<T>>, done: seq<bool>)
    requires |done| == |bs| > 0 && !done[|bs| - 1]
    requires forall i :: 0 <= i < |bs| ==> |bs[i]| > 0
    ensures bs[|bs| - 1][0] in multiset(PendingHeads(bs, done))
    ensures multiset(PendingHeads(bs, done[|bs| - 1 := true])) == multiset(PendingHeads(bs, done)) - multiset{bs[|bs| - 1][0]}
  {
    var last := |bs| - 1;
    var h := bs[last][0];
    var front := PendingHeads(bs[..last], done[..last]);
    assert done[last := true][..last] == done[..last];
    assert PendingHeads(bs, done) == front + [h];
    assert PendingHeads(bs, done[last := true]) == front;
    assert multiset(front + [h]) == multiset(front) + multiset{h};
  }

  /** Completing an earlier batch: the last batch contributes the same before and after. */
  lemma PendingHeadsCompleteEarlier<T>(bs: seq<seq<T>>, done: seq<bool>, b: int)
    requires |done| == |bs| && 0 <= b < |bs| - 1 && !done[b]
    requires forall i :: 0 <= i < |bs| ==> |bs[i]| > 0
    requires bs[b][0] in multiset(PendingHeads(bs[..|bs| - 1], done[..|bs| - 1]))
    requires multiset(PendingHeads(bs[..|bs| - 1], done[..|bs| - 1][b := true]))
          == multiset(PendingHeads(bs[..|bs| - 1], done[..|bs| - 1])) - multiset{bs[b][0]}
    ensures bs[b][0] in multiset(PendingHeads(bs, done))
    ensures multiset(PendingHeads(bs, done[b := true])) == multiset(PendingHeads(bs, done)) - multiset{bs[b][0]}
  {
    var last := |bs| - 1;
    var done' := done[b := true];
    var front := PendingHeads(bs[..last], done[..last]);
    var front' := PendingHeads(bs[..last], done'[..last]);
    var tail := if done[last] then [] else [bs[last][0]];
    assert done'[..last] == done[..last][b := true];
    assert PendingHeads(bs, done) == front + tail;
    assert PendingHeads(bs, done') == front' + tail;
    assert multiset(front + tail) == multiset(front) + multiset(tail);
    assert multiset(front' + tail) == multiset(front') + multiset(tail);
    MultisetRemoveThenAdd(multiset(front), multiset(tail), bs[b][0]);
  }

  /**
   * Completing a batch that was still running removes exactly its first task
   * from the pending heads.
   */
  lemma {:induction false} PendingHeadsComplete<T>(bs: seq<seq<T>>, done: seq<bool>, b: int)
    requires |done| == |bs| && 0 <= b < |bs| && !done[b]
    requires forall i :: 0 <= i < |bs| ==> |bs[i]| > 0
    ensures bs[b][0] in multiset(PendingHeads(bs, done))
    ensures multiset(PendingHeads(bs, done[b := true])) == multiset(PendingHeads(bs, done)) - multiset{bs[b][0]}
  {
    var last := |bs| - 1;
    if b == last {
      PendingHeadsCompleteLast(bs, done);
    } else {
      PendingHeadsComplete(bs[..last], done[..last], b);
      assert bs[..last][b] == bs[b];
      PendingHeadsCompleteEarlier(bs, done, b);
    }
  }

  /**
   * The bookkeeping of running workers: every batch is non-empty, the worker
   * count is the number of batches whose completion is outstanding, and
   * `workersList` holds exactly their first tasks. The count stays within a
   * finite limit.
   */
  ghost predicate Accounted<T>(batches: seq<seq<T>>, done: seq<bool>, workers: int, workersList: seq<T>, limit: Limit)
  {
    && |done| == |batches|
    && (forall i :: 0 <= i < |batches| ==> |batches[i]| > 0)
    && workers == |PendingHeads(batches, done)|
    && multiset(workersList) == multiset(PendingHeads(batches, done))
    && (limit.Finite? ==> workers <= Max(0, limit.n))
  }

  /** Starting a worker below the limit keeps the bookkeeping. */
  lemma StartKeepsAccounted<T>(batches: seq<seq<T>>, done: seq<bool>, workers: int, workersList: seq<T>, limit: Limit, batch: seq<T>)
    requires Accounted(batches, done, workers, workersList, limit)
    requires Below(workers, limit) && |batch| > 0
    ensures Accounted(batches + [batch], done + [false], workers + 1, workersList + [batch[0]], limit)
  {
    PendingHeadsStart(batches, done, batch);
  }

  /** Completing a running batch keeps the bookkeeping, with one worker fewer. */
  lemma CompleteKeepsAccounted<T>(batches: seq<seq<T>>, done: seq<bool>, workers: int, workersList: seq<T>, limit: Limit, b: int)
    requires Accounted(batches, done, workers, workersList, limit)
    requires 0 <= b < |batches| && !done[b]
    ensures Accounted(batches, done[b := true], workers - 1, RemoveFirst(workersList, batches[b][0]), limit)
  {
    PendingHeadsComplete(batches, done, b);
    assert batches[b][0] in multiset(workersList);
  }

  /** Removes the first occurrence of `x`, as `_next` splices the finished task out of `workersList`. */
  function RemoveFirst<T(==)>(s: seq<T>, x: T): (r: seq<T>)
    ensures x in s ==> multiset(r) == multiset(s) - multiset{x} && |r| == |s| - 1
    ensures x !in s ==> r == s
  {
    if |s| == 0 then []
    else
      assert s == [s[0]] + s[1..];
      if s[0] == x then s[1..] else [s[0]] + RemoveFirst(s[1..], x)
  }

  /**
   * What `process` and the completion callbacks change together: the queued
   * tasks (`q.tasks`), the running-worker count and `workersList` (variables
   * of the queue's closure), every batch handed to the worker so far in start
   * order, and whether the completion callback of each batch has been called.
   */
  datatype Run<T> = Run(tasks: seq<Item<T>>, workers: int, workersList: seq<Item<T>>,
                        batches: seq<seq<Item<T>>>, done: seq<bool>)

  /** The worker bookkeeping of a run is consistent (see `Accounted`). */
  ghost predicate RunAccounted<T>(r: Run<T>, limit: Limit)
  {
    Accounted(r.batches, r.done, r.workers, r.workersList, limit)
  }

  /**
   * The run after the `process` loop: the batches `Dispatch` starts are
   * taken off the queue, counted as workers, remembered by their first task
   * in `workersList` and recorded as outstanding.
   */
  ghost function AfterProcess<T>(r: Run<T>, paused: bool, limit: Limit, payload: nat): Run<T>
  {
    var d := Dispatch(r.tasks, r.workers, paused, limit, payload);
    Run(d.rest, r.workers + |d.batches|, r.workersList + Heads(d.batches), r.batches + d.batches,
        r.done + Falses(|d.batches|))
  }

  /**
   * The bookkeeping of `_next` for batch `b`, before its `process` loop: one
   * worker fewer, the batch's first task spliced out of `workersList`, and
   * its completion recorded.
   */
  ghost function Finished<T>(r: Run<T>, b: int): Run<T>
    requires 0 <= b < |r.batches| && b < |r.done| && |r.batches[b]| > 0
  {
    Run(r.tasks, r.workers - 1, RemoveFirst(r.workersList, r.batches[b][0]), r.batches, r.done[b := true])
  }

  lemma HeadsPrepend<T>(batch: seq<T>, bs: seq<seq<T>>)
    requires forall i :: 0 <= i < |bs| ==> |bs[i]| > 0
    requires |batch| > 0
    ensures Heads([batch] + bs) == [batch[0]] + Heads(bs)
  {
    var hs, expected := Heads([batch] + bs), [batch[0]] + Heads(bs);
    forall i | 0 <= i < |hs|
      ensures hs[i] == expected[i]
    {
      if i > 0 {
        assert ([batch] + bs)[i] == bs[i - 1];
      }
    }
  }

  /**
   * One turn of the loop does not change where the loop ends: the run after
   * starting one batch ends in the same state as the run before it.
   */
  lemma ProcessStep<T>(r: Run<T>, paused: bool, limit: Limit, payload: nat)
    requires !paused && Below(r.workers, limit) && |r.tasks| > 0
    ensures var n := Take(payload, |r.tasks|);
      var batch := r.tasks[..n];
      AfterProcess(Run(r.tasks[n..], r.workers + 1, r.workersList + [batch[0]], r.batches + [batch], r.done + [false]),
                   paused, limit, payload)
      == AfterProcess(r, paused, limit, payload)
  {
    var n := Take(payload, |r.tasks|);
    var batch := r.tasks[..n];
    var d' := Dispatch(r.tasks[n..], r.workers + 1, paused, limit, payload);
    assert Dispatch(r.tasks, r.workers, paused, limit, payload) == Dispatched([batch] + d'.batches, d'.rest);
    HeadsPrepend(batch, d'.batches);
    assert Falses(1 + |d'.batches|) == [false] + Falses(|d'.batches|);
    SeqAppendAssoc(r.batches, [batch], d'.batches);
    SeqAppendAssoc(r.done, [false], Falses(|d'.batches|));
    SeqAppendAssoc(r.workersList, [batch[0]], Heads(d'.batches));
  }

  /** Once the loop condition fails, the loop is over: nothing more changes. */
  lemma ProcessStopped<T>(r: Run<T>, paused: bool, limit: Limit, payload: nat)
    requires paused || !Below(r.workers, limit) || |r.tasks| == 0
    ensures AfterProcess(r, paused, limit, payload) == r
  {
    assert Dispatch(r.tasks, r.workers, paused, limit, payload) == Dispatched([], r.tasks);
    assert Heads<Item<T>>([]) == [] && Falses(0) == [];
    assert r.workersList + [] == r.workersList && r.batches + [] == r.batches && r.done + [] == r.done;
  }

  /**
   * The `process` loop on the queue's state: while not paused, below the
   * limit and with tasks queued, splice a batch off the front, count a worker,
   * remember the batch's first task in `workersList` and start the worker on
   * the batch (recorded in `batches`, its completion outstanding in `done`).
   */
  method RunProcessLoop<T>(r: Run<T>, paused: bool, limit: Limit, payload: nat) returns (r': Run<T>)
    requires RunAccounted(r, limit)
    ensures RunAccounted(r', limit)
    ensures r' == AfterProcess(r, paused, limit, payload)
  {
    var ts, w, wl, bs, ds := r.tasks, r.workers, r.workersList, r.batches, r.done;
    while !paused && Below(w, limit) && |ts| > 0
      invariant Accounted(bs, ds, w, wl, limit)
      invariant AfterProcess(Run(ts, w, wl, bs, ds), paused, limit, payload) == AfterProcess(r, paused, limit, payload)
      decreases |ts|
    {
      ProcessStep(Run(ts, w, wl, bs, ds), paused, limit, payload);
      var n := Take(payload, |ts|);
      var batch := ts[..n];
      StartKeepsAccounted(bs, ds, w, wl, limit, batch);
      ts, w, wl, bs, ds := ts[n..], w + 1, wl + [batch[0]], bs + [batch], ds + [false];
    }
    r' := Run(ts, w, wl, bs, ds);
    ProcessStopped(r', paused, limit, payload);
  }

  /**
   * `_next` for batch `b` on the queue's state: count the worker out, splice
   * the batch's first task out of `workersList`, note whether `drain` fires
   * (nothing queued or running any more), and then run the `process` loop.
   */
  method CompleteBatch<T(==)>(r: Run<T>, paused: bool, limit: Limit, payload: nat, b: int, drainHooked: bool)
    returns (r': Run<T>, drained: bool)
    requires RunAccounted(r, limit)
    requires 0 <= b < |r.batches| && !r.done[b]
    ensures RunAccounted(r', limit)
    ensures drained <==> drainHooked && |r.tasks| + r.workers - 1 == 0
    ensures r' == AfterProcess(Finished(r, b), paused, limit, payload)
  {
    CompleteKeepsAccounted(r.batches, r.done, r.workers, r.workersList, limit, b);
    drained := |r.tasks| + r.workers - 1 == 0 && drainHooked;
    r' := RunProcessLoop(Run(r.tasks, r.workers - 1, RemoveFirst(r.workersList, r.batches[b][0]), r.batches, r.done[b := true]),
                         paused, limit, payload);
  }

  /** The worker bookkeeping does not depend on the queued tasks. */
  lemma TasksOutsideAccounting<T>(r: Run<T>, tasks: seq<Item<T>>, limit: Limit)
    requires RunAccounted(r, limit)
    ensures RunAccounted(r.(tasks := tasks), limit)
  {
  }

  /** The identity of the `i`-th item. */
  ghost function IdAt<T>(items: seq<Item<T>>, i: int): nat
    requires 0 <= i < |items|
  {
    items[i].id
  }

  /** Every item has an identity below `bound`, and no two items share one. */
  ghost predicate DistinctIds<T>(items: seq<Item<T>>, bound: nat)
  {
    && (forall i {:trigger IdAt(items, i)} :: 0 <= i < |items| ==> IdAt(items, i) < bound)
    && (forall i, j {:trigger IdAt(items, i), IdAt(items, j)} ::
          0 <= i < j < |items| ==> IdAt(items, i) != IdAt(items, j))
  }

  lemma {:induction false} FlattenAppend<T>(a: seq<seq<T>>, b: seq<seq<T>>)
    ensures Flatten(a + b) == Flatten(a) + Flatten(b)
    decreases |a|
  {
    if |a| == 0 {
      assert a + b == b;
    } else {
      assert (a + b)[1..] == a[1..] + b;
      FlattenAppend(a[1..], b);
    }
  }

  /**
   * Neither `process` nor a completion creates or drops a task object: the
   * batches handed out so far, then the queue, hold the same items in the
   * same order before and after.
   */
  lemma ProcessKeepsItems<T>(r: Run<T>, paused: bool, limit: Limit, payload: nat)
    ensures var r' := AfterProcess(r, paused, limit, payload);
      Flatten(r'.batches) + r'.tasks == Flatten(r.batches) + r.tasks
  {
    var d := Dispatch(r.tasks, r.workers, paused, limit, payload);
    DispatchPreservesOrder(r.tasks, r.workers, paused, limit, payload);
    FlattenAppend(r.batches, d.batches);
    SeqAppendAssoc(Flatten(r.batches), Flatten(d.batches), d.rest);
  }

  /**
   * Items with fresh identities `bound, bound + 1, ...` (in any order) can be
   * inserted anywhere: identities stay distinct, below the advanced bound.
   */
  lemma InsertFreshIds<T>(a: seq<Item<T>>, b: seq<Item<T>>, c: seq<Item<T>>, bound: nat)
    requires DistinctIds(a + b, bound)
    requires forall i :: 0 <= i < |c| ==> bound <= c[i].id < bound + |c|
    requires forall i, j :: 0 <= i < j < |c| ==> c[i].id != c[j].id
    ensures DistinctIds(a + c + b, bound + |c|)
  {
    var s, ab := a + c + b, a + b;
    forall i | 0 <= i < |s|
      ensures i < |a| ==> IdAt(s, i) == IdAt(ab, i)
      ensures |a| <= i < |a| + |c| ==> IdAt(s, i) == c[i - |a|].id
      ensures |a| + |c| <= i ==> IdAt(s, i) == IdAt(ab, i - |c|)
      ensures IdAt(s, i) < bound + |c|
      ensures (|a| <= i < |a| + |c|) <==> bound <= IdAt(s, i)
    {
      if i < |a| {
        assert s[i] == ab[i];
      } else if i < |a| + |c| {
        assert s[i] == c[i - |a|];
      } else {
        assert s[i] == ab[i - |c|];
      }
    }
    forall i, j | 0 <= i < j < |s|
      ensures IdAt(s, i) != IdAt(s, j)
    {
      var inC, jnC := |a| <= i < |a| + |c|, |a| <= j < |a| + |c|;
      if !inC && !jnC {
        var i', j' := if i < |a| then i else i - |c|, if j < |a| then j else j - |c|;
        assert IdAt(s, i) == IdAt(ab, i') && IdAt(s, j) == IdAt(ab, j');
      }
    }
  }

  /** Dropping the queued tasks keeps the identities distinct. */
  lemma DropTasksKeepsIdsDistinct<T>(handedOut: seq<Item<T>>, tasks: seq<Item<T>>, bound: nat)
    requires DistinctIds(handedOut + tasks, bound)
    ensures DistinctIds(handedOut + [], bound)
  {
    forall i | 0 <= i < |handedOut|
      ensures IdAt(handedOut + [], i) == IdAt(handedOut + tasks, i)
    {
    }
  }

  /** `push`'s new items keep the identities distinct. */
  lemma PushKeepsIdsDistinct<T>(handedOut: seq<Item<T>>, tasks: seq<Item<T>>, data: seq<T>, bound: nat)
    requires DistinctIds(handedOut + tasks, bound)
    ensures DistinctIds(handedOut + (tasks + NewItems(data, bound)), bound + |data|)
  {
    var items := NewItems(data, bound);
    InsertFreshIds(handedOut + tasks, [], items, bound);
    assert handedOut + tasks + [] == handedOut + tasks;
    assert handedOut + tasks + items + [] == handedOut + (tasks + items);
  }

  /** `unshift`'s new items, in reverse, keep the identities distinct. */
  lemma UnshiftKeepsIdsDistinct<T>(handedOut: seq<Item<T>>, tasks: seq<Item<T>>, data: seq<T>, bound: nat)
    requires DistinctIds(handedOut + tasks, bound)
    ensures DistinctIds(handedOut + (Reverse(NewItems(data, bound)) + tasks), bound + |data|)
  {
    var items := Reverse(NewItems(data, bound));
    InsertFreshIds(handedOut, tasks, items, bound);
    assert handedOut + items + tasks == handedOut + (items + tasks);
  }

  // ---------------------------------------------------------------------------
  // The queue object

  class Queue<T(==)> {
    var run: Run<T>
    const concurrency: Limit
    const payload: nat
    var paused: bool
    var started: bool
    /** Whether `drain` is a caller's callback rather than the no-op. */
    var drainHooked: bool
    /** How many times a hooked `drain` has fired. */
    var drainCalls: nat
    /** The identity the next queued task gets. */
    var nextId: nat

    /**
     * The worker bookkeeping holds, and every task object handed out or still
     * queued is a distinct one (its identity was drawn from `nextId` once).
     * So removing the finished task from `workersList` by value removes the
     * very object `_next` splices out by identity.
     */
    ghost predicate Valid()
      reads this
    {
      && concurrency != Finite(0)
      && RunAccounted(run, concurrency)
      && DistinctIds(Flatten(run.batches) + run.tasks, nextId)
    }

    /** `queue(worker, concurrency, payload)` for a concurrency already resolved. */
    constructor (limit: Limit, payload: nat)
      requires limit != Finite(0)
      ensures Valid()
      ensures concurrency == limit && this.payload == payload
      ensures run == Run([], 0, [], [], [])
      ensures !paused && !started && !drainHooked && drainCalls == 0 && nextId == 0
    {
      run := Run([], 0, [], [], []);
      concurrency := limit;
      this.payload := payload;
      paused := false;
      started := false;
      drainHooked := false;
      drainCalls := 0;
      nextId := 0;
      assert Flatten<Item<T>>([]) + [] == [];
    }

    /** `q.length()` */
    function Length(): (n: nat)
      reads this
      ensures n == |run.tasks|
    {
      |run.tasks|
    }

    /** `q.running()`: the number of batches whose completion is outstanding, one per `workersList` entry. */
    function Running(): (n: int)
      reads this
      ensures Valid() ==> n == |PendingHeads(run.batches, run.done)| == |run.workersList|
    {
      assert Valid() ==> |multiset(run.workersList)| == |multiset(PendingHeads(run.batches, run.done))|;
      run.workers
    }

    /** `q.idle()`: nothing queued and nothing running. */
    predicate Idle()
      reads this
    {
      |run.tasks| + run.workers == 0
    }

    /** An idle queue has no batch whose completion is still outstanding. */
    lemma IdleMeansAllDone()
      requires Valid() && Idle()
      ensures run.tasks == [] && run.workersList == []
      ensures forall i :: 0 <= i < |run.batches| ==> run.done[i]
    {
      forall i | 0 <= i < |run.batches|
        ensures run.done[i]
      {
        if !run.done[i] {
          PendingHeadsComplete(run.batches, run.done, i);
          assert false;
        }
      }
    }

    /** `q.drain = callback`, as `getTiles` does when given a callback. */
    method HookDrain()
      modifies this`drainHooked
      ensures drainHooked
    {
      drainHooked := true;
    }

    /**
     * `q.push(data)`: the tasks go to the back of the queue. Pushing nothing
     * onto an idle queue fires `drain` instead.
     */
    method Push(data: seq<T>) returns (drained: bool)
      requires Valid()
      modifies this`run, this`started, this`nextId, this`drainCalls
      ensures Valid() && started
      ensures Length() == old(Length()) + |data|
      ensures drained <==> |data| == 0 && old(Idle()) && drainHooked
      ensures run == old(run).(tasks := old(run.tasks) + NewItems(data, old(nextId)))
      ensures nextId == old(nextId) + |data|
      ensures drainCalls == old(drainCalls) + (if drained then 1 else 0)
    {
      drained := |data| == 0 && Idle() && drainHooked;
      assert drained <==> |data| == 0 && old(Idle()) && old(drainHooked);
      started := true;
      if drained {
        drainCalls := drainCalls + 1;
      }
      PushKeepsIdsDistinct(Flatten(run.batches), run.tasks, data, nextId);
      run := run.(tasks := run.tasks + NewItems(data, nextId));
      nextId := nextId + |data|;
    }

    /**
     * `q.unshift(data)`: each task in turn goes to the front, so the tasks end
     * up in front of the old queue in reverse order.
     */
    method Unshift(data: seq<T>) returns (drained: bool)
      requires Valid()
      modifies this`run, this`started, this`nextId, this`drainCalls
      ensures Valid() && started
      ensures Length() == old(Length()) + |data|
      ensures drained <==> |data| == 0 && old(Idle()) && drainHooked
      ensures run == old(run).(tasks := Reverse(NewItems(data, old(nextId))) + old(run.tasks))
      ensures nextId == old(nextId) + |data|
      ensures drainCalls == old(drainCalls) + (if drained then 1 else 0)
    {
      drained := |data| == 0 && Idle() && drainHooked;
      assert drained <==> |data| == 0 && old(Idle()) && old(drainHooked);
      started := true;
      if drained {
        drainCalls := drainCalls + 1;
      }
      UnshiftKeepsIdsDistinct(Flatten(run.batches), run.tasks, data, nextId);
      run := run.(tasks := Reverse(NewItems(data, nextId)) + run.tasks);
      nextId := nextId + |data|;
    }

    /**
     * `q.process()`: runs the `process` loop on the queue's state; the batches
     * it starts are those of `Dispatch`.
     */
    method Process()
      requires Valid()
      modifies this`run
      ensures Valid()
      ensures run == AfterProcess(old(run), old(paused), concurrency, payload)
      ensures Length() == old(Length()) - |Flatten(Dispatch(old(run.tasks), old(run.workers), old(paused), concurrency, payload).batches)|
    {
      ProcessShortensQueue(run, paused, concurrency, payload);
      ProcessKeepsItems(run, paused, concurrency, payload);
      run := RunProcessLoop(run, paused, concurrency, payload);
    }

    /**
     * The completion callback of batch `b` (`onlyOnce(_next(q, tasks))`): a
     * second call is refused; the first one is `CompleteBatch` on the
     * queue's state.
     */
    method Complete(b: int) returns (r: Result<bool, QueueError>)
      requires Valid() && 0 <= b < |run.batches|
      modifies this`run, this`drainCalls
      ensures Valid()
      ensures old(run.done[b]) ==> r == Failure(CallbackAlreadyCalled) && unchanged(this)
      ensures !old(run.done[b]) ==>
        && r.Success?
        && (r.value <==> old(drainHooked) && |old(run.tasks)| + old(run.workers) - 1 == 0)
        && drainCalls == old(drainCalls) + (if r.value then 1 else 0)
        && run == AfterProcess(Finished(old(run), b), old(paused), concurrency, payload)
    {
      if run.done[b] {
        return Failure(CallbackAlreadyCalled);
      }
      ProcessKeepsItems(Finished(run, b), paused, concurrency, payload);
      var drained;
      run, drained := CompleteBatch(run, paused, concurrency, payload, b, drainHooked);
      if drained {
        drainCalls := drainCalls + 1;
      }
      r := Success(drained);
    }

    /** `q.kill()`: drops the queued tasks and unhooks `drain`; running workers go on. */
    method Kill()
      requires Valid()
      modifies this`run, this`drainHooked
      ensures Valid() && run == old(run).(tasks := []) && !drainHooked
    {
      DropTasksKeepsIdsDistinct(Flatten(run.batches), run.tasks, nextId);
      run := run.(tasks := []);
      drainHooked := false;
    }

    /** `q.pause()` */
    method Pause()
      modifies this`paused
      ensures paused
    {
      paused := true;
    }

    /**
     * `q.resume()`: unpauses and returns how many `process` calls it schedules,
     * `min(concurrency, length)`, or none when that is not positive (the
     * `for (w = 1; w <= resumeCount; w++)` loop then never runs); nothing
     * when the queue was not paused.
     */
    method Resume() returns (scheduled: nat)
      modifies this`paused
      ensures !paused
      ensures !old(paused) ==> scheduled == 0
      ensures old(paused) ==> scheduled == (if concurrency.Finite? then Max(0, Min(concurrency.n, |run.tasks|)) else |run.tasks|)
      ensures scheduled <= |run.tasks|
      ensures concurrency.Finite? ==> scheduled <= Max(0, concurrency.n)
    {
      if !paused {
        return 0;
      }
      paused := false;
      scheduled := if concurrency.Finite? then Max(0, Min(concurrency.n, |run.tasks|)) else |run.tasks|;
    }
  }

  /** `queue(worker, concurrency, payload)`: refuses a zero concurrency, defaults a missing one to 1. */
  method NewQueue<T(==)>(concurrency: Option<Limit>, payload: nat) returns (r: Result<Queue<T>, QueueError>)
    ensures r.Failure? <==> concurrency == Some(Finite(0))
    ensures r.Success? ==> fresh(r.value) && r.value.Valid() && r.value.run == Run([], 0, [], [], [])
    ensures r.Success? ==> r.value.concurrency == ResolveConcurrency(concurrency).value && r.value.payload == payload
  {
    var limit := ResolveConcurrency(concurrency);
    if limit.Failure? {
      return Failure(limit.error);
    }
    var q := new Queue<T>(limit.value, payload);
    return Success(q);
  }

  /**
   * `length()` across `process`: exactly the tasks handed to workers leave
   * the queue, so it never grows, and it shrinks whenever a worker starts.
   */
  lemma ProcessShortensQueue<T>(r: Run<T>, paused: bool, limit: Limit, payload: nat)
    ensures |AfterProcess(r, paused, limit, payload).tasks|
         == |r.tasks| - |Flatten(Dispatch(r.tasks, r.workers, paused, limit, payload).batches)|
    ensures |AfterProcess(r, paused, limit, payload).tasks| <= |r.tasks|
    ensures !paused && Below(r.workers, limit) && |r.tasks| > 0 ==>
      |AfterProcess(r, paused, limit, payload).tasks| < |r.tasks|
  {
    var d := Dispatch(r.tasks, r.workers, paused, limit, payload);
    DispatchPreservesOrder(r.tasks, r.workers, paused, limit, payload);
    assert |Flatten(d.batches) + d.rest| == |Flatten(d.batches)| + |d.rest|;
    if !paused && Below(r.workers, limit) && |r.tasks| > 0 {
      assert Flatten(d.batches) == d.batches[0] + Flatten(d.batches[1..]);
    }
  }

  /** Running `process` again right after it stopped changes nothing. */
  lemma ProcessIdempotent<T>(r: Run<T>, paused: bool, limit: Limit, payload: nat)
    ensures AfterProcess(AfterProcess(r, paused, limit, payload), paused, limit, payload)
         == AfterProcess(r, paused, limit, payload)
  {
    DispatchIsMaximal(r.tasks, r.workers, paused, limit, payload);
    ProcessStopped(AfterProcess(r, paused, limit, payload), paused, limit, payload);
  }

  /**
   * `process` hands out the queue front to back: the batches it starts,
   * joined, followed by what stays queued, are the queue it found; it starts
   * at most `payload` tasks per worker and stays within the limit.
   */
  lemma ProcessKeepsTaskOrder<T>(r: Run<T>, paused: bool, limit: Limit, payload: nat)
    ensures var r' := AfterProcess(r, paused, limit, payload);
      && |r.batches| <= |r'.batches|
      && Flatten(r'.batches[|r.batches|..]) + r'.tasks == r.tasks
      && (forall i :: |r.batches| <= i < |r'.batches| ==> 0 < |r'.batches[i]| && (payload > 0 ==> |r'.batches[i]| <= payload))
      && (limit.Finite? ==> r'.workers <= Max(r.workers, limit.n))
  {
    var d := Dispatch(r.tasks, r.workers, paused, limit, payload);
    var r' := AfterProcess(r, paused, limit, payload);
    assert r'.batches[|r.batches|..] == d.batches;
    DispatchPreservesOrder(r.tasks, r.workers, paused, limit, payload);
    DispatchRespectsLimit(r.tasks, r.workers, paused, limit, payload);
    forall i | |r.batches| <= i < |r'.batches|
      ensures 0 < |r'.batches[i]| && (payload > 0 ==> |r'.batches[i]| <= payload)
    {
      assert r'.batches[i] == d.batches[i - |r.batches|];
    }
  }
}
