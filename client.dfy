/** The paced batch dispatcher of client.go, `Client.BatchRequest`.

    The service's limits come in as parameters (the chunk size the service
    reported). The world outside the loop comes in as two oracles:
    - `waits(k)`: what the k-th full-chunk iteration observes on the context
      and the ticker;
    - `process(k)`: what the k-th call of the service's `Process` returns
      (`None` for Go's nil error). The k-th chunk sent is fixed by the plan,
      so a service whose answer depends on the chunk is one such oracle too. */
module Client {

  import opened Wrappers
  import opened ChunkPlanner

  /** 2^64: `offset` and `batchSize` are uint64 in the source. */
  const U64: nat := 0x1_0000_0000_0000_0000

  /** Go slice lengths are `int`, so a batch has fewer than 2^63 elements. */
  const MaxSliceLen: nat := 0x8000_0000_0000_0000

  /** Unsigned 64-bit addition wraps around modulo 2^64. */
  function Wrap64(x: nat): (r: nat)
    ensures r < U64
    ensures x < U64 ==> r == x
  {
    x % U64
  }

  /** What one full-chunk iteration of the loop observes. The context may be
      done already at the non-blocking check, it may be cancelled while the
      loop waits for the ticker, or the tick may come first. */
  datatype Wait = Tick | CanceledBeforeWait | CanceledDuringWait

  /** The errors `BatchRequest` can return: the context's own error, or the
      error the service's `Process` returned, passed on verbatim. */
  datatype Error<E> = Canceled | Failed(cause: E)

  /** The result of a dispatch (`None` is Go's nil) with the number of
      `Process` calls made. */
  datatype Run<E> = Run(result: Option<Error<E>>, calls: nat)

  /** The k-th chunk of the plan goes through: its wait, if it is a full
      chunk, ends in a tick, and `Process` accepts it. The remainder's wait
      is a bare tick and consults no environment. */
  ghost predicate Passes<E>(p: Plan, waits: nat -> Wait, process: nat -> Option<E>, k: nat)
  {
    (k < |p.full| ==> waits(k) == Tick) && process(k) == None
  }

  /** Chunks `lo` up to `hi` all go through. */
  ghost predicate AllPass<E>(p: Plan, waits: nat -> Wait, process: nat -> Option<E>, lo: nat, hi: nat)
  {
    forall j :: lo <= j < hi ==> Passes(p, waits, process, j)
  }

  /** The dispatch of plan `p` from its k-th chunk on: full chunks wait for
      a tick and may observe cancellation; the remainder only calls
      `Process`; the first failure ends the dispatch. */
  function Outcome<E>(p: Plan, waits: nat -> Wait, process: nat -> Option<E>, k: nat): (r: Run<E>)
    requires k <= |p.full|
    decreases |p.full| - k
  {
    if k < |p.full| then
      if waits(k) != Tick then Run(Some(Canceled), k)
      else if process(k).Some? then Run(Some(Failed(process(k).value)), k + 1)
      else Outcome(p, waits, process, k + 1)
    else if p.rest.None? then Run(None, k)
    else if process(k).Some? then Run(Some(Failed(process(k).value)), k + 1)
    else Run(None, k + 1)
  }

  /** A dispatch ends in exactly one of three ways: every chunk went through
      and nil is returned; a wait for a full chunk observed cancellation, and
      that chunk was never sent; or `Process` failed on the last chunk sent,
      and its error is returned. */
  lemma {:induction false} OutcomeCases<E>(p: Plan, waits: nat -> Wait, process: nat -> Option<E>, k: nat)
    requires k <= |p.full|
    decreases |p.full| - k
    ensures var r := Outcome(p, waits, process, k);
      k <= r.calls <= |Windows(p)| &&
      (r.result == None ==>
        r.calls == |Windows(p)| && AllPass(p, waits, process, k, r.calls)) &&
      (r.result == Some(Canceled) ==>
        r.calls < |p.full| && waits(r.calls) != Tick && AllPass(p, waits, process, k, r.calls)) &&
      (r.result.Some? && r.result.value.Failed? ==>
        k < r.calls && process(r.calls - 1) == Some(r.result.value.cause) &&
        (r.calls - 1 < |p.full| ==> waits(r.calls - 1) == Tick) &&
        AllPass(p, waits, process, k, r.calls - 1))
  {
    if k < |p.full| && waits(k) == Tick && process(k).None? {
      OutcomeCases(p, waits, process, k + 1);
    }
  }

  /** The dispatch of a whole plan: at most one call per window, and one
      for every window when nil is returned. */
  function Expected<E>(p: Plan, waits: nat -> Wait, process: nat -> Option<E>): (r: Run<E>)
    ensures r.calls <= |Windows(p)|
    ensures r.result == None ==> r.calls == |Windows(p)|
  {
    OutcomeCases(p, waits, process, 0);
    Outcome(p, waits, process, 0)
  }

  /** `calls` are the chunks of `batch` that the first `|calls|` windows of
      `ws` select. */
  ghost predicate Follows<T>(batch: seq<T>, ws: seq<Window>, calls: seq<seq<T>>)
  {
    |calls| <= |ws| &&
    forall i :: 0 <= i < |calls| ==> calls[i] == Slice(batch, ws[i])
  }

  /** Sending the next chunk of the plan keeps the log in step with it. */
  lemma FollowsNext<T>(batch: seq<T>, ws: seq<Window>, calls: seq<seq<T>>)
    requires Follows(batch, ws, calls) && |calls| < |ws|
    ensures Follows(batch, ws, calls + [Slice(batch, ws[|calls|])])
  {
    var next := calls + [Slice(batch, ws[|calls|])];
    forall i | 0 <= i < |next|
      ensures next[i] == Slice(batch, ws[i])
    {
      if i < |calls| {
        assert next[i] == calls[i];
      }
    }
  }

  /** Chunks that go through do not change how the dispatch ends. */
  lemma {:induction false} OutcomeSkip<E>(p: Plan, waits: nat -> Wait, process: nat -> Option<E>, j: nat, k: nat)
    requires j <= k <= |p.full| && AllPass(p, waits, process, j, k)
    ensures Outcome(p, waits, process, j) == Outcome(p, waits, process, k)
    decreases k - j
  {
    if j < k {
      assert Passes(p, waits, process, j);
      OutcomeSkip(p, waits, process, j + 1, k);
    }
  }

  /** Cancellation: when the first k chunks went through and the wait for
      the next full chunk observes cancellation, the dispatch returns the
      context's error after exactly k calls; that chunk and every later one
      are never sent. */
  lemma CancelStops<E>(p: Plan, waits: nat -> Wait, process: nat -> Option<E>, k: nat)
    requires k < |p.full| && AllPass(p, waits, process, 0, k) && waits(k) != Tick
    ensures Expected(p, waits, process) == Run(Some(Canceled), k)
  {
    OutcomeSkip(p, waits, process, 0, k);
  }

  /** Fail-fast: when the first k chunks went through and `Process` fails on
      the next one after its tick, the dispatch returns exactly that error
      after exactly k + 1 calls. */
  lemma FailFast<E>(p: Plan, waits: nat -> Wait, process: nat -> Option<E>, k: nat)
    requires k < |Windows(p)| && AllPass(p, waits, process, 0, k)
    requires k < |p.full| ==> waits(k) == Tick
    requires process(k).Some?
    ensures Expected(p, waits, process) == Run(Some(Failed(process(k).value)), k + 1)
  {
    OutcomeSkip(p, waits, process, 0, if k < |p.full| then k else |p.full|);
  }

  /** Success: when every chunk goes through, the dispatch returns nil after
      one call per window of the plan. */
  lemma AllSucceed<E>(p: Plan, waits: nat -> Wait, process: nat -> Option<E>)
    requires AllPass(p, waits, process, 0, |Windows(p)|)
    ensures Expected(p, waits, process) == Run(None, |Windows(p)|)
  {
    OutcomeSkip(p, waits, process, 0, |p.full|);
    assert Passes(p, waits, process, |p.full|) || p.rest.None?;
  }

  /** Waits past the last full chunk are never consulted. */
  lemma {:induction false} OutcomeIgnoresLateWaits<E>(p: Plan, waits: nat -> Wait, waits': nat -> Wait,
                                                      process: nat -> Option<E>, k: nat)
    requires k <= |p.full|
    requires forall j :: k <= j < |p.full| ==> waits(j) == waits'(j)
    ensures Outcome(p, waits, process, k) == Outcome(p, waits', process, k)
    decreases |p.full| - k
  {
    if k < |p.full| {
      OutcomeIgnoresLateWaits(p, waits, waits', process, k + 1);
    }
  }

  /** The wait before the remainder chunk is a bare tick: two environments
      that agree on every full chunk's wait give the same dispatch, whatever
      the context does afterwards; so the remainder is never abandoned for
      cancellation. */
  lemma RemainderIgnoresContext<E>(p: Plan, waits: nat -> Wait, waits': nat -> Wait, process: nat -> Option<E>)
    requires forall j :: 0 <= j < |p.full| ==> waits(j) == waits'(j)
    ensures Expected(p, waits, process) == Expected(p, waits', process)
  {
    OutcomeIgnoresLateWaits(p, waits, waits', process, 0);
  }

  /** A dispatch returns nil exactly when every chunk goes through. */
  lemma SucceedsIff<E>(p: Plan, waits: nat -> Wait, process: nat -> Option<E>)
    ensures Expected(p, waits, process).result == None <==> AllPass(p, waits, process, 0, |Windows(p)|)
  {
    OutcomeCases(p, waits, process, 0);
    if AllPass(p, waits, process, 0, |Windows(p)|) {
      AllSucceed(p, waits, process);
    }
  }

  /** One more full window fits at the cursor: it is the k-th window of the
      plan, and the walk goes on from just past it. */
  lemma CursorStep(plan: Plan, k: nat, offset: nat, n: nat, size: nat)
    requires 0 < size && offset + size <= n
    requires k <= |plan.full| && plan.full[k..] == PlanFrom(offset, n, size).full
    requires plan.rest == PlanFrom(offset, n, size).rest
    ensures k < |plan.full| && Windows(plan)[k] == plan.full[k] == Window(offset, offset + size)
    ensures plan.full[k + 1..] == PlanFrom(offset + size, n, size).full
    ensures plan.rest == PlanFrom(offset + size, n, size).rest
  {
    var next := PlanFrom(offset + size, n, size);
    assert plan.full[k..] == [Window(offset, offset + size)] + next.full;
    assert plan.full[k + 1..] == plan.full[k..][1..];
  }

  /** No full window fits at the cursor: all full windows are behind it,
      and the remainder is what is left of the batch, if anything. */
  lemma CursorEnd(plan: Plan, k: nat, offset: nat, n: nat, size: nat)
    requires 0 < size && offset <= n && offset + size > n
    requires k <= |plan.full| && plan.full[k..] == PlanFrom(offset, n, size).full
    requires plan.rest == PlanFrom(offset, n, size).rest
    ensures k == |plan.full|
    ensures offset < n ==> plan.rest == Some(Window(offset, n)) && Windows(plan)[k] == Window(offset, n)
    ensures offset == n ==> plan.rest == None
  {
  }

  /** The state of the worker's loop before its next iteration: the cursor
      stands at the start of the plan's `|calls|`-th window, every chunk sent
      so far is the batch under its window, and every one of them went
      through. */
  ghost predicate Tracks<T, E>(batch: seq<T>, size: nat, waits: nat -> Wait, process: nat -> Option<E>,
                               offset: nat, calls: seq<seq<T>>)
  {
    0 < size && offset <= |batch| && (offset > 0 ==> size <= |batch|) &&
    var plan := Chunks(|batch|, size);
    |calls| <= |plan.full| &&
    plan.full[|calls|..] == PlanFrom(offset, |batch|, size).full &&
    plan.rest == PlanFrom(offset, |batch|, size).rest &&
    Follows(batch, Windows(plan), calls) &&
    AllPass(plan, waits, process, 0, |calls|)
  }

  lemma TracksStart<T, E>(batch: seq<T>, size: nat, waits: nat -> Wait, process: nat -> Option<E>)
    requires 0 < size
    ensures Tracks(batch, size, waits, process, 0, [])
  {
  }

  /** A full chunk went through: the cursor moves one window on. */
  lemma TracksStep<T, E>(batch: seq<T>, size: nat, waits: nat -> Wait, process: nat -> Option<E>,
                         offset: nat, calls: seq<seq<T>>)
    requires Tracks(batch, size, waits, process, offset, calls)
    requires offset + size <= |batch|
    requires waits(|calls|) == Tick && process(|calls|).None?
    ensures Tracks(batch, size, waits, process, offset + size, calls + [batch[offset..offset + size]])
  {
    var plan := Chunks(|batch|, size);
    var k := |calls|;
    CursorStep(plan, k, offset, |batch|, size);
    FollowsNext(batch, Windows(plan), calls);
    assert AllPass(plan, waits, process, 0, k + 1) by {
      assert Passes(plan, waits, process, k);
    }
  }

  /** The wait for the next full chunk observed cancellation. */
  lemma TracksCancel<T, E>(batch: seq<T>, size: nat, waits: nat -> Wait, process: nat -> Option<E>,
                           offset: nat, calls: seq<seq<T>>)
    requires Tracks(batch, size, waits, process, offset, calls)
    requires offset + size <= |batch| && waits(|calls|) != Tick
    ensures Expected(Chunks(|batch|, size), waits, process) == Run(Some(Canceled), |calls|)
    ensures Follows(batch, Windows(Chunks(|batch|, size)), calls)
  {
    CursorStep(Chunks(|batch|, size), |calls|, offset, |batch|, size);
    CancelStops(Chunks(|batch|, size), waits, process, |calls|);
  }

  /** The next full chunk was sent after its tick and `Process` failed. */
  lemma TracksFail<T, E>(batch: seq<T>, size: nat, waits: nat -> Wait, process: nat -> Option<E>,
                         offset: nat, calls: seq<seq<T>>)
    requires Tracks(batch, size, waits, process, offset, calls)
    requires offset + size <= |batch| && waits(|calls|) == Tick && process(|calls|).Some?
    ensures Expected(Chunks(|batch|, size), waits, process) ==
      Run(Some(Failed(process(|calls|).value)), |calls| + 1)
    ensures Follows(batch, Windows(Chunks(|batch|, size)), calls + [batch[offset..offset + size]])
  {
    var plan := Chunks(|batch|, size);
    CursorStep(plan, |calls|, offset, |batch|, size);
    FollowsNext(batch, Windows(plan), calls);
    FailFast(plan, waits, process, |calls|);
  }

  /** No full window is left and the remainder is empty: the dispatch
      succeeded. */
  lemma TracksDone<T, E>(batch: seq<T>, size: nat, waits: nat -> Wait, process: nat -> Option<E>,
                         offset: nat, calls: seq<seq<T>>)
    requires Tracks(batch, size, waits, process, offset, calls)
    requires offset + size > |batch| && offset == |batch|
    ensures Expected(Chunks(|batch|, size), waits, process) == Run(None, |calls|)
    ensures Follows(batch, Windows(Chunks(|batch|, size)), calls)
  {
    var plan := Chunks(|batch|, size);
    CursorEnd(plan, |calls|, offset, |batch|, size);
    AllSucceed(plan, waits, process);
  }

  /** No full window is left and the remainder `batch[offset..]` is sent:
      the dispatch ends with what `Process` returns for it. */
  lemma TracksRest<T, E>(batch: seq<T>, size: nat, waits: nat -> Wait, process: nat -> Option<E>,
                         offset: nat, calls: seq<seq<T>>)
    requires Tracks(batch, size, waits, process, offset, calls)
    requires offset + size > |batch| && offset < |batch|
    ensures Expected(Chunks(|batch|, size), waits, process) ==
      Run(if process(|calls|).Some? then Some(Failed(process(|calls|).value)) else None, |calls| + 1)
    ensures Follows(batch, Windows(Chunks(|batch|, size)), calls + [batch[offset..]])
  {
    var plan := Chunks(|batch|, size);
    CursorEnd(plan, |calls|, offset, |batch|, size);
    FollowsNext(batch, Windows(plan), calls);
    if process(|calls|).Some? {
      FailFast(plan, waits, process, |calls|);
    } else {
      AllSucceed(plan, waits, process);
    }
  }

  /** The goroutine of `BatchRequest` (client.go:27-60). `sent` is what it
      pushes onto the `errs` channel before closing it; `calls` logs the
      chunks it hands to `Process`, in order. */
  method Worker<T, E>(batch: seq<T>, batchSize: nat, waits: nat -> Wait, process: nat -> Option<E>)
    returns (sent: seq<Error<E>>, ghost calls: seq<seq<T>>)
    requires 0 < batchSize < U64 && |batch| < MaxSliceLen
    ensures |sent| <= 1
    ensures Expected(Chunks(|batch|, batchSize), waits, process).result ==
      if sent == [] then None else Some(sent[0])
    ensures Expected(Chunks(|batch|, batchSize), waits, process).calls == |calls|
    ensures Follows(batch, Windows(Chunks(|batch|, batchSize)), calls)
  {
    var offset: nat := 0;
    var k: nat := 0;  // the number of chunks sent: the oracles' index
    sent, calls := [], [];
    TracksStart(batch, batchSize, waits, process);
    while true
      invariant k == |calls| && offset <= |batch|
      invariant Tracks(batch, batchSize, waits, process, offset, calls)
      decreases |batch| - offset
    {
      // client.go:30 compares in uint64 arithmetic; the sum never wraps.
      assert offset + batchSize < U64;
      if Wrap64(offset + batchSize) > |batch| {
        break;
      }
      var w := waits(k);
      if w == CanceledBeforeWait {
        // The non-blocking check: the context is done already.
        TracksCancel(batch, batchSize, waits, process, offset, calls);
        sent := [Canceled];
        return;
      }
      if w == CanceledDuringWait {
        // The race: the context is done before the ticker fires.
        TracksCancel(batch, batchSize, waits, process, offset, calls);
        sent := [Canceled];
        return;
      }
      var chunk := batch[offset..offset + batchSize];
      var err := process(k);
      if err.Some? {
        TracksFail(batch, batchSize, waits, process, offset, calls);
        calls := calls + [chunk];
        sent := [Failed(err.value)];
        return;
      }
      TracksStep(batch, batchSize, waits, process, offset, calls);
      calls := calls + [chunk];
      offset := offset + batchSize;
      k := k + 1;
    }
    if |batch[offset..]| > 0 {
      // A bare receive from the ticker: cancellation is not observed here.
      TracksRest(batch, batchSize, waits, process, offset, calls);
      var chunk := batch[offset..];
      var err := process(k);
      calls := calls + [chunk];
      if err.Some? {
        sent := [Failed(err.value)];
        return;
      }
    } else {
      TracksDone(batch, batchSize, waits, process, offset, calls);
    }
  }

  /** Chunks sent in step with the plan are, in closed form, the batch under
      `[i * size, min(i * size + size, n))`: never empty, never longer than
      `size`. */
  lemma FollowsClosedForm<T>(batch: seq<T>, size: nat, calls: seq<seq<T>>)
    requires size > 0 && Follows(batch, Windows(Chunks(|batch|, size)), calls)
    ensures forall i :: 0 <= i < |calls| ==>
      calls[i] == Slice(batch, NthWindow(|batch|, size, i))
    ensures forall i :: 0 <= i < |calls| ==> 0 < |calls[i]| <= size
  {
    ChunksShape(|batch|, size);
    forall i | 0 <= i < |calls|
      ensures calls[i] == Slice(batch, NthWindow(|batch|, size, i))
    {
      ChunkAt(|batch|, size, i);
    }
  }

  /** Once every chunk of the plan has been sent, the chunks sent
      concatenate back to the batch. */
  lemma FollowsAllTile<T>(batch: seq<T>, size: nat, calls: seq<seq<T>>)
    requires size > 0 && Follows(batch, Windows(Chunks(|batch|, size)), calls)
    requires |calls| == |Windows(Chunks(|batch|, size))|
    ensures Flatten(calls) == batch
  {
    var ws := Windows(Chunks(|batch|, size));
    forall i | 0 <= i < |calls| ensures calls[i] == Slices(batch, ws)[i] {
      SlicesAt(batch, ws, i);
    }
    assert calls == Slices(batch, ws);
    ChunksTile(batch, size);
  }

  /** `Client.BatchRequest` (client.go:18-65). A chunk size of 0 disables
      dispatching: nil, and `Process` is never called. Otherwise the result
      is the first (and only) error the worker sends, or nil when it sends
      none; the chunks sent follow the plan; and when the result is nil they
      concatenate back to the batch. */
  method BatchRequest<T, E>(batch: seq<T>, batchSize: nat, waits: nat -> Wait, process: nat -> Option<E>)
    returns (err: Option<Error<E>>, ghost calls: seq<seq<T>>)
    requires batchSize < U64 && |batch| < MaxSliceLen
    ensures batchSize == 0 ==> err == None && calls == []
    ensures err == Expected(Chunks(|batch|, batchSize), waits, process).result
    ensures |calls| == Expected(Chunks(|batch|, batchSize), waits, process).calls
    ensures Follows(batch, Windows(Chunks(|batch|, batchSize)), calls)
    ensures forall i :: 0 <= i < |calls| ==>
      calls[i] == Slice(batch, NthWindow(|batch|, batchSize, i))
    ensures forall i :: 0 <= i < |calls| ==> 0 < |calls[i]| <= batchSize
    ensures batchSize > 0 && err == None ==> Flatten(calls) == batch
  {
    if batchSize == 0 {
      return None, [];
    }
    var sent;
    sent, calls := Worker(batch, batchSize, waits, process);
    // The caller returns the first value received on the channel, or nil
    // once it is closed.
    err := if |sent| == 0 then None else Some(sent[0]);
    FollowsClosedForm(batch, batchSize, calls);
    if err.None? {
      FollowsAllTile(batch, batchSize, calls);
    }
  }
}
