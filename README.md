# external-batching: the paced batch dispatcher, in Dafny

`Client.BatchRequest` (client.go) delivers a batch to an external service
that accepts at most `batchSize` items per interval. It asks the service for
its limits once. A `batchSize` of 0 means dispatching is disabled and the
call returns nil. Otherwise a background goroutine walks an `offset` cursor
through the batch. For every full window `batch[offset:offset+batchSize]` it
first checks, without blocking, whether the context is done. It then waits
for the ticker or for the context, whichever comes first. On a tick it calls
`Process` on the window and advances the cursor. After the last full window,
a non-empty remainder `batch[offset:]` is sent after one more tick. The first
error (the context's or `Process`'s) is sent on a channel and ends the
goroutine. The caller returns that error, or nil once the channel closes.

The model has four modules:

- `Wrappers` (wrappers.dfy): `Option`, standing for Go's nil-or-value.
- `ChunkPlanner` (planner.dfy): the windows the loop visits, as a pure
  function `Chunks(n, size)` built from the cursor walk `PlanFrom`. Lemmas
  give their shape and closed form, and prove that the chunks tile the batch.
- `Client` (client.dfy): `Worker` is the goroutine, written as a `while` loop
  over `offset` with the source's `break` and early returns. `BatchRequest`
  is the limits check plus the channel receive. The environment is two
  oracles. `waits(k)` is what the k-th full-chunk iteration observes:
  `Tick`, `CanceledBeforeWait` (the non-blocking check) or
  `CanceledDuringWait` (the race). `process(k)` is what the k-th `Process`
  call returns. Both methods are proved against the reference function
  `Expected`, and the lemmas about `Expected` state the fail-fast,
  cancellation and success rules.
- `ClientScenarios` (scenarios.dfy): the four cases of client_test.go,
  proved for every environment that matches them.

The wait before the remainder chunk (client.go:53) is a bare receive from
the ticker and does not race with cancellation, so `Worker` consults no
environment there. `RemainderIgnoresContext` states the consequence.

## Model

| member | source | states |
|---|---|---|
| `Client.BatchRequest` | client.go:18-65 | A size of 0 gives nil and no `Process` call. Otherwise the result and the number of calls are those of `Expected` on the plan `Chunks(len, size)`. Call i receives exactly `batch[i*size : min(i*size+size, len)]`. Every chunk is non-empty and at most `size` long. On a nil result the chunks concatenate back to the batch. |
| `Client.Worker` | client.go:27-60 | The goroutine sends at most one value on `errs`. The first value sent (or nil) and the number of calls are exactly `Expected` on the plan. The chunks handed to `Process` are, in order, the batch under the plan's windows. |
| `Client.Expected` | client.go:29-59 | The reference dispatch of a plan, by the recursive `Outcome`: a full chunk stops on cancellation, and the first failure stops the dispatch. Its contract: at most one call per window, and one call for every window when the result is nil. |
| `Client.Wrap64` | client.go:30 | uint64 addition wraps modulo 2^64 and is the identity below 2^64. `Worker` proves that `offset+batchSize` never wraps. |
| `Client.OutcomeCases` | client.go:29-59 | Every dispatch ends in exactly one of three ways. Nil: all chunks went through and one call was made per window. Cancellation: the wait for a full chunk saw the context done, every earlier chunk went through, and that chunk was not sent. Failure: `Process` failed on the last chunk sent, that error is returned, and every earlier chunk went through. |
| `Client.CancelStops` | client.go:33-41 | If the first k chunks went through and the wait for full chunk k sees cancellation, the result is the context's error after exactly k calls. Chunk k and all later chunks are never sent. |
| `Client.FailFast` | client.go:42-59 | If the first k chunks went through and `Process` fails on chunk k (full or remainder), the result is exactly that error after exactly k+1 calls. |
| `Client.AllSucceed` | client.go:29-64 | If every chunk goes through, the result is nil after one call per window. |
| `Client.SucceedsIff` | client.go:29-64 | The result is nil if and only if every chunk goes through. |
| `Client.RemainderIgnoresContext` | client.go:52-54 | Two environments that agree on every full chunk's wait give the same result. Cancellation after the last full chunk never stops the remainder. |
| `Client.TracksStep` | client.go:42-48 | After a tick and a nil `Process` result, the cursor advances by exactly `batchSize`, stays within the batch, and stands at the start of the next window of the plan. |
| `ChunkPlanner.PlanFrom` | client.go:29-52 | The walk of the `offset` cursor, ending with the remainder `[offset, n)` when that is non-empty. Its contract: the walk has no full window exactly when `offset + size` passes the batch length, which is the loop's exit test at client.go:30. `PlanFromShape` gives the shape of its windows. |
| `ChunkPlanner.Chunks` | client.go:19-22 | With size 0 the plan has no windows. |
| `ChunkPlanner.ChunksShape` | client.go:29-59 | Every window lies in the batch and is non-empty. Each full window has exactly `size` elements. The remainder is shorter than `size`, and it ends the plan at the batch length. |
| `ChunkPlanner.ChunksClosedForm` | client.go:29-59 | The plan has `n / size` full windows, and window i is `[i*size, i*size+size)`. The remainder `[n - n%size, n)` is there exactly when `n % size != 0`. |
| `ChunkPlanner.ChunkAt` | client.go:29-59 | Window i of the plan is `[i*size, min(i*size+size, n))`. |
| `ChunkPlanner.ChunksTile` | client.go:29-59 | With a positive size, the chunks of the plan, laid end to end, are the batch in its original order. |
| `ChunkPlanner.PlanFromShape` | client.go:29-51 | From any cursor, the walk's full windows have exactly `size` elements and lie between the cursor and the end. Its remainder is non-empty, shorter than `size`, and ends at the batch length. |
| `ClientScenarios.PlanOf100By13` | client_test.go:64-77 | 100 elements in chunks of 13: 7 full chunks at offsets 0, 13, ..., 78, then the remainder `[91, 100)`. 8 windows in all. |
| `ClientScenarios.AllOkBy13` | client_test.go:64-77 | With all ticks and all calls succeeding, the result is nil after 8 calls. |
| `ClientScenarios.FifthCallFails` | client_test.go:42-63 | Four successes and then a failure give that failure after exactly 5 calls. |
| `ClientScenarios.CanceledBeforeFirstTick` | client_test.go:30-41 | A context that is already cancelled when the dispatch starts (size 12, 100 elements) gives the context's error with no `Process` call. |
| `ClientScenarios.ZeroBatchSize` | client_test.go:21-29 | Size 0 gives nil with no call, whatever the batch length. |

## Left out

- The goroutine, the unbuffered `errs` channel and `defer close(errs)` (client.go:24, 27-28, 61-64). They are modelled sequentially. `Worker` returns the sequence of values it would send, and `BatchRequest` takes its first value, or nil.
- `time.NewTicker`, `t.Stop` and the interval from `GetLimits` (client.go:19, 25-26). Timing is replaced by the `waits` oracle. Stopping the ticker releases a resource and has no effect the model can observe. The error path is lost too: `time.NewTicker` panics when the interval is not positive, so limits such as `(13, 0)` make `BatchRequest` panic, while the model returns the normal `Expected` result.
- `context.Context` and the text of `ctx.Err()`. Cancellation is the abstract error `Canceled`. The context passed on to `Process` is not modelled.
- `Service.GetLimits` and `Service.Process` are external, and their code is not part of this model. The limit arrives as the `batchSize` parameter. `Process` results arrive through the `process` oracle, indexed by call number. The chunk for each call is fixed by the plan, so a service that answers by chunk content is also such an oracle, given the assumption on writes below.
- `BatchRequest`, `Worker`: require `batchSize < 2^64` and fewer than 2^63 elements. These are the ranges of Go's `uint64` and of a slice's `int` length, not extra restrictions.
- In Go, `batch[offset:offset+batchSize]` (client.go:43) and `batch[offset:]` (client.go:54) share the batch's backing array, and their capacity reaches to the end of the batch. A `Process` that writes through its chunk, or appends to it, changes the elements of later chunks. The model treats the batch as an immutable sequence. It therefore assumes that `Process` never writes through its slice, and the per-call chunk contents in `BatchRequest`, `Worker` and the `process` oracle hold only under that assumption.
- The chunk log `calls` is ghost: it records what `Process` receives, and the program itself never reads it.
- The `Client` struct and `NewClient` (client.go:8-16) only hold the service handle. They are not modelled.
