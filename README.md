# futures-rs adapters, modelled and proved in Dafny

This project models eight adapters of the futures-rs library. Each adapter
wraps one or two inner tasks (a future, stream or sink) and changes how they
behave:

- **`With`** (`futures-util/src/sink/with.rs`) is a sink transformer. Every
  item sent to it goes through a user function `f` that returns a conversion
  future. When that future succeeds, its output is handed to the inner sink.
  At most one item is in flight, in `Empty | Process(fut) | Buffered(item)`.
- **`Select`** (`futures-util/src/stream/select.rs`) merges two fused streams
  fairly. After each item it lets the other stream go first.
- **`SinkErrInto`** (`futures-util/src/sink/err_into.rs`) converts every sink
  error with `Into`. It is built as a `SinkMapErr` whose function is
  `Into::into`.
- **`MapErr`** (`futures-util/src/try_stream/map_err.rs`) replaces each error
  of a fallible stream by `f` of it. It forwards the sink side unchanged.
- **`TryCollect`** (`futures-util/src/try_stream/try_collect.rs`) drains a
  fallible stream into a container and stops at the first error.
- **`Collect`** (`src/stream/collect.rs`) is the same for the older task API,
  in which a poll answers `None` while it is not ready.
- **`Flatten`** (`src/flatten.rs`) works on a future whose success is itself a
  future. It runs the two in turn with a two-stage `Chain`.
- **`SelectNextSome`** (`futures-util/src/stream/select_next_some.rs`) is a
  one-shot future over a borrowed fused stream. At end-of-stream it wakes
  itself and stays pending.

Inner tasks are values defined in module `Task` (`task.dfy`). Each one is a
*script*: the sequence of outcomes it will report when polled.

- A fused stream (`StreamScript`) also remembers whether it has ended.
- A sink (`SinkScript`) logs every item its `start_send` accepts.
- A task with both capabilities is a `Duplex`.
- The older API's streams and futures share one script type (`LegacyTask`;
  `LegacyStream` and `LegacyFuture` name its two uses), which also logs the
  wake handles that `schedule` gives it.

Where the source changes an adapter in place (`With`, `Select`, `TryCollect`,
`Collect`, `Flatten`, `SelectNextSome`), the model is a class with those fields.
Each method is proved equal to a pure step function of the old state:
`DriveStep`, `SelectStep`, `TryCollectSpec`, `CollectSpec`, `ChainPoll`,
`NextSomeStep`. The `poll` loops of `TryCollect` and `Collect` are kept as
loops. Lemmas over runs of the step functions state the promised behaviour:
order, short-circuiting, fairness, at most one delivery, and no change to
anything else.

`MapErr` and `SinkErrInto` only forward calls, so they are datatypes with
member functions.

An `FnMut` closure is modelled as a function of its earlier arguments and the
new one. The adapter records those arguments, so "called exactly once per
item" can be stated.

Where the code and its documentation disagree, the model follows the code:

- `With`'s `poll_ready` never calls the inner sink's `poll_ready`. It only
  drives the item in flight into `start_send`
  (`futures-util/src/sink/with.rs:119-136`, `147-152`).
- `With::start_send` replaces whatever state there was. A conversion still in
  flight is dropped (`futures-util/src/sink/with.rs:158-159`).
- On error, `TryCollect` returns the error and does not clear the items it has
  gathered (`futures-util/src/try_stream/try_collect.rs:52`). `Collect` does
  clear its buffer (`src/stream/collect.rs:40-42`).

## Model

| member | source | states |
|---|---|---|
| SinkWith.DriveStep | futures-util/src/sink/with.rs:119-136 | Nothing in flight: ready-ok, nothing touched. A pending or failed conversion stays in flight with the sink untouched. A converted or buffered item goes to `start_send` exactly once, its error converted, and the state is emptied whatever the sink answers. Never leaves an item buffered; only the inner sink's send side changes. |
| SinkWith.FinishStep | futures-util/src/sink/with.rs:163-179 | A drive that is not ready-ok is returned unchanged and the inner flush or close is not called. Otherwise the inner flush or close is called once and its answer returned, error converted. |
| SinkWith.ConversionThenDelivery | futures-util/src/sink/with.rs:123-132 | A conversion pending `k` times and then yielding `item`: `poll_ready` answers pending `k` times, then delivers exactly `item` to the inner sink, empties the state and reports the sink's answer. |
| SinkWith.EmptyStaysReady | futures-util/src/sink/with.rs:124 | With nothing in flight, any number of `poll_ready` calls answer ready-ok and change nothing. |
| SinkWith.AtMostOneDelivered | futures-util/src/sink/with.rs:119-136 | Any number of `poll_ready` calls deliver at most one item, appended to what the inner sink had received. The inner `poll_ready`, flush and close are never used, and no item is left buffered. |
| SinkWith.With.constructor | futures-util/src/sink/with.rs:33-44 | Starts `Empty`, wrapping the given sink and `f`, with `f` not yet called. |
| SinkWith.With.Drive | futures-util/src/sink/with.rs:119-136 | The imperative `poll`, with its `set`, `mem::replace` and unreachable branch, equals `DriveStep` on the old state; `f` is not called. |
| SinkWith.With.PollReady | futures-util/src/sink/with.rs:147-152 | `poll_ready` is the private `poll`. |
| SinkWith.With.StartSend | futures-util/src/sink/with.rs:154-161 | Calls `f` exactly once on the item and puts its future in flight, replacing the old state. The inner sink is untouched and the answer is `Ok(())`. |
| SinkWith.With.PollFlush | futures-util/src/sink/with.rs:163-170 | Equals `FinishStep` with flush. |
| SinkWith.With.PollClose | futures-util/src/sink/with.rs:172-179 | Equals `FinishStep` with close. |
| SinkWith.With.PollNext | futures-util/src/sink/with.rs:87-92 | Forwards to the inner stream side; state and `f` unchanged. |
| SinkWith.With.GetRef | futures-util/src/sink/with.rs:102-104 | Is the inner sink. |
| SinkWith.With.GetMut | futures-util/src/sink/with.rs:107-109 | Changes through the reference reach the inner sink only. |
| SinkWith.With.IntoInner | futures-util/src/sink/with.rs:115-117 | Returns the inner sink. |
| StreamSelect.PollInner | futures-util/src/stream/select.rs:59-84 | An item from `a` is returned with the flag negated and `b` not polled. Otherwise both are polled and an item of `b` is returned. End-of-stream exactly when both ended; pending in every other case. |
| StreamSelect.SelectStep | futures-util/src/stream/select.rs:42-56 | The stream the flag names goes first, and an item from it negates the flag. End-of-stream leaves both terminated. Two terminated streams give end-of-stream with nothing changed. Every item comes from one of the two. |
| StreamSelect.AlternatesWhenBothReady | futures-util/src/stream/select.rs:51-72 | Two always-ready streams are merged in strict alternation, starting with `stream1`. The merged items are the interleaving of the two, and the flag is back to false. |
| StreamSelect.DrainsSecondAfterFirstEnds | futures-util/src/stream/select.rs:73-82 | Once `stream1` has ended, every item of `stream2` is passed on in order, and end-of-stream follows `stream2`'s end. |
| StreamSelect.DrainsFirstAfterSecondEnds | futures-util/src/stream/select.rs:51-82 | Once `stream2` has ended, every item of `stream1` is passed on in order, whichever stream the flag favours, and end-of-stream follows `stream1`'s end. |
| StreamSelect.MergesInOrder | futures-util/src/stream/select.rs:42-84 | For any number of polls, any two scripts (pending and ended answers included) and either flag: each stream is consumed from the front, and the items produced are exactly a merge of the items taken from `stream1` and from `stream2`. Nothing is lost, repeated or invented, and each stream's items keep their order. |
| StreamSelect.Select.constructor | futures-util/src/stream/select.rs:21-27 | Both streams fused and not ended; `stream1` first. |
| StreamSelect.Select.PollNext | futures-util/src/stream/select.rs:42-56 | Equals `SelectStep`; after end-of-stream `is_terminated` holds. |
| SinkErrIntoAdapter.New | futures-util/src/sink/err_into.rs:21-25 | Wraps the sink in an error map whose function is `into`. |
| SinkErrIntoAdapter.SinkErrInto.GetRef | futures-util/src/sink/err_into.rs:28-30 | Is the wrapped sink; `into_inner` (41-43) gives the same. |
| SinkErrIntoAdapter.SinkErrInto.GetMut | futures-util/src/sink/err_into.rs:33-35 | Changes through the reference reach the wrapped sink; the conversion stays. |
| SinkErrIntoAdapter.SinkErrInto.ApplySinkOp | futures-util/src/sink/err_into.rs:46-53 | Each sink call goes to the wrapped sink, with its error converted by `into`. |
| SinkErrIntoAdapter.SinkErrInto.PollNext | futures-util/src/sink/err_into.rs:55-66 | The stream side of the wrapped task, unchanged. |
| SinkErrIntoAdapter.SinkRun | futures-util/src/sink/err_into.rs:46-53 | A run of sink calls gives one answer per call, and a send result exactly for each `start_send`. The conversion stays, and the wrapped task's stream side is left alone. |
| SinkErrIntoAdapter.DelegatesAndConverts | futures-util/src/sink/err_into.rs:21-53 | Any sequence of sink calls does to the wrapped sink exactly what it would do unwrapped, and answers the same with every error converted. `into_inner` then gives that sink back. |
| TryMapErr.MapErrPoll | futures-util/src/try_stream/map_err.rs:45-49 | Pending and end-of-stream pass through, and a success keeps its value. An error becomes `f` of it, and only then is `f` called. |
| TryMapErr.MapErr.PollNext | futures-util/src/try_stream/map_err.rs:41-50 | Polls the inner stream once and maps its answer. |
| TryMapErr.MapErr.ApplySinkOp | futures-util/src/try_stream/map_err.rs:54-62 | Each sink call is forwarded and answered verbatim, error unmapped. |
| TryMapErr.New | futures-util/src/try_stream/map_err.rs:20-22 | Holds the stream and `f`, not yet called; `is_terminated` (27-31) is the stream's. |
| TryMapErr.MapsEachErrorOnce | futures-util/src/try_stream/map_err.rs:41-50 | Over any number of polls, each answer matches the inner stream's, with successes unchanged. The inner stream advances exactly as it would alone, and `f`'s recorded history grows by exactly the inner errors, in order. `f` and the sink side are untouched. |
| TryMapErr.MapsErrorWithHistory | futures-util/src/try_stream/map_err.rs:45-49 | Over any number of polls, the answer to each inner error is `Err(f(h, e))`: `e` is that error, and `h` is the history before the run followed by the inner errors of the earlier polls. |
| TryMapErr.ForwardsSinkVerbatim | futures-util/src/try_stream/map_err.rs:54-62 | Any sequence of sink calls answers exactly what the wrapped task answers and never calls `f`. |
| TryCollectFuture.TryCollectSpec | futures-util/src/try_stream/try_collect.rs:45-56 | An ended stream resolves at once with the items gathered. A success resets the container and leaves the stream terminated. Otherwise the container only grows at its end. |
| TryCollectFuture.AppendsInOrder | futures-util/src/try_stream/try_collect.rs:49-51 | Successful items are appended in production order within one poll. |
| TryCollectFuture.ResolvesAtEnd | futures-util/src/try_stream/try_collect.rs:53 | End-of-stream resolves with every item in order and resets the container. |
| TryCollectFuture.ShortCircuitsOnError | futures-util/src/try_stream/try_collect.rs:52 | The first error resolves the future with that error, and nothing after it is polled. |
| TryCollectFuture.KeepsItemsWhenPending | futures-util/src/try_stream/try_collect.rs:50 | An inner pending returns pending and keeps the items. |
| TryCollectFuture.ResumesAfterPending | futures-util/src/try_stream/try_collect.rs:49-55 | Items gathered before a pending are in the result of a later poll. |
| TryCollectFuture.TryCollect.constructor | futures-util/src/try_stream/try_collect.rs:20-25 | The container starts as its default, the empty sequence. |
| TryCollectFuture.TryCollect.Finish | futures-util/src/try_stream/try_collect.rs:27-29 | Returns the container and leaves the default in its place. |
| TryCollectFuture.TryCollect.Poll | futures-util/src/try_stream/try_collect.rs:45-56 | The `loop` equals `TryCollectSpec` on the old state. |
| CollectFuture.CollectSpec | src/stream/collect.rs:33-47 | A resolved poll, success or error, empties the buffer. A not-ready poll only extends it at its end. Wake registrations are untouched. |
| CollectFuture.PushesInOrder | src/stream/collect.rs:38 | Each item is pushed to the end of the buffer, in order, within one poll. |
| CollectFuture.ResolvesWithAllItems | src/stream/collect.rs:39 | End-of-stream resolves with every item in order and empties the buffer. |
| CollectFuture.CollectsOneTwoThree | src/stream/collect.rs:35-46 | The stream 1, 2, 3, end resolves to `[1, 2, 3]`. |
| CollectFuture.ClearsOnError | src/stream/collect.rs:40-42 | An error resolves with that error and discards the partial items. |
| CollectFuture.KeepsItemsWhenNotReady | src/stream/collect.rs:44 | Not ready returns `None` and keeps the buffered items. |
| CollectFuture.Collect.constructor | src/stream/collect.rs:12-19 | The buffer starts empty. |
| CollectFuture.Collect.Finish | src/stream/collect.rs:22-24 | Returns the buffer and leaves an empty one. |
| CollectFuture.Collect.Poll | src/stream/collect.rs:33-47 | The `loop` equals `CollectSpec` on the old state. |
| CollectFuture.Collect.Schedule | src/stream/collect.rs:49-51 | The wake handle goes to the inner stream unchanged. |
| FlattenFuture.ChainPoll | src/flatten.rs:31-37 | The first future not ready: the same stage, unchanged data. Once it resolves the continuation decides. A success or error resolves the chain, and the chain is done. A next future becomes the second stage and is polled at once. The second stage answers what its future answers. |
| FlattenFuture.ChainSchedule | src/flatten.rs:39-41 | The wake handle goes to the current stage's future. |
| FlattenFuture.Continue | src/flatten.rs:33-36 | An outer error becomes `Err(from(e))`. An outer success becomes `Ok(Err(into_future(x)))`. It never resolves with a success itself. |
| FlattenFuture.NewChain | src/flatten.rs:14-21 | The outer future is the first stage, with unit data. |
| FlattenFuture.StopsOnlyWhenResolved | src/flatten.rs:28-37 | A resolved chain is never polled. A run gives fewer answers than polls only once the chain has resolved. The chain resolves only with a ready answer, which is the last one given. |
| FlattenFuture.WaitsForOuter | src/flatten.rs:31-37 | While the outer future is not ready, `Flatten` is not ready and stays in its first stage. |
| FlattenFuture.WaitsForInner | src/flatten.rs:31-37 | While the inner future is not ready, `Flatten` is not ready and stays in its second stage. |
| FlattenFuture.OuterErrorResolves | src/flatten.rs:33-34 | An outer error `e` resolves with `from(e)` when it is seen and the chain is done. The result does not depend on `into_future`, so no inner future is made. |
| FlattenFuture.OuterSuccessSwitches | src/flatten.rs:34-35 | An outer success `x` switches to `into_future(x)` and polls it in the same call. |
| FlattenFuture.ResolvesWithInnerResult | src/flatten.rs:28-37 | Not ready while either future is not ready, then resolved with exactly the inner future's result, of the inner future's item and error types. |
| FlattenFuture.Flatten.constructor | src/flatten.rs:14-21 | The state is the first stage with the outer future. |
| FlattenFuture.Flatten.Poll | src/flatten.rs:31-37 | The chain's poll with the flatten continuation. |
| FlattenFuture.Flatten.Schedule | src/flatten.rs:39-41 | Delegated unchanged to the chain. |
| SelectNextSomeFuture.NextSomeStep | futures-util/src/stream/select_next_some.rs:30-40 | Only for a stream that has not ended. Polls it once and resolves exactly when it yields an item, with that item. An inner pending is pending. End-of-stream is pending with one wake-up and leaves the stream terminated. |
| SelectNextSomeFuture.ResolvesWithNextItem | futures-util/src/stream/select_next_some.rs:33-34 | Pending while the stream is pending, then resolved with its next item; no wake-up. |
| SelectNextSomeFuture.WakesOnceAtEnd | futures-util/src/stream/select_next_some.rs:35-39 | End-of-stream after any pendings: pending throughout, exactly one wake-up, and the stream is terminated, so polling again is ruled out. |
| SelectNextSomeFuture.SelectNextSome.constructor | futures-util/src/stream/select_next_some.rs:16-18 | Borrows the given stream. |
| SelectNextSomeFuture.SelectNextSome.Poll | futures-util/src/stream/select_next_some.rs:30-40 | Requires the stream not terminated. Equals `NextSomeStep` on the borrowed stream, counting the `wake_by_ref` calls on the context. |

## Left out

- Pinning (`Pin`, `unsafe_pinned!`, `Unpin`) has no counterpart: every field is an ordinary value or object field.
- Wakers, `Context` and `Tokens` are opaque, with two exceptions. `SelectNextSome` counts the `wake_by_ref` calls on its context. The older API's `schedule` logs wake handles in the inner task.
- `Chain` (`src/chain.rs`), `SinkMapErr` (`futures-util/src/sink/map_err.rs`), `Fuse` (from `crate::stream`) and the `delegate_sink!` macro are outside this model. Each is given by the contract its callers rely on (`ChainPoll`, `SinkMapErr`, `StreamScript`, `ApplySinkOp`).
- `ChainSchedule` on a resolved chain is a no-op; this model does not cover `Chain`'s code, so what that call does there is a modelling choice.
- Polling a resolved `Chain` is excluded by a precondition, since `Chain` panics on it.
- `Flatten::tailcall` (`src/flatten.rs:43-46`) is left out. It hands back a boxed trait object from `Chain`, whose code is outside this model.
- `TryCollect`'s container `C: Default + Extend` is a sequence, with the empty sequence as default and appending as `extend`.
- Inner tasks are scripts. A poll script that runs out stays pending (not ready), and a `start_send` script that runs out accepts. These are modelling choices, not behaviour of the source.
- `SinkWith.With.IntoInner`: it does not model dropping the item in flight and `f`. The adapter object itself is not consumed.
- Dropping adapters, `Debug`, `must_use`, `PhantomData` and the trait-bound plumbing are not modelled. `From` and `Into` are total functions.
- The assertion `debug_assert!(self.stream.is_terminated())` (`futures-util/src/stream/select_next_some.rs:36`) is proved as part of `NextSomeStep`'s contract (the stream is terminated after end-of-stream) rather than checked.
- `is_terminated` is modelled as predicates with no contract of their own, so they have no row above: `Select.IsTerminated`, `TryCollect.IsTerminated`, `MapErr.IsTerminated` and `SelectNextSome.IsTerminated`.
