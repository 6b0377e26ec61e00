# TestGroupQueue: a keyed overlay on a ready-time queue

This project models `TestGroupQueue` from TestGrid's `config` package. The
overlay keeps a ready-time queue of test group names together with a map
from name to test group, and it has three operations:

- `Init` rebuilds both halves from a batch of test groups. The overlay
  passes every occurrence of a name to the queue, together with `when`. The map
  is built fresh, so a later group with the same name overwrites an earlier
  one. The new map replaces the old one whole.
- `Status` passes the queue's depth and ready time through unchanged. It
  resolves the queue's next name to its test group, or to nothing.
- `Send` resolves each name the queue emits against the map. Misses (stale
  names) are skipped, and hits are forwarded in emission order. Once the
  context is done, each further hit is either forwarded or ends `Send` with
  the context's error, because the `select` picks at random between two
  ready cases. If `Send` does not end that way, it returns the queue's own
  error when the stream of names ends.

The queue underneath (`util.Queue`) is not part of this model. Module
`ReadyQueue` gives it an abstract contract: a sequence of (name, ready time)
entries. `Init` replaces the entries. `Status` reports the depth and the
first entry with the earliest ready time. One run of `Send` is an
`Emission`: a finite sequence of names plus a terminal error.

`TestGroupQueue` models the overlay as pure functions over an immutable
state `Overlay(queue, groups)`. Two of its members are methods that follow
the source's loops step by step:
- `BuildIndex` is the loop in `Init`.
- `Send` is the receive loop in `Send`, run sequentially over the names the
  queue emitted. An optional `Cancellation(accepted, cause)` says that the
  consumer takes `accepted` groups and that the done context wins the next
  `select`. This covers every outcome of the nondeterministic `select`.

Timestamps are plain integers that are only passed through. A test group is
a name plus its other fields, carried opaquely.

Two consequences of the code are worth stating:
- `Init` hands every occurrence of a name to the queue (config/queue.go:47,
  51). A name that occurs twice in the batch is passed twice.
- A group looked up before a concurrent `Init` can still be forwarded after
  that `Init` completes. The lookup (config/queue.go:83-85) and the forward
  (config/queue.go:89-93) do not happen under one lock. The model resolves
  each name against the map at lookup time.

## Model

| member | source | states |
|---|---|---|
| ReadyQueue.Init | config/queue.go:51 | The queue is handed the full name list, duplicates included and in order, and every entry is ready at the caller's `when` |
| ReadyQueue.Earliest | config/queue.go:63 | The chosen entry has the earliest ready time of all entries, and no earlier entry is as early |
| ReadyQueue.Status | config/queue.go:63 | The depth is the number of entries; there is no next name exactly when the queue is empty; otherwise the next name and ready time are those of an entry, and no entry is ready earlier |
| ReadyQueue.StatusAfterInit | config/queue.go:51-63 | Right after a queue `Init`, the depth is the batch size; for a non-empty batch the next name is one of the batch and is ready at `when` |
| TestGroupQueue.LastIndex | config/queue.go:45-49 | Finds the position of the last group with a given name, which is the one whose write survives; reports none exactly when the batch lacks the name |
| TestGroupQueue.Groups | config/queue.go:42-49 | The map's keys are exactly the batch's names, and each name maps to its last occurrence in the batch |
| TestGroupQueue.LastWriteWinsUnique | config/queue.go:42-49 | At most one map has exactly the batch's names as keys with each name mapped to its last occurrence, so that property fully determines the map |
| TestGroupQueue.LastWriteWinsStep | config/queue.go:48 | Writing the next group into a map that is last-write-wins for a prefix gives a map that is last-write-wins for the longer prefix |
| TestGroupQueue.WriteNext | config/queue.go:45-48 | The same step, stated for the `i`-th iteration of the loop over the batch |
| TestGroupQueue.BuildIndex | config/queue.go:41-49 | The loop yields a name list of the batch's length with `names[i]` the name of group `i`, and the one last-write-wins map of the batch |
| TestGroupQueue.Init | config/queue.go:40-55 | The queue is re-initialised with the batch's names in order and every entry ready at `when`, and the map is the batch's last-write-wins map |
| TestGroupQueue.InitReplacesGeneration | config/queue.go:42-54 | After `Init`, no name of the old map that the new batch lacks survives, and every name maps to a group of the new batch with that name |
| TestGroupQueue.InitIdempotent | config/queue.go:40-55 | `Init` ignores the previous state, so repeating it with the same batch and time gives the same state and the same `Status` |
| TestGroupQueue.InitConsistent | config/queue.go:45-53 | Right after `Init`, every scheduled name is a key of the map and every key is scheduled |
| TestGroupQueue.Status | config/queue.go:58-68 | Depth and ready time are the queue's, unchanged; a group is returned exactly when the queue has a next name and the map holds it, and that group is the map's entry for the name |
| TestGroupQueue.StatusAfterInit | config/queue.go:40-68 | Right after `Init`, the depth counts every group of the batch, duplicates separately; an empty batch gives no group; a non-empty batch gives the last occurrence of one of its names, ready at `when` |
| TestGroupQueue.Resolve | config/queue.go:82-94 | Resolving emitted names never yields more groups than names, and every group it yields is a value of the current map |
| TestGroupQueue.Hits | config/queue.go:82-88 | Lists, in strictly increasing order, exactly the positions of emitted names that the map holds |
| TestGroupQueue.ResolveIsHitsLookedUp | config/queue.go:82-94 | Exactly one group is forwarded per hit, in order: the `j`-th forwarded group is the map's entry for the `j`-th emitted name the map holds |
| TestGroupQueue.ResolveAppend | config/queue.go:82-94 | Resolving a stream piece by piece gives the concatenation of the pieces' results |
| TestGroupQueue.StaleNameSkipped | config/queue.go:84-88 | A name the map lacks has no effect wherever it occurs in the stream |
| TestGroupQueue.ResolveAfterInitIsCurrent | config/queue.go:84-92 | Against the map of the latest `Init`, every forwarded group is the last occurrence of its name in that batch, whatever names the queue emits |
| TestGroupQueue.Send | config/queue.go:74-96 | Without cancellation, or when cancellation comes only after all hits are accepted, all resolved groups are delivered and the queue's error is returned; otherwise exactly the first `accepted` resolved groups are delivered and the context's error is returned; either way the delivered groups are a prefix of the resolution and all are in the map |

## Left out

- The goroutine and channel relay in `Send` (config/queue.go:75-80) is left out because it is concurrency plumbing. That relay also hands the queue's error back: it is written before `close(ch)` and read after the loop ends. The loop is modelled sequentially over the names that the queue emitted.
- A goroutine that is left blocked on the relay channel after a cancelled return is not modelled. It belongs to the concurrency plumbing above.
- The `sync.RWMutex` discipline is not modelled, and neither is the window between `Queue.Init` and the map swap (config/queue.go:51-54). Both are about concurrency. The model has one map per `Send` run, and stale names are covered by `StaleNameSkipped`.
- ReadyQueue.Init: keeping one entry per occurrence, in order, and resetting every entry to `when` is an assumption about `util.Queue`, whose code is not part of this model. The overlay only passes the full name list and `when` (config/queue.go:51). The duplicate counts in `ReadyQueue.StatusAfterInit` and `TestGroupQueue.StatusAfterInit` rest on the same assumption.
- `util.Queue` itself is not part of this model: its ordering, timing, tie-breaking and rescheduling are unknown. `ReadyQueue.Earliest` breaks ties by position, and no lemma depends on that choice. The ready time of an empty queue is assumed to be Go's zero `time.Time`, written `ZeroTime`.
- The resend `frequency` of `Send` is only passed through to `util.Queue.Send`. So it is absorbed into the `Emission` parameter. One-shot draining when the frequency is zero is not stated, and neither is re-delivery no earlier than one frequency later. Both depend on the queue's unseen internals.
- `time.Time` and `time.Duration` arithmetic is left out. Timestamps are opaque integers.
- The protobuf `TestGroup` is left out apart from its name. Its other fields are an opaque map.
- `nil` groups in the input batch are left out. The code would dereference them in `Init`.
- A `nil` map value in `Send`'s lookup is left out, because `Init` never stores one. Only a missing key counts as a miss.
