# Request-coalescing loader, modelled in Dafny

This project models the core of `jsocol/dataloader`, a generic Go "data loader". Many callers ask for values by key. The loader collects the keys asked for within one short window and fetches them all with a single call to a user-supplied batch fetcher. It then hands each caller the value for its key, the sentinel `NotFound`, or the fetcher's error.

- `options.dfy` (module `Options`) models the configuration record, the two functional options `WithDelay` and `WithMaxBatch`, and the option-applying loop of `New`.
- `dataloader.dfy` (module `Dataloader`) models the `Loader` as a class:
  - `tasks` is a `map<K, seq<Waiter>>` from each key to the waiters blocked on it.
  - `tick` says whether a timer is armed for the current window.
  - `inbox` holds the result sitting in each waiter's one-slot channel.
  - `Enqueue`, `Fetch`, `SendError` and their loops are methods with loop invariants.
  - Ghost fields count the armed timers that have not yet run a fetch (`pendingDispatches`) and record the delays they were armed with (`timers`).
  - The ghost field `calls` logs every key list given to the fetcher.
- `scenarios.dfy` (module `Scenarios`) models callers:
  - one batch window of concurrent `Load` calls (`LoadWindow`);
  - the situations the repository's tests describe;
  - the loader's behaviour after a fetcher error.

A delivery into a waiter's channel requires the channel's slot to be empty. So no waiter is ever sent two results. The fetch contracts add that every waiter queued at the snapshot receives one. Together this is the exactly-once delivery the loader promises.

Where the repository's tests and its code disagree, the model follows the code:

- A missing key gets the bare sentinel `NotFound`, not an error that carries the key (dataloader.go:10, 102-104), although dataloader_test.go:153-157 expects a `dataloader.Error[string]` whose `Key()` is the key.
- There is no size-triggered dispatch, although dataloader_test.go:186 passes `WithMaxBatch(2)`. `maxBatch` is written by `WithMaxBatch` but never read, and `config` in dataloader.go:21-23 has only `delay`. The model's `Config` has both fields.
- There is no `LoadMany`, although dataloader_test.go:241 calls it.
- On a fetcher error the registry and `tick` are not cleared. See "## Findings".

## Model

| member | source | states |
|---|---|---|
| `Options.Apply` | options.go:7-17 | applying `WithDelay(d)` sets `delay` to `d` and keeps `maxBatch`; applying `WithMaxBatch(n)` sets `maxBatch` to `n` and keeps `delay` |
| `Options.NewConfig` | dataloader.go:36-41 | the configuration `New` builds is the default (1 ms delay) with the options applied in order, left to right |
| `Options.ApplyAllAppend` | dataloader.go:39-41 | applying one list of options and then another is the same as applying the two lists concatenated |
| `Options.DelayKept` | options.go:13-17 | options other than `WithDelay` never change the delay |
| `Options.MaxBatchKept` | options.go:7-11 | options other than `WithMaxBatch` never change `maxBatch` |
| `Options.LastDelayWins` | options.go:7-11 | when several `WithDelay` options are given, the last one's delay is the one configured |
| `Options.DefaultDelay` | dataloader.go:36-41 | when no `WithDelay` option is given, and in particular when no option is given, the configured delay is 1 ms |
| `Options.SwapCommutes` | options.go:7-17 | swapping two neighbouring options of different kinds gives the same configuration, since they write disjoint fields |
| `Dataloader.Answer` | dataloader.go:86-111 | after a successful fetch a key's waiters get a value exactly when the fetcher returned that key, and that value; otherwise they get `NotFound` |
| `Dataloader.Loader.constructor` | dataloader.go:35-47 | a new loader has an empty registry, no timer armed, nothing delivered, the given fetcher, and the configuration built from the options |
| `Dataloader.Loader.Enqueue` | dataloader.go:58-69 | the waiter is appended to its key's queue (an empty queue if the key was absent) and no other queue changes; a timer with the configured delay is armed only if `tick` was unset, so at most one dispatch is pending; the registry invariant is kept |
| `Dataloader.Loader.Load` | dataloader.go:49-53 | a fresh channel, one that was never queued or delivered to, is made and enqueued under the key, with `Enqueue`'s effect on the registry and the timer |
| `Dataloader.Loader.Await` | dataloader.go:54-55 | the caller gets exactly the result delivered to its channel |
| `Dataloader.Loader.SnapshotKeys` | dataloader.go:75-78 | the key list holds every key of the registry exactly once and nothing else, and its length is the registry's size |
| `Dataloader.Loader.Broadcast` | dataloader.go:94-96 | every channel of the queue receives the result, into a slot that was empty; no other channel is touched |
| `Dataloader.Loader.SendError` | dataloader.go:116-126 | every waiter of every key receives the fetcher's error unchanged, exactly once, and nobody else receives anything |
| `Dataloader.Loader.DeliverFound` | dataloader.go:86-98 | each returned key's value reaches all of its waiters and the key leaves the registry; a returned key with no queue makes the fetch panic, and the panic happens exactly when such a key exists |
| `Dataloader.Loader.DeliverNotFound` | dataloader.go:100-111 | every key left in the registry has `NotFound` sent to all of its waiters, and the registry ends empty |
| `Dataloader.Loader.Resolve` | dataloader.go:86-113 | after a successful fetcher call each waiter queued at the snapshot gets exactly one result (its key's value, or `NotFound`), nobody else gets one, the registry is empty and `tick` is cleared; a panic happens exactly when the fetcher returned an unrequested key |
| `Dataloader.Loader.Fetch` | dataloader.go:71-114 | the fetcher is called once with the distinct pending keys; on its error every waiter gets that error exactly once while the registry and `tick` are left as they were; on success the window is resolved as in `Resolve` and the loader is idle again |
| `Dataloader.Loader.FetchCorrected` | dataloader.go:80-84 | as `Fetch`, except that after a fetcher error the registry is cleared and `tick` reset too, so every non-panicking fetch leaves the loader idle |
| `Scenarios.LoadAll` | dataloader.go:49-69 | loads issued before the timer fires all join one window: every key is in the registry with its caller's waiter, and exactly one dispatch is pending |
| `Scenarios.AwaitAll` | dataloader.go:54-55 | each caller receives the result delivered to its own channel |
| `Scenarios.LoadWindow` | dataloader.go:49-114 | for one window of loads the fetcher is called once, with every requested key exactly once, and no dispatch is left pending; each caller gets its key's value or `NotFound`, or else the batch error; a panic happens exactly when the fetcher returns an unrequested key; after a successful fetch the loader is idle, while after a fetcher error `tick` stays set and every requested key stays registered |
| `Scenarios.LengthsScenario` | dataloader_test.go:14-62 | loading "f", "ab", "ef", "f" from a length fetcher makes exactly one fetcher call, whose keys are "f", "ab" and "ef" once each; both "f" callers get 1 and the others 2 |
| `Scenarios.ComplexKeyScenario` | dataloader_test.go:68-117 | four loads of one composite key make exactly one fetcher call, with that key alone, and all four callers get "resource-nested" |
| `Scenarios.PartialScenario` | dataloader_test.go:119-173 | four loads make exactly one fetcher call with the four keys; "foo" and "bar" get the fetcher's values, and "baz" and "quux" get `NotFound` |
| `Scenarios.ErrorScenario` | dataloader.go:80-83 | a fetcher error reaches every caller of the window unchanged, and afterwards `tick` is still set and the window's keys are still registered |
| `Scenarios.UnexpectedKeyScenario` | dataloader.go:86-90 | a fetcher returning a key nobody asked for makes the fetch panic on that key |
| `Scenarios.StallAfterFetchError` | dataloader.go:80-84 | after a fetcher error the next `Load` finds `tick` still set, arms no timer, and stays queued unserved with no dispatch pending |
| `Scenarios.RecoverAfterFetchError` | dataloader.go:80-84 | with the corrected error path, the `Load` after a fetcher error opens a new window, and that window's fetch serves it |

## Left out

- The mutex, the timer goroutine and `time.After` are left out. `Enqueue` and `Fetch` run atomically. The timer is a counter of pending dispatches plus a log of the delays it was armed with. Timing itself is not modelled.
- Go channels are not modelled as channels. A waiter is a number, its one-slot buffer is its `inbox` entry, and `defer close(ch)` is not modelled.
- `Load` is split at its blocking receive: `Load` makes and enqueues the channel, and `Await` is the receive. Blocking itself is not modelled.
- The fetcher is a pure function of the key list it is given. Its I/O and any nondeterminism are not modelled.
- Go's unspecified map iteration order is a nondeterministic choice of the next key.
- On the error path Go returns `V`'s zero value beside the error. The model's result is a tagged union, `Found(value)` or `Failed(err)`, without that zero value.
- `time.Duration` is an unbounded integer of nanoseconds. 64-bit overflow is not modelled, since the delay is only stored.
- The closures returned by `WithDelay` and `WithMaxBatch` are values of a datatype. `Apply` performs each closure's field assignment.
- `LoadMany`, a key-carrying not-found error type and a size-triggered dispatch do not exist in dataloader.go, so they are not modelled.
- Dataloader.Loader.Fetch: when the fetch panics, the contract does not say which waiters were already served before the missing key was reached. The panic ends the program, and the map's iteration order decides it.
- Dataloader.Loader.FetchCorrected: on a panic, as for `Fetch`, nothing is stated about partial deliveries.
- Dataloader.Loader.Resolve: on a panic, as for `Fetch`, nothing is stated about partial deliveries.
- Dataloader.Loader.DeliverFound: on a panic, as for `Fetch`, nothing is stated about partial deliveries.
- Scenarios.LoadWindow: on a panic no answers are returned, since the program has ended.

## Findings

| source | as written | input that shows it | evidently intended | confidence | as-written member | corrected member |
|---|---|---|---|---|---|---|
| dataloader.go:80-84 | on a fetcher error `fetch` sends the error and returns before `l.tick = nil`, leaving `tick` set and the served waiters still queued; the timer has already fired, so no later `enqueue` arms another and every later `Load` blocks forever | a fetcher that fails once, then `Load("a")`, the fetch, and another `Load("a")`: the second waiter is queued behind the already-served first one, `tick` is set and no dispatch is pending | after the error is delivered the registry and the batch window are cleared, so the next `Load` starts a new window | high, not executed | `Scenarios.StallAfterFetchError` | `Dataloader.Loader.FetchCorrected` |
