# jotai-tanstack-query: the query-to-atom bridge, modelled in Dafny

`buildCreateAtoms(createQueryObserver)(getOptions, getQueryClient)` turns a
TanStack query observer into two Jotai atoms:
- a data atom, which suspends, raises the stored error, or returns the data;
- a status atom, which holds the full result and accepts `refetch` actions.

This project models the state and the rules of that bridge:

- **`QueryResults`** (`query_results.dfy`, pure). It holds the observer result
  as a value and the emission guard of the data stream (`Forwards`). It also
  holds the stream callback (`Step`), the stream seen over a run of results
  (`Delivered`, `Settled`) and the data atom's projection (`Project`).
- **`QueryObserver`** (`query_observer.dfy`). The TanStack observer is modelled
  only through what the bridge does to it. It has an identity (the object),
  its client, its options, its current result and its listeners. It also keeps
  a log of every state-changing call it received (`setOptions`, `refetch`,
  `remove`, `subscribe`, unsubscribe); reads of `getCurrentResult` are not
  logged. The unsubscribe function that `subscribe` returns
  is a fresh `Subscription` object.
- **`AtomsWithTanstackQuery`** (`atoms_with_query.dfy`). The `Bridge` class
  holds the state that one call of the builder creates:
  - the per-client observer registry (`observerCacheAtom`'s map);
  - the refresh counter (`refreshAtom`);
  - the observer atom's last evaluation, written `memo`;
  - the status value (`resultAtom` once it has been set);
  - the data stream's latest delivered result and the observer the stream was built on;
  - a log of factory calls.

  Its methods are the registry lookup, the observer read and the refetch and
  force actions. They also cover the forwarding from the data atom, the mount
  handshake, the data stream's subscription with its initial snapshot, and the
  listeners' reaction to a new result.

Jotai re-runs the observer atom only when one of its inputs changes. The
model keeps that one piece of the runtime: `ReadObserver` returns the
memoised observer while the client, the options and the refresh counter are
unchanged. This is what the counter is for. `Bridge.Valid()` states that an
evaluation made at the current counter value names the registered observer.
A forced refetch deletes the registry entry. It would break that invariant
if it did not also bump the counter. The invariant is preserved by every
method, so a read after a force always evaluates the atom again and calls
the factory (`ForceRefetchRecreatesObserver`).

## Model

| member | source | states |
|---|---|---|
| `QueryResults.Forwards` | src/atomsWithTanstackQuery.ts:96-103 | a result reaches the data stream iff it is not fetching and is either a non-cancelled error or a non-error with defined data |
| `QueryResults.Step` | src/atomsWithTanstackQuery.ts:95-105 | the stream callback moves the stream only to a result that passes the filter, and always does when it passes |
| `QueryResults.Delivered` | src/atomsWithTanstackQuery.ts:95-108 | of a run of observer results, exactly those passing the filter reach the stream: everything delivered passes and was reported, and everything reported that passes is delivered |
| `QueryResults.SettledIsLastDelivered` | src/atomsWithTanstackQuery.ts:104-109 | after a run of results the data stream holds the last one that passed the filter, or its earlier value if none did |
| `QueryResults.SnapshotThenEmissions` | src/atomsWithTanstackQuery.ts:106-110 | the stream over the current result followed by later emissions equals the stream over the later emissions alone, started from what the callback made of the current result (used by `SubscribeThenEmit`) |
| `QueryResults.Project` | src/atomsWithTanstackQuery.ts:116-123 | the data atom suspends while nothing is delivered, raises exactly the stored `error` when that field is set (whatever the status), and otherwise returns `data` |
| `QueryResults.ProjectionOfDelivered` | src/atomsWithTanstackQuery.ts:96-122 | for a delivered result whose error field agrees with its status, reading raises iff the status is 'error', never raises a cancelled error, and otherwise returns defined data |
| `QueryResults.DataCellOnlySettles` | src/atomsWithTanstackQuery.ts:89-122 | over any run of coherent results (error set iff status 'error'), starting from nothing delivered, the data atom holds only a reported, non-fetching result, never raises a cancelled error and never returns undefined data |
| `QueryResults.FetchingThenData` | src/atomsWithTanstackQuery.ts:96-122 | a fetching result followed by a settled one with data `x`: the data atom stays suspended after the first and returns `x` after the second |
| `QueryObserver.Observer.constructor` | src/atomsWithTanstackQuery.ts:130-132 | the default factory builds an observer for the given client with the given options, with no listeners and no calls |
| `QueryObserver.Observer.SetOptions` | src/atomsWithTanstackQuery.ts:40 | options are replaced in place and the call is logged; the result and listeners are kept |
| `QueryObserver.Observer.Refetch` | src/atomsWithTanstackQuery.ts:84 | the refetch call is logged with its options; nothing else changes |
| `QueryObserver.Observer.Remove` | src/atomsWithTanstackQuery.ts:77 | the remove call is logged; nothing else changes |
| `QueryObserver.Observer.Subscribe` | src/atomsWithTanstackQuery.ts:106-108 | adds one new listener and returns its own new unsubscribe handle |
| `QueryObserver.Subscription.Unsubscribe` | src/atomsWithTanstackQuery.ts:57-60 | calling the handle removes exactly its own listener |
| `AtomsWithTanstackQuery.Bridge.constructor` | src/atomsWithTanstackQuery.ts:29-31 | an empty registry, a counter at 0, nothing evaluated, delivered or stored |
| `AtomsWithTanstackQuery.Bridge.Acquire` | src/atomsWithTanstackQuery.ts:33-46 | hit: the registered observer is returned and gets `setOptions(options)`, with no factory call. Miss: the factory is called once with (client, options) and its fresh observer is registered. Either way the registry becomes `old[client := o]`, and only that entry and that observer change |
| `AtomsWithTanstackQuery.Bridge.ReadObserver` | src/atomsWithTanstackQuery.ts:33-37 | the returned observer is the one registered for the client, carries the current options and belongs to no other client. The registry changes only at that client, the memo records the read, and the observer's log and listeners are stated. With unchanged inputs it is the memoised one and nothing changes; otherwise it is as `Acquire` |
| `AtomsWithTanstackQuery.Bridge.Dispatch` | src/atomsWithTanstackQuery.ts:71-87 | force: after the read, the observer's only new call is `remove`, the client's entry is deleted, the counter rises by exactly 1 and nothing is returned. Otherwise: the only new call is `refetch(action.options)`, the registry and counter are unchanged and a void promise is returned. Either way the observer keeps the read's options, current result and listeners |
| `AtomsWithTanstackQuery.Bridge.DispatchData` | src/atomsWithTanstackQuery.ts:124 | writing the data atom has exactly the effect and the return value of writing the status atom with the same action |
| `AtomsWithTanstackQuery.Bridge.InitializeStatus` | src/atomsWithTanstackQuery.ts:55-61 | reads the observer (with all of that read's effects on registry, memo and factory log), subscribes one new status listener to it and hands back its unsubscribe handle; nothing else is added to its listeners or log |
| `AtomsWithTanstackQuery.Bridge.OnMount` | src/atomsWithTanstackQuery.ts:63-69 | the mount hook returns the unsubscribe handle of the subscription it just made (the observer's log ends with that subscribe), adds no other listener, and changes the registry, memo and factory log only as the observer read does |
| `AtomsWithTanstackQuery.Bridge.SubscribeData` | src/atomsWithTanstackQuery.ts:89-111 | reads the observer, subscribes the filtering callback, then delivers the observer's current result iff it passes the filter; a stream built on another observer than before starts with nothing delivered |
| `AtomsWithTanstackQuery.Bridge.Publish` | src/atomsWithTanstackQuery.ts:95-105 | a new result is stored as is by a status listener (lines 57-59), and is passed through the filter by a data listener when the stream is the one built on that observer; the registry, counter and factory log do not change |
| `AtomsWithTanstackQuery.Bridge.ReadStatus` | src/atomsWithTanstackQuery.ts:48-54 | the status atom reads the value a subscription stored, changing nothing, or by default the current result of the observer read for the client, with exactly that read's effects |
| `AtomsWithTanstackQuery.Bridge.ReadData` | src/atomsWithTanstackQuery.ts:116-123 | the data atom suspends iff nothing has been delivered, and raises iff the delivered result's error field is set. Since `Valid()` keeps only filtered results in the stream, a coherent delivered result raises iff its status is 'error', never as a cancelled error, and otherwise returns defined data |
| `AtomsWithTanstackQuery.OptionsChangeKeepsObserver` | src/atomsWithTanstackQuery.ts:38-40 | two reads with the same client and different options return the same observer, which carries the newer options; the factory runs at most once |
| `AtomsWithTanstackQuery.ForceRefetchRecreatesObserver` | src/atomsWithTanstackQuery.ts:76-82 | after a forced refetch, a read with the same client and options calls the factory again and returns a new observer; the old one received `remove` |
| `AtomsWithTanstackQuery.MountSurvivesRefetch` | src/atomsWithTanstackQuery.ts:84 | after a mount, a refetch without `force` reaches the registered observer and the mount's subscription is still among its listeners |
| `AtomsWithTanstackQuery.SubscribeThenEmit` | src/atomsWithTanstackQuery.ts:106-110 | subscribing the data stream and then having the observer report `rs` leaves the bridge's stream equal to `Settled` over the current result followed by `rs` |
| `AtomsWithTanstackQuery.MountThenUnmount` | src/atomsWithTanstackQuery.ts:63-68 | mounting then calling the returned unsubscribe leaves the observer's listeners as they were before the mount |

## Left out

- The reactive runtime (dependency tracking, re-render scheduling, Suspense).
  A read of the observer atom is an explicit call. The client and options
  that `getQueryClient`/`getOptions` yield are its arguments. "Inputs
  changed" means a different counter value, client or options value.
- The `WeakMap` garbage collection: the registry is an ordinary finite map,
  because the lifetime of weak references cannot be stated here.
- The TanStack observer internals: fetching, retries, staleness, the query
  cache, what `remove()` does to the client's cache, and how a new result
  arises. A new result enters through `Publish`. The cancelled-error
  classifier is the `cancelled` flag of the error.
- Result coherence: that the engine sets `error` exactly when the status is
  'error' is assumed (`QueryResults.Coherent`), not proved. The filter tests
  the status and the projection tests the `error` field, so an incoherent
  result (status 'success', defined data and a cancelled error) would pass the
  filter and then be raised. `DataCellOnlySettles` and `ReadData`'s
  projection guarantees hold only for coherent results.
- QueryObserver.Observer.Subscribe: the first `subscribe` of an observer can
  start a fetch in the engine and change its current result before the data
  stream reads the snapshot. The model keeps the current result unchanged
  across `Subscribe`, so `SubscribeData` takes the snapshot from the result
  as it was before that fetch.
- AtomsWithTanstackQuery.Bridge.ReadStatus: Jotai caches the value of the
  status atom's default getter while the observer atom yields the same
  observer. An unmounted status atom read again after a new result reached
  an observer with no status listener returns the earlier snapshot in the
  source. The model's default path returns the observer's current result.
- QueryObserver.Observer.constructor: the initial result of a new observer
  is fixed to "loading, not fetching, no data, no error". The engine may
  instead seed it from the client's cache.
- Promise asynchrony: `refetch` only records the call, and the returned
  promise is the token `VoidPromise`. Its rejection when `throwOnError` is set
  is not modelled.
- QueryResults.Project: a thrown value that is falsy (`0`, `''`, `false`) is
  not modelled. Every present error is truthy, because the error field is an
  `Option`.
- The pluggable factory: only the default factory `new QueryObserver(client,
  options)` is modelled, as the observer's constructor. Other factories,
  such as the infinite-query variant, are not part of this model.
- The TypeScript generic wrappers `createAtoms` and `atomsWithTanstackQuery`
  (src/atomsWithTanstackQuery.ts:130-156). They only pass the default factory
  and the default client atom through.
- examples/03_infinite/src/App.tsx: a React component that performs an HTTP
  fetch through the infinite-query variant, which is not part of this model.
- Two behaviours the model shows and does not change:
  - Dispatch with `force` reads the observer atom first. If no observer is
    registered for the client, that read calls the factory only for the
    observer to be removed at once.
  - A status subscription made before a forced refetch stays on the old
    observer until unmount.
- SubscribeData: the teardown of the data stream's earlier subscription,
  when the stream is rebuilt on a new observer, is not modelled. The old
  listener stays registered, but `Publish` ignores its deliveries, because
  the stream now belongs to the new observer.
