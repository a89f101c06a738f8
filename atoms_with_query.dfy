/**
 * The state behind one pair of cells built by `buildCreateAtoms(factory)(getOptions,
 * getQueryClient)`: the per-client observer registry, the refresh counter,
 * the last evaluation of the observer cell, the status cell's value and the
 * data stream's latest delivered result.
 *
 * The reactive runtime is not modelled: each read of the observer cell is an
 * explicit `ReadObserver(client, options)` call, whose arguments are what
 * `getQueryClient` and `getOptions` yield at that moment.
 */
module AtomsWithTanstackQuery {
  import opened QueryResults
  import opened QueryObserver

  /** The only action the cells accept: `{type: 'refetch', force?, options?}`. */
  datatype Action = Refetch(force: bool, options: Option<RefetchOptions>)

  /** What a dispatch returns: nothing (the force path) or a promise that
      resolves to no value (the refetch path). */
  datatype Completion = Undefined | VoidPromise

  /** The inputs the observer cell was last evaluated with, and its value. */
  datatype Evaluation<O, D> = Evaluation(refresh: nat, client: ClientId, options: O, observer: Observer<O, D>)

  class Bridge<O(==), D> {
    /** The observer registry, one observer per client. */
    var cache: map<ClientId, Observer<O, D>>
    /** The refresh counter. */
    var refresh: nat
    /** The observer cell's memoised evaluation. */
    var memo: Option<Evaluation<O, D>>
    /** Every call made to the observer factory, in order. */
    var factoryCalls: seq<(ClientId, O)>
    /** The status cell's value once a subscription has set it. */
    var status: Option<QueryResult<D>>
    /** The data stream's latest delivered result. */
    var data: Option<QueryResult<D>>
    /** The observer the data stream's observable was built on. */
    var dataSource: Option<Observer<O, D>>

    /** Each observer is registered under its own client, so two clients never
        share one. */
    ghost predicate Registered()
      reads this
    {
      forall c :: c in cache ==> cache[c].client == c
    }

    /** Only a result that passed the filter is ever held by the data stream. */
    ghost predicate DataSettled()
      reads this
    {
      data.Some? ==> Forwards(data.value)
    }

    /** The registry is well formed; an evaluation made at the current counter
        value still names the registered observer, which still carries the
        options it was evaluated with; the data stream holds only filtered
        results. */
    ghost predicate Valid()
      reads this, Memoised()
    {
      && Registered()
      && (memo.Some? ==> memo.value.refresh <= refresh)
      && (memo.Some? && memo.value.refresh == refresh ==>
            && memo.value.client in cache && cache[memo.value.client] == memo.value.observer
            && memo.value.observer.options == memo.value.options)
      && DataSettled()
    }

    /** The observer the memoised evaluation names, if any. */
    ghost function Memoised(): set<object>
      reads this
    {
      if memo.Some? then {memo.value.observer} else {}
    }

    /** The objects a read for `client` may change: its registered observer. */
    ghost function Slot(client: ClientId): set<object>
      reads this
    {
      if client in cache then {cache[client]} else {}
    }

    /** True when none of the observer cell's inputs changed since it was last
        evaluated, so reading it returns the memoised observer. */
    predicate UpToDate(client: ClientId, options: O)
      reads this
    {
      memo.Some? && memo.value.refresh == refresh && memo.value.client == client && memo.value.options == options
    }

    /** The call log that the observer read for `client` and `options` leaves
        on the observer it returns: the registered observer's log, plus
        `setOptions` when the cell is evaluated again; a new observer's empty
        log on a miss. */
    ghost function CallsAfterRead(client: ClientId, options: O): seq<Call<O, D>>
      reads this, Slot(client)
    {
      if client in cache
      then cache[client].calls + (if UpToDate(client, options) then [] else [OptionsSet(options)])
      else []
    }

    /** The listeners of the observer registered for `client` (none when a
        read would create it). */
    ghost function ListenersOf(client: ClientId): set<Subscription<O, D>>
      reads this, Slot(client)
    {
      if client in cache then cache[client].listeners else {}
    }

    /** The current result of the observer registered for `client`, or that of
        a new observer when a read would create it. */
    ghost function CurrentOf(client: ClientId): QueryResult<D>
      reads this, Slot(client)
    {
      if client in cache then cache[client].current else InitialResult()
    }

    constructor ()
      ensures Valid()
      ensures cache == map[] && refresh == 0 && memo == None && factoryCalls == []
      ensures status == None && data == None && dataSource == None
    {
      cache := map[];
      refresh := 0;
      memo := None;
      factoryCalls := [];
      status := None;
      data := None;
      dataSource := None;
    }

    /** The effect of one evaluation of the observer cell's body for `client`
        and `options`, ending with `o` as its value. */
    twostate predicate Acquired(client: ClientId, options: O, new o: Observer<O, D>)
      reads this, o
    {
      && cache == old(cache)[client := o]
      && o.client == client && o.options == options
      && (client in old(cache) ==>
            && o == old(cache[client])
            && o.calls == old(o.calls) + [OptionsSet(options)]
            && o.current == old(o.current) && o.listeners == old(o.listeners)
            && factoryCalls == old(factoryCalls))
      && (client !in old(cache) ==>
            && fresh(o)
            && o.current == InitialResult() && o.calls == [] && o.listeners == {}
            && factoryCalls == old(factoryCalls) + [(client, options)])
    }

    /** The observer cell's body: on a hit the registered observer gets the
        new options; on a miss the factory is called once and its observer is
        registered. Only the entry for `client` changes. */
    method Acquire(client: ClientId, options: O) returns (o: Observer<O, D>)
      requires Registered()
      modifies this, Slot(client)
      ensures Registered()
      ensures Acquired(client, options, o)
      ensures refresh == old(refresh) && memo == old(memo)
      ensures status == old(status) && data == old(data) && dataSource == old(dataSource)
    {
      if client in cache {
        o := cache[client];
        o.SetOptions(options);
      } else {
        o := new Observer(client, options);
        factoryCalls := factoryCalls + [(client, options)];
        cache := cache[client := o];
      }
    }

    /** What a read of the observer cell for `client` and `options` leaves
        behind in the registry, the memo, the counter and the factory log,
        with `o` as the observer read: the one registered for `client`, now
        carrying `options`. */
    twostate predicate ObserverRead(client: ClientId, options: O, new o: Observer<O, D>)
      reads this, o
    {
      && client in cache && o == cache[client] && cache == old(cache)[client := o]
      && o.client == client && o.options == options && o.current == old(CurrentOf(client))
      && memo == Some(Evaluation(refresh, client, options, o)) && refresh == old(refresh)
      && (client in old(cache) ==> o == old(cache[client]) && factoryCalls == old(factoryCalls))
      && (client !in old(cache) ==> fresh(o) && factoryCalls == old(factoryCalls) + [(client, options)])
      && (old(UpToDate(client, options)) ==> o == old(memo.value.observer))
    }

    /** A read of the observer cell: the memoised observer while client,
        options and counter are unchanged, otherwise a fresh evaluation. Either
        way the result is the observer registered for `client`, and no other
        client's observer is it. */
    method ReadObserver(client: ClientId, options: O) returns (o: Observer<O, D>)
      requires Valid()
      modifies this, Slot(client)
      ensures Valid()
      ensures ObserverRead(client, options, o)
      ensures o.calls == old(CallsAfterRead(client, options)) && o.listeners == old(ListenersOf(client))
      ensures forall c :: c in cache && c != client ==> cache[c] != o
      ensures old(UpToDate(client, options)) ==> cache == old(cache) && unchanged(o)
      ensures !old(UpToDate(client, options)) ==> Acquired(client, options, o)
      ensures status == old(status) && data == old(data) && dataSource == old(dataSource)
    {
      if UpToDate(client, options) {
        o := memo.value.observer;
      } else {
        o := Acquire(client, options);
        memo := Some(Evaluation(refresh, client, options, o));
      }
    }

    /** The effect of dispatching `action` with `client` and `options` current:
        the observer is read first; with `force` it is removed, its entry
        deleted and the counter bumped by one, and nothing is refetched;
        otherwise it is asked to refetch with the action's options and the
        registry and counter are left alone. The observer's options, result
        and listeners are those the read leaves. */
    twostate predicate Dispatched(client: ClientId, options: O, action: Action, ret: Completion, new target: Observer<O, D>)
      reads this, target
    {
      && target.client == client && target.options == options
      && target.current == old(CurrentOf(client)) && target.listeners == old(ListenersOf(client))
      && (client in old(cache) ==> target == old(cache[client]) && factoryCalls == old(factoryCalls))
      && (client !in old(cache) ==> fresh(target) && factoryCalls == old(factoryCalls) + [(client, options)])
      && memo == Some(Evaluation(old(refresh), client, options, target))
      && target.calls == old(CallsAfterRead(client, options)) + [if action.force then Removed else Refetched(action.options)]
      && (action.force ==>
            && ret == Undefined
            && cache == old(cache) - {client}
            && refresh == old(refresh) + 1)
      && (!action.force ==>
            && ret == VoidPromise
            && cache == old(cache)[client := target]
            && refresh == old(refresh))
      && status == old(status) && data == old(data) && dataSource == old(dataSource)
    }

    /** The status cell's write. */
    method Dispatch(client: ClientId, options: O, action: Action) returns (ret: Completion, ghost target: Observer<O, D>)
      requires Valid()
      modifies this, Slot(client)
      ensures Valid()
      ensures Dispatched(client, options, action, ret, target)
    {
      var o := ReadObserver(client, options);
      target := o;
      if action.force {
        o.Remove();
        cache := cache - {client};
        refresh := refresh + 1;
        ret := Undefined;
      } else {
        o.Refetch(action.options);
        ret := VoidPromise;
      }
    }

    /** The data cell's write forwards the action unchanged to the status
        cell and returns what it returns. */
    method DispatchData(client: ClientId, options: O, action: Action) returns (ret: Completion, ghost target: Observer<O, D>)
      requires Valid()
      modifies this, Slot(client)
      ensures Valid()
      ensures Dispatched(client, options, action, ret, target)
    {
      ret, target := Dispatch(client, options, action);
    }

    /** The observer cell was read for `client` and `options`, and then a
        subscription `s` for `listener` was added to the observer read; its
        log gained the read's calls and that subscribe, and nothing else. */
    twostate predicate ListenerAdded(client: ClientId, options: O, listener: Listener, new s: Subscription<O, D>)
      reads this, s.observer
    {
      && ObserverRead(client, options, s.observer)
      && fresh(s) && s.listener == listener
      && s.observer.listeners == old(ListenersOf(client)) + {s}
      && s.observer.calls == old(CallsAfterRead(client, options)) + [Subscribed(s)]
    }

    /** The base status cell's write: subscribes the status listener to the
        current observer and hands the unsubscribe function back. */
    method InitializeStatus(client: ClientId, options: O) returns (unsubscribe: Subscription<O, D>)
      requires Valid()
      modifies this, Slot(client)
      ensures Valid()
      ensures ListenerAdded(client, options, StatusListener, unsubscribe)
      ensures status == old(status) && data == old(data) && dataSource == old(dataSource)
    {
      var o := ReadObserver(client, options);
      unsubscribe := o.Subscribe(StatusListener);
    }

    /** The status cell's mount hook: the callback passed to the initializer
        stores the unsubscribe function, which the hook then returns. The
        `Option` is the hook's local, undefined until the callback runs. */
    method OnMount(client: ClientId, options: O) returns (unsub: Option<Subscription<O, D>>)
      requires Valid()
      modifies this, Slot(client)
      ensures Valid()
      ensures unsub.Some? && ListenerAdded(client, options, StatusListener, unsub.value)
      ensures status == old(status) && data == old(data) && dataSource == old(dataSource)
    {
      unsub := None;
      var unsubscribe := InitializeStatus(client, options);
      unsub := Some(unsubscribe);
    }

    /** The data stream's subscribe: registers the filtering callback on the
        observer read, then runs it once on that observer's current result. A
        stream built on another observer than before starts with nothing
        delivered. */
    method SubscribeData(client: ClientId, options: O) returns (unsubscribe: Subscription<O, D>)
      requires Valid()
      modifies this, Slot(client)
      ensures Valid()
      ensures ListenerAdded(client, options, DataListener, unsubscribe)
      ensures dataSource == Some(unsubscribe.observer)
      ensures data == Step(if old(dataSource) == Some(unsubscribe.observer) then old(data) else None,
                           old(CurrentOf(client)))
      ensures status == old(status)
    {
      var o := ReadObserver(client, options);
      unsubscribe := o.Subscribe(DataListener);
      var held := if dataSource == Some(o) then data else None;
      data := Step(held, o.current);
      dataSource := Some(o);
    }

    /** True when `o` has a subscription running `listener`. */
    predicate Listening(o: Observer<O, D>, listener: Listener)
      reads o
    {
      exists s :: s in o.listeners && s.listener == listener
    }

    /** The observer `o` reports a new result `r` to its listeners: the status
        listener stores it as is; the data listener passes it through the
        filter into the stream, when the stream is the one built on `o`. */
    method Publish(o: Observer<O, D>, r: QueryResult<D>)
      requires Valid()
      modifies this, o
      ensures Valid()
      ensures o.current == r && o.listeners == old(o.listeners) && o.calls == old(o.calls) && o.options == old(o.options)
      ensures status == (if Listening(o, StatusListener) then Some(r) else old(status))
      ensures data == (if Listening(o, DataListener) && dataSource == Some(o) then Step(old(data), r) else old(data))
      ensures cache == old(cache) && refresh == old(refresh) && memo == old(memo) && factoryCalls == old(factoryCalls)
      ensures dataSource == old(dataSource)
    {
      o.current := r;
      if Listening(o, StatusListener) {
        status := Some(r);
      }
      if Listening(o, DataListener) && dataSource == Some(o) {
        data := Step(data, r);
      }
    }

    /** A read of the status cell: the value a subscription stored, touching
        nothing; or by default the current result of the observer read for
        `client`, with that read's effects. */
    method ReadStatus(client: ClientId, options: O) returns (r: QueryResult<D>)
      requires Valid()
      modifies this, Slot(client)
      ensures Valid()
      ensures old(status).Some? ==> r == old(status).value && unchanged(this) && unchanged(Slot(client))
      ensures old(status).None? ==>
                && client in cache
                && ObserverRead(client, options, cache[client])
                && cache[client].calls == old(CallsAfterRead(client, options))
                && cache[client].listeners == old(ListenersOf(client))
                && r == old(CurrentOf(client))
      ensures status == old(status) && data == old(data) && dataSource == old(dataSource)
    {
      if status.Some? {
        r := status.value;
      } else {
        var o := ReadObserver(client, options);
        r := o.current;
      }
    }

    /** A read of the data cell. Since the stream holds only filtered results,
        for a coherent one it raises iff the status is 'error', never raises a
        cancelled error and never returns an undefined payload. */
    function ReadData(): (out: Read<D>)
      reads this
      ensures out.Suspended? <==> data.None?
      ensures out.Thrown? <==> data.Some? && data.value.error.Some?
      ensures DataSettled() && data.Some? && Coherent(data.value) ==>
                && (out.Thrown? <==> data.value.IsError())
                && (out.Thrown? ==> !out.error.cancelled)
                && (out.Returned? ==> out.value.Some?)
    {
      Project(data)
    }
  }

  /** Changing the options for one client keeps its observer: the second read
      returns the first read's observer, carrying the new options, and the
      factory is called at most once. */
  method OptionsChangeKeepsObserver<O(==), D>(b: Bridge<O, D>, client: ClientId, first: O, second: O)
    returns (o1: Observer<O, D>, o2: Observer<O, D>)
    requires b.Valid()
    modifies b, b.Slot(client)
    ensures b.Valid()
    ensures o1 == o2 && o2.options == second
    ensures client in old(b.cache) ==> b.factoryCalls == old(b.factoryCalls)
    ensures client !in old(b.cache) ==> b.factoryCalls == old(b.factoryCalls) + [(client, first)]
  {
    o1 := b.ReadObserver(client, first);
    o2 := b.ReadObserver(client, second);
  }

  /** A forced refetch discards the observer: the next read with the same
      client and options calls the factory again and gets a new observer. */
  method ForceRefetchRecreatesObserver<O(==), D>(b: Bridge<O, D>, client: ClientId, options: O)
    returns (before: Observer<O, D>, after: Observer<O, D>)
    requires b.Valid()
    modifies b, b.Slot(client)
    ensures b.Valid()
    ensures |before.calls| > 0 && before.calls[|before.calls| - 1] == Removed
    ensures fresh(after) && after != before && after.calls == []
    ensures b.cache == old(b.cache)[client := after]
    ensures b.factoryCalls ==
              old(b.factoryCalls) + (if client in old(b.cache) then [] else [(client, options)]) + [(client, options)]
    ensures b.refresh == old(b.refresh) + 1
  {
    before := b.ReadObserver(client, options);
    var ret;
    ghost var target;
    ret, target := b.Dispatch(client, options, Refetch(true, None));
    after := b.ReadObserver(client, options);
  }

  /** Mounting then unmounting the status cell leaves the observer's listeners
      as they were: no subscription outlives the unmount. */
  method MountThenUnmount<O(==), D>(b: Bridge<O, D>, client: ClientId, options: O) returns (o: Observer<O, D>)
    requires b.Valid()
    modifies b, b.Slot(client)
    ensures b.Valid()
    ensures client in b.cache && o == b.cache[client]
    ensures o.listeners == if client in old(b.cache) then old(b.cache[client].listeners) else {}
  {
    var unsub := b.OnMount(client, options);
    unsub.value.Unsubscribe();
    o := unsub.value.observer;
  }

  /** A mount survives a refetch without `force`: the subscription it made is
      still on the observer registered for the client, which received the
      refetch. */
  method MountSurvivesRefetch<O(==), D>(b: Bridge<O, D>, client: ClientId, options: O, refetchOptions: Option<RefetchOptions>)
    returns (s: Subscription<O, D>)
    requires b.Valid()
    modifies b, b.Slot(client)
    ensures b.Valid()
    ensures client in b.cache && s.observer == b.cache[client]
    ensures s in s.observer.listeners && s.listener == StatusListener
    ensures |s.observer.calls| > 0 && s.observer.calls[|s.observer.calls| - 1] == Refetched(refetchOptions)
  {
    var unsub := b.OnMount(client, options);
    s := unsub.value;
    var ret;
    ghost var target;
    ret, target := b.Dispatch(client, options, Refetch(false, refetchOptions));
  }

  /** Subscribing the data stream and then having the observer report `rs`
      one after the other leaves the stream holding exactly what the filter
      makes of the current result followed by `rs`. */
  method SubscribeThenEmit<O(==), D>(b: Bridge<O, D>, client: ClientId, options: O, rs: seq<QueryResult<D>>)
    returns (s: Subscription<O, D>)
    requires b.Valid()
    modifies b, b.Slot(client)
    ensures b.Valid()
    ensures client in b.cache && s.observer == b.cache[client] && b.dataSource == Some(s.observer)
    ensures s in s.observer.listeners && s.listener == DataListener
    ensures b.data == Settled(if old(b.dataSource) == Some(s.observer) then old(b.data) else None,
                              [old(b.CurrentOf(client))] + rs)
  {
    s := b.SubscribeData(client, options);
    var o := s.observer;
    ghost var held := if old(b.dataSource) == Some(o) then old(b.data) else None;
    ghost var current := old(b.CurrentOf(client));
    var i := 0;
    while i < |rs|
      invariant 0 <= i <= |rs|
      invariant b.Valid()
      invariant client in b.cache && o == b.cache[client] && b.dataSource == Some(o)
      invariant s in o.listeners && s.listener == DataListener
      invariant b.data == Settled(Step(held, current), rs[..i])
    {
      assert b.Listening(o, DataListener) by { assert s in o.listeners && s.listener == DataListener; }
      b.Publish(o, rs[i]);
      assert rs[..i + 1][..i] == rs[..i];
      i := i + 1;
    }
    assert rs[..|rs|] == rs;
    SnapshotThenEmissions(held, current, rs);
  }
}
