/**
 * The query engine's observer, seen only through the calls the bridge makes
 * to it: an identity (the object), the client it was created for, its current
 * options and result, its listeners, and a log of every call it received.
 * Fetching, retries, staleness and the query cache are not modelled.
 */
module QueryObserver {
  import opened QueryResults

  /** Identity of a query client; the bridge's registry is keyed by it. */
  type ClientId = nat

  /** Options passed to a refetch (the engine's reset options). */
  datatype RefetchOptions = RefetchOptions(throwOnError: bool, cancelRefetch: bool)

  /** Which callback a subscription runs: the status cell's setter or the
      data stream's filtering callback. */
  datatype Listener = StatusListener | DataListener

  /** A call the observer received, in the order received. */
  datatype Call<O, D> =
    | OptionsSet(options: O)
    | Refetched(refetchOptions: Option<RefetchOptions>)
    | Removed
    | Subscribed(subscription: Subscription<O, D>)
    | Unsubscribed(subscription: Subscription<O, D>)

  class Observer<O, D> {
    const client: ClientId
    var options: O
    var current: QueryResult<D>
    var listeners: set<Subscription<O, D>>
    var calls: seq<Call<O, D>>

    /** The default factory: a new observer for `client` with `options`. */
    constructor (client: ClientId, options: O)
      ensures this.client == client && this.options == options
      ensures current == InitialResult() && listeners == {} && calls == []
    {
      this.client := client;
      this.options := options;
      current := InitialResult();
      listeners := {};
      calls := [];
    }

    /** Applies new options in place, keeping everything else. */
    method SetOptions(options: O)
      modifies this
      ensures this.options == options && calls == old(calls) + [OptionsSet(options)]
      ensures current == old(current) && listeners == old(listeners)
    {
      this.options := options;
      calls := calls + [OptionsSet(options)];
    }

    /** Asks the engine to refetch; only the call is recorded. */
    method Refetch(refetchOptions: Option<RefetchOptions>)
      modifies this
      ensures calls == old(calls) + [Refetched(refetchOptions)]
      ensures options == old(options) && current == old(current) && listeners == old(listeners)
    {
      calls := calls + [Refetched(refetchOptions)];
    }

    /** Removes the observer's query from the client's cache; only the call is
        recorded. */
    method Remove()
      modifies this
      ensures calls == old(calls) + [Removed]
      ensures options == old(options) && current == old(current) && listeners == old(listeners)
    {
      calls := calls + [Removed];
    }

    /** Registers a listener and hands back a new unsubscribe handle. */
    method Subscribe(listener: Listener) returns (s: Subscription<O, D>)
      modifies this
      ensures fresh(s) && s.observer == this && s.listener == listener
      ensures listeners == old(listeners) + {s} && calls == old(calls) + [Subscribed(s)]
      ensures options == old(options) && current == old(current)
    {
      s := new Subscription(this, listener);
      listeners := listeners + {s};
      calls := calls + [Subscribed(s)];
    }
  }

  /** The unsubscribe function an observer returns from `subscribe`. */
  class Subscription<O, D> {
    const observer: Observer<O, D>
    const listener: Listener

    constructor (observer: Observer<O, D>, listener: Listener)
      ensures this.observer == observer && this.listener == listener
    {
      this.observer := observer;
      this.listener := listener;
    }

    /** Calling the unsubscribe function detaches exactly this listener. */
    method Unsubscribe()
      modifies observer
      ensures observer.listeners == old(observer.listeners) - {this}
      ensures observer.calls == old(observer.calls) + [Unsubscribed(this)]
      ensures observer.options == old(observer.options) && observer.current == old(observer.current)
    {
      observer.listeners := observer.listeners - {this};
      observer.calls := observer.calls + [Unsubscribed(this)];
    }
  }
}
