/**
 * Results produced by a query observer, the filter that decides which of them
 * reach the data stream, and the projection that turns the last delivered
 * result into what a read of the data cell yields.
 */
module QueryResults {

  datatype Option<T> = None | Some(value: T)

  /** Status of an observer result: 'loading', 'error' or 'success'. */
  datatype Status = Loading | Error | Success

  /** An error value held by a result; `cancelled` is what the engine's
      cancelled-error classifier answers for it. */
  datatype QueryError = QueryError(message: string, cancelled: bool)

  /** A snapshot produced by the observer. `data == None` stands for an
      undefined payload, `error == None` for a null error. */
  datatype QueryResult<D> = QueryResult(
    status: Status,
    isFetching: bool,
    data: Option<D>,
    error: Option<QueryError>)
  {
    predicate IsError() {
      status == Error
    }
  }

  predicate IsCancelled(error: Option<QueryError>) {
    error.Some? && error.value.cancelled
  }

  /** The result a freshly created observer reports before any fetch. */
  function InitialResult<D>(): QueryResult<D> {
    QueryResult(Loading, false, None, None)
  }

  /** The engine keeps `error` set exactly when the status is 'error'. */
  predicate Coherent<D>(r: QueryResult<D>) {
    r.IsError() <==> r.error.Some?
  }

  /** The emission guard of the data stream: a result passes unless it is
      fetching, or a non-error without data, or a cancelled error. */
  function Forwards<D>(r: QueryResult<D>): (pass: bool)
    ensures pass <==>
      && !r.isFetching
      && ((r.IsError() && !IsCancelled(r.error)) || (!r.IsError() && r.data.Some?))
  {
    !(r.isFetching || (!r.IsError() && r.data.None?) || (r.IsError() && IsCancelled(r.error)))
  }

  /** The stream callback: the data stream's latest value after the observer
      reports `r`, given that it held `held` before. */
  function Step<D>(held: Option<QueryResult<D>>, r: QueryResult<D>): (next: Option<QueryResult<D>>)
    ensures next == held || (next == Some(r) && Forwards(r))
    ensures Forwards(r) ==> next == Some(r)
  {
    if Forwards(r) then Some(r) else held
  }

  /** The results that reach the data stream, in order, out of the results
      `rs` the observer reports one after the other. */
  function Delivered<D>(rs: seq<QueryResult<D>>): (out: seq<QueryResult<D>>)
    ensures |out| <= |rs|
    ensures forall i :: 0 <= i < |out| ==> Forwards(out[i]) && out[i] in rs
    ensures forall i :: 0 <= i < |rs| && Forwards(rs[i]) ==> rs[i] in out
  {
    if rs == [] then []
    else
      var last := rs[|rs| - 1];
      Delivered(rs[..|rs| - 1]) + (if Forwards(last) then [last] else [])
  }

  /** The data stream's latest value after the observer has reported `rs`,
      starting from `held` (None: nothing delivered yet). */
  function Settled<D>(held: Option<QueryResult<D>>, rs: seq<QueryResult<D>>): Option<QueryResult<D>>
  {
    if rs == [] then held else Step(Settled(held, rs[..|rs| - 1]), rs[|rs| - 1])
  }

  /** The data stream holds the last result that passed the filter, or what it
      held before when none did. */
  lemma {:induction false} SettledIsLastDelivered<D>(held: Option<QueryResult<D>>, rs: seq<QueryResult<D>>)
    ensures var out := Delivered(rs);
            Settled(held, rs) == if out == [] then held else Some(out[|out| - 1])
  {
    if rs != [] {
      SettledIsLastDelivered(held, rs[..|rs| - 1]);
    }
  }

  /** Subscribing pushes the observer's current result through the callback
      before any later emission: the stream seen is `[current] + rs`. */
  lemma {:induction false} SnapshotThenEmissions<D>(held: Option<QueryResult<D>>, current: QueryResult<D>, rs: seq<QueryResult<D>>)
    ensures Settled(held, [current] + rs) == Settled(Step(held, current), rs)
  {
    if rs == [] {
      assert [current] + rs == [current];
      assert ([current] + rs)[..0] == [];
    } else {
      var init := rs[..|rs| - 1];
      assert ([current] + rs)[..|rs|] == [current] + init;
      SnapshotThenEmissions(held, current, init);
    }
  }

  /** What a read of the data cell yields: suspension while nothing has been
      delivered, the stored error raised, or the payload. */
  datatype Read<D> = Suspended | Thrown(error: QueryError) | Returned(value: Option<D>)

  /** The data cell's read over the delivered result. The test is on the
      `error` field, not on the status. */
  function Project<D>(delivered: Option<QueryResult<D>>): (out: Read<D>)
    ensures out.Suspended? <==> delivered.None?
    ensures out.Thrown? <==> delivered.Some? && delivered.value.error.Some?
    ensures out.Thrown? ==> out.error == delivered.value.error.value
    ensures out.Returned? ==> out.value == delivered.value.data
  {
    match delivered
    case None => Suspended
    case Some(r) => if r.error.Some? then Thrown(r.error.value) else Returned(r.data)
  }

  /** For a coherent result that passed the filter, the projection raises iff
      the status is 'error', and otherwise returns a defined payload. */
  lemma ProjectionOfDelivered<D>(r: QueryResult<D>)
    requires Forwards(r) && Coherent(r)
    ensures Project(Some(r)).Thrown? <==> r.IsError()
    ensures Project(Some(r)).Thrown? ==> !Project(Some(r)).error.cancelled
    ensures !r.IsError() ==> Project(Some(r)) == Returned(r.data) && r.data.Some?
  {
  }

  /** Over any run of coherent results, the data cell never holds a fetching
      result, never raises a cancelled error and never returns an undefined
      payload; what it holds is one of the reported results. */
  lemma {:induction false} DataCellOnlySettles<D>(rs: seq<QueryResult<D>>)
    requires forall i :: 0 <= i < |rs| ==> Coherent(rs[i])
    ensures Settled(None, rs).Some? ==>
              && Settled(None, rs).value in rs
              && !Settled(None, rs).value.isFetching
    ensures Project(Settled(None, rs)).Thrown? ==> !Project(Settled(None, rs)).error.cancelled
    ensures Project(Settled(None, rs)).Returned? ==> Project(Settled(None, rs)).value.Some?
  {
    SettledIsLastDelivered(None, rs);
    var out := Delivered(rs);
    if out != [] {
      var r := out[|out| - 1];
      assert r in rs;
      ProjectionOfDelivered(r);
    }
  }

  /** A fetching result followed by a settled one: the data cell settles only
      on the payload of the second. */
  lemma FetchingThenData<D>(x: D)
    ensures var rs := [QueryResult(Loading, true, None, None), QueryResult(Success, false, Some(x), None)];
            && Settled(None, rs[..1]) == None
            && Project(Settled(None, rs)) == Returned(Some(x))
  {
  }
}
