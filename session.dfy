/** The Session batch-and-transaction engine (Session.cs). */
module Sessions {
  import opened Wrappers
  import opened AccessModes
  import opened Trace
  import opened Transactions
  import opened Results

  /** A caller-supplied result handler. Its body is the caller's; the model
      knows how many times it calls FetchAsync and how it ends (`Fetches`),
      or it is the fetch-until-false loop that reads every record and ends
      normally (`Drain`). */
  datatype Handler<E> = Fetches(calls: nat, result: Outcome<E>) | Drain

  /** How a handler ends. */
  function HandlerOutcome<E>(h: Handler<E>): Outcome<E>
  {
    match h
    case Fetches(_, result) => result
    case Drain => Ok
  }

  /** Runs a handler on a cursor. */
  method InvokeHandler<E>(h: Handler<E>, cursor: ResultCursor) returns (outcome: Outcome<E>)
    modifies cursor
    ensures outcome == HandlerOutcome(h)
    ensures h.Fetches? ==> cursor.count == old(cursor.count) + h.calls
    ensures h.Drain? ==> cursor.count == old(cursor.count) + |RecordsFrom(old(cursor.count))| + 1
  {
    match h
    case Fetches(calls, result) =>
      var _ := FetchTimes(cursor, calls);
      outcome := result;
    case Drain =>
      var _ := DrainRecords(cursor);
      outcome := Ok;
  }

  /** One queued operation; `None` stands for a null parameters object or
      a null handler. */
  datatype Operation<P, E> = Operation(query: string, parameters: Option<P>, handler: Option<Handler<E>>)

  /** The state the builder calls change: the access mode and the cache. */
  datatype Batch<P, E> = Batch(mode: AccessMode, cache: seq<Operation<P, E>>)

  /** One builder call: a Run overload with its mode, or a Then overload. */
  datatype BuilderCall<P, E> = RunCall(op: Operation<P, E>, mode: AccessMode) | ThenCall(op: Operation<P, E>)

  /** The batch after one builder call. */
  function Apply<P, E>(b: Batch<P, E>, call: BuilderCall<P, E>): Batch<P, E>
  {
    match call
    case RunCall(op, mode) => Batch(mode, b.cache + [op])
    case ThenCall(op) => Batch(b.mode, b.cache + [op])
  }

  /** The batch after a chain of builder calls, first call first. */
  function Build<P, E>(b: Batch<P, E>, calls: seq<BuilderCall<P, E>>): Batch<P, E>
    decreases |calls|
  {
    if calls == [] then b else Build(Apply(b, calls[0]), calls[1..])
  }

  /** What one ExecuteAsync call does: the events in order and how it ends. */
  datatype Step<P, E> = Step(trace: seq<Event<P>>, outcome: Outcome<E>)

  /** ProcessCachedOperations from operation i on: run the operation, call
      its handler if it has one, consume the cursor, go on; the first call
      that throws ends the loop with its exception. */
  function ProcessFrom<P, E>(ops: seq<Operation<P, E>>, i: nat, tx: TxBehaviour<P, E>): Step<P, E>
    requires i <= |ops|
    decreases |ops| - i
  {
    if i == |ops| then Step([], Ok)
    else
      var op := ops[i];
      var run := tx.run(i, op.query, op.parameters);
      var started := [Run(i, op.query, op.parameters)];
      if run.Err? then Step(started, run)
      else if op.handler.Some? && HandlerOutcome(op.handler.value).Err? then
        Step(started + [Handle(i)], HandlerOutcome(op.handler.value))
      else
        var handled := if op.handler.Some? then [Handle(i)] else [];
        var rest := ProcessFrom(ops, i + 1, tx);
        Step(started + handled + [Consume(i)] + rest.trace, rest.outcome)
  }

  /** The catch block: roll back if the transaction says it is open, then
      rethrow `e`; an exception thrown by RollBack itself replaces `e`. */
  function Catch<P, E>(t: seq<Event<P>>, e: E, tx: TxBehaviour<P, E>): Step<P, E>
  {
    if !tx.isOpen(t) then Step(t, Err(e))
    else if tx.rollBack.Err? then Step(t + [RollBack], tx.rollBack)
    else Step(t + [RollBack], Err(e))
  }

  /** ExecuteAsync on a batch with the given mode and cache: begin (outside
      the try), process the operations, commit if open; any exception from
      processing or from Commit goes to the catch block. */
  function Execution<P, E>(mode: AccessMode, ops: seq<Operation<P, E>>, tx: TxBehaviour<P, E>): Step<P, E>
  {
    var begun := [Begin(mode)];
    if tx.begin.Err? then Step(begun, tx.begin)
    else
      var processed := ProcessFrom(ops, 0, tx);
      var t := begun + processed.trace;
      if processed.outcome.Err? then Catch(t, processed.outcome.error, tx)
      else if !tx.isOpen(t) then Step(t, Ok)
      else if tx.commit.Err? then Catch(t + [Commit], tx.commit.error, tx)
      else Step(t + [Commit], Ok)
  }

  /** A session: the current transaction, the operations cache and the
      access mode. `tx` is `None` until a transaction has been begun. */
  class Session<P, E> {
    var tx: Option<TxBehaviour<P, E>>
    var operationsCache: seq<Operation<P, E>>
    var mode: AccessMode

    /** The builder state of this session. */
    function Snapshot(): Batch<P, E>
      reads this
    {
      Batch(mode, operationsCache)
    }

    constructor ()
      ensures operationsCache == [] && mode == Simple && tx == None
    {
      tx := None;
      operationsCache := [];
      mode := Simple;
    }

    /** All three Run overloads: an omitted parameters object or handler is
        null and an omitted mode is Simple. Sets the mode, appends one
        operation and returns this same session. */
    method Run(query: string, parameters: Option<P> := None, handler: Option<Handler<E>> := None,
               mode: AccessMode := Simple)
      returns (chain: Session<P, E>)
      modifies this
      ensures chain == this
      ensures this.mode == mode
      ensures operationsCache == old(operationsCache) + [Operation(query, parameters, handler)]
      ensures tx == old(tx)
      // The same new state as a builder step, for BuildQueuesInOrder.
      ensures Snapshot() == Apply(old(Snapshot()), RunCall(Operation(query, parameters, handler), mode))
    {
      this.mode := mode;
      operationsCache := operationsCache + [Operation(query, parameters, handler)];
      chain := this;
    }

    /** All three Then overloads: appends one operation and leaves the mode
        as it is. */
    method Then(query: string, parameters: Option<P> := None, handler: Option<Handler<E>> := None)
      returns (chain: Session<P, E>)
      modifies this
      ensures chain == this
      ensures mode == old(mode)
      ensures operationsCache == old(operationsCache) + [Operation(query, parameters, handler)]
      ensures tx == old(tx)
      // The same new state as a builder step, for BuildQueuesInOrder.
      ensures Snapshot() == Apply(old(Snapshot()), ThenCall(Operation(query, parameters, handler)))
    {
      operationsCache := operationsCache + [Operation(query, parameters, handler)];
      chain := this;
    }

    /** Begins one transaction with the current mode, processes the cache
        and commits; on an exception rolls back and rethrows. The cache is
        cleared only when the call ends normally, and the mode is kept.
        `newTransaction` stands for the transaction constructor, which
        receives the mode. */
    method ExecuteAsync(newTransaction: AccessMode -> TxBehaviour<P, E>) returns (outcome: Outcome<E>, trace: seq<Event<P>>)
      modifies this
      ensures Execution(old(mode), old(operationsCache), newTransaction(old(mode))) == Step(trace, outcome)
      ensures mode == old(mode)
      ensures tx == if newTransaction(old(mode)).begin.Ok? then Some(newTransaction(old(mode))) else old(tx)
      ensures operationsCache == if outcome.Ok? then [] else old(operationsCache)
    {
      var begun;
      begun, trace := BeginTransaction(newTransaction, mode);
      if begun.Err? {
        // Begin threw before the try: Tx is not assigned, nothing else runs.
        return begun, trace;
      }
      tx := Some(newTransaction(mode));
      var processed, events := ProcessCachedOperations();
      trace := trace + events;
      var failure := processed;
      if processed.Ok? && tx.value.isOpen(trace) {
        trace := trace + [Commit];
        failure := tx.value.commit;
      }
      if failure.Err? {
        if tx.value.isOpen(trace) {
          trace := trace + [RollBack];
          if tx.value.rollBack.Err? {
            return tx.value.rollBack, trace;
          }
        }
        return failure, trace;
      }
      operationsCache := [];
      outcome := Ok;
    }

    /** Constructs the transaction with `mode` and calls Begin on it. */
    method BeginTransaction(newTransaction: AccessMode -> TxBehaviour<P, E>, mode: AccessMode)
      returns (begun: Outcome<E>, trace: seq<Event<P>>)
      ensures begun == newTransaction(mode).begin && trace == [Begin(mode)]
    {
      begun := newTransaction(mode).begin;
      trace := [Begin(mode)];
    }

    /** The foreach over the cache: for each operation in order, RunAsync,
        then its handler on the new cursor if it has one, then Consume on
        that cursor; an exception ends the loop and is passed on. */
    method ProcessCachedOperations() returns (outcome: Outcome<E>, trace: seq<Event<P>>)
      requires tx.Some?
      ensures ProcessFrom(operationsCache, 0, tx.value) == Step(trace, outcome)
    {
      var ops, t := operationsCache, tx.value;
      var i := 0;
      trace := [];
      while i < |ops|
        invariant 0 <= i <= |ops|
        invariant ProcessFrom(ops, 0, t) ==
          Step(trace + ProcessFrom(ops, i, t).trace, ProcessFrom(ops, i, t).outcome)
      {
        var result, events := ProcessOperation(ops, i, t);
        trace := trace + events;
        if result.Err? {
          return result, trace;
        }
        i := i + 1;
      }
      outcome := Ok;
    }

    /** One pass of the foreach body for operation i. When it ends normally
        the events are followed by those of the later operations; when it
        throws they are the last of the loop. */
    static method ProcessOperation(ops: seq<Operation<P, E>>, i: nat, t: TxBehaviour<P, E>)
      returns (outcome: Outcome<E>, events: seq<Event<P>>)
      requires i < |ops|
      ensures outcome.Err? ==> ProcessFrom(ops, i, t) == Step(events, outcome)
      ensures outcome.Ok? ==>
        ProcessFrom(ops, i, t) == Step(events + ProcessFrom(ops, i + 1, t).trace, ProcessFrom(ops, i + 1, t).outcome)
    {
      var op := ops[i];
      events := [Event.Run(i, op.query, op.parameters)];
      outcome := t.run(i, op.query, op.parameters);
      if outcome.Err? {
        return;
      }
      var cursor := new ResultCursor();
      if op.handler.Some? {
        events := events + [Handle(i)];
        outcome := InvokeHandler(op.handler.value, cursor);
        if outcome.Err? {
          return;
        }
      }
      cursor.Consume();
      events := events + [Consume(i)];
    }
  }
}
