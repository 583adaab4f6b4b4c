/** What the Session engine promises, stated over the builder and over the
    events of one ExecuteAsync call. */
module SessionProperties {
  import opened Wrappers
  import opened AccessModes
  import opened Trace
  import opened Transactions
  import opened Sessions

  // ---------------------------------------------------------------------
  // Builder
  // ---------------------------------------------------------------------

  /** The operations a chain of builder calls queues, in call order. */
  function Queued<P, E>(calls: seq<BuilderCall<P, E>>): seq<Operation<P, E>>
    decreases |calls|
  {
    if calls == [] then [] else [calls[0].op] + Queued(calls[1..])
  }

  /** The mode of the last Run in a chain, or `m` if the chain has none. */
  function LastRunMode<P, E>(calls: seq<BuilderCall<P, E>>, m: AccessMode): AccessMode
    decreases |calls|
  {
    if calls == [] then m
    else match calls[|calls| - 1]
      case RunCall(_, mode) => mode
      case ThenCall(_) => LastRunMode(calls[..|calls| - 1], m)
  }

  lemma {:induction false} LastRunModeCons<P, E>(c: BuilderCall<P, E>, calls: seq<BuilderCall<P, E>>, m: AccessMode)
    ensures LastRunMode([c] + calls, m) == LastRunMode(calls, if c.RunCall? then c.mode else m)
    decreases |calls|
  {
    if calls != [] {
      assert ([c] + calls)[..|calls|] == [c] + calls[..|calls| - 1];
      LastRunModeCons(c, calls[..|calls| - 1], m);
    }
  }

  /** A chain of Run and Then calls keeps every operation queued before it
      and appends its own operations in call order; the mode is that of the
      last Run in the chain, so a second Run before executing re-sets the
      mode of the whole batch without dropping what was queued. */
  lemma {:induction false} BuildQueuesInOrder<P, E>(b: Batch<P, E>, calls: seq<BuilderCall<P, E>>)
    ensures Build(b, calls) == Batch(LastRunMode(calls, b.mode), b.cache + Queued(calls))
    decreases |calls|
  {
    if calls != [] {
      var c, rest := calls[0], calls[1..];
      var b1 := Apply(b, c);
      assert Build(b, calls) == Build(b1, rest);
      BuildQueuesInOrder(b1, rest);
      assert [c] + rest == calls;
      LastRunModeCons(c, rest, b.mode);
      assert b1.mode == if c.RunCall? then c.mode else b.mode;
      assert Queued(calls) == [c.op] + Queued(rest);
      assert b.cache + Queued(calls) == b1.cache + Queued(rest);
    }
  }

  // ---------------------------------------------------------------------
  // Reference description of one ExecuteAsync call
  // ---------------------------------------------------------------------

  /** Operation j runs without an exception from RunAsync or its handler. */
  predicate Succeeds<P, E>(ops: seq<Operation<P, E>>, j: nat, tx: TxBehaviour<P, E>)
    requires j < |ops|
  {
    tx.run(j, ops[j].query, ops[j].parameters).Ok? &&
    (ops[j].handler.None? || HandlerOutcome(ops[j].handler.value).Ok?)
  }

  /** The exception with which operation j fails. */
  function Failure<P, E>(ops: seq<Operation<P, E>>, j: nat, tx: TxBehaviour<P, E>): E
    requires j < |ops| && !Succeeds(ops, j, tx)
  {
    var run := tx.run(j, ops[j].query, ops[j].parameters);
    if run.Err? then run.error else HandlerOutcome(ops[j].handler.value).error
  }

  /** The events of an operation that succeeds: run, handler if any, consume. */
  function Completed<P, E>(ops: seq<Operation<P, E>>, j: nat): seq<Event<P>>
    requires j < |ops|
  {
    [Run(j, ops[j].query, ops[j].parameters)]
      + (if ops[j].handler.Some? then [Handle(j)] else [])
      + [Consume(j)]
  }

  /** The events of an operation that fails: its run, and its handler if the
      run succeeded; its cursor is never consumed. */
  function Aborted<P, E>(ops: seq<Operation<P, E>>, j: nat, tx: TxBehaviour<P, E>): seq<Event<P>>
    requires j < |ops| && !Succeeds(ops, j, tx)
  {
    if tx.run(j, ops[j].query, ops[j].parameters).Err? then [Run(j, ops[j].query, ops[j].parameters)]
    else [Run(j, ops[j].query, ops[j].parameters), Handle(j)]
  }

  /** The events of operations i to k - 1, all succeeding, one after another. */
  function CompletedRange<P, E>(ops: seq<Operation<P, E>>, i: nat, k: nat): seq<Event<P>>
    requires i <= k <= |ops|
    decreases k - i
  {
    if i == k then [] else Completed(ops, i) + CompletedRange(ops, i + 1, k)
  }

  /** The first operation from i on that fails, or |ops| if none does. */
  function FirstFailure<P, E>(ops: seq<Operation<P, E>>, i: nat, tx: TxBehaviour<P, E>): (k: nat)
    requires i <= |ops|
    ensures i <= k <= |ops|
    ensures forall j :: i <= j < k ==> Succeeds(ops, j, tx)
    ensures k < |ops| ==> !Succeeds(ops, k, tx)
    decreases |ops| - i
  {
    if i == |ops| || !Succeeds(ops, i, tx) then i else FirstFailure(ops, i + 1, tx)
  }

  /** The Run events of a trace, in order. */
  function RunEvents<P>(t: seq<Event<P>>): seq<Event<P>>
    decreases |t|
  {
    if t == [] then [] else (if t[0].Run? then [t[0]] else []) + RunEvents(t[1..])
  }

  /** The run calls for operations i to k - 1, in cache order. */
  function Dispatched<P, E>(ops: seq<Operation<P, E>>, i: nat, k: nat): (r: seq<Event<P>>)
    requires i <= k <= |ops|
    ensures |r| == k - i
    ensures forall j :: 0 <= j < |r| ==> r[j] == Run(i + j, ops[i + j].query, ops[i + j].parameters)
    decreases k - i
  {
    if i == k then [] else [Run(i, ops[i].query, ops[i].parameters)] + Dispatched(ops, i + 1, k)
  }

  // ---------------------------------------------------------------------
  // Helper facts
  // ---------------------------------------------------------------------

  lemma {:induction false} RunEventsAppend<P>(a: seq<Event<P>>, b: seq<Event<P>>)
    ensures RunEvents(a + b) == RunEvents(a) + RunEvents(b)
    decreases |a|
  {
    if a != [] {
      assert (a + b)[0] == a[0] && (a + b)[1..] == a[1..] + b;
      RunEventsAppend(a[1..], b);
      assert RunEvents(a + b) == (if a[0].Run? then [a[0]] else []) + RunEvents(a[1..] + b);
    } else {
      assert a + b == b;
    }
  }

  lemma {:induction false} CompletedRangeFacts<P, E>(ops: seq<Operation<P, E>>, i: nat, k: nat)
    requires i <= k <= |ops|
    ensures forall e :: e in CompletedRange(ops, i, k) ==> e.Run? || e.Handle? || e.Consume?
    ensures forall j: nat :: Consume(j) in CompletedRange(ops, i, k) <==> i <= j < k
    ensures forall j: nat :: Handle(j) in CompletedRange(ops, i, k) <==> i <= j < k && ops[j].handler.Some?
    decreases k - i
  {
    if i < k {
      CompletedRangeFacts(ops, i + 1, k);
      var c, rest := Completed(ops, i), CompletedRange(ops, i + 1, k);
      assert CompletedRange(ops, i, k) == c + rest;
      assert forall e :: e in c ==> e == Run(i, ops[i].query, ops[i].parameters) || e == Handle(i) || e == Consume(i);
      assert Consume(i) in c;
      assert ops[i].handler.Some? ==> Handle(i) in c;
    }
  }

  lemma {:induction false} CompletedRangeRuns<P, E>(ops: seq<Operation<P, E>>, i: nat, k: nat)
    requires i <= k <= |ops|
    ensures RunEvents(CompletedRange(ops, i, k)) == Dispatched(ops, i, k)
    decreases k - i
  {
    if i < k {
      CompletedRangeRuns(ops, i + 1, k);
      var c := Completed(ops, i);
      RunEventsAppend(c, CompletedRange(ops, i + 1, k));
      var tail := if ops[i].handler.Some? then [Handle(i), Consume(i)] else [Consume(i)];
      assert c == [Run(i, ops[i].query, ops[i].parameters)] + tail;
      assert RunEvents(tail) == [] by {
        assert tail[1..] == [] || tail[1..] == [Consume(i)];
        assert RunEvents<P>([Consume(i)]) == [];
      }
      RunEventsAppend([Run(i, ops[i].query, ops[i].parameters)], tail);
    }
  }

  /** ProcessCachedOperations performs the operations before the first
      failing one completely and in order, then the failing one up to its
      exception, and nothing after it. */
  lemma {:induction false} ProcessFromBlocks<P, E>(ops: seq<Operation<P, E>>, i: nat, tx: TxBehaviour<P, E>)
    requires i <= |ops|
    ensures var p, k := ProcessFrom(ops, i, tx), FirstFailure(ops, i, tx);
      p.trace == CompletedRange(ops, i, k) + (if k < |ops| then Aborted(ops, k, tx) else []) &&
      p.outcome == (if k < |ops| then Err(Failure(ops, k, tx)) else Ok)
    decreases |ops| - i
  {
    if i < |ops| && Succeeds(ops, i, tx) {
      ProcessFromBlocks(ops, i + 1, tx);
    }
  }

  /** The events of an ExecuteAsync call whose Begin succeeded, up to the
      point where the try block ends or throws. */
  function Attempt<P, E>(mode: AccessMode, ops: seq<Operation<P, E>>, tx: TxBehaviour<P, E>): seq<Event<P>>
  {
    var k := FirstFailure(ops, 0, tx);
    [Begin(mode)] + CompletedRange(ops, 0, k) + (if k < |ops| then Aborted(ops, k, tx) else [])
  }

  /** Execution once Begin succeeded, in terms of the reference description. */
  lemma ExecutionAfterBegin<P, E>(mode: AccessMode, ops: seq<Operation<P, E>>, tx: TxBehaviour<P, E>)
    requires tx.begin.Ok?
    ensures var a, k := Attempt(mode, ops, tx), FirstFailure(ops, 0, tx);
      Execution(mode, ops, tx) ==
        if k < |ops| then Catch(a, Failure(ops, k, tx), tx)
        else if !tx.isOpen(a) then Step(a, Ok)
        else if tx.commit.Err? then Catch(a + [Commit], tx.commit.error, tx)
        else Step(a + [Commit], Ok)
  {
    ProcessFromBlocks(ops, 0, tx);
    var p, k := ProcessFrom(ops, 0, tx), FirstFailure(ops, 0, tx);
    var failed := if k < |ops| then Aborted(ops, k, tx) else [];
    assert [Begin(mode)] + p.trace == [Begin(mode)] + CompletedRange(ops, 0, k) + failed;
    assert p.outcome.Err? <==> k < |ops|;
    assert k < |ops| ==> p.outcome.error == Failure(ops, k, tx);
  }

  // ---------------------------------------------------------------------
  // Properties of ExecuteAsync
  // ---------------------------------------------------------------------

  /** Every ExecuteAsync call begins exactly one transaction, with the
      session's mode, before anything else; if Begin throws, nothing else
      happens (no run, no rollback) and its exception is passed on. */
  lemma BeginsExactlyOnce<P, E>(mode: AccessMode, ops: seq<Operation<P, E>>, tx: TxBehaviour<P, E>)
    ensures var x := Execution(mode, ops, tx);
      |x.trace| > 0 && x.trace[0] == Begin(mode) &&
      (forall j :: 0 < j < |x.trace| ==> !x.trace[j].Begin?) &&
      (tx.begin.Err? ==> x == Step([Begin(mode)], tx.begin))
  {
    if tx.begin.Ok? {
      var x, k := Execution(mode, ops, tx), FirstFailure(ops, 0, tx);
      var a := Attempt(mode, ops, tx);
      ExecutionOrder(mode, ops, tx);
      CompletedRangeFacts(ops, 0, k);
      var ops' := CompletedRange(ops, 0, k) + (if k < |ops| then Aborted(ops, k, tx) else []);
      assert a == [Begin(mode)] + ops';
      assert forall e :: e in ops' ==> !e.Begin?;
      forall j | 0 < j < |x.trace| ensures !x.trace[j].Begin? {
        if j < |a| {
          assert x.trace[j] == a[j] == ops'[j - 1];
        }
      }
    }
  }

  /** Once Begin succeeded, the trace is: Begin, then for each operation in
      cache order its run, its handler (if any) and the consume of its
      cursor, so a handler finishes before the next operation runs; the
      failing operation (if any) stops after its run or its handler; after
      that come only Commit and RollBack. */
  lemma ExecutionOrder<P, E>(mode: AccessMode, ops: seq<Operation<P, E>>, tx: TxBehaviour<P, E>)
    requires tx.begin.Ok?
    ensures var x, a := Execution(mode, ops, tx), Attempt(mode, ops, tx);
      |a| <= |x.trace| && x.trace[..|a|] == a &&
      forall j :: |a| <= j < |x.trace| ==> x.trace[j] == Commit || x.trace[j] == RollBack
  {
    ExecutionAfterBegin(mode, ops, tx);
    var x, a, k := Execution(mode, ops, tx), Attempt(mode, ops, tx), FirstFailure(ops, 0, tx);
    var tail: seq<Event<P>>;
    if k < |ops| {
      tail := if tx.isOpen(a) then [RollBack] else [];
    } else if !tx.isOpen(a) {
      tail := [];
    } else if tx.commit.Err? {
      tail := [Commit] + if tx.isOpen(a + [Commit]) then [RollBack] else [];
      assert a + [Commit] + (if tx.isOpen(a + [Commit]) then [RollBack] else []) == a + tail;
    } else {
      tail := [Commit];
    }
    assert x.trace == a + tail;
    assert forall e :: e in tail ==> e == Commit || e == RollBack;
  }

  /** Each queued operation up to the first failing one is run exactly
      once, in cache order, with its own query and parameters; no later
      operation is run. */
  lemma RunsFollowCacheOrder<P, E>(mode: AccessMode, ops: seq<Operation<P, E>>, tx: TxBehaviour<P, E>)
    requires tx.begin.Ok?
    ensures var x, k := Execution(mode, ops, tx), FirstFailure(ops, 0, tx);
      RunEvents(x.trace) == Dispatched(ops, 0, if k < |ops| then k + 1 else |ops|)
  {
    var x, a := Execution(mode, ops, tx), Attempt(mode, ops, tx);
    ExecutionOrder(mode, ops, tx);
    var rest := x.trace[|a|..];
    assert x.trace == a + rest;
    NoRunEvents(rest);
    RunEventsAppend(a, rest);
    AttemptRuns(mode, ops, tx);
  }

  lemma AttemptRuns<P, E>(mode: AccessMode, ops: seq<Operation<P, E>>, tx: TxBehaviour<P, E>)
    ensures var k := FirstFailure(ops, 0, tx);
      RunEvents(Attempt(mode, ops, tx)) == Dispatched(ops, 0, if k < |ops| then k + 1 else |ops|)
  {
    var k := FirstFailure(ops, 0, tx);
    var done := CompletedRange(ops, 0, k);
    var failed := if k < |ops| then Aborted(ops, k, tx) else [];
    var begun: seq<Event<P>> := [Begin(mode)];
    assert Attempt(mode, ops, tx) == begun + done + failed;
    CompletedRangeRuns(ops, 0, k);
    RunEventsAppend(begun + done, failed);
    RunEventsAppend(begun, done);
    assert RunEvents(begun) == [];
    if k < |ops| {
      AbortedRuns(ops, k, tx);
      DispatchedSnoc(ops, 0, k);
    } else {
      assert RunEvents(failed) == [];
    }
  }

  lemma AbortedRuns<P, E>(ops: seq<Operation<P, E>>, k: nat, tx: TxBehaviour<P, E>)
    requires k < |ops| && !Succeeds(ops, k, tx)
    ensures RunEvents(Aborted(ops, k, tx)) == [Run(k, ops[k].query, ops[k].parameters)]
  {
    var run := Run(k, ops[k].query, ops[k].parameters);
    var failed := Aborted(ops, k, tx);
    assert failed == [run] + failed[1..];
    RunEventsAppend([run], failed[1..]);
    assert RunEvents<P>([Handle(k)]) == [];
    assert failed[1..] == [] || failed[1..] == [Handle(k)];
  }

  lemma DispatchedSnoc<P, E>(ops: seq<Operation<P, E>>, i: nat, k: nat)
    requires i <= k < |ops|
    ensures Dispatched(ops, i, k + 1) == Dispatched(ops, i, k) + [Run(k, ops[k].query, ops[k].parameters)]
  {
  }

  lemma {:induction false} NoRunEvents<P>(t: seq<Event<P>>)
    requires forall j :: 0 <= j < |t| ==> t[j] == Commit || t[j] == RollBack
    ensures RunEvents(t) == []
    decreases |t|
  {
    if t != [] {
      NoRunEvents(t[1..]);
    }
  }

  /** A handler is invoked exactly for the operations that have one and
      whose run succeeded, up to the first failing operation; a cursor is
      consumed exactly for the operations that completed, so the cursor of
      a handler that throws is not consumed. */
  lemma HandlersAndConsumes<P, E>(mode: AccessMode, ops: seq<Operation<P, E>>, tx: TxBehaviour<P, E>)
    requires tx.begin.Ok?
    ensures var x, k := Execution(mode, ops, tx), FirstFailure(ops, 0, tx);
      (forall j: nat :: Consume(j) in x.trace <==> j < k) &&
      (forall j: nat :: Handle(j) in x.trace <==>
        j <= k && j < |ops| && ops[j].handler.Some? && tx.run(j, ops[j].query, ops[j].parameters).Ok?)
  {
    var x, a := Execution(mode, ops, tx), Attempt(mode, ops, tx);
    ExecutionOrder(mode, ops, tx);
    var rest := x.trace[|a|..];
    assert x.trace == a + rest;
    forall j: nat ensures Consume(j) !in rest && Handle(j) !in rest {
    }
    AttemptMembers(mode, ops, tx);
  }

  lemma AttemptMembers<P, E>(mode: AccessMode, ops: seq<Operation<P, E>>, tx: TxBehaviour<P, E>)
    ensures var a, k := Attempt(mode, ops, tx), FirstFailure(ops, 0, tx);
      (forall j: nat :: Consume(j) in a <==> j < k) &&
      (forall j: nat :: Handle(j) in a <==>
        j <= k && j < |ops| && ops[j].handler.Some? && tx.run(j, ops[j].query, ops[j].parameters).Ok?)
  {
    var k := FirstFailure(ops, 0, tx);
    var done := CompletedRange(ops, 0, k);
    var failed := if k < |ops| then Aborted(ops, k, tx) else [];
    var begun: seq<Event<P>> := [Begin(mode)];
    assert Attempt(mode, ops, tx) == begun + done + failed;
    CompletedRangeFacts(ops, 0, k);
    assert forall j: nat :: Consume(j) !in failed;
    assert forall j: nat :: Handle(j) in failed <==>
      k < |ops| && j == k && tx.run(k, ops[k].query, ops[k].parameters).Ok?;
    forall j: nat | j < k
      ensures ops[j].handler.Some? ==> tx.run(j, ops[j].query, ops[j].parameters).Ok?
    {
      assert Succeeds(ops, j, tx);
    }
  }

  /** ExecuteAsync ends normally exactly when Begin and every operation
      succeed and, if the transaction is then open, Commit succeeds. Then
      Commit was called iff the transaction was open after the operations,
      and RollBack was never called. */
  lemma SuccessCommitsIffOpen<P, E>(mode: AccessMode, ops: seq<Operation<P, E>>, tx: TxBehaviour<P, E>)
    ensures var x, done := Execution(mode, ops, tx), [Begin(mode)] + CompletedRange(ops, 0, |ops|);
      (x.outcome.Ok? <==>
        tx.begin.Ok? && FirstFailure(ops, 0, tx) == |ops| && (tx.isOpen(done) ==> tx.commit.Ok?)) &&
      (x.outcome.Ok? ==>
        x.trace == done + (if tx.isOpen(done) then [Commit] else []) && RollBack !in x.trace)
  {
    if tx.begin.Ok? {
      ExecutionAfterBegin(mode, ops, tx);
      var k := FirstFailure(ops, 0, tx);
      if k == |ops| {
        var done := [Begin(mode)] + CompletedRange(ops, 0, |ops|);
        assert Attempt(mode, ops, tx) == done;
        CompletedRangeFacts(ops, 0, |ops|);
        assert RollBack !in done;
      }
    }
  }

  /** When an operation or Commit throws after a successful Begin: RollBack
      is called iff the transaction is open at the catch, and the exception
      passed on is the original one, unless RollBack itself threw. Commit
      appears only when it was the call that threw. */
  lemma FailureRollsBackIffOpen<P, E>(mode: AccessMode, ops: seq<Operation<P, E>>, tx: TxBehaviour<P, E>)
    requires tx.begin.Ok?
    ensures var x, k := Execution(mode, ops, tx), FirstFailure(ops, 0, tx);
      var caught := Attempt(mode, ops, tx) + (if k < |ops| then [] else [Commit]);
      var thrown := if k < |ops| then Err(Failure(ops, k, tx)) else tx.commit;
      x.outcome.Err? ==>
        x.trace == caught + (if tx.isOpen(caught) then [RollBack] else []) &&
        x.outcome == (if tx.isOpen(caught) && tx.rollBack.Err? then tx.rollBack else thrown) &&
        (Commit in x.trace ==> k == |ops| && tx.commit.Err?)
  {
    ExecutionAfterBegin(mode, ops, tx);
    var k := FirstFailure(ops, 0, tx);
    if k == |ops| {
      var done := [Begin(mode)] + CompletedRange(ops, 0, |ops|);
      assert Attempt(mode, ops, tx) == done;
      CompletedRangeFacts(ops, 0, |ops|);
      assert Commit !in done;
    } else {
      var a := Attempt(mode, ops, tx);
      assert a + [] == a;
      AttemptKinds(mode, ops, tx);
    }
  }

  /** Before the try block ends, the only transaction call is Begin. */
  lemma AttemptKinds<P, E>(mode: AccessMode, ops: seq<Operation<P, E>>, tx: TxBehaviour<P, E>)
    ensures Commit !in Attempt(mode, ops, tx) && RollBack !in Attempt(mode, ops, tx)
  {
    var k := FirstFailure(ops, 0, tx);
    CompletedRangeFacts(ops, 0, k);
    var failed := if k < |ops| then Aborted(ops, k, tx) else [];
    assert Attempt(mode, ops, tx) == [Begin(mode)] + CompletedRange(ops, 0, k) + failed;
  }

  /** With the stub transaction (never fails, always open) a batch commits
      exactly when no handler throws, and otherwise rolls back, never
      commits, and passes on the first handler's exception. */
  lemma StubCommitsOrRollsBack<P(!new), E>(mode: AccessMode, ops: seq<Operation<P, E>>, txMode: AccessMode)
    ensures var tx := StubTransaction<P, E>(txMode);
      var x, k := Execution(mode, ops, tx), FirstFailure(ops, 0, tx);
      (x.outcome.Ok? <==>
        forall j :: 0 <= j < |ops| && ops[j].handler.Some? ==> HandlerOutcome(ops[j].handler.value).Ok?) &&
      (x.outcome.Ok? ==> x.trace == [Begin(mode)] + CompletedRange(ops, 0, |ops|) + [Commit]) &&
      (x.outcome.Err? ==>
        k < |ops| && x.outcome == Err(Failure(ops, k, tx)) &&
        x.trace[|x.trace| - 1] == RollBack && Commit !in x.trace)
  {
    var tx := StubTransaction<P, E>(txMode);
    var k := FirstFailure(ops, 0, tx);
    SuccessCommitsIffOpen(mode, ops, tx);
    FailureRollsBackIffOpen(mode, ops, tx);
    if k < |ops| {
      assert !Succeeds(ops, k, tx) && tx.run(k, ops[k].query, ops[k].parameters).Ok?;
      assert ops[k].handler.Some? && HandlerOutcome(ops[k].handler.value).Err?;
      AttemptKinds(mode, ops, tx);
    } else {
      forall j | 0 <= j < |ops| && ops[j].handler.Some?
        ensures HandlerOutcome(ops[j].handler.value).Ok?
      {
        assert Succeeds(ops, j, tx);
      }
    }
  }
}
