/** The transaction a Session drives (Stubs/Transaction.cs). */
module Transactions {
  import opened Wrappers
  import opened AccessModes
  import opened Trace

  /** What each call on an ITransaction does. An implementation of the
      interface is described by the outcome of Begin, of the run call made
      for operation `index` with a query and parameters, of Commit and of
      RollBack, and by what IsOpen answers given the events so far in this
      transaction. IsOpen itself never throws. */
  datatype TxBehaviour<-P, E> = TxBehaviour(
    begin: Outcome<E>,
    run: (nat, string, Option<P>) -> Outcome<E>,
    commit: Outcome<E>,
    rollBack: Outcome<E>,
    isOpen: seq<Event<P>> -> bool)

  /** The stub `Transaction`: the constructor ignores its mode, Begin, Commit
      and RollBack complete at once, both RunAsync overloads ignore the query
      and the parameters and hand back a fresh cursor, and IsOpen always
      answers true, whatever happened before. */
  function StubTransaction<P(!new), E>(mode: AccessMode): (tx: TxBehaviour<P, E>)
    ensures tx.begin == Ok && tx.commit == Ok && tx.rollBack == Ok
    ensures forall i, q, p :: tx.run(i, q, p) == Ok
    ensures forall history :: tx.isOpen(history)
  {
    TxBehaviour(Ok, (i, q, p) => Ok, Ok, Ok, history => true)
  }

  /** The mode given to the stub's constructor makes no difference. */
  lemma StubIgnoresMode<P(!new), E>(m1: AccessMode, m2: AccessMode, i: nat, q: string, p: Option<P>, history: seq<Event<P>>)
    ensures var t1, t2 := StubTransaction<P, E>(m1), StubTransaction<P, E>(m2);
      t1.begin == t2.begin && t1.commit == t2.commit && t1.rollBack == t2.rollBack &&
      t1.run(i, q, p) == t2.run(i, q, p) && t1.isOpen(history) == t2.isOpen(history)
  {
  }
}
