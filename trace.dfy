/** The observable steps of one ExecuteAsync call, in the order they happen. */
module Trace {
  import opened Wrappers
  import opened AccessModes

  /** `Begin`, `Run`, `Commit` and `RollBack` are calls on the transaction;
      `Handle(i)` is the invocation of operation i's result handler and
      `Consume(i)` the call of Consume on operation i's cursor. A call that
      throws is still recorded: the event marks that the call was made. */
  datatype Event<+P> =
    | Begin(mode: AccessMode)
    | Run(index: nat, query: string, parameters: Option<P>)
    | Handle(index: nat)
    | Consume(index: nat)
    | Commit
    | RollBack
}
