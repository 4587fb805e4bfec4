/**
 The request sequences of the service's test suite, each called on a fresh
 CalculatorRoute and proved from the methods' contracts alone. Where a walk
 goes past what its test sends, its comment names the extra steps.
 */
module CalculatorTraces {

  import opened CalculatorHelper
  import opened CalculatorRoutes

  /**
   The test's sequence: init(10, 20, add), then multiply 10, subtract 10,
   divide 10, an undo and a reset. One extra step: an undo after the reset,
   rejected because the instance is gone.
   */
  method ArithmeticWalk() returns (id: int, outs: seq<Outcome>)
    ensures 0 <= id < Capacity
    ensures outs == [
      Computed(30.0, 1, id), Computed(300.0, 2, id), Computed(290.0, 3, id),
      Computed(29.0, 4, id), Computed(290.0, 3, id), ResetDone(ResetMessage(id)),
      UnknownId(InvalidIdError)]
  {
    var c := new CalculatorRoute();
    var o0 := c.Init(10.0, 20.0, Add);
    id := o0.id;
    var o1 := c.Operation(id, 10.0, Multiply);
    var o2 := c.Operation(id, 10.0, Subtract);
    var o3 := c.Operation(id, 10.0, Divide);
    var o4 := c.Undo(id);
    var o5 := c.Reset(id);
    var o6 := c.Undo(id);
    outs := [o0, o1, o2, o3, o4, o5, o6];
  }

  /**
   The test's sequence: init(10, 1.5, multiply), add 10, subtract 5, then undo
   three times until the history is cleared. One extra step: an operation on
   the cleared id, rejected because the id is unknown.
   */
  method UndoUntilClearedWalk() returns (id: int, outs: seq<Outcome>)
    ensures 0 <= id < Capacity
    ensures outs == [
      Computed(15.0, 1, id), Computed(25.0, 2, id), Computed(20.0, 3, id),
      Computed(25.0, 2, id), Computed(15.0, 1, id), Cleared(HistoryClearedMessage),
      UnknownId(InvalidIdError)]
  {
    var c := new CalculatorRoute();
    var o0 := c.Init(10.0, 1.5, Multiply);
    id := o0.id;
    var o1 := c.Operation(id, 10.0, Add);
    var o2 := c.Operation(id, 5.0, Subtract);
    var o3 := c.Undo(id);
    var o4 := c.Undo(id);
    var o5 := c.Undo(id);
    var o6 := c.Operation(id, 1.0, Add);
    outs := [o0, o1, o2, o3, o4, o5, o6];
  }

  /** The test's only request: init(10, 0, divide) is refused. */
  method DivideByZeroInitWalk() returns (out: Outcome, live: nat)
    ensures out == EvalFailed(DivideByZeroError)
    ensures live == 0
  {
    var c := new CalculatorRoute();
    out := c.Init(10.0, 0.0, Divide);
    live := |c.history|;
  }

  /**
   Not in the test suite: a division by zero on a live instance is refused,
   and the next operation still counts from the old history. This is the
   corrected operation request; the code as written would record the failed
   attempt (see OperationAsWritten).
   */
  method FailedOperationWalk() returns (id: int, outs: seq<Outcome>)
    ensures 0 <= id < Capacity
    ensures outs == [Computed(30.0, 1, id), EvalFailed(DivideByZeroError), Computed(31.0, 2, id)]
  {
    var c := new CalculatorRoute();
    var o0 := c.Init(10.0, 20.0, Add);
    id := o0.id;
    var o1 := c.Operation(id, 0.0, Divide);
    var o2 := c.Operation(id, 1.0, Add);
    outs := [o0, o1, o2];
  }
}
