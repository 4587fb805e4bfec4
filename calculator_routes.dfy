/**
 The calculator service: an in-memory store mapping each calculator instance
 id to the ordered list of operations applied to it, and the four requests
 init, operation, undo and reset. The HTTP binding is replaced by method
 parameters and an `Outcome` value that stands for the response body.

 The step functions (InitStep, OperationStep, UndoStep, ResetStep) say what
 each request does to a history value; the class CalculatorRoute holds the
 history as a mutable field and its methods are verified against them.
 */
module CalculatorRoutes {

  import opened CalculatorHelper
  import Decimal

  /** Ids are drawn from [0, Capacity). */
  const Capacity: int := 1000000

  const InvalidIdError: string := "Invalid ID"
  const NotFoundError: string := "Could not find instance associated with ID"
  const HistoryClearedMessage: string := "History cleared"

  /** One applied operation: its operator and the value it produced. */
  datatype Record = Record(operator: string, result: real)

  type History = map<int, seq<Record>>

  /** The response body of a request. */
  datatype Outcome =
    | Computed(result: real, totalOps: nat, id: int)  // { result, totalOps, id }
    | Cleared(message: string)                        // { message: 'History cleared' }
    | ResetDone(message: string)                      // { success: true, message }
    | EvalFailed(error: string)                       // { success: false, error }
    | UnknownId(error: string)                        // { error }

  /** The store's invariant: ids in range, and no instance with an empty history. */
  predicate WellFormed(h: History)
  {
    forall id :: id in h ==> 0 <= id < Capacity && |h[id]| > 0
  }

  predicate IsFreshId(h: History, id: int)
  {
    0 <= id < Capacity && id !in h
  }

  /** Every key other than `id` is present in both maps or in neither, with the same history. */
  ghost predicate OthersUnchanged(h: History, h': History, id: int)
  {
    forall k :: k != id ==> (k in h <==> k in h') && (k in h ==> h[k] == h'[k])
  }

  /** A `Computed` outcome reports the instance's current value and its number of records. */
  predicate ReportsCurrent(h: History, out: Outcome)
  {
    out.Computed? ==>
      out.id in h && |h[out.id]| == out.totalOps > 0 && h[out.id][out.totalOps - 1].result == out.result
  }

  function Last(s: seq<Record>): Record
    requires |s| > 0
  {
    s[|s| - 1]
  }

  /** The confirmation that reset sends, naming the id. */
  function ResetMessage(id: nat): (m: string)
    ensures |m| > 24 && m[..11] == "Calculator " && m[|m| - 13..] == " is now reset"
    ensures Decimal.AllDigits(m[11..|m| - 13]) && Decimal.ToNat(m[11..|m| - 13]) == id
  {
    Decimal.ToNatFromNat(id);
    assert ("Calculator " + Decimal.FromNat(id) + " is now reset")[11..|Decimal.FromNat(id)| + 11] == Decimal.FromNat(id);
    "Calculator " + Decimal.FromNat(id) + " is now reset"
  }

  /** The reset message names its id: different ids get different messages. */
  lemma ResetMessageNamesId(a: nat, b: nat)
    requires ResetMessage(a) == ResetMessage(b)
    ensures a == b
  {
    var prefix, suffix := "Calculator ", " is now reset";
    var m := ResetMessage(a);
    assert m[|prefix|..|m| - |suffix|] == Decimal.FromNat(a);
    assert m[|prefix|..|m| - |suffix|] == Decimal.FromNat(b);
    Decimal.FromNatInjective(a, b);
  }

  // ---------------------------------------------------------------------------
  // The four requests as functions of the history.

  /** init: evaluate the first operation; on success store it under the fresh `id`. */
  function InitStep(h: History, id: int, num1: real, num2: real, operator: string): (r: (History, Outcome))
    requires WellFormed(h)
    requires PerformOperation(num1, num2, operator).error.None? ==> IsFreshId(h, id)
    ensures WellFormed(r.0) && OthersUnchanged(h, r.0, id) && ReportsCurrent(r.0, r.1)
  {
    var evaluated := PerformOperation(num1, num2, operator);
    if evaluated.error.Some? then (h, EvalFailed(evaluated.error.value))
    else (h[id := [Record(operator, evaluated.result.value)]], Computed(evaluated.result.value, 1, id))
  }

  /**
   operation: apply `operator` with operand `num` to the instance's current value.
   On an evaluation error nothing is recorded (see OperationAsWritten below for
   what the source does instead).
   */
  function OperationStep(h: History, id: int, num: real, operator: string): (r: (History, Outcome))
    requires WellFormed(h)
    ensures WellFormed(r.0) && OthersUnchanged(h, r.0, id) && ReportsCurrent(r.0, r.1)
  {
    if id !in h then (h, UnknownId(InvalidIdError))
    else
      var evaluated := PerformOperation(Last(h[id]).result, num, operator);
      if evaluated.error.Some? then (h, EvalFailed(evaluated.error.value))
      else
        var v := evaluated.result.value;
        (h[id := h[id] + [Record(operator, v)]], Computed(v, |h[id]| + 1, id))
  }

  /** undo: drop the last record; an instance whose last record goes is removed. */
  function UndoStep(h: History, id: int): (r: (History, Outcome))
    requires WellFormed(h)
    ensures WellFormed(r.0) && OthersUnchanged(h, r.0, id) && ReportsCurrent(r.0, r.1)
  {
    if id !in h then (h, UnknownId(InvalidIdError))
    else if |h[id]| == 1 then (h - {id}, Cleared(HistoryClearedMessage))
    else
      var rest := h[id][..|h[id]| - 1];
      (h[id := rest], Computed(Last(rest).result, |rest|, id))
  }

  /** reset: remove the instance. */
  function ResetStep(h: History, id: int): (r: (History, Outcome))
    requires WellFormed(h)
    ensures WellFormed(r.0) && OthersUnchanged(h, r.0, id) && ReportsCurrent(r.0, r.1)
  {
    if id !in h then (h, UnknownId(NotFoundError)) else (h - {id}, ResetDone(ResetMessage(id)))
  }

  // ---------------------------------------------------------------------------
  // Properties of the requests.

  /** A successful init adds exactly one key, holding the single first record. */
  lemma InitCreatesInstance(h: History, id: int, num1: real, num2: real, operator: string)
    requires WellFormed(h) && IsFreshId(h, id)
    requires PerformOperation(num1, num2, operator).error.None?
    ensures var (h', out) := InitStep(h, id, num1, num2, operator);
      && h'.Keys == h.Keys + {id} && |h'| == |h| + 1
      && h'[id] == [Record(operator, PerformOperation(num1, num2, operator).result.value)]
      && out == Computed(h'[id][0].result, 1, id)
  {
  }

  /** An init whose evaluation fails creates nothing. */
  lemma InitFailureChangesNothing(h: History, id: int, num1: real, num2: real, operator: string)
    requires WellFormed(h)
    requires PerformOperation(num1, num2, operator).error.Some?
    ensures InitStep(h, id, num1, num2, operator) == (h, EvalFailed(PerformOperation(num1, num2, operator).error.value))
  {
  }

  /** An operation whose evaluation fails reports the error and records nothing. */
  lemma OperationFailureChangesNothing(h: History, id: int, num: real, operator: string)
    requires WellFormed(h) && id in h
    requires PerformOperation(Last(h[id]).result, num, operator).error.Some?
    ensures OperationStep(h, id, num, operator) == (h, EvalFailed(PerformOperation(Last(h[id]).result, num, operator).error.value))
  {
  }

  /** operation on an unknown id fails and changes nothing. */
  lemma OperationRejectsUnknownId(h: History, id: int, num: real, operator: string)
    requires WellFormed(h) && id !in h
    ensures OperationStep(h, id, num, operator) == (h, UnknownId(InvalidIdError))
  {
  }

  /** undo on an unknown id fails and changes nothing. */
  lemma UndoRejectsUnknownId(h: History, id: int)
    requires WellFormed(h) && id !in h
    ensures UndoStep(h, id) == (h, UnknownId(InvalidIdError))
  {
  }

  /** reset on an unknown id fails and changes nothing. */
  lemma ResetRejectsUnknownId(h: History, id: int)
    requires WellFormed(h) && id !in h
    ensures ResetStep(h, id) == (h, UnknownId(NotFoundError))
  {
  }

  /** A successful operation appends exactly one record holding the evaluated value. */
  lemma OperationAppendsRecord(h: History, id: int, num: real, operator: string)
    requires WellFormed(h) && id in h
    requires PerformOperation(Last(h[id]).result, num, operator).error.None?
    ensures var (h', out) := OperationStep(h, id, num, operator);
      var v := PerformOperation(Last(h[id]).result, num, operator).result.value;
      && h'.Keys == h.Keys
      && h'[id][..|h[id]|] == h[id] && h'[id][|h[id]|..] == [Record(operator, v)]
      && out == Computed(v, |h[id]| + 1, id)
  {
  }

  /** Undo of a longer history removes exactly the last record and reports the one before it. */
  lemma UndoRemovesLast(h: History, id: int)
    requires WellFormed(h) && id in h && |h[id]| > 1
    ensures var (h', out) := UndoStep(h, id);
      var n := |h[id]|;
      && h'.Keys == h.Keys
      && h'[id] + [h[id][n - 1]] == h[id]
      && out == Computed(h[id][n - 2].result, n - 1, id)
  {
  }

  /** Undo of the first record removes the instance itself. */
  lemma UndoClearsSingleton(h: History, id: int)
    requires WellFormed(h) && id in h && |h[id]| == 1
    ensures UndoStep(h, id) == (h - {id}, Cleared(HistoryClearedMessage))
    ensures id !in UndoStep(h, id).0 && |UndoStep(h, id).0| == |h| - 1
  {
  }

  /** Reset deletes that key and only that key, and names it in the reply. */
  lemma ResetRemovesInstance(h: History, id: int)
    requires WellFormed(h) && id in h
    ensures var (h', out) := ResetStep(h, id);
      && h'.Keys == h.Keys - {id}
      && out.ResetDone? && out.message == ResetMessage(id)
  {
  }

  /** Undo is the inverse of a successful operation: history and reply roll back. */
  lemma UndoUndoesOperation(h: History, id: int, num: real, operator: string)
    requires WellFormed(h) && id in h
    requires PerformOperation(Last(h[id]).result, num, operator).error.None?
    ensures var h1 := OperationStep(h, id, num, operator).0;
      UndoStep(h1, id) == (h, Computed(Last(h[id]).result, |h[id]|, id))
  {
    var h1 := OperationStep(h, id, num, operator).0;
    var n := |h[id]|;
    assert |h1[id]| == n + 1;
    assert h1[id][..n] == h[id];
    assert h1[id := h1[id][..n]] == h;
  }

  /** Undo right after a successful init gives back the store as it was. */
  lemma UndoUndoesInit(h: History, id: int, num1: real, num2: real, operator: string)
    requires WellFormed(h) && IsFreshId(h, id)
    requires PerformOperation(num1, num2, operator).error.None?
    ensures UndoStep(InitStep(h, id, num1, num2, operator).0, id) == (h, Cleared(HistoryClearedMessage))
  {
    var h1 := InitStep(h, id, num1, num2, operator).0;
    assert h1 - {id} == h;
  }

  /** Reset right after a successful init gives back the store as it was. */
  lemma ResetUndoesInit(h: History, id: int, num1: real, num2: real, operator: string)
    requires WellFormed(h) && IsFreshId(h, id)
    requires PerformOperation(num1, num2, operator).error.None?
    ensures ResetStep(InitStep(h, id, num1, num2, operator).0, id) == (h, ResetDone(ResetMessage(id)))
  {
    var h1 := InitStep(h, id, num1, num2, operator).0;
    assert h1 - {id} == h;
  }

  // ---------------------------------------------------------------------------
  // Room for a fresh id.

  /** The ids 0 .. n-1. */
  ghost function IdRange(n: nat): (r: set<int>)
    ensures forall i :: i in r <==> 0 <= i < n
    ensures |r| == n
  {
    if n == 0 then {} else IdRange(n - 1) + {n - 1}
  }

  lemma SubsetSize(a: set<int>, b: set<int>)
    requires a <= b
    ensures |a| <= |b|
  {
    assert b == a + (b - a);
  }

  /** A store with fewer than Capacity keys leaves some id in range unused. */
  lemma FreshIdExists(h: History)
    requires |h| < Capacity
    ensures exists id :: IsFreshId(h, id)
  {
    var range := IdRange(Capacity);
    if range <= h.Keys {
      SubsetSize(range, h.Keys);
      assert false;
    }
    var id :| id in range && id !in h.Keys;
    assert IsFreshId(h, id);
  }

  // ---------------------------------------------------------------------------
  // The service object.

  class CalculatorRoute {

    /** Each calculator instance's operations, oldest first. */
    var history: History

    ghost predicate Valid()
      reads this
    {
      WellFormed(history)
    }

    constructor ()
      ensures Valid() && history == map[]
    {
      history := map[];
    }

    /**
     Draws an id not held by any live instance. The source retries random draws
     until one is unused; here the draw is an arbitrary choice among them.
     */
    method GenerateID() returns (id: int)
      requires |history| < Capacity
      ensures IsFreshId(history, id)
    {
      FreshIdExists(history);
      id :| IsFreshId(history, id);
    }

    method Init(num1: real, num2: real, operator: string) returns (out: Outcome)
      requires Valid()
      requires PerformOperation(num1, num2, operator).error.None? ==> |history| < Capacity
      modifies this
      ensures Valid()
      ensures PerformOperation(num1, num2, operator).error.Some? ==>
        history == old(history) && out == EvalFailed(PerformOperation(num1, num2, operator).error.value)
      ensures PerformOperation(num1, num2, operator).error.None? ==>
        out.Computed? && IsFreshId(old(history), out.id)
        && (history, out) == InitStep(old(history), out.id, num1, num2, operator)
    {
      var evaluated := PerformOperation(num1, num2, operator);
      if evaluated.error.Some? {
        out := EvalFailed(evaluated.error.value);
        return;
      }
      var id := GenerateID();
      out := Computed(evaluated.result.value, 1, id);
      history := history[id := [Record(operator, evaluated.result.value)]];
    }

    method Operation(id: int, num: real, operator: string) returns (out: Outcome)
      requires Valid()
      modifies this
      ensures Valid()
      ensures (history, out) == OperationStep(old(history), id, num, operator)
    {
      if id !in history {
        out := UnknownId(InvalidIdError);
        return;
      }
      var instanceHistory := history[id];
      var totalOps := |instanceHistory|;
      var lastOperand := instanceHistory[totalOps - 1].result;
      var evaluated := PerformOperation(lastOperand, num, operator);
      if evaluated.error.Some? {
        // Deliberate divergence from src/routes/calculator.ts:232-239: the
        // source sends the error but has no `return`, so it goes on to push a
        // record with an undefined result. Here the request stops with the
        // error and the history is left as it was.
        out := EvalFailed(evaluated.error.value);
        return;
      }
      instanceHistory := instanceHistory + [Record(operator, evaluated.result.value)];
      history := history[id := instanceHistory];
      totalOps := totalOps + 1;
      out := Computed(evaluated.result.value, totalOps, id);
    }

    method Undo(id: int) returns (out: Outcome)
      requires Valid()
      modifies this
      ensures Valid()
      ensures (history, out) == UndoStep(old(history), id)
    {
      if id !in history {
        out := UnknownId(InvalidIdError);
        return;
      }
      var instanceHistory := history[id];
      instanceHistory := instanceHistory[..|instanceHistory| - 1];
      history := history[id := instanceHistory];
      if |instanceHistory| == 0 {
        history := history - {id};
        assert history == old(history) - {id};
        out := Cleared(HistoryClearedMessage);
        return;
      }
      var totalOps := |instanceHistory|;
      var result := instanceHistory[totalOps - 1].result;
      out := Computed(result, totalOps, id);
    }

    method Reset(id: int) returns (out: Outcome)
      requires Valid()
      modifies this
      ensures Valid()
      ensures (history, out) == ResetStep(old(history), id)
    {
      if id !in history {
        out := UnknownId(NotFoundError);
        return;
      }
      history := history - {id};
      out := ResetDone(ResetMessage(id));
    }
  }

  // ---------------------------------------------------------------------------
  // The operation request as the source writes it.

  /** A stored record whose result may be undefined (None). */
  datatype RawRecord = RawRecord(operator: string, result: Option<real>)

  /**
   The history after an operation request as coded at
   src/routes/calculator.ts:222-240: after an evaluation error it still pushes
   a record carrying the (undefined) result.
   */
  function OperationAsWritten(h: map<int, seq<RawRecord>>, id: int, num: real, operator: string): (h': map<int, seq<RawRecord>>)
    requires id in h ==> |h[id]| > 0 && h[id][|h[id]| - 1].result.Some?
    ensures h'.Keys == h.Keys
  {
    if id !in h then h
    else
      var evaluated := PerformOperation(h[id][|h[id]| - 1].result.value, num, operator);
      h[id := h[id] + [RawRecord(operator, evaluated.result)]]
  }

  /** As written, a failed evaluation lengthens the history by an undefined record. */
  lemma AsWrittenFailureAppends(h: map<int, seq<RawRecord>>, id: int, num: real, operator: string)
    requires id in h && |h[id]| > 0 && h[id][|h[id]| - 1].result.Some?
    requires PerformOperation(h[id][|h[id]| - 1].result.value, num, operator).error.Some?
    ensures var h' := OperationAsWritten(h, id, num, operator);
      |h'[id]| == |h[id]| + 1 && h'[id][|h[id]|].result.None?
  {
  }

  /** The concrete case: dividing 30 by zero leaves a second, undefined record. */
  lemma AsWrittenDivideByZero()
    ensures OperationAsWritten(map[7 := [RawRecord(Add, Some(30.0))]], 7, 0.0, Divide)
      == map[7 := [RawRecord(Add, Some(30.0)), RawRecord(Divide, None)]]
  {
    var h := map[7 := [RawRecord(Add, Some(30.0))]];
    DivideByZeroFails(30.0);
    var grown := [RawRecord(Add, Some(30.0)), RawRecord(Divide, None)];
    assert h[7] + [RawRecord(Divide, None)] == grown;
    assert OperationAsWritten(h, 7, 0.0, Divide) == h[7 := grown];
    assert h[7 := grown] == map[7 := grown];
  }
}
