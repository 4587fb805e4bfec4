/**
 The arithmetic evaluator behind the calculator service: one binary operation
 on two operands, or an error message. Numbers are exact reals.
 */
module CalculatorHelper {

  datatype Option<T> = None | Some(value: T)

  /** The operator names the service accepts. */
  const Add: string := "add"
  const Subtract: string := "subtract"
  const Multiply: string := "multiply"
  const Divide: string := "divide"

  /** The two error messages the evaluator can report. */
  const DivideByZeroError: string := "Cannot divide by zero"
  const InvalidOperatorError: string := "Invalid operator"

  /**
   The evaluator's reply: an object with an optional `result` and an optional
   `error`. The evaluator promises that exactly one of them is present.
   */
  datatype OperationResult = OperationResult(result: Option<real>, error: Option<string>)

  predicate IsOperator(operator: string)
  {
    operator == Add || operator == Subtract || operator == Multiply || operator == Divide
  }

  /**
   Applies `operator` to the two operands. The switch sets a result and an
   error message (empty meaning "no error"); a non-empty message wins.
   */
  function PerformOperation(operand1: real, operand2: real, operator: string): (r: OperationResult)
    ensures r.result.Some? <==> r.error.None?
    ensures r.error.Some? ==> r.error.value != ""
    ensures r.error.Some? <==> !IsOperator(operator) || (operator == Divide && operand2 == 0.0)
  {
    var (result, error) :=
      if operator == Add then (operand1 + operand2, "")
      else if operator == Subtract then (operand1 - operand2, "")
      else if operator == Multiply then (operand1 * operand2, "")
      else if operator == Divide then
        (if operand2 == 0.0 then (0.0, DivideByZeroError) else (operand1 / operand2, ""))
      else (0.0, InvalidOperatorError);
    if error != "" then OperationResult(None, Some(error))
    else OperationResult(Some(result), None)
  }

  /** add, subtract and multiply never fail and compute the expected value. */
  lemma RingOperatorsSucceed(a: real, b: real)
    ensures PerformOperation(a, b, Add) == OperationResult(Some(a + b), None)
    ensures PerformOperation(a, b, Subtract) == OperationResult(Some(a - b), None)
    ensures PerformOperation(a, b, Multiply) == OperationResult(Some(a * b), None)
  {
  }

  /** Division by zero fails with its own message, whatever the dividend. */
  lemma DivideByZeroFails(a: real)
    ensures PerformOperation(a, 0.0, Divide) == OperationResult(None, Some(DivideByZeroError))
  {
  }

  /** Division by a non-zero divisor is exact. */
  lemma DivideByNonZero(a: real, b: real)
    requires b != 0.0
    ensures PerformOperation(a, b, Divide) == OperationResult(Some(a / b), None)
  {
  }

  /** Any other operator name fails with "Invalid operator", whatever the operands. */
  lemma UnknownOperatorFails(a: real, b: real, operator: string)
    requires !IsOperator(operator)
    ensures PerformOperation(a, b, operator) == OperationResult(None, Some(InvalidOperatorError))
  {
  }
}
