# Calculator service with per-instance history

A Dafny model of the core of an Express calculator service. Each calculator
instance has a numeric id and an ordered history of `{operator, result}`
records. Four requests work on it:

- `init` evaluates a first operation and stores it under a fresh id.
- `operation` applies an operator and an operand to the instance's current value.
- `undo` drops the last record and removes the instance when none is left.
- `reset` deletes the instance.

The evaluator `performOperation` knows add, subtract, multiply and divide. It
reports "Cannot divide by zero" and "Invalid operator".

Files:

- `calculator_helper.dfy` (module `CalculatorHelper`): the evaluator as a pure
  function. Its reply has the same shape as the source's: an optional result
  and an optional error.
- `decimal.dfy` (module `Decimal`): decimal rendering of an id, used in the
  reset message, with its inverse.
- `calculator_routes.dfy` (module `CalculatorRoutes`):
  - the store invariant `WellFormed`, which says every id is in [0, 1000000) and every history is non-empty;
  - the four requests as step functions on a history map;
  - the class `CalculatorRoute`, whose `history` field the methods update in place. Each method is proved equal to its step function;
  - the source's own version of `operation` (see Findings).
- `calculator_traces.dfy` (module `CalculatorTraces`): the request sequences
  of the test suite, each called on a fresh object and proved from the method
  contracts. Two walks add one rejected request after the test's last step.
  A further walk, not in the tests, shows the corrected operation request
  after a failed division.

Responses are modelled as the `Outcome` datatype, one constructor per response
body shape. HTTP status codes are not modelled.

## Model

| member | source | states |
|---|---|---|
| CalculatorHelper.PerformOperation | src/helpers/calculator.ts:6-40 | exactly one of result and error is present; an error message is never empty (so the callers' `if (error)` test spots it); it fails exactly when the operator is unknown or it is a division by zero |
| CalculatorHelper.RingOperatorsSucceed | src/helpers/calculator.ts:10-18 | add, subtract and multiply give `a + b`, `a - b`, `a * b` and no error |
| CalculatorHelper.DivideByZeroFails | src/helpers/calculator.ts:19-24 | divide by 0 gives the error "Cannot divide by zero" and no result, for every dividend |
| CalculatorHelper.DivideByNonZero | src/helpers/calculator.ts:25-26 | divide by a non-zero operand gives `a / b` exactly |
| CalculatorHelper.UnknownOperatorFails | src/helpers/calculator.ts:27-35 | any other operator string gives "Invalid operator" and no result |
| Decimal.FromNat | src/routes/calculator.ts:376 | the id renders as a non-empty string of decimal digits with no leading zero |
| Decimal.ToNatFromNat | src/routes/calculator.ts:376 | reading the rendered digits gives the id back |
| Decimal.FromNatInjective | src/routes/calculator.ts:376 | distinct ids render differently |
| CalculatorRoutes.ResetMessage | src/routes/calculator.ts:376 | the message is "Calculator ", then decimal digits that read back as the id, then " is now reset" |
| CalculatorRoutes.ResetMessageNamesId | src/routes/calculator.ts:374-377 | the reset message determines the id it names |
| CalculatorRoutes.InitStep | src/routes/calculator.ts:124-148 | init keeps the store invariant, touches no other key, and a `Computed` reply equals the stored value and record count |
| CalculatorRoutes.OperationStep | src/routes/calculator.ts:217-244 | operation keeps the store invariant, touches no other key, and a `Computed` reply equals the new last result and the length of the history |
| CalculatorRoutes.UndoStep | src/routes/calculator.ts:297-318 | undo keeps the invariant (non-empty histories), touches no other key, and its `Computed` reply is the new last result and length |
| CalculatorRoutes.ResetStep | src/routes/calculator.ts:363-378 | reset keeps the invariant and touches no other key |
| CalculatorRoutes.InitCreatesInstance | src/routes/calculator.ts:138-146 | a successful init adds exactly one new key, mapped to `[{operator, result}]`, and reports totalOps 1 |
| CalculatorRoutes.InitFailureChangesNothing | src/routes/calculator.ts:128-136 | an init whose evaluation fails returns that error and leaves the history unchanged |
| CalculatorRoutes.OperationFailureChangesNothing | src/routes/calculator.ts:230-237 | an operation whose evaluation fails returns that error and leaves the history unchanged (the intended behaviour, see Findings) |
| CalculatorRoutes.OperationRejectsUnknownId | src/routes/calculator.ts:222-226 | operation on an absent id replies "Invalid ID" and changes nothing |
| CalculatorRoutes.UndoRejectsUnknownId | src/routes/calculator.ts:301-305 | undo on an absent id replies "Invalid ID" and changes nothing |
| CalculatorRoutes.ResetRejectsUnknownId | src/routes/calculator.ts:367-371 | reset on an absent id replies "Could not find instance associated with ID" and changes nothing |
| CalculatorRoutes.OperationAppendsRecord | src/routes/calculator.ts:228-243 | a successful operation keeps the old records as a prefix, appends exactly one record holding `performOperation(lastResult, num, operator)`, and reports totalOps = old length + 1 |
| CalculatorRoutes.UndoRemovesLast | src/routes/calculator.ts:307-317 | on a history of length n > 1, undo removes exactly the last record and reports the record before it with totalOps n - 1 |
| CalculatorRoutes.UndoClearsSingleton | src/routes/calculator.ts:307-313 | on a history of length 1, undo deletes the key from the map and replies "History cleared" |
| CalculatorRoutes.ResetRemovesInstance | src/routes/calculator.ts:373-377 | reset on a present id deletes that key only and replies with the message naming the id |
| CalculatorRoutes.UndoUndoesOperation | src/routes/calculator.ts:307-317 | undo right after a successful operation restores the earlier map exactly and reports the earlier value and count |
| CalculatorRoutes.UndoUndoesInit | src/routes/calculator.ts:307-313 | undo right after a successful init restores the earlier map and replies "History cleared" |
| CalculatorRoutes.ResetUndoesInit | src/routes/calculator.ts:373-377 | reset right after a successful init restores the earlier map |
| CalculatorRoutes.IdRange | src/routes/calculator.ts:50-53 | the draw range holds exactly the integers 0 to n-1, n of them |
| CalculatorRoutes.FreshIdExists | src/routes/calculator.ts:47-55 | with fewer than 1000000 live ids, some id in [0, 1000000) is unused |
| CalculatorRoutes.CalculatorRoute.constructor | src/routes/calculator.ts:15 | a new service starts with an empty history map |
| CalculatorRoutes.CalculatorRoute.GenerateID | src/routes/calculator.ts:47-55 | the id returned lies in [0, 1000000) and is not a key of the history |
| CalculatorRoutes.CalculatorRoute.Init | src/routes/calculator.ts:124-148 | on an evaluation error the history is unchanged and the error is returned; otherwise the new state and reply are InitStep's, for an id that was fresh |
| CalculatorRoutes.CalculatorRoute.Operation | src/routes/calculator.ts:217-244 | the new history and the reply are OperationStep's |
| CalculatorRoutes.CalculatorRoute.Undo | src/routes/calculator.ts:297-318 | the new history and the reply are UndoStep's |
| CalculatorRoutes.CalculatorRoute.Reset | src/routes/calculator.ts:363-378 | the new history and the reply are ResetStep's |
| CalculatorRoutes.OperationAsWritten | src/routes/calculator.ts:222-240 | as coded, an operation keeps the same set of ids, even when the evaluation fails |
| CalculatorRoutes.AsWrittenFailureAppends | src/routes/calculator.ts:232-239 | as coded, a failed evaluation still lengthens the history by one record with an undefined result |
| CalculatorRoutes.AsWrittenDivideByZero | src/routes/calculator.ts:232-239 | as coded, dividing an instance holding 30 by zero leaves it with two records, the second undefined |
| CalculatorTraces.ArithmeticWalk | src/tests/calculator.test.ts:16-78 | the test's init(10,20,add), multiply 10, subtract 10, divide 10, undo, reset give 30, 300, 290, 29, 290 with totalOps 1, 2, 3, 4, 3, then "Calculator <id> is now reset"; one extra undo after the reset is rejected with "Invalid ID" (as at src/routes/calculator.ts:301-305) |
| CalculatorTraces.UndoUntilClearedWalk | src/tests/calculator.test.ts:83-142 | the test's init(10,1.5,multiply), add 10, subtract 5, then three undos give 15, 25, 20, 25, 15 and "History cleared"; one extra operation on the cleared id is rejected with "Invalid ID" (as at src/routes/calculator.ts:222-226) |
| CalculatorTraces.DivideByZeroInitWalk | src/tests/calculator.test.ts:144-154 | init(10,0,divide) fails with "Cannot divide by zero" and creates no instance |
| CalculatorTraces.FailedOperationWalk | src/routes/calculator.ts:232-239 | not in the tests: with the corrected operation request (see Findings and OperationFailureChangesNothing), dividing a live instance by zero fails and the next add reports totalOps 2; the code as written would record the failure and report 3 |


## Left out

- HTTP plumbing is not modelled: `req`/`res`, status codes (201, 200, 400), JSON serialisation, `registerRoutes` and `console.log`. Request fields are method parameters. The response body is an `Outcome` value.
- `Number(req.query.id)` in reset is not modelled. Ids are integers throughout.
- Request validation (the Joi schemas and the operator list they use) and the server bootstrap in src/app.ts are not modelled.
- `Math.random` is replaced by an arbitrary choice of an unused id in [0, 1000000). The distribution and the retry loop are not modelled.
- Numbers are exact reals. IEEE-754 rounding, NaN and Infinity are not modelled.
- CalculatorRoutes.CalculatorRoute.Init: it requires fewer than 1000000 live instances when the evaluation succeeds. With that many, the source's id loop never ends.
- CalculatorRoutes.CalculatorRoute.GenerateID: it requires fewer than 1000000 live instances, for the same reason.
- CalculatorRoutes.CalculatorRoute.Operation: it follows the intended behaviour. On an evaluation error it returns without recording anything (see Findings).
- CalculatorRoutes.OperationAsWritten: it requires the instance's last result to be defined. Reals have no NaN, so it cannot take the step after the defect, where the source computes a NaN result from the undefined record and reports totalOps 3.
- The second response the source attempts after the error branch in operation is not modelled.
- `undo` and `operation` on a stored empty history are not modelled. The store invariant rules such a history out.
- Concurrency: there is none. The service runs on one event loop.

## Findings

| source | as written | input that shows it | evidently intended | confidence | as-written member | corrected member |
|---|---|---|---|---|---|---|
| src/routes/calculator.ts:232-239 | after an evaluation error, operation sends the 400 reply but has no `return`, so it falls through and pushes a record with an undefined result | an instance holding `[{add, 30}]`, then operation with num 0 and operator divide | return right after the error reply and leave the history unchanged (OperationStep) | not executed; follows from the code and its lack of a return | CalculatorRoutes.AsWrittenDivideByZero | CalculatorRoutes.OperationFailureChangesNothing |
