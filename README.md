# fakegorm call-expectation engine, in Dafny

This project models the core of `fakegorm`, a fake `gorm` database handle for tests. The core is the call-expectation engine in `main.go`.

A test declares, in order, the calls it expects the code under test to make:
- `ExpectCall(name)` adds an expectation;
- `WithParams`, `WithOutput` and `WithError` fill it in.

Every intercepted operation (`Select`, `First`, …, `Delete`, `HasTable`) forwards to `query`, which works on the expectation under the cursor `index`:
- it compares the operation's name with the expected one;
- it checks the parameters (`verifyParams`);
- it writes the declared outputs through the caller's pointers (`setOutputParams`);
- it copies the expectation's declared error into the handle's `Error` field (`setError`);
- it advances the cursor.

Mismatches do not fail the call. They are appended to the `testErrors` log, and `ExpectationsMet` later reduces the final state to one verdict: success, the first logged error, or "Not all expectations met".

Modules and files:
- `wrappers.dfy` (`Wrappers`): `Option`, which stands in for Go's nil-able `error`.
- `values.dfy` (`Values`): the arguments of intercepted calls.
  - `Value` is structured data. Dafny's `==` on it stands in for `reflect.DeepEqual`.
  - `Cell` is a caller variable whose address is passed.
  - `Param` is either `Ptr(cell)` or `Plain(value)`.
  - `DeepEqual` compares two pointers by their pointees, as Go's deep equality does.
- `errors.dfy` (`Errors`): one `TestError` constructor per message the engine can log, and `UserError` for errors declared with `WithError`.
- `checks.dfy` (`Checks`): specification functions for `verifyParams` (`ParamsVerdict`) and `setOutputParams` (`OutputVerdict`, `WrittenPrefix`, `ProjectedValue`), with their characterising lemmas.
- `queue.dfy` (`Queue`): the handle's state as a value, `DBState`. It also holds:
  - `Recorded`, the effect of one call (the specification of `query`);
  - `Verdict`, the specification of `ExpectationsMet`;
  - `Run`, the effect of a sequence of calls, with lemmas on FIFO consumption, monotone cursor, append-only log and the end-to-end verdicts.
- `fakedb.dfy` (`FakeDB`): the handle itself, `class DB`, whose fields `Error`, `expectations`, `index` and `testErrors` its methods update in place.
  - Every method is proved against the functions above.
  - The forwarding operations are one method `Invoke(op, params)` over an `Operation` enumeration, plus `HasTable`.
- `scenarios.dfy` (`Scenarios`): client methods that drive a fresh handle through its contracts alone.

I/O and the environment:
- The operation name is an explicit argument of `Query`, instead of being read from the call stack.
- Nothing touches a real database, a clock or the network.

Behaviour of the code that the model keeps, although it is easy to misread:
- After a parameter-count mismatch, the code still runs output projection and `setError` (main.go:93-103). `Query` does too.
- The error returned by `deepCopy` is discarded (main.go:154), so the model has no serialization-error path.
- `ExpectCall` does not reject an empty name (main.go:53-56), and neither does the model.
- The comparison loop of `verifyParams` has no `break`, but it returns at the first mismatch (main.go:127-133). `VerifyParams` has the same early return.

## Model

| member | source | states |
|---|---|---|
| FakeDB.DB.constructor | main.go:23-29 | a new handle has no expectations, cursor 0, no logged errors and no current error |
| FakeDB.DB.ExpectationsMet | main.go:43-51 | returns exactly `Verdict` of the current state |
| Queue.Verdict | main.go:43-51 | success iff nothing was logged and the cursor reached the end; otherwise the first logged error wins, and with no errors the result is "Not all expectations met" |
| FakeDB.DB.ExpectCall | main.go:53-56 | appends exactly one expectation with the given name, no parameters, no outputs and no error, and returns its position; earlier entries and all other fields are unchanged |
| FakeDB.DB.WithParams | main.go:58-63 | appends the given parameters, in order, to that expectation's parameters; nothing else changes |
| FakeDB.DB.WithOutput | main.go:65-72 | appends the given outputs, in order, to that expectation's outputs; nothing else changes |
| FakeDB.DB.WithError | main.go:74-77 | overwrites that expectation's declared error, including with nil; nothing else changes |
| FakeDB.DB.Query | main.go:79-106 | the new state is `Recorded` of the old state and of the call as checked against the expectation under the cursor; each argument cell ends up holding its `ProjectedValue`; the cursor stays within the queue |
| Queue.Recorded | main.go:79-106 | when the queue is exhausted, one "unexpected call" error is logged and the cursor, the error and the queue are unchanged; otherwise the cursor advances by exactly one, the error becomes the consumed expectation's, and the log grows by exactly `CallErrors`; in every case the log only grows, by at most three entries, and the cursor never decreases or passes the end |
| Queue.CallErrors | main.go:87-101 | a recognized call logs at most three errors, in the order name, parameters, outputs; a name mismatch comes first; it logs nothing iff the name matches and both checks pass |
| FakeDB.DB.VerifyParams | main.go:118-136 | returns exactly `ParamsVerdict` of the expected and observed parameters |
| Checks.ParamsVerdict | main.go:118-136 | the specification of `verifyParams`: no error iff the expected list is empty, or it has as many entries as the observed list and no position differs |
| Checks.ParamsVerdictCharacterized | main.go:118-136 | characterises `ParamsVerdict` branch by branch: an empty expected list accepts any call; more expected than observed gives "Not enough parameters"; fewer gives "Too many parameters"; with equal counts there is no error iff every position is deeply equal, and otherwise the error names the first differing position |
| Checks.MismatchFrom | main.go:127-133 | the specification of the comparison loop: a reported error is an "unexpected parameter" error for a position at or after i whose observed and expected arguments differ |
| Checks.MismatchFromCharacterized | main.go:127-135 | characterises `MismatchFrom`: the scan from position i finds no mismatch iff all positions are equal, and otherwise reports the first differing position |
| FakeDB.DB.SetOutputParams | main.go:138-158 | returns exactly `OutputVerdict`; afterwards every argument cell holds `ProjectedValue` of the first `WrittenPrefix` positions; no other memory changes |
| Checks.FirstNonPointer | main.go:143-152 | returns the first non-pointer position in the range, or the range's end; every position before it is a pointer |
| Checks.WrittenPrefix | main.go:139-155 | the written positions lie below both the argument count and the output count, are all pointers, and are none when no output is declared; the prefix stops exactly at the first non-pointer argument, or at the end of that range |
| Checks.OutputVerdict | main.go:138-158 | no error iff every position that has both an argument and a declared output is a pointer; otherwise the error gives the kind of the first non-pointer argument, which lies inside that range; with no error, every position of the range is written |
| Checks.ProjectedValue | main.go:143-155 | the specification of the `deepCopy` writes: a cell ends up holding either its prior value or the output of some written position that points to it; `ProjectedLastWrite`, `ProjectedUntouched` and `ProjectedDistinct` pin down which |
| Checks.ProjectedLastWrite | main.go:154 | a cell written at position i and not written again later holds the output declared for i |
| Checks.ProjectedUntouched | main.go:143-155 | a cell that no written position points to keeps its value |
| Checks.ProjectedDistinct | main.go:143-155 | with distinct destination pointers, each written pointer's cell holds the output of its own position and every other cell is unchanged |
| FakeDB.DB.SetError | main.go:160-162 | the handle's error becomes the declared error of the expectation under the cursor, nil included; nothing else changes |
| FakeDB.DB.Invoke | main.go:187-260 | every chaining operation performs `Query` under its own name and returns the same handle |
| FakeDB.DB.HasTable | main.go:227-230 | performs `Query` under the name "HasTable" and always answers true |
| Queue.RunSplit | main.go:79-106 | running a sequence of calls equals running its prefix and then its suffix |
| Queue.RunMonotone | main.go:79-106 | over any sequence of calls the cursor never decreases or passes the end, the queue is untouched, and the log only grows, by at most three entries per call |
| Queue.RunInOrder | main.go:79-106 | while expectations remain, the k-th call is checked against the expectation at `index + k` (FIFO); the cursor advances by one per call; the error is the last consumed expectation's |
| Queue.MatchedLogsNothing | main.go:87-101 | calls that match their expectations log no error |
| Queue.RunPastEnd | main.go:81-85 | once the queue is exhausted, each further call logs exactly one "unexpected call" error and changes nothing else |
| Queue.AllMatched | main.go:43-106 | exactly as many matching calls as pending expectations give a successful verdict, and the error of the last expectation |
| Queue.TooFewCalls | main.go:43-106 | fewer matching calls than pending expectations give "Not all expectations met" |
| Queue.TooManyCalls | main.go:43-106 | more calls than expectations, the first ones matching, give the "unexpected call" error of the first excess call |
| Queue.FirstErrorWins | main.go:43-45 | once an error is logged, no later sequence of calls changes the verdict |
| Scenarios.CreateWithMatchingParams | main.go:53-136 | declaring `Create(user)` and then calling `Create(user)` meets all expectations |
| Scenarios.FirstFillsDestination | main.go:138-158 | a declared output is written into the pointer passed to `First` |
| Scenarios.OutputToNonPointer | main.go:148-151 | an output declared for a non-pointer argument gives the kind error as the verdict |
| Scenarios.SaveSurfacesDeclaredError | main.go:74-77 | the error declared with `WithError` becomes the handle's error after `Save`, and the call itself is not a mismatch |
| Scenarios.WrongOperationIsSoft | main.go:87-105 | calling a different operation logs the name error first, and the cursor still advances |
| Scenarios.UndeclaredCall | main.go:81-85 | a call with nothing declared gives the "unexpected call" verdict |
| Scenarios.TooFewCallsMade | main.go:46-47 | one call against two expectations gives "Not all expectations met" |

## Left out

- `getFnName` (main.go:108-116) reads the operation name from the call stack. The name is an explicit argument of `Query` instead; `Invoke` passes each operation's own name.
- `deepCopy` (main.go:164-172) and `Copy` (main.go:67) go through JSON, and the source of `Copy` is not part of this model. Projection is an overwrite of the cell with the stored value. The model does not capture:
  - JSON's merging into existing structs and maps;
  - its number conversions;
  - unmarshalling failures, which the code discards anyway.
- WithOutput: stores the given values as they are. Values here are immutable, so the copy that `Copy` makes is implicit.
- The text of the error messages (`fmt.Sprintf` with `%s` at main.go:82 and 89, with `%v` at main.go:130 and 150) is not modelled. Each `TestError` carries the data the message names. For a pointer argument, `UnexpectedParameter` holds the cell reference, not the pointee as it was formatted at call time, so a later write to that cell shows in the logged error but not in Go's message.
- A nil argument makes `reflect.TypeOf(nil).Kind()` panic (main.go:148-149). Nil is not a `Param`. A typed nil pointer such as `(*User)(nil)` is outside the domain too: it has kind `Ptr` and passes main.go:149, then `json.Unmarshal` into it fails and the error is discarded at main.go:154. Every `Ptr` of the model points to a live `Cell`.
- `Value` covers booleans, integers, strings, slices and structs. Other Go kinds and Go's static types are abstracted away, so two values are deeply equal exactly when they are equal as Dafny data.
- `Open`, `New`, `DB()` and `Close` (main.go:38-41, 174-185) are `sqlmock`/`database/sql` plumbing. The constructor stands for the empty handle they create.
- The `Model` struct (main.go:31-36) has no behaviour.
- `ExpectCall` returns a pointer into the expectations slice. In Go that pointer can go stale when a later `append` reallocates the slice. The model's handle is the expectation's position, so a builder always updates the expectation it was given.
- VerifyParams, SetOutputParams, SetError: require `index < |expectations|`. `query` only calls them after its own bounds check (main.go:81-85).
- Invoke: requires exactly one argument for the operations declared with a single `value interface{}` parameter (`Save`, `Create`, `Model`, `Table`, `Joins`, `Scan`, `Delete`). That is their Go signature.
- The Go `int` cursor cannot overflow in any feasible test, so it is an unbounded `nat`.
- Concurrent use of one handle is unspecified in the source and is not modelled.
