# mock4cpp: stub clauses and call verification, in Dafny

This project models two parts of the mock4cpp mocking engine and proves what they promise.

**The stub-clause builder** (`mock4cpp/ClousesImpl.h`, module `Stubbing` in `stubbing.dfy`).
- A mocked method (`MethodMock`) owns a list of invocation queues (`InvocationMock`), one per argument snapshot given to `When`.
- Each queue is an ordered list of behaviours: default return, void, return a value, throw, or call a callback.
- The four clause classes (`FunctionWhenClause`, `ProcedureWhenClause`, `StubFunctionClause`, `StubProcedureClause`) are Dafny classes over those lists.
- Their methods change the lists in place, with `modifies` clauses.
- Building a when-clause appends a default entry (default return, or void for a procedure).
- `ThenReturn` and `ThenThrow` append one entry.
- `Return`, `Throw` and `Do` clear the queue and then append one entry.
- `When(args)` reuses the queue registered for equal arguments, or creates and registers one.
- The bare `Return`, `Throw` and `Do` on the stub act on the most recently registered queue.
- Every clause method is specified against the pure step function `Apply`, over `Extend(entry)` and `Reset(entry)`.
- Lemmas about `ApplyAll`, the fold of `Apply` over a chain, state what whole chains do.

**The verification algebra** (`mock4cpp/tests/mock4cpp_tests/verification_tests.cpp`, module `Verification` in `verification.dfy`).
- Every call on a mock is appended to its call ledger (class `Mock`).
- A matcher is a method plus an optional `Using(args)` filter. A pattern is a sequence of matchers: `+` is concatenation and `* n` is `Repeat`.
- `Count` counts a pattern's occurrences by a greedy, left-to-right, non-overlapping scan of the ledger.
- `Verify` and `VerifyTimes` turn the count and a cardinality into an outcome. The cardinality is `Never`, `AtLeastOnce` (the default), `Once`, `Twice` or `Times(n)`. The outcome is a pass, a verification failure carrying the expected cardinality and the actual count, or an illegal-argument error for a negative `Times`.

**The test fixture** (module `BasicVerification` in `basic_verification.dfy`).
- Each test of `BasicVerification` is a method.
- The method drives a fresh `Mock` the way the test does.
- It returns, in order, the outcome of every verification statement.
- Its `ensures` pins that list: `Passed` where the test expects silence, the error where it expects `ASSERT_THROW`.

`stub_scenarios.dfy` (module `StubScenarios`) calls the stub clauses on typical chains and states the resulting queues.

`common.dfy` holds the shared types:
- `Option`;
- `MethodId`, an opaque equality token for a method of the mocked interface;
- `Callback`, an opaque tag for the callback handed to `Do`.

The default entry comes from the when-clause constructor (`ClousesImpl.h:16`, `:108`), not from creating the queue. So every `When` appends one, whether it reuses the queue or creates it, and `When(x).ThenReturn(1)` followed by `When(x)` leaves `[default, return 1, default]` (`StubScenarios.WhenReusesQueue`).

## Model

| member | source | states |
|---|---|---|
| Stubbing.InvocationMock.constructor | mock4cpp/ClousesImpl.h:66 | a newly created queue keeps its argument snapshot and holds no behaviours yet |
| Stubbing.InvocationMock.Append | mock4cpp/ClousesImpl.h:23 | appending puts the entry at the end and leaves the earlier entries as they were |
| Stubbing.InvocationMock.Clear | mock4cpp/ClousesImpl.h:35 | clearing leaves the queue empty |
| Stubbing.MethodMock.constructor | mock4cpp/ClousesImpl.h:96 | the method mock a stub clause holds is assumed to start with no registered queues (an assumption about `MethodMock.h`), and the no-duplicate-key invariant holds from the start |
| Stubbing.MethodMock.GetInvocationMock | mock4cpp/ClousesImpl.h:64-65 | the lookup returns null exactly when no queue is registered for the arguments; otherwise it returns a registered queue with equal arguments, and no other queue has them |
| Stubbing.MethodMock.Append | mock4cpp/ClousesImpl.h:67 | registering adds the queue at the end of the method's list |
| Stubbing.MethodMock.Last | mock4cpp/ClousesImpl.h:77 | `last()` is one of the method's registered queues, and, while keys are distinct, the key lookup for its arguments gives the last position |
| Stubbing.LastIsFoundLast | mock4cpp/ClousesImpl.h:64-67 | with distinct keys, looking up the arguments of the most recently registered queue gives the last position |
| Stubbing.Find | mock4cpp/ClousesImpl.h:64 | the key lookup fails exactly when the key is absent; otherwise it gives the position of the first equal key |
| Stubbing.FindAfterAppend | mock4cpp/ClousesImpl.h:67 | registering a new key does not move the positions of keys already present, and the new key is found at the end |
| Stubbing.GetOrCreate | mock4cpp/ClousesImpl.h:64-68 | reuse the queue for equal arguments, or create a fresh empty one and register it at the end; the list grows by at most one key and keeps distinct keys; the returned queue holds exactly what the method had queued for those arguments |
| Stubbing.FunctionWhenClause.constructor | mock4cpp/ClousesImpl.h:13-17 | building a function when-clause appends exactly one default-return entry to its target queue, after the entries already there |
| Stubbing.FunctionWhenClause.ThenReturn | mock4cpp/ClousesImpl.h:21-25 | the queue grows by one return entry at the end, and the chain continues on the same clause |
| Stubbing.FunctionWhenClause.ThenThrow | mock4cpp/ClousesImpl.h:27-31 | the queue grows by one throw entry at the end, and the chain continues on the same clause |
| Stubbing.FunctionWhenClause.Return | mock4cpp/ClousesImpl.h:33-38 | whatever the queue held, it becomes exactly the one return entry; same clause returned |
| Stubbing.FunctionWhenClause.Throw | mock4cpp/ClousesImpl.h:40-45 | whatever the queue held, it becomes exactly the one throw entry; same clause returned |
| Stubbing.FunctionWhenClause.Do | mock4cpp/ClousesImpl.h:47-52 | whatever the queue held, it becomes exactly the one callback entry; same clause returned |
| Stubbing.StubFunctionClause.constructor | mock4cpp/ClousesImpl.h:60-61 | the stub clause acts on the given mocked method |
| Stubbing.StubFunctionClause.When | mock4cpp/ClousesImpl.h:63-73 | the clause's queue has the given arguments and ends up holding what was queued for them plus one default entry; on a reused key the list of queues is unchanged, otherwise exactly one fresh queue is registered at the end; keys stay distinct; every other queue keeps its behaviours |
| Stubbing.StubFunctionClause.Return | mock4cpp/ClousesImpl.h:75-80 | only the most recently registered queue changes, and it becomes exactly the one return entry; every earlier queue keeps its behaviours |
| Stubbing.StubFunctionClause.Throw | mock4cpp/ClousesImpl.h:82-87 | only the most recently registered queue changes, and it becomes exactly the one throw entry; every earlier queue keeps its behaviours |
| Stubbing.StubFunctionClause.Do | mock4cpp/ClousesImpl.h:89-93 | only the most recently registered queue changes, and it becomes exactly the one callback entry; every earlier queue keeps its behaviours |
| Stubbing.ProcedureWhenClause.constructor | mock4cpp/ClousesImpl.h:105-109 | building a procedure when-clause appends exactly one void entry to its target queue, after the entries already there |
| Stubbing.ProcedureWhenClause.ThenReturn | mock4cpp/ClousesImpl.h:113-117 | the queue grows by one void entry at the end; same clause returned |
| Stubbing.ProcedureWhenClause.ThenThrow | mock4cpp/ClousesImpl.h:119-123 | the queue grows by one throw entry at the end; same clause returned |
| Stubbing.ProcedureWhenClause.Return | mock4cpp/ClousesImpl.h:125-130 | the queue becomes exactly the one void entry; same clause returned |
| Stubbing.ProcedureWhenClause.Throw | mock4cpp/ClousesImpl.h:132-137 | the queue becomes exactly the one throw entry; same clause returned |
| Stubbing.ProcedureWhenClause.Do | mock4cpp/ClousesImpl.h:139-145 | the queue becomes exactly the one callback entry; same clause returned |
| Stubbing.StubProcedureClause.constructor | mock4cpp/ClousesImpl.h:152-153 | the stub clause acts on the given mocked procedure |
| Stubbing.StubProcedureClause.When | mock4cpp/ClousesImpl.h:155-164 | as the function `When`, with a void entry appended to the reused or newly registered queue |
| Stubbing.StubProcedureClause.Return | mock4cpp/ClousesImpl.h:166-171 | only the last registered queue changes, becoming exactly one void entry; earlier queues keep their behaviours |
| Stubbing.StubProcedureClause.Throw | mock4cpp/ClousesImpl.h:173-178 | only the last registered queue changes, becoming exactly one throw entry; earlier queues keep their behaviours |
| Stubbing.StubProcedureClause.Do | mock4cpp/ClousesImpl.h:180-184 | only the last registered queue changes, becoming exactly one callback entry; earlier queues keep their behaviours |
| Stubbing.ExtendOnlyChain | mock4cpp/ClousesImpl.h:21-31 | a chain of extending calls keeps the queue's prefix and adds the chain's entries at the end, in order |
| Stubbing.LastResetWins | mock4cpp/ClousesImpl.h:33-52 | after a chain whose last reset is at position k, the queue is that reset's entry followed by the entries extended after it, whatever it held before |
| Stubbing.ResetIdempotent | mock4cpp/ClousesImpl.h:33-38 | resetting twice with the same entry leaves the same one-entry queue as resetting once |
| Stubbing.ChainKeepsQueueNonEmpty | mock4cpp/ClousesImpl.h:13-17 | a queue that a clause has been built on is never empty after any further clause calls |
| Stubbing.ApplyAllSplit | mock4cpp/ClousesImpl.h:24 | running a chain equals running its first k calls and then the rest on the result, so a chain acts on one queue step by step |
| Stubbing.Apply | mock4cpp/ClousesImpl.h:21-52 | one clause call always leaves its entry at the end of the queue; a `Then…` call grows the queue by one, a bare `Return`/`Throw`/`Do` leaves a queue of that one entry |
| Stubbing.ChainEndsWithLastEntry | mock4cpp/ClousesImpl.h:21-52 | after any non-empty chain of clause calls the queue is non-empty, ends with the last call's entry, and has grown by at most one entry per call |
| StubScenarios.WhenReusesQueue | mock4cpp/ClousesImpl.h:63-73 | `When(7).ThenReturn(1)` gives `[default, return 1]`; a second `When(7)` registers no second queue and appends another default entry |
| StubScenarios.ChainThenBareReturn | mock4cpp/ClousesImpl.h:75-80 | after `When(7).ThenReturn(1).ThenReturn(2)`, a bare `Return(4)` replaces the whole chain with `[return 4]` |
| StubScenarios.BareThrowHitsLastQueue | mock4cpp/ClousesImpl.h:82-87 | with queues for 1 and then 2, a bare `Throw()` resets only the queue for 2 |
| StubScenarios.ProcedureChainThenBareDo | mock4cpp/ClousesImpl.h:180-184 | a procedure `When(5).ThenThrow()` gives `[void, throw]`; a bare `Do(f)` leaves `[do f]` |
| StubScenarios.ResetInsideChain | mock4cpp/ClousesImpl.h:21-38 | `ThenReturn(1).Return(2).ThenThrow()` on any function when-clause leaves the queue the clause-chain fold gives for that chain, which is `[return 2, throw]` whatever the queue held before |
| Verification.Repeat | mock4cpp/tests/mock4cpp_tests/verification_tests.cpp:190-195 | `p * n` has n times the length of p |
| Verification.RepeatElements | mock4cpp/tests/mock4cpp_tests/verification_tests.cpp:190-195 | every matcher of `p * n` is a matcher of p |
| Verification.RepeatAdd | mock4cpp/tests/mock4cpp_tests/verification_tests.cpp:198 | `p * a + p * b` is `p * (a + b)` |
| Verification.AnyAcceptsEveryCallOf | mock4cpp/tests/mock4cpp_tests/verification_tests.cpp:42-50 | `mock[&I::m]` accepts a call exactly when it is a call of m, whatever its arguments |
| Verification.UsingAcceptsOnlyEqualArgs | mock4cpp/tests/mock4cpp_tests/verification_tests.cpp:150-157 | `mock[&I::m].Using(a)` accepts a call exactly when it is a call of m with arguments equal to a |
| Verification.Count | mock4cpp/tests/mock4cpp_tests/verification_tests.cpp:159-201 | the non-overlapping count times the pattern length never exceeds the ledger length (count ≤ \|ledger\| / \|pattern\|) |
| Verification.ConcatMatchesAt | mock4cpp/tests/mock4cpp_tests/verification_tests.cpp:169-175 | `p + q` matches at i exactly when p matches at i and q matches right after it |
| Verification.ShiftMatchesAt | mock4cpp/tests/mock4cpp_tests/verification_tests.cpp:169-173 | a match in a suffix of the ledger is a match in the whole ledger at the shifted position |
| Verification.CountPositiveIff | mock4cpp/tests/mock4cpp_tests/verification_tests.cpp:169-175 | the count is positive exactly when some window of consecutive calls matches the pattern |
| Verification.CountMonotone | mock4cpp/tests/mock4cpp_tests/verification_tests.cpp:85-95 | appending calls to the ledger never lowers any pattern's count |
| Verification.Occurrences | mock4cpp/tests/mock4cpp_tests/verification_tests.cpp:129-135 | a single matcher accepts at most as many calls as the ledger holds |
| Verification.SingleMatchesAt | mock4cpp/tests/mock4cpp_tests/verification_tests.cpp:155-156 | a one-call pattern matches at i exactly when call i exists and the matcher accepts it |
| Verification.CountSingle | mock4cpp/tests/mock4cpp_tests/verification_tests.cpp:129-135 | a one-call pattern counts exactly the calls its matcher accepts, so `func` counts only `func` calls |
| Verification.OccurrencesAppend | mock4cpp/tests/mock4cpp_tests/verification_tests.cpp:85-92 | one more call adds one accepted call if the matcher accepts it, else none |
| Verification.CountAfterCall | mock4cpp/tests/mock4cpp_tests/verification_tests.cpp:85-92 | one more call raises a one-call pattern's count by one if its matcher accepts the call, else leaves it |
| Verification.CountWhenAllMatch | mock4cpp/tests/mock4cpp_tests/verification_tests.cpp:190-195 | when every matcher accepts every call, the count is the ledger length divided by the pattern length, rounded down |
| Verification.RepeatedAnyCount | mock4cpp/tests/mock4cpp_tests/verification_tests.cpp:190-195 | on a ledger of calls to one method, `m * k` counts the ledger length divided by k, rounded down |
| Verification.AbsentMethodCountsZero | mock4cpp/tests/mock4cpp_tests/verification_tests.cpp:36-40 | a pattern naming a method with no call in the ledger counts zero |
| Verification.Verify | mock4cpp/tests/mock4cpp_tests/verification_tests.cpp:29-34 | a check passes exactly when its cardinality accepts the count; otherwise the failure carries the expected cardinality and the actual count, and it is never an argument error |
| Verification.NamedCardinalities | mock4cpp/tests/mock4cpp_tests/verification_tests.cpp:73-142 | `Never`, `Once` and `Twice` accept the same counts as `Times(0)`, `Times(1)` and `Times(2)`, and the default check accepts exactly the counts `Never` rejects |
| Verification.VerifyTimes | mock4cpp/tests/mock4cpp_tests/verification_tests.cpp:144-148 | `Times(n)` is an argument error exactly when n is negative, whatever the ledger; otherwise it passes exactly when the count is n, and its failure carries the count |
| Verification.NeverPassesIffNoMatch | mock4cpp/tests/mock4cpp_tests/verification_tests.cpp:98-115 | `Never` passes exactly when no window of the ledger matches the pattern |
| Verification.AtLeastOncePassesIffSomeMatch | mock4cpp/tests/mock4cpp_tests/verification_tests.cpp:52-71 | the default check passes exactly when some window of the ledger matches the pattern |
| Verification.ExactCheckFailsAfterMatchingCall | mock4cpp/tests/mock4cpp_tests/verification_tests.cpp:91-95 | a `Never`, `Once`, `Twice` or `Times` check that passed fails once another accepted call is appended, reporting the count plus one |
| Verification.Mock.constructor | mock4cpp/tests/mock4cpp_tests/verification_tests.cpp:30 | a fresh mock has no stubbed methods and an empty ledger |
| Verification.Mock.Stub | mock4cpp/tests/mock4cpp_tests/verification_tests.cpp:31 | stubbing adds the methods and leaves the ledger as it was |
| Verification.Mock.Invoke | mock4cpp/tests/mock4cpp_tests/verification_tests.cpp:46-47 | a call is appended at the end of the ledger with the next sequence number; earlier records are untouched and sequence numbers keep increasing |
| Verification.UnstubbedMethodCountsZero | mock4cpp/tests/mock4cpp_tests/verification_tests.cpp:36-40 | a method that was never stubbed has no calls, so its default check fails with count 0 and `Never` passes |
| BasicVerification.Call | mock4cpp/tests/mock4cpp_tests/verification_tests.cpp:46-47 | a call on the fake instance is recorded and raises each one-call pattern's count by one exactly when the pattern accepts it |
| BasicVerification.VerifyShouldThrowIfMethodWasNotCalled | mock4cpp/tests/mock4cpp_tests/verification_tests.cpp:29-34 | stubbed but not called: both default checks fail with count 0 |
| BasicVerification.VerifyShouldThrowIfMethodWasNotStubbed | mock4cpp/tests/mock4cpp_tests/verification_tests.cpp:36-40 | never stubbed: both default checks fail with count 0 |
| BasicVerification.VerifyShouldNotThrowIfMethodWasCalled | mock4cpp/tests/mock4cpp_tests/verification_tests.cpp:42-50 | after one call each, both default checks pass |
| BasicVerification.VerifyMethodWasCalledAtLeastOnce | mock4cpp/tests/mock4cpp_tests/verification_tests.cpp:52-71 | the default check fails before any call and passes after one and after two calls |
| BasicVerification.VerifyMethodWasCalledExactlyOnce | mock4cpp/tests/mock4cpp_tests/verification_tests.cpp:73-96 | `Once` fails with 0 before and after stubbing, passes after one call and fails with 2 after two |
| BasicVerification.VerifyMethodWasNeverCalled | mock4cpp/tests/mock4cpp_tests/verification_tests.cpp:98-115 | `Never` passes before and after stubbing and fails with 1 after a call |
| BasicVerification.VerifyMethodWasCalledExactlyXTimes | mock4cpp/tests/mock4cpp_tests/verification_tests.cpp:117-142 | `Times(2)` fails with 0, passes after `func,func,proc,proc` (each method counted 2) and fails with 3 after one more call each |
| BasicVerification.ShouldThrowIllegalArgumentOnNegativeTimes | mock4cpp/tests/mock4cpp_tests/verification_tests.cpp:144-148 | `Times(-1)` is an argument error for both methods on a mock with nothing stubbed |
| BasicVerification.VerifyWithFilter | mock4cpp/tests/mock4cpp_tests/verification_tests.cpp:150-157 | after `func(1)`, `Using(1)` passes and `Using(2)` fails with count 0 |
| BasicVerification.PairMatchesAt | mock4cpp/tests/mock4cpp_tests/verification_tests.cpp:169-173 | a two-call pattern matches exactly where its two matchers accept two consecutive calls |
| BasicVerification.CountOneThenTwo | mock4cpp/tests/mock4cpp_tests/verification_tests.cpp:169 | on `1,2,3,4`, `Using(1)+Using(2)` counts 1 |
| BasicVerification.CountTwoThenThree | mock4cpp/tests/mock4cpp_tests/verification_tests.cpp:170 | on `1,2,3,4`, `Using(2)+Using(3)` counts 1 |
| BasicVerification.CountThreeThenFour | mock4cpp/tests/mock4cpp_tests/verification_tests.cpp:171 | on `1,2,3,4`, `Using(3)+Using(4)` counts 1 |
| BasicVerification.NoOneThenThree | mock4cpp/tests/mock4cpp_tests/verification_tests.cpp:173-175 | on `1,2,3,4`, `Using(1)+Using(3)` matches nowhere, since a 1 is never directly followed by a 3 |
| BasicVerification.CountOneTwoThree | mock4cpp/tests/mock4cpp_tests/verification_tests.cpp:197 | on `1,2,3,1,2,3`, `Using(1)+Using(2)+Using(3)` counts 2 |
| BasicVerification.CountOneTwoThreeRepeated | mock4cpp/tests/mock4cpp_tests/verification_tests.cpp:198 | on `1,2,3,1,2,3`, `(Using(1)+Using(2)+Using(3)) * 2` counts 1 |
| BasicVerification.NoOneTwiceInARow | mock4cpp/tests/mock4cpp_tests/verification_tests.cpp:199-201 | on `1,2,3,1,2,3`, `Using(1) * 2` matches nowhere |
| BasicVerification.ConcatenatedSequenceOutcomes | mock4cpp/tests/mock4cpp_tests/verification_tests.cpp:169-175 | the six statements of the concatenation test give pass, pass, pass, pass, pass and a default-check failure with count 0 |
| BasicVerification.RepeatedAnyOutcomes | mock4cpp/tests/mock4cpp_tests/verification_tests.cpp:190-195 | `func * k` for k = 1..6 counts 6, 3, 2, 1, 1, 1 on `1,2,3,1,2,3` |
| BasicVerification.RepeatedUsingOutcomes | mock4cpp/tests/mock4cpp_tests/verification_tests.cpp:197-201 | the filtered statements of the repetition test pass, and the default check of `Using(1) * 2` fails with 0 |
| BasicVerification.VerifyConcatenatedSequence | mock4cpp/tests/mock4cpp_tests/verification_tests.cpp:159-176 | after `func(1..4)` the test's statements give exactly the expected outcomes |
| BasicVerification.VerifyRepeatedSequence | mock4cpp/tests/mock4cpp_tests/verification_tests.cpp:178-202 | after `func(1,2,3,1,2,3)` the test's statements give exactly the expected outcomes |

## Left out

- `MethodMock.h` is not part of this model. It holds `getInvocationMock`, `append`, `last` and `clear` and the invocation queue classes. The model assumes:
  - lookup finds the queue whose argument snapshot is equal;
  - `append` adds at the end;
  - `last()` is the most recently appended queue;
  - `clear` empties a queue.
- What a behaviour does when the mocked method is called is not modelled. This covers returning, throwing, running the callback, and the rule that entries are consumed from the front except the last one. That code lives in `MethodMock.h`.
- Stubbing.MethodMock.constructor: a new `MethodMock` holding no queues, and a new `InvocationMock` holding no behaviours, are assumptions about `MethodMock.h`, where both are built. The generic queue that answers any arguments, to which a call falls back when no argument snapshot matches, is not modelled either. So a bare `Return`/`Throw`/`Do` right after `Stub(...)`, with no `When` before it, is outside the model.
- Stubbing.StubFunctionClause.Return: the bare `Return`, `Throw` and `Do`, on both stub classes, require at least one registered queue. The source calls `last()` with no check, and what `last()` does on an empty list is decided in `MethodMock.h`.
- The dynamic proxy (`mock.get()`, `mock[&I::m]` indexing and vtable faking) is not modelled. A method is an opaque `MethodId`, and a call on the fake instance is `Mock.Invoke`.
- Verification.Mock.Invoke: requires the method to be stubbed. Rejecting calls to unstubbed methods is the proxy's job, upstream of the ledger.
- Heap allocation and ownership are not modelled. Clauses and queues are created with `new` and never deleted. Dafny objects are garbage collected, so nothing about this is stated.
- `Do` callbacks and thrown exception types are opaque tags (`Callback`, `Behavior.Throw`). The tpunit++ test framework and `ASSERT_THROW` are also left out: each test returns its outcomes as values, and exception messages are not modelled.
- Matchers, counting and cardinalities are defined from the statements of `verification_tests.cpp`, and every one of those statements is proved in `BasicVerification`. The engine's own matcher and evaluator code is not part of this model.
- Concatenation requires its calls to be adjacent in the whole ledger of the mock, across all methods. The tests only use one method per sequence, so this strict reading is an assumption.
- Verification.Count: requires a non-empty pattern. `verification_tests.cpp` never builds `p * 0`, so how an empty pattern counts is left open.
- Sequence numbers are a counter per mock. The engine may share one counter between mocks; only their order matters here.
