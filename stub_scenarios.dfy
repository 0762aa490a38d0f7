/**
 * The stub clauses called on typical chains over a fresh mocked method
 * `int func(int)`, with the queues that result.
 */
module StubScenarios {
  import opened Common
  import opened Stubbing

  /**
   * `When(7).ThenReturn(1)`, then `When(7)` again on the same arguments: the
   * second when-clause reuses the registered queue (no second queue appears)
   * and still appends a default entry to it.
   */
  method WhenReusesQueue() returns (afterChain: seq<Behavior<int>>, afterReuse: seq<Behavior<int>>, queues: nat)
    ensures afterChain == [DefaultReturn, ReturnValue(1)]
    ensures afterReuse == afterChain + [DefaultReturn]
    ensures queues == 1
  {
    var m := new MethodMock<int, int>();
    var stub := new StubFunctionClause(m);
    var first := stub.When(7);
    assert m.invocationMocks == [first.invocationMock] && m.Keys() == [7];
    var next := first.ThenReturn(1);
    afterChain := first.invocationMock.behaviors;
    assert m.Keys() == [7] && Find(m.Keys(), 7) == Some(0);
    assert m.Queue(7) == afterChain;
    var again := stub.When(7);
    assert m.invocationMocks == [first.invocationMock];
    queues := |m.invocationMocks|;
    afterReuse := again.invocationMock.behaviors;
  }

  /** `When(7).ThenReturn(1).ThenReturn(2)`, then a bare `Return(4)`: the chain is discarded. */
  method ChainThenBareReturn() returns (afterChain: seq<Behavior<int>>, afterBare: seq<Behavior<int>>)
    ensures afterChain == [DefaultReturn, ReturnValue(1), ReturnValue(2)]
    ensures afterBare == [ReturnValue(4)]
  {
    var m := new MethodMock<int, int>();
    var stub := new StubFunctionClause(m);
    var first := stub.When(7);
    assert m.invocationMocks == [first.invocationMock];
    var next := first.ThenReturn(1);
    next := next.ThenReturn(2);
    afterChain := first.invocationMock.behaviors;
    var bare := stub.Return(4);
    afterBare := first.invocationMock.behaviors;
  }

  /**
   * `When(1).Return(10)`, then `When(2).ThenReturn(20)`, then a bare `Throw()`:
   * only the queue registered last is reset.
   */
  method BareThrowHitsLastQueue() returns (queue1: seq<Behavior<int>>, queue2: seq<Behavior<int>>)
    ensures queue1 == [ReturnValue(10)]
    ensures queue2 == [Behavior.Throw]
  {
    var m := new MethodMock<int, int>();
    var stub := new StubFunctionClause(m);
    var c1 := stub.When(1);
    c1 := c1.Return(10);
    var c2 := stub.When(2);
    c2 := c2.ThenReturn(20);
    assert m.invocationMocks == [c1.invocationMock, c2.invocationMock];
    var bare := stub.Throw();
    queue1, queue2 := c1.invocationMock.behaviors, c2.invocationMock.behaviors;
  }

  /**
   * `ThenReturn(1).Return(2).ThenThrow()` on any function when-clause: the class
   * calls follow the chain `ApplyAll` describes, and since `Return(2)` is the last
   * reset, the queue ends as `[return 2, throw]` whatever it held before.
   */
  method ResetInsideChain(c: FunctionWhenClause<int, int>) returns (after: seq<Behavior<int>>)
    modifies c.invocationMock
    ensures after == c.invocationMock.behaviors
    ensures after == ApplyAll(old(c.invocationMock.behaviors), [Extend(ReturnValue(1)), Reset(ReturnValue(2)), Extend(Behavior.Throw)])
    ensures after == [ReturnValue(2), Behavior.Throw]
  {
    ghost var q0 := c.invocationMock.behaviors;
    ghost var ops := [Extend(ReturnValue(1)), Reset(ReturnValue(2)), Extend(Behavior.Throw)];
    var next := c.ThenReturn(1);
    next := next.Return(2);
    next := next.ThenThrow();
    after := c.invocationMock.behaviors;
    assert ApplyAll(q0, ops) == ApplyAll(Apply(q0, ops[0]), ops[1..]);
    assert ops[1..] == [ops[1], ops[2]] && [ops[1], ops[2]][1..] == [ops[2]];
    LastResetWins(q0, ops, 1);
    assert Entries(ops[1..]) == [ReturnValue(2), Behavior.Throw];
  }

  /** A procedure: `When(5).ThenThrow()`, then a bare `Do(f)`. */
  method ProcedureChainThenBareDo(f: Callback) returns (afterChain: seq<Behavior<()>>, afterBare: seq<Behavior<()>>)
    ensures afterChain == [Void, Behavior.Throw]
    ensures afterBare == [Behavior.Do(f)]
  {
    var m := new MethodMock<(), int>();
    var stub := new StubProcedureClause(m);
    var c := stub.When(5);
    c := c.ThenThrow();
    afterChain := c.invocationMock.behaviors;
    var bare := stub.Do(f);
    afterBare := c.invocationMock.behaviors;
  }
}
