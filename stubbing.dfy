/**
 * The stub-clause builder of the mock engine.
 *
 * A mocked method (MethodMock) owns an ordered list of invocation queues
 * (InvocationMock), one per argument snapshot given to `When`. Each queue is an
 * ordered list of behaviours. The clause objects change those lists in three ways
 * only: append one entry at the end, clear and then append one entry, and look up
 * a queue by its arguments, creating and registering it when it is missing.
 */
module Stubbing {
  import opened Common

  /** One configured reaction of a stubbed call. */
  datatype Behavior<R> =
    | DefaultReturn          // the entry a function when-clause starts with
    | Void                   // the "return" of a procedure
    | ReturnValue(value: R)
    | Throw
    | Do(callback: Callback)

  // ---------------------------------------------------------------------------
  // The clause protocol as a state machine over one queue
  // ---------------------------------------------------------------------------

  /** What one clause call does to the queue it targets: extend it, or reset it. */
  datatype ClauseOp<R> = Extend(entry: Behavior<R>) | Reset(entry: Behavior<R>)

  /** One step: the step's entry always ends the queue; an extension grows it by one, a reset leaves only that entry. */
  function Apply<R>(q: seq<Behavior<R>>, op: ClauseOp<R>): (r: seq<Behavior<R>>)
    ensures |r| > 0 && r[|r| - 1] == op.entry
    ensures |r| == if op.Extend? then |q| + 1 else 1
  {
    match op
    case Extend(b) => q + [b]
    case Reset(b) => [b]
  }

  /** The queue after a chain of clause calls, applied left to right. */
  function ApplyAll<R>(q: seq<Behavior<R>>, ops: seq<ClauseOp<R>>): (r: seq<Behavior<R>>)
    decreases |ops|
  {
    if ops == [] then q else ApplyAll(Apply(q, ops[0]), ops[1..])
  }

  /** The entries that a chain of clause calls hands over, in order. */
  function Entries<R>(ops: seq<ClauseOp<R>>): (es: seq<Behavior<R>>)
    ensures |es| == |ops|
    ensures forall i :: 0 <= i < |ops| ==> es[i] == ops[i].entry
  {
    if ops == [] then [] else [ops[0].entry] + Entries(ops[1..])
  }

  lemma {:induction false} ApplyAllSplit<R>(q: seq<Behavior<R>>, ops: seq<ClauseOp<R>>, k: nat)
    requires k <= |ops|
    ensures ApplyAll(q, ops) == ApplyAll(ApplyAll(q, ops[..k]), ops[k..])
    decreases k
  {
    if k > 0 {
      assert ops[..k][0] == ops[0];
      assert ops[..k][1..] == ops[1..][..k - 1];
      assert ops[k..] == ops[1..][k - 1..];
      ApplyAllSplit(Apply(q, ops[0]), ops[1..], k - 1);
    }
  }

  /**
   * Whatever a chain of clause calls does, its last call's entry ends the queue,
   * and each call adds at most one entry.
   */
  lemma {:induction false} ChainEndsWithLastEntry<R>(q: seq<Behavior<R>>, ops: seq<ClauseOp<R>>)
    requires ops != []
    ensures 0 < |ApplyAll(q, ops)| <= |q| + |ops|
    ensures ApplyAll(q, ops)[|ApplyAll(q, ops)| - 1] == ops[|ops| - 1].entry
    decreases |ops|
  {
    if |ops| > 1 {
      ChainEndsWithLastEntry(Apply(q, ops[0]), ops[1..]);
      assert ops[1..][|ops| - 2] == ops[|ops| - 1];
    }
  }

  /** A chain of extending calls keeps the queue as it was and adds its entries at the end. */
  lemma {:induction false} ExtendOnlyChain<R>(q: seq<Behavior<R>>, ops: seq<ClauseOp<R>>)
    requires forall i :: 0 <= i < |ops| ==> ops[i].Extend?
    ensures ApplyAll(q, ops) == q + Entries(ops)
    decreases |ops|
  {
    if ops != [] {
      var e, rest := ops[0].entry, ops[1..];
      forall i | 0 <= i < |rest|
        ensures rest[i].Extend?
      {
        assert rest[i] == ops[i + 1];
      }
      assert ops[0].Extend? && Apply(q, ops[0]) == q + [e];
      ExtendOnlyChain(q + [e], rest);
      assert Entries(ops) == [e] + Entries(rest);
      assert q + [e] + Entries(rest) == q + ([e] + Entries(rest));
    }
  }

  /**
   * The last reset of a chain wins: whatever the queue held before, it ends up
   * holding the reset entry followed by the entries extended after it.
   */
  lemma {:induction false} LastResetWins<R>(q: seq<Behavior<R>>, ops: seq<ClauseOp<R>>, k: nat)
    requires k < |ops| && ops[k].Reset?
    requires forall i :: k < i < |ops| ==> ops[i].Extend?
    ensures ApplyAll(q, ops) == Entries(ops[k..])
  {
    ApplyAllSplit(q, ops, k);
    var mid := ApplyAll(q, ops[..k]);
    assert ops[k..][0] == ops[k];
    assert ops[k..][1..] == ops[k + 1..];
    assert ApplyAll(mid, ops[k..]) == ApplyAll([ops[k].entry], ops[k + 1..]);
    ExtendOnlyChain([ops[k].entry], ops[k + 1..]);
    assert Entries(ops[k..]) == [ops[k].entry] + Entries(ops[k + 1..]);
  }

  /** Resetting twice with the same entry leaves the same one-entry queue as resetting once. */
  lemma ResetIdempotent<R>(q: seq<Behavior<R>>, b: Behavior<R>)
    ensures ApplyAll(q, [Reset(b), Reset(b)]) == ApplyAll(q, [Reset(b)]) == [b]
  {
  }

  /** A queue that holds an entry never becomes empty, whatever clause calls follow. */
  lemma {:induction false} ChainKeepsQueueNonEmpty<R>(q: seq<Behavior<R>>, ops: seq<ClauseOp<R>>)
    requires |q| > 0 || |ops| > 0
    ensures |ApplyAll(q, ops)| > 0
    decreases |ops|
  {
    if ops != [] {
      ChainKeepsQueueNonEmpty(Apply(q, ops[0]), ops[1..]);
    }
  }

  // ---------------------------------------------------------------------------
  // Lookup of a queue by its argument snapshot
  // ---------------------------------------------------------------------------

  /** The position of the first key equal to `a`, if there is one. */
  function Find<A(==)>(keys: seq<A>, a: A): (r: Option<nat>)
    ensures r.None? <==> a !in keys
    ensures r.Some? ==> r.value < |keys| && keys[r.value] == a && a !in keys[..r.value]
  {
    if keys == [] then None
    else if keys[0] == a then Some(0)
    else
      match Find(keys[1..], a)
      case None => None
      case Some(i) =>
        assert keys[..i + 1] == [keys[0]] + keys[1..][..i];
        Some(i + 1)
  }

  /** Registering a new key does not move any key already present. */
  lemma {:induction false} FindAfterAppend<A>(keys: seq<A>, b: A, a: A)
    requires a in keys || a == b
    ensures Find(keys + [b], a) == if a in keys then Find(keys, a) else Some(|keys|)
  {
    var r := Find(keys + [b], a);
    if a in keys {
      var i := Find(keys, a).value;
      assert (keys + [b])[i] == a;
      assert (keys + [b])[..r.value] == keys[..r.value] by {
        assert r.value <= i;
      }
      assert keys[..i] == (keys + [b])[..i];
    } else {
      assert (keys + [b])[..|keys|] == keys;
    }
  }

  /** The argument snapshots of a list of queues, in registration order. */
  function ArgsOf<R, A>(qs: seq<InvocationMock<R, A>>): (ks: seq<A>)
    ensures |ks| == |qs| && forall i :: 0 <= i < |qs| ==> ks[i] == qs[i].args
  {
    if qs == [] then [] else ArgsOf(qs[..|qs| - 1]) + [qs[|qs| - 1].args]
  }

  // ---------------------------------------------------------------------------
  // Behaviour queues and the method that owns them
  // ---------------------------------------------------------------------------

  /** The behaviour queue of one argument snapshot of one mocked method. */
  class InvocationMock<R, A> {
    const args: A
    var behaviors: seq<Behavior<R>>

    constructor (args: A)
      ensures this.args == args && behaviors == []
    {
      this.args := args;
      behaviors := [];
    }

    method Append(b: Behavior<R>)
      modifies this
      ensures behaviors == old(behaviors) + [b]
    {
      behaviors := behaviors + [b];
    }

    method Clear()
      modifies this
      ensures behaviors == []
    {
      behaviors := [];
    }
  }

  /** A mocked method: its queues, in the order they were registered. */
  class MethodMock<R, A(==)> {
    var invocationMocks: seq<InvocationMock<R, A>>

    /** No two registered queues share an argument snapshot (hence no queue appears twice). */
    ghost predicate Valid()
      reads this
    {
      forall i, j :: 0 <= i < j < |invocationMocks| ==> invocationMocks[i].args != invocationMocks[j].args
    }

    function Keys(): seq<A>
      reads this
    {
      ArgsOf(invocationMocks)
    }

    /** The behaviours queued for `args`; empty when no queue is registered for them. */
    ghost function Queue(args: A): seq<Behavior<R>>
      reads this, invocationMocks
    {
      match Find(Keys(), args)
      case None => []
      case Some(i) => invocationMocks[i].behaviors
    }

    constructor ()
      ensures Valid() && invocationMocks == []
    {
      invocationMocks := [];
    }

    /** The queue registered for `args`, or null when there is none. */
    method GetInvocationMock(args: A) returns (q: InvocationMock?<R, A>)
      requires Valid()
      ensures q == null <==> args !in Keys()
      ensures q != null ==> q.args == args && q in invocationMocks
      ensures q != null ==> forall i :: 0 <= i < |invocationMocks| && invocationMocks[i] != q ==> invocationMocks[i].args != args
    {
      match Find(Keys(), args)
      case None =>
        q := null;
      case Some(i) =>
        q := invocationMocks[i];
    }

    method Append(q: InvocationMock<R, A>)
      modifies this
      ensures invocationMocks == old(invocationMocks) + [q]
    {
      invocationMocks := invocationMocks + [q];
    }

    /** The most recently registered queue. */
    function Last(): (q: InvocationMock<R, A>)
      requires |invocationMocks| > 0
      reads this
      ensures q in invocationMocks
      ensures Valid() ==> Find(Keys(), q.args) == Some(|invocationMocks| - 1)
    {
      LastIsFoundLast(this);
      invocationMocks[|invocationMocks| - 1]
    }
  }

  // ---------------------------------------------------------------------------
  // When-clauses: each targets one queue for its whole life
  // ---------------------------------------------------------------------------

  /** The when-clause of a function (non-void) method. */
  class FunctionWhenClause<R, A> {
    const invocationMock: InvocationMock<R, A>

    /** Opening a clause always appends the default-return entry. */
    constructor (invocationMock: InvocationMock<R, A>)
      modifies invocationMock
      ensures this.invocationMock == invocationMock
      ensures invocationMock.behaviors == Apply(old(invocationMock.behaviors), Extend(DefaultReturn))
    {
      this.invocationMock := invocationMock;
      new;
      invocationMock.Append(DefaultReturn);
    }

    method ThenReturn(r: R) returns (next: FunctionWhenClause<R, A>)
      modifies invocationMock
      ensures next == this
      ensures invocationMock.behaviors == Apply(old(invocationMock.behaviors), Extend(ReturnValue(r)))
    {
      invocationMock.Append(ReturnValue(r));
      next := this;
    }

    method ThenThrow() returns (next: FunctionWhenClause<R, A>)
      modifies invocationMock
      ensures next == this
      ensures invocationMock.behaviors == Apply(old(invocationMock.behaviors), Extend(Behavior.Throw))
    {
      invocationMock.Append(Behavior.Throw);
      next := this;
    }

    method Return(r: R) returns (next: FunctionWhenClause<R, A>)
      modifies invocationMock
      ensures next == this
      ensures invocationMock.behaviors == Apply(old(invocationMock.behaviors), Reset(ReturnValue(r)))
    {
      invocationMock.Clear();
      invocationMock.Append(ReturnValue(r));
      next := this;
    }

    method Throw() returns (next: FunctionWhenClause<R, A>)
      modifies invocationMock
      ensures next == this
      ensures invocationMock.behaviors == Apply(old(invocationMock.behaviors), Reset(Behavior.Throw))
    {
      invocationMock.Clear();
      invocationMock.Append(Behavior.Throw);
      next := this;
    }

    method Do(f: Callback) returns (next: FunctionWhenClause<R, A>)
      modifies invocationMock
      ensures next == this
      ensures invocationMock.behaviors == Apply(old(invocationMock.behaviors), Reset(Behavior.Do(f)))
    {
      invocationMock.Clear();
      invocationMock.Append(Behavior.Do(f));
      next := this;
    }
  }

  /** The when-clause of a procedure (void) method. */
  class ProcedureWhenClause<A> {
    const invocationMock: InvocationMock<(), A>

    /** Opening a clause always appends the void entry. */
    constructor (invocationMock: InvocationMock<(), A>)
      modifies invocationMock
      ensures this.invocationMock == invocationMock
      ensures invocationMock.behaviors == Apply(old(invocationMock.behaviors), Extend(Void))
    {
      this.invocationMock := invocationMock;
      new;
      invocationMock.Append(Void);
    }

    method ThenReturn() returns (next: ProcedureWhenClause<A>)
      modifies invocationMock
      ensures next == this
      ensures invocationMock.behaviors == Apply(old(invocationMock.behaviors), Extend(Void))
    {
      invocationMock.Append(Void);
      next := this;
    }

    method ThenThrow() returns (next: ProcedureWhenClause<A>)
      modifies invocationMock
      ensures next == this
      ensures invocationMock.behaviors == Apply(old(invocationMock.behaviors), Extend(Behavior.Throw))
    {
      invocationMock.Append(Behavior.Throw);
      next := this;
    }

    method Return() returns (next: ProcedureWhenClause<A>)
      modifies invocationMock
      ensures next == this
      ensures invocationMock.behaviors == Apply(old(invocationMock.behaviors), Reset(Void))
    {
      invocationMock.Clear();
      invocationMock.Append(Void);
      next := this;
    }

    method Throw() returns (next: ProcedureWhenClause<A>)
      modifies invocationMock
      ensures next == this
      ensures invocationMock.behaviors == Apply(old(invocationMock.behaviors), Reset(Behavior.Throw))
    {
      invocationMock.Clear();
      invocationMock.Append(Behavior.Throw);
      next := this;
    }

    method Do(f: Callback) returns (next: ProcedureWhenClause<A>)
      modifies invocationMock
      ensures next == this
      ensures invocationMock.behaviors == Apply(old(invocationMock.behaviors), Reset(Behavior.Do(f)))
    {
      invocationMock.Clear();
      invocationMock.Append(Behavior.Do(f));
      next := this;
    }
  }

  // ---------------------------------------------------------------------------
  // Stub clauses: `When(args)` and the bare forms acting on the last queue
  // ---------------------------------------------------------------------------

  /** Under Valid, the key of the most recently registered queue is found at the last position. */
  lemma LastIsFoundLast<R, A>(m: MethodMock<R, A>)
    requires |m.invocationMocks| > 0
    ensures m.Valid() ==> Find(m.Keys(), m.invocationMocks[|m.invocationMocks| - 1].args) == Some(|m.invocationMocks| - 1)
  {
    if m.Valid() {
      var n := |m.invocationMocks| - 1;
      var j := Find(m.Keys(), m.invocationMocks[n].args).value;
      assert m.invocationMocks[j].args == m.invocationMocks[n].args;
    }
  }

  /** Under Valid, a queue registered for `args` is the one Find locates. */
  lemma QueueOfArgs<R, A>(m: MethodMock<R, A>, q: InvocationMock<R, A>)
    requires m.Valid() && q in m.invocationMocks
    ensures Find(m.Keys(), q.args).Some?
    ensures m.invocationMocks[Find(m.Keys(), q.args).value] == q
  {
    var i :| 0 <= i < |m.invocationMocks| && m.invocationMocks[i] == q;
    var j := Find(m.Keys(), q.args).value;
    assert m.invocationMocks[j].args == q.args;
    assert i == j;
  }

  /**
   * Finds the queue for `args`, or creates and registers one; the new state of
   * the method mock is the same for the function and the procedure stub clause.
   */
  method GetOrCreate<R, A>(methodMock: MethodMock<R, A>, args: A) returns (q: InvocationMock<R, A>)
    requires methodMock.Valid()
    modifies methodMock
    ensures methodMock.Valid()
    ensures q.args == args && q in methodMock.invocationMocks
    ensures q.behaviors == old(methodMock.Queue(args))
    ensures args in old(methodMock.Keys()) ==> methodMock.invocationMocks == old(methodMock.invocationMocks)
    ensures args !in old(methodMock.Keys()) ==>
      fresh(q) && methodMock.invocationMocks == old(methodMock.invocationMocks) + [q]
    ensures methodMock.Keys() == if args in old(methodMock.Keys()) then old(methodMock.Keys()) else old(methodMock.Keys()) + [args]
  {
    var found := methodMock.GetInvocationMock(args);
    if found == null {
      q := new InvocationMock(args);
      methodMock.Append(q);
      assert methodMock.Keys() == old(methodMock.Keys()) + [args];
    } else {
      q := found;
      QueueOfArgs(methodMock, q);
    }
  }

  /** The stub clause of a function (non-void) method. */
  class StubFunctionClause<R, A(==, !new)> {
    const methodMock: MethodMock<R, A>

    constructor (methodMock: MethodMock<R, A>)
      ensures this.methodMock == methodMock
    {
      this.methodMock := methodMock;
    }

    /**
     * Reuses the queue registered for `args`, else creates and registers one;
     * either way the new clause appends a default-return entry to it.
     */
    method When(args: A) returns (clause: FunctionWhenClause<R, A>)
      requires methodMock.Valid()
      modifies methodMock, methodMock.invocationMocks
      ensures methodMock.Valid()
      ensures clause.invocationMock.args == args && clause.invocationMock in methodMock.invocationMocks
      ensures clause.invocationMock.behaviors == Apply(old(methodMock.Queue(args)), Extend(DefaultReturn))
      ensures args in old(methodMock.Keys()) ==> methodMock.invocationMocks == old(methodMock.invocationMocks)
      ensures args !in old(methodMock.Keys()) ==>
        fresh(clause.invocationMock) && methodMock.invocationMocks == old(methodMock.invocationMocks) + [clause.invocationMock]
      ensures methodMock.Keys() == if args in old(methodMock.Keys()) then old(methodMock.Keys()) else old(methodMock.Keys()) + [args]
      ensures forall q :: q in old(methodMock.invocationMocks) && q != clause.invocationMock ==> q.behaviors == old(q.behaviors)
    {
      var q := GetOrCreate(methodMock, args);
      clause := new FunctionWhenClause(q);
    }

    /** `Return` without `When`: resets the most recently registered queue. */
    method Return(r: R) returns (clause: FunctionWhenClause<R, A>)
      requires methodMock.Valid() && |methodMock.invocationMocks| > 0
      modifies methodMock.Last()
      ensures clause.invocationMock == methodMock.Last()
      ensures methodMock.Last().behaviors == Apply(old(methodMock.Last().behaviors), Reset(ReturnValue(r)))
      ensures forall i :: 0 <= i < |methodMock.invocationMocks| - 1 ==>
        methodMock.invocationMocks[i].behaviors == old(methodMock.invocationMocks[i].behaviors)
    {
      clause := new FunctionWhenClause(methodMock.Last());
      clause := clause.Return(r);
    }

    /** `Throw` without `When`: resets the most recently registered queue. */
    method Throw() returns (clause: FunctionWhenClause<R, A>)
      requires methodMock.Valid() && |methodMock.invocationMocks| > 0
      modifies methodMock.Last()
      ensures clause.invocationMock == methodMock.Last()
      ensures methodMock.Last().behaviors == Apply(old(methodMock.Last().behaviors), Reset(Behavior.Throw))
      ensures forall i :: 0 <= i < |methodMock.invocationMocks| - 1 ==>
        methodMock.invocationMocks[i].behaviors == old(methodMock.invocationMocks[i].behaviors)
    {
      clause := new FunctionWhenClause(methodMock.Last());
      clause := clause.Throw();
    }

    /** `Do` without `When`: resets the most recently registered queue. */
    method Do(f: Callback) returns (clause: FunctionWhenClause<R, A>)
      requires methodMock.Valid() && |methodMock.invocationMocks| > 0
      modifies methodMock.Last()
      ensures clause.invocationMock == methodMock.Last()
      ensures methodMock.Last().behaviors == Apply(old(methodMock.Last().behaviors), Reset(Behavior.Do(f)))
      ensures forall i :: 0 <= i < |methodMock.invocationMocks| - 1 ==>
        methodMock.invocationMocks[i].behaviors == old(methodMock.invocationMocks[i].behaviors)
    {
      clause := new FunctionWhenClause(methodMock.Last());
      clause := clause.Do(f);
    }
  }

  /** The stub clause of a procedure (void) method. */
  class StubProcedureClause<A(==, !new)> {
    const methodMock: MethodMock<(), A>

    constructor (methodMock: MethodMock<(), A>)
      ensures this.methodMock == methodMock
    {
      this.methodMock := methodMock;
    }

    /**
     * Reuses the queue registered for `args`, else creates and registers one;
     * either way the new clause appends a void entry to it.
     */
    method When(args: A) returns (clause: ProcedureWhenClause<A>)
      requires methodMock.Valid()
      modifies methodMock, methodMock.invocationMocks
      ensures methodMock.Valid()
      ensures clause.invocationMock.args == args && clause.invocationMock in methodMock.invocationMocks
      ensures clause.invocationMock.behaviors == Apply(old(methodMock.Queue(args)), Extend(Void))
      ensures args in old(methodMock.Keys()) ==> methodMock.invocationMocks == old(methodMock.invocationMocks)
      ensures args !in old(methodMock.Keys()) ==>
        fresh(clause.invocationMock) && methodMock.invocationMocks == old(methodMock.invocationMocks) + [clause.invocationMock]
      ensures methodMock.Keys() == if args in old(methodMock.Keys()) then old(methodMock.Keys()) else old(methodMock.Keys()) + [args]
      ensures forall q :: q in old(methodMock.invocationMocks) && q != clause.invocationMock ==> q.behaviors == old(q.behaviors)
    {
      var q := GetOrCreate(methodMock, args);
      clause := new ProcedureWhenClause(q);
    }

    /** `Return` without `When`: resets the most recently registered queue. */
    method Return() returns (clause: ProcedureWhenClause<A>)
      requires methodMock.Valid() && |methodMock.invocationMocks| > 0
      modifies methodMock.Last()
      ensures clause.invocationMock == methodMock.Last()
      ensures methodMock.Last().behaviors == Apply(old(methodMock.Last().behaviors), Reset(Void))
      ensures forall i :: 0 <= i < |methodMock.invocationMocks| - 1 ==>
        methodMock.invocationMocks[i].behaviors == old(methodMock.invocationMocks[i].behaviors)
    {
      clause := new ProcedureWhenClause(methodMock.Last());
      clause := clause.Return();
    }

    /** `Throw` without `When`: resets the most recently registered queue. */
    method Throw() returns (clause: ProcedureWhenClause<A>)
      requires methodMock.Valid() && |methodMock.invocationMocks| > 0
      modifies methodMock.Last()
      ensures clause.invocationMock == methodMock.Last()
      ensures methodMock.Last().behaviors == Apply(old(methodMock.Last().behaviors), Reset(Behavior.Throw))
      ensures forall i :: 0 <= i < |methodMock.invocationMocks| - 1 ==>
        methodMock.invocationMocks[i].behaviors == old(methodMock.invocationMocks[i].behaviors)
    {
      clause := new ProcedureWhenClause(methodMock.Last());
      clause := clause.Throw();
    }

    /** `Do` without `When`: resets the most recently registered queue. */
    method Do(f: Callback) returns (clause: ProcedureWhenClause<A>)
      requires methodMock.Valid() && |methodMock.invocationMocks| > 0
      modifies methodMock.Last()
      ensures clause.invocationMock == methodMock.Last()
      ensures methodMock.Last().behaviors == Apply(old(methodMock.Last().behaviors), Reset(Behavior.Do(f)))
      ensures forall i :: 0 <= i < |methodMock.invocationMocks| - 1 ==>
        methodMock.invocationMocks[i].behaviors == old(methodMock.invocationMocks[i].behaviors)
    {
      clause := new ProcedureWhenClause(methodMock.Last());
      clause := clause.Do(f);
    }
  }
}
