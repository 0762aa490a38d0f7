/**
 * The call-verification algebra of the mock engine.
 *
 * Every call made on a mock is appended to the mock's call ledger. A verification
 * names a pattern (single-call matchers joined with `+` and repeated with `* n`)
 * and a cardinality; the pattern's occurrences are counted by a greedy,
 * left-to-right, non-overlapping scan of the ledger, and the cardinality decides
 * whether that count passes.
 */
module Verification {
  import opened Common

  /** One entry of the call ledger. */
  datatype CallRecord<A> = CallRecord(sequenceNumber: nat, methodId: MethodId, args: A)

  /** `mock[&I::m]`, optionally refined by `.Using(args)`. */
  datatype Matcher<A> = Matcher(methodId: MethodId, using: Option<A>)

  predicate Matches<A(==)>(m: Matcher<A>, c: CallRecord<A>)
  {
    c.methodId == m.methodId && (m.using.None? || m.using.value == c.args)
  }

  /** A fixed-length sequence of single-call matchers. */
  type Pattern<A> = seq<Matcher<A>>

  /** `mock[&I::m]`: any call of `methodId`. */
  function Any<A>(methodId: MethodId): Pattern<A>
  {
    [Matcher(methodId, None)]
  }

  /** `mock[&I::m].Using(args)`: a call of `methodId` with exactly `args`. */
  function Using<A>(methodId: MethodId, args: A): Pattern<A>
  {
    [Matcher(methodId, Some(args))]
  }

  /** `mock[&I::m]` accepts every call of m, whatever its arguments, and no other call. */
  lemma AnyAcceptsEveryCallOf<A>(methodId: MethodId, c: CallRecord<A>)
    ensures Matches(Any<A>(methodId)[0], c) <==> c.methodId == methodId
  {
  }

  /** `.Using(args)` accepts a call of m only when its arguments equal `args`. */
  lemma UsingAcceptsOnlyEqualArgs<A>(methodId: MethodId, args: A, c: CallRecord<A>)
    ensures Matches(Using(methodId, args)[0], c) <==> c.methodId == methodId && c.args == args
  {
  }

  /** `p * n`: the pattern concatenated with itself n times. */
  function Repeat<A>(p: Pattern<A>, n: nat): (r: Pattern<A>)
    ensures |r| == n * |p|
  {
    if n == 0 then [] else p + Repeat(p, n - 1)
  }

  /** Every element of `p * n` is an element of `p`. */
  lemma {:induction false} RepeatElements<A>(p: Pattern<A>, n: nat)
    ensures forall i :: 0 <= i < |Repeat(p, n)| ==> Repeat(p, n)[i] in p
  {
    if n > 0 {
      RepeatElements(p, n - 1);
      assert Repeat(p, n) == p + Repeat(p, n - 1);
    }
  }

  /** `(p * a) + (p * b)` is `p * (a + b)`. */
  lemma {:induction false} RepeatAdd<A>(p: Pattern<A>, a: nat, b: nat)
    ensures Repeat(p, a) + Repeat(p, b) == Repeat(p, a + b)
  {
    if a > 0 {
      RepeatAdd(p, a - 1, b);
      assert Repeat(p, a) + Repeat(p, b) == p + (Repeat(p, a - 1) + Repeat(p, b));
    }
  }

  /** The pattern matches the consecutive calls ledger[i], ..., ledger[i + |p| - 1]. */
  predicate MatchesAt<A(==)>(p: Pattern<A>, ledger: seq<CallRecord<A>>, i: nat)
  {
    i + |p| <= |ledger| && forall j :: 0 <= j < |p| ==> Matches(p[j], ledger[i + j])
  }

  /**
   * The number of non-overlapping occurrences of `p`, found by scanning from the
   * front: after a match the scan skips the whole window, otherwise it moves by one.
   */
  function Count<A(==)>(p: Pattern<A>, ledger: seq<CallRecord<A>>): (n: nat)
    requires |p| > 0
    ensures n * |p| <= |ledger|
    decreases |ledger|
  {
    if |ledger| < |p| then 0
    else if MatchesAt(p, ledger, 0) then 1 + Count(p, ledger[|p|..])
    else Count(p, ledger[1..])
  }

  // ---------------------------------------------------------------------------
  // Facts about matching and counting
  // ---------------------------------------------------------------------------

  /** A concatenation matches exactly where its left part matches and its right part follows at once. */
  lemma ConcatMatchesAt<A>(p: Pattern<A>, q: Pattern<A>, ledger: seq<CallRecord<A>>, i: nat)
    ensures MatchesAt(p + q, ledger, i) <==> MatchesAt(p, ledger, i) && MatchesAt(q, ledger, i + |p|)
  {
    if MatchesAt(p, ledger, i) && MatchesAt(q, ledger, i + |p|) {
      forall j | 0 <= j < |p + q|
        ensures Matches((p + q)[j], ledger[i + j])
      {
        if j >= |p| {
          assert Matches(q[j - |p|], ledger[i + |p| + (j - |p|)]);
        }
      }
    }
    if MatchesAt(p + q, ledger, i) {
      forall j | 0 <= j < |p|
        ensures Matches(p[j], ledger[i + j])
      {
        assert Matches((p + q)[j], ledger[i + j]);
      }
      forall j | 0 <= j < |q|
        ensures Matches(q[j], ledger[i + |p| + j])
      {
        assert Matches((p + q)[|p| + j], ledger[i + (|p| + j)]);
      }
    }
  }

  lemma ShiftMatchesAt<A>(p: Pattern<A>, ledger: seq<CallRecord<A>>, k: nat, i: nat)
    requires k <= |ledger|
    ensures MatchesAt(p, ledger[k..], i) <==> MatchesAt(p, ledger, k + i)
  {
  }

  /** The count is positive exactly when some window of the ledger matches the pattern. */
  lemma {:induction false} CountPositiveIff<A>(p: Pattern<A>, ledger: seq<CallRecord<A>>)
    requires |p| > 0
    ensures Count(p, ledger) > 0 <==> exists i: nat :: MatchesAt(p, ledger, i)
    decreases |ledger|
  {
    if |ledger| < |p| {
      assert forall i: nat :: !MatchesAt(p, ledger, i);
    } else if MatchesAt(p, ledger, 0) {
    } else {
      CountPositiveIff(p, ledger[1..]);
      if exists i: nat :: MatchesAt(p, ledger[1..], i) {
        var i: nat :| MatchesAt(p, ledger[1..], i);
        ShiftMatchesAt(p, ledger, 1, i);
      }
      if exists i: nat :: MatchesAt(p, ledger, i) {
        var i: nat :| MatchesAt(p, ledger, i);
        assert i >= 1;
        ShiftMatchesAt(p, ledger, 1, i - 1);
      }
    }
  }

  /** Appending calls never lowers a count: a check that passed can only fail later by the count growing. */
  lemma {:induction false} CountMonotone<A>(p: Pattern<A>, ledger: seq<CallRecord<A>>, more: seq<CallRecord<A>>)
    requires |p| > 0
    ensures Count(p, ledger) <= Count(p, ledger + more)
    decreases |ledger|
  {
    var whole := ledger + more;
    if |ledger| >= |p| {
      assert MatchesAt(p, whole, 0) == MatchesAt(p, ledger, 0) by {
        forall j | 0 <= j < |p| ensures whole[j] == ledger[j] {}
      }
      if MatchesAt(p, ledger, 0) {
        assert whole[|p|..] == ledger[|p|..] + more;
        CountMonotone(p, ledger[|p|..], more);
      } else {
        assert whole[1..] == ledger[1..] + more;
        CountMonotone(p, ledger[1..], more);
      }
    }
  }

  /** The number of ledger entries a single matcher accepts. */
  function Occurrences<A(==)>(m: Matcher<A>, ledger: seq<CallRecord<A>>): (n: nat)
    ensures n <= |ledger|
  {
    if ledger == [] then 0
    else (if Matches(m, ledger[0]) then 1 else 0) + Occurrences(m, ledger[1..])
  }

  lemma SingleMatchesAt<A>(m: Matcher<A>, ledger: seq<CallRecord<A>>, i: nat)
    ensures MatchesAt([m], ledger, i) <==> i < |ledger| && Matches(m, ledger[i])
  {
    if i < |ledger| && Matches(m, ledger[i]) {
      forall j | 0 <= j < 1
        ensures Matches([m][j], ledger[i + j])
      {
        assert j == 0;
      }
    }
    if MatchesAt([m], ledger, i) {
      assert Matches([m][0], ledger[i + 0]);
    }
  }

  /** A one-call pattern counts every call it accepts. */
  lemma {:induction false} CountSingle<A>(m: Matcher<A>, ledger: seq<CallRecord<A>>)
    ensures Count([m], ledger) == Occurrences(m, ledger)
    decreases |ledger|
  {
    if ledger != [] {
      SingleMatchesAt(m, ledger, 0);
      CountSingle(m, ledger[1..]);
    }
  }

  lemma {:induction false} OccurrencesAppend<A>(m: Matcher<A>, ledger: seq<CallRecord<A>>, c: CallRecord<A>)
    ensures Occurrences(m, ledger + [c]) == Occurrences(m, ledger) + if Matches(m, c) then 1 else 0
    decreases |ledger|
  {
    if ledger != [] {
      assert (ledger + [c])[1..] == ledger[1..] + [c];
      OccurrencesAppend(m, ledger[1..], c);
    } else {
      assert [c][1..] == [];
    }
  }

  /** One more call raises a one-call pattern's count by one if the matcher accepts it, else leaves it. */
  lemma CountAfterCall<A>(m: Matcher<A>, ledger: seq<CallRecord<A>>, c: CallRecord<A>)
    ensures Count([m], ledger + [c]) == Count([m], ledger) + if Matches(m, c) then 1 else 0
  {
    CountSingle(m, ledger);
    CountSingle(m, ledger + [c]);
    OccurrencesAppend(m, ledger, c);
  }

  /** When every matcher accepts every call, the count is |ledger| / |p|, rounded down. */
  lemma {:induction false} CountWhenAllMatch<A>(p: Pattern<A>, ledger: seq<CallRecord<A>>)
    requires |p| > 0
    requires forall j, k :: 0 <= j < |p| && 0 <= k < |ledger| ==> Matches(p[j], ledger[k])
    ensures Count(p, ledger) * |p| <= |ledger| < (Count(p, ledger) + 1) * |p|
    decreases |ledger|
  {
    if |ledger| >= |p| {
      assert MatchesAt(p, ledger, 0);
      CountWhenAllMatch(p, ledger[|p|..]);
    }
  }

  /** On a ledger of calls to `m` only, `m * k` counts |ledger| / k, rounded down. */
  lemma RepeatedAnyCount<A>(m: MethodId, ledger: seq<CallRecord<A>>, k: nat)
    requires k >= 1
    requires forall i :: 0 <= i < |ledger| ==> ledger[i].methodId == m
    ensures Count(Repeat(Any<A>(m), k), ledger) * k <= |ledger| < (Count(Repeat(Any<A>(m), k), ledger) + 1) * k
  {
    RepeatElements(Any<A>(m), k);
    CountWhenAllMatch(Repeat(Any<A>(m), k), ledger);
  }

  /** A pattern naming a method that never appears in the ledger counts zero. */
  lemma AbsentMethodCountsZero<A>(p: Pattern<A>, ledger: seq<CallRecord<A>>, j: nat)
    requires |p| > 0 && j < |p|
    requires forall k :: 0 <= k < |ledger| ==> ledger[k].methodId != p[j].methodId
    ensures Count(p, ledger) == 0
  {
    forall i: nat
      ensures !MatchesAt(p, ledger, i)
    {
      if i + |p| <= |ledger| {
        assert !Matches(p[j], ledger[i + j]);
      }
    }
    CountPositiveIff(p, ledger);
  }

  // ---------------------------------------------------------------------------
  // Cardinalities and the verification outcome
  // ---------------------------------------------------------------------------

  /** `Never()`, `AtLeastOnce()` (the default), `Once()`, `Twice()` and `Times(n)`. */
  datatype Cardinality = Never | AtLeastOnce | Once | Twice | Exactly(times: nat)

  /** What a verification statement yields: success, or one of the two exceptions. */
  datatype Outcome =
    | Passed
    | VerificationFailure(expected: Cardinality, actual: nat)
    | IllegalArgument

  predicate Accepts(c: Cardinality, count: nat)
  {
    match c
    case Never => count == 0
    case AtLeastOnce => count >= 1
    case Once => count == 1
    case Twice => count == 2
    case Exactly(n) => count == n
  }

  /** `Never`, `Once` and `Twice` are `Times(0)`, `Times(1)` and `Times(2)`; the default passes exactly where `Never` fails. */
  lemma NamedCardinalities(count: nat)
    ensures Accepts(Never, count) == Accepts(Exactly(0), count)
    ensures Accepts(Once, count) == Accepts(Exactly(1), count)
    ensures Accepts(Twice, count) == Accepts(Exactly(2), count)
    ensures Accepts(AtLeastOnce, count) == !Accepts(Never, count)
  {
  }

  /** `Verify(p)` with cardinality c over the given ledger. */
  function Verify<A(==)>(p: Pattern<A>, ledger: seq<CallRecord<A>>, c: Cardinality): (o: Outcome)
    requires |p| > 0
    ensures o == Passed <==> Accepts(c, Count(p, ledger))
    ensures o != Passed ==> o == VerificationFailure(c, Count(p, ledger))
  {
    var n := Count(p, ledger);
    if Accepts(c, n) then Passed else VerificationFailure(c, n)
  }

  /** `Verify(p).Times(n)`: a negative n is an argument error whatever the ledger holds. */
  function VerifyTimes<A(==)>(p: Pattern<A>, ledger: seq<CallRecord<A>>, n: int): (o: Outcome)
    requires |p| > 0
    ensures n < 0 <==> o == IllegalArgument
    ensures n >= 0 ==> (o == Passed <==> Count(p, ledger) == n)
    ensures n >= 0 && o != Passed ==> o == VerificationFailure(Exactly(n), Count(p, ledger))
  {
    if n < 0 then IllegalArgument else Verify(p, ledger, Exactly(n))
  }

  /** `Never` passes exactly when no window of the ledger matches the pattern. */
  lemma NeverPassesIffNoMatch<A>(p: Pattern<A>, ledger: seq<CallRecord<A>>)
    requires |p| > 0
    ensures Verify(p, ledger, Never) == Passed <==> forall i: nat :: !MatchesAt(p, ledger, i)
  {
    CountPositiveIff(p, ledger);
  }

  /** The default cardinality passes exactly when some window of the ledger matches the pattern. */
  lemma AtLeastOncePassesIffSomeMatch<A>(p: Pattern<A>, ledger: seq<CallRecord<A>>)
    requires |p| > 0
    ensures Verify(p, ledger, AtLeastOnce) == Passed <==> exists i: nat :: MatchesAt(p, ledger, i)
  {
    CountPositiveIff(p, ledger);
  }

  /** An exact cardinality that passed fails again as soon as another accepted call is appended. */
  lemma ExactCheckFailsAfterMatchingCall<A>(m: Matcher<A>, ledger: seq<CallRecord<A>>, c: CallRecord<A>, card: Cardinality)
    requires card != AtLeastOnce && Verify([m], ledger, card) == Passed
    requires Matches(m, c)
    ensures Verify([m], ledger + [c], card) == VerificationFailure(card, Count([m], ledger) + 1)
  {
    CountAfterCall(m, ledger, c);
  }

  // ---------------------------------------------------------------------------
  // The per-mock call ledger
  // ---------------------------------------------------------------------------

  class Mock<A(==)> {
    /** The methods that were stubbed; only their calls reach the engine. */
    var stubbed: set<MethodId>
    /** Every call made on the mock, oldest first; only ever appended to. */
    var ledger: seq<CallRecord<A>>
    var nextSequenceNumber: nat

    ghost predicate Valid()
      reads this
    {
      (forall i :: 0 <= i < |ledger| ==>
        ledger[i].methodId in stubbed && ledger[i].sequenceNumber < nextSequenceNumber) &&
      (forall i, j :: 0 <= i < j < |ledger| ==> ledger[i].sequenceNumber < ledger[j].sequenceNumber)
    }

    constructor ()
      ensures Valid() && stubbed == {} && ledger == [] && nextSequenceNumber == 0
    {
      stubbed, ledger, nextSequenceNumber := {}, [], 0;
    }

    /** `Stub(mock[&I::m1], mock[&I::m2], ...)`. */
    method Stub(methods: set<MethodId>)
      requires Valid()
      modifies this
      ensures Valid()
      ensures stubbed == old(stubbed) + methods
      ensures ledger == old(ledger) && nextSequenceNumber == old(nextSequenceNumber)
    {
      stubbed := stubbed + methods;
    }

    /** A call of a stubbed method on the fake instance: recorded at the end of the ledger. */
    method Invoke(methodId: MethodId, args: A)
      requires Valid() && methodId in stubbed
      modifies this
      ensures Valid()
      ensures ledger == old(ledger) + [CallRecord(old(nextSequenceNumber), methodId, args)]
      ensures stubbed == old(stubbed) && nextSequenceNumber == old(nextSequenceNumber) + 1
    {
      ledger := ledger + [CallRecord(nextSequenceNumber, methodId, args)];
      nextSequenceNumber := nextSequenceNumber + 1;
    }
  }

  /** A method that was never stubbed has no calls in the ledger, so its default check fails and `Never` passes. */
  lemma UnstubbedMethodCountsZero<A>(stubbed: set<MethodId>, ledger: seq<CallRecord<A>>, p: Pattern<A>, j: nat)
    requires forall i :: 0 <= i < |ledger| ==> ledger[i].methodId in stubbed
    requires |p| > 0 && j < |p| && p[j].methodId !in stubbed
    ensures Verify(p, ledger, AtLeastOnce) == VerificationFailure(AtLeastOnce, 0)
    ensures Verify(p, ledger, Never) == Passed
  {
    AbsentMethodCountsZero(p, ledger, j);
  }
}
