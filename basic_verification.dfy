/**
 * The `BasicVerification` fixture: each test drives a fresh mock of
 * `SomeInterface { int func(int); void proc(int); }` and returns, in order, the
 * outcome of every verification statement it makes. A statement the test expects
 * to pass yields `Passed`; one wrapped in `ASSERT_THROW` yields the exception.
 */
module BasicVerification {
  import opened Common
  import opened Verification

  const Func: MethodId := MethodId(0)
  const Proc: MethodId := MethodId(1)

  /** `i.m(a)` on the fake instance, with the effect on every one-call pattern's count. */
  method Call(mock: Mock<int>, m: MethodId, a: int)
    requires mock.Valid() && m in mock.stubbed
    modifies mock
    ensures mock.Valid() && mock.stubbed == old(mock.stubbed)
    ensures mock.nextSequenceNumber == old(mock.nextSequenceNumber) + 1
    ensures mock.ledger == old(mock.ledger) + [CallRecord(old(mock.nextSequenceNumber), m, a)]
    ensures forall x: Matcher<int> ::
      Count([x], mock.ledger) == Count([x], old(mock.ledger)) + if Matches(x, CallRecord(old(mock.nextSequenceNumber), m, a)) then 1 else 0
  {
    var c := CallRecord(mock.nextSequenceNumber, m, a);
    forall x: Matcher<int>
      ensures Count([x], mock.ledger + [c]) == Count([x], mock.ledger) + if Matches(x, c) then 1 else 0
    {
      CountAfterCall(x, mock.ledger, c);
    }
    mock.Invoke(m, a);
  }

  method VerifyShouldThrowIfMethodWasNotCalled() returns (outcomes: seq<Outcome>)
    ensures outcomes == [VerificationFailure(AtLeastOnce, 0), VerificationFailure(AtLeastOnce, 0)]
  {
    var mock := new Mock<int>();
    mock.Stub({Func, Proc});
    outcomes := [Verify(Any(Func), mock.ledger, AtLeastOnce), Verify(Any(Proc), mock.ledger, AtLeastOnce)];
  }

  method VerifyShouldThrowIfMethodWasNotStubbed() returns (outcomes: seq<Outcome>)
    ensures outcomes == [VerificationFailure(AtLeastOnce, 0), VerificationFailure(AtLeastOnce, 0)]
  {
    var mock := new Mock<int>();
    UnstubbedMethodCountsZero(mock.stubbed, mock.ledger, Any(Func), 0);
    UnstubbedMethodCountsZero(mock.stubbed, mock.ledger, Any(Proc), 0);
    outcomes := [Verify(Any(Func), mock.ledger, AtLeastOnce), Verify(Any(Proc), mock.ledger, AtLeastOnce)];
  }

  method VerifyShouldNotThrowIfMethodWasCalled() returns (outcomes: seq<Outcome>)
    ensures outcomes == [Passed, Passed]
  {
    var mock := new Mock<int>();
    mock.Stub({Func, Proc});
    Call(mock, Func, 1);
    Call(mock, Proc, 1);
    outcomes := [Verify(Any(Func), mock.ledger, AtLeastOnce), Verify(Any(Proc), mock.ledger, AtLeastOnce)];
  }

  method VerifyMethodWasCalledAtLeastOnce() returns (outcomes: seq<Outcome>)
    ensures outcomes == [
      VerificationFailure(AtLeastOnce, 0), VerificationFailure(AtLeastOnce, 0),
      Passed, Passed,
      Passed, Passed]
  {
    var mock := new Mock<int>();
    var f1, p1 := Verify(Any(Func), mock.ledger, AtLeastOnce), Verify(Any(Proc), mock.ledger, AtLeastOnce);
    mock.Stub({Func, Proc});
    Call(mock, Func, 1);
    Call(mock, Proc, 2);
    assert Count(Any(Func), mock.ledger) == 1 && Count(Any(Proc), mock.ledger) == 1;
    var f2, p2 := Verify(Any(Func), mock.ledger, AtLeastOnce), Verify(Any(Proc), mock.ledger, AtLeastOnce);
    Call(mock, Func, 1);
    Call(mock, Proc, 2);
    assert Count(Any(Func), mock.ledger) == 2 && Count(Any(Proc), mock.ledger) == 2;
    var f3, p3 := Verify(Any(Func), mock.ledger, AtLeastOnce), Verify(Any(Proc), mock.ledger, AtLeastOnce);
    outcomes := [f1, p1, f2, p2, f3, p3];
  }

  method VerifyMethodWasCalledExactlyOnce() returns (outcomes: seq<Outcome>)
    ensures outcomes == [
      VerificationFailure(Once, 0), VerificationFailure(Once, 0),
      VerificationFailure(Once, 0), VerificationFailure(Once, 0),
      Passed, Passed,
      VerificationFailure(Once, 2), VerificationFailure(Once, 2)]
  {
    var mock := new Mock<int>();
    var f1, p1 := Verify(Any(Func), mock.ledger, Once), Verify(Any(Proc), mock.ledger, Once);
    mock.Stub({Func, Proc});
    var f2, p2 := Verify(Any(Func), mock.ledger, Once), Verify(Any(Proc), mock.ledger, Once);
    Call(mock, Func, 1);
    Call(mock, Proc, 1);
    assert Count(Any(Func), mock.ledger) == 1 && Count(Any(Proc), mock.ledger) == 1;
    var f3, p3 := Verify(Any(Func), mock.ledger, Once), Verify(Any(Proc), mock.ledger, Once);
    Call(mock, Func, 1);
    Call(mock, Proc, 1);
    assert Count(Any(Func), mock.ledger) == 2 && Count(Any(Proc), mock.ledger) == 2;
    var f4, p4 := Verify(Any(Func), mock.ledger, Once), Verify(Any(Proc), mock.ledger, Once);
    outcomes := [f1, p1, f2, p2, f3, p3, f4, p4];
  }

  method VerifyMethodWasNeverCalled() returns (outcomes: seq<Outcome>)
    ensures outcomes == [
      Passed, Passed,
      Passed, Passed,
      VerificationFailure(Never, 1), VerificationFailure(Never, 1)]
  {
    var mock := new Mock<int>();
    var f1, p1 := Verify(Any(Func), mock.ledger, Never), Verify(Any(Proc), mock.ledger, Never);
    mock.Stub({Func, Proc});
    var f2, p2 := Verify(Any(Func), mock.ledger, Never), Verify(Any(Proc), mock.ledger, Never);
    Call(mock, Func, 1);
    Call(mock, Proc, 1);
    assert Count(Any(Func), mock.ledger) == 1 && Count(Any(Proc), mock.ledger) == 1;
    var f3, p3 := Verify(Any(Func), mock.ledger, Never), Verify(Any(Proc), mock.ledger, Never);
    outcomes := [f1, p1, f2, p2, f3, p3];
  }

  method VerifyMethodWasCalledExactlyXTimes() returns (outcomes: seq<Outcome>)
    ensures outcomes == [
      VerificationFailure(Exactly(2), 0), VerificationFailure(Exactly(2), 0),
      VerificationFailure(Exactly(2), 0), VerificationFailure(Exactly(2), 0),
      Passed, Passed,
      VerificationFailure(Exactly(2), 3), VerificationFailure(Exactly(2), 3)]
  {
    var mock := new Mock<int>();
    var f1, p1 := VerifyTimes(Any(Func), mock.ledger, 2), VerifyTimes(Any(Proc), mock.ledger, 2);
    mock.Stub({Func, Proc});
    var f2, p2 := VerifyTimes(Any(Func), mock.ledger, 2), VerifyTimes(Any(Proc), mock.ledger, 2);
    Call(mock, Func, 1);
    Call(mock, Func, 1);
    Call(mock, Proc, 1);
    Call(mock, Proc, 1);
    assert Count(Any(Func), mock.ledger) == 2 && Count(Any(Proc), mock.ledger) == 2;
    var f3, p3 := VerifyTimes(Any(Func), mock.ledger, 2), VerifyTimes(Any(Proc), mock.ledger, 2);
    Call(mock, Func, 1);
    Call(mock, Proc, 1);
    assert Count(Any(Func), mock.ledger) == 3 && Count(Any(Proc), mock.ledger) == 3;
    var f4, p4 := VerifyTimes(Any(Func), mock.ledger, 2), VerifyTimes(Any(Proc), mock.ledger, 2);
    outcomes := [f1, p1, f2, p2, f3, p3, f4, p4];
  }

  method ShouldThrowIllegalArgumentOnNegativeTimes() returns (outcomes: seq<Outcome>)
    ensures outcomes == [IllegalArgument, IllegalArgument]
  {
    var mock := new Mock<int>();
    outcomes := [VerifyTimes(Any(Func), mock.ledger, -1), VerifyTimes(Any(Proc), mock.ledger, -1)];
  }

  method VerifyWithFilter() returns (outcomes: seq<Outcome>)
    ensures outcomes == [Passed, VerificationFailure(AtLeastOnce, 0)]
  {
    var mock := new Mock<int>();
    mock.Stub({Func, Proc});
    Call(mock, Func, 1);
    outcomes := [Verify(Using(Func, 1), mock.ledger, AtLeastOnce), Verify(Using(Func, 2), mock.ledger, AtLeastOnce)];
  }

  /** The ledger `func(1), func(2), func(3), func(4)`. */
  function OneToFour(): seq<CallRecord<int>>
  {
    [CallRecord(0, Func, 1), CallRecord(1, Func, 2), CallRecord(2, Func, 3), CallRecord(3, Func, 4)]
  }

  /** The ledger `func(1), func(2), func(3), func(1), func(2), func(3)`. */
  function OneTwoThreeTwice(): seq<CallRecord<int>>
  {
    [CallRecord(0, Func, 1), CallRecord(1, Func, 2), CallRecord(2, Func, 3),
     CallRecord(3, Func, 1), CallRecord(4, Func, 2), CallRecord(5, Func, 3)]
  }

  /** A two-call pattern matches where both its calls follow one another. */
  lemma PairMatchesAt(p: Pattern<int>, l: seq<CallRecord<int>>, i: nat)
    requires |p| == 2
    ensures MatchesAt(p, l, i) <==> i + 2 <= |l| && Matches(p[0], l[i]) && Matches(p[1], l[i + 1])
  {
  }

  /** On `1,2,3,4`: `Using(1)+Using(2)` is found once, at the front. */
  lemma CountOneThenTwo()
    ensures Count(Using(Func, 1) + Using(Func, 2), OneToFour()) == 1
  {
    var p, l := Using(Func, 1) + Using(Func, 2), OneToFour();
    PairMatchesAt(p, l, 0);
    PairMatchesAt(p, l[2..], 0);
    assert |l[2..][1..]| < 2;
  }

  /** On `1,2,3,4`: `Using(2)+Using(3)` is found once, in the middle. */
  lemma CountTwoThenThree()
    ensures Count(Using(Func, 2) + Using(Func, 3), OneToFour()) == 1
  {
    var p, l := Using(Func, 2) + Using(Func, 3), OneToFour();
    PairMatchesAt(p, l, 0);
    PairMatchesAt(p, l[1..], 0);
    assert |l[1..][2..]| < 2;
  }

  /** On `1,2,3,4`: `Using(3)+Using(4)` is found once, at the end. */
  lemma CountThreeThenFour()
    ensures Count(Using(Func, 3) + Using(Func, 4), OneToFour()) == 1
  {
    var p, l := Using(Func, 3) + Using(Func, 4), OneToFour();
    PairMatchesAt(p, l, 0);
    PairMatchesAt(p, l[1..], 0);
    PairMatchesAt(p, l[1..][1..], 0);
    assert l[1..][1..][2..] == [];
  }

  /** On `1,2,3,4`: `Using(1)+Using(3)` is never found, since no call 1 is directly followed by a call 3. */
  lemma NoOneThenThree()
    ensures forall i: nat :: !MatchesAt(Using(Func, 1) + Using(Func, 3), OneToFour(), i)
  {
    var p, l := Using(Func, 1) + Using(Func, 3), OneToFour();
    forall i: nat
      ensures !MatchesAt(p, l, i)
    {
      PairMatchesAt(p, l, i);
    }
  }

  /** On `1,2,3,1,2,3`: `Using(1)+Using(2)+Using(3)` is found twice. */
  lemma CountOneTwoThree()
    ensures Count(Using(Func, 1) + Using(Func, 2) + Using(Func, 3), OneTwoThreeTwice()) == 2
  {
  }

  /** On `1,2,3,1,2,3`: `(Using(1)+Using(2)+Using(3)) * 2` is found once. */
  lemma CountOneTwoThreeRepeated()
    ensures Count(Repeat(Using(Func, 1) + Using(Func, 2) + Using(Func, 3), 2), OneTwoThreeTwice()) == 1
  {
  }

  /** On `1,2,3,1,2,3`: `Using(1) * 2` is never found, since no call 1 is directly followed by another. */
  lemma NoOneTwiceInARow()
    ensures forall i: nat :: !MatchesAt(Repeat(Using(Func, 1), 2), OneTwoThreeTwice(), i)
  {
    var p, l := Repeat(Using(Func, 1), 2), OneTwoThreeTwice();
    assert p == Using(Func, 1) + Using(Func, 1);
    forall i: nat
      ensures !MatchesAt(p, l, i)
    {
      PairMatchesAt(p, l, i);
    }
  }

  /** The verification statements of the concatenation test, over `1,2,3,4`. */
  lemma ConcatenatedSequenceOutcomes()
    ensures Verify(Using(Func, 1) + Using(Func, 2), OneToFour(), Once) == Passed
    ensures Verify(Using(Func, 2) + Using(Func, 3), OneToFour(), AtLeastOnce) == Passed
    ensures Verify(Using(Func, 3) + Using(Func, 4), OneToFour(), Once) == Passed
    ensures Verify(Any(Func) + Any(Func), OneToFour(), Twice) == Passed
    ensures Verify(Using(Func, 1) + Using(Func, 3), OneToFour(), Never) == Passed
    ensures Verify(Using(Func, 1) + Using(Func, 3), OneToFour(), AtLeastOnce) == VerificationFailure(AtLeastOnce, 0)
  {
    CountOneThenTwo();
    CountTwoThenThree();
    CountThreeThenFour();
    RepeatedAnyCount(Func, OneToFour(), 2);
    assert Repeat(Any<int>(Func), 2) == Any(Func) + Any(Func);
    NoOneThenThree();
    NeverPassesIffNoMatch(Using(Func, 1) + Using(Func, 3), OneToFour());
  }

  /** The `Times` statements of the repetition test over `1,2,3,1,2,3`: `Any * k` is found `6 / k` times. */
  lemma RepeatedAnyOutcomes()
    ensures VerifyTimes(Repeat(Any(Func), 1), OneTwoThreeTwice(), 6) == Passed
    ensures VerifyTimes(Repeat(Any(Func), 2), OneTwoThreeTwice(), 3) == Passed
    ensures VerifyTimes(Repeat(Any(Func), 3), OneTwoThreeTwice(), 2) == Passed
    ensures VerifyTimes(Repeat(Any(Func), 4), OneTwoThreeTwice(), 1) == Passed
    ensures VerifyTimes(Repeat(Any(Func), 5), OneTwoThreeTwice(), 1) == Passed
    ensures VerifyTimes(Repeat(Any(Func), 6), OneTwoThreeTwice(), 1) == Passed
  {
    var l := OneTwoThreeTwice();
    RepeatedAnyCount(Func, l, 1);
    RepeatedAnyCount(Func, l, 2);
    RepeatedAnyCount(Func, l, 3);
    RepeatedAnyCount(Func, l, 4);
    RepeatedAnyCount(Func, l, 5);
    RepeatedAnyCount(Func, l, 6);
  }

  /** The filtered statements of the repetition test over `1,2,3,1,2,3`. */
  lemma RepeatedUsingOutcomes()
    ensures Verify(Using(Func, 1) + Using(Func, 2) + Using(Func, 3), OneTwoThreeTwice(), Twice) == Passed
    ensures Verify(Repeat(Using(Func, 1) + Using(Func, 2) + Using(Func, 3), 2), OneTwoThreeTwice(), Once) == Passed
    ensures Verify(Repeat(Using(Func, 1), 2), OneTwoThreeTwice(), Never) == Passed
    ensures Verify(Repeat(Using(Func, 1), 2), OneTwoThreeTwice(), AtLeastOnce) == VerificationFailure(AtLeastOnce, 0)
  {
    CountOneTwoThree();
    CountOneTwoThreeRepeated();
    NoOneTwiceInARow();
    NeverPassesIffNoMatch(Repeat(Using(Func, 1), 2), OneTwoThreeTwice());
  }

  method VerifyConcatenatedSequence() returns (outcomes: seq<Outcome>)
    ensures outcomes == [Passed, Passed, Passed, Passed, Passed, VerificationFailure(AtLeastOnce, 0)]
  {
    var mock := new Mock<int>();
    mock.Stub({Func, Proc});
    Call(mock, Func, 1);
    Call(mock, Func, 2);
    Call(mock, Func, 3);
    Call(mock, Func, 4);
    assert mock.ledger == OneToFour();
    ConcatenatedSequenceOutcomes();
    outcomes := [
      Verify(Using(Func, 1) + Using(Func, 2), mock.ledger, Once),
      Verify(Using(Func, 2) + Using(Func, 3), mock.ledger, AtLeastOnce),
      Verify(Using(Func, 3) + Using(Func, 4), mock.ledger, Once),
      Verify(Any(Func) + Any(Func), mock.ledger, Twice),
      Verify(Using(Func, 1) + Using(Func, 3), mock.ledger, Never),
      Verify(Using(Func, 1) + Using(Func, 3), mock.ledger, AtLeastOnce)];
  }

  method VerifyRepeatedSequence() returns (outcomes: seq<Outcome>)
    ensures outcomes == [
      Passed, Passed, Passed, Passed, Passed, Passed,
      Passed, Passed, Passed,
      VerificationFailure(AtLeastOnce, 0)]
  {
    var mock := new Mock<int>();
    mock.Stub({Func, Proc});
    Call(mock, Func, 1);
    Call(mock, Func, 2);
    Call(mock, Func, 3);
    Call(mock, Func, 1);
    Call(mock, Func, 2);
    Call(mock, Func, 3);
    assert mock.ledger == OneTwoThreeTwice();
    RepeatedAnyOutcomes();
    RepeatedUsingOutcomes();
    var p123 := Using(Func, 1) + Using(Func, 2) + Using(Func, 3);
    outcomes := [
      VerifyTimes(Repeat(Any(Func), 1), mock.ledger, 6),
      VerifyTimes(Repeat(Any(Func), 2), mock.ledger, 3),
      VerifyTimes(Repeat(Any(Func), 3), mock.ledger, 2),
      VerifyTimes(Repeat(Any(Func), 4), mock.ledger, 1),
      VerifyTimes(Repeat(Any(Func), 5), mock.ledger, 1),
      VerifyTimes(Repeat(Any(Func), 6), mock.ledger, 1),
      Verify(p123, mock.ledger, Twice),
      Verify(Repeat(p123, 2), mock.ledger, Once),
      Verify(Repeat(Using(Func, 1), 2), mock.ledger, Never),
      Verify(Repeat(Using(Func, 1), 2), mock.ledger, AtLeastOnce)];
  }
}
