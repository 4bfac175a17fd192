/**
 * The failure policies of the flaky-device demo (package revisedDevices):
 * AfterTwoFailing and RandomFailing, each holding the `failed` flag of their
 * abstract base FailingPolicy. RandomFailing's coin flip is a parameter.
 * `FailingPolicy` stands for a reference typed by the abstract base class: it
 * is one of the two concrete policies, and a device dispatches on it.
 *
 * Each policy keeps a ghost log of the state-changing calls made on it, the
 * interactions a test spy records; it is what lets a device state that it
 * consults its policy exactly once per call.
 */
module Policies {

  /** A state-changing call on a policy. */
  datatype Call = AttemptOnCall | ResetCall

  /** `AfterTwoFailing`: answers `interactions < 2`, stores it in `failed`, and never advances `interactions`. */
  class AfterTwoFailing {
    var failed: bool
    var interactions: int
    ghost var calls: seq<Call>

    constructor ()
      ensures !failed && interactions == 0 && calls == []
    {
      failed := false;
      interactions := 0;
      calls := [];
    }

    /** `attemptOn`: the answer is also the new value of `failed`. */
    method AttemptOn() returns (r: bool)
      modifies this
      ensures r == (old(interactions) < 2) && failed == r
      ensures interactions == old(interactions)
      ensures calls == old(calls) + [AttemptOnCall]
    {
      failed := interactions < 2;
      r := failed;
      calls := calls + [AttemptOnCall];
    }

    /** `reset`: back to the initial state. */
    method Reset()
      modifies this
      ensures !failed && interactions == 0
      ensures calls == old(calls) + [ResetCall]
    {
      failed := false;
      interactions := 0;
      calls := calls + [ResetCall];
    }

    function PolicyName(): (name: string)
      ensures name == "After Two"
    {
      "After Two"
    }
  }

  /** The `failed` latch of RandomFailing after one attempt with coin `coin`: once set it stays set. */
  function Latch(failed: bool, coin: bool): bool {
    failed || coin
  }

  /** The answers of successive attempts of RandomFailing with the given coins, from latch `failed`. */
  function RandomAnswers(failed: bool, coins: seq<bool>): (answers: seq<bool>)
    ensures |answers| == |coins|
    decreases |coins|
  {
    if coins == [] then []
    else
      var f := Latch(failed, coins[0]);
      [!f] + RandomAnswers(f, coins[1..])
  }

  /** An attempt succeeds exactly when the latch was clear and no coin so far came up failing. */
  lemma {:induction false} RandomAnswersExactly(failed: bool, coins: seq<bool>, i: nat)
    requires i < |coins|
    ensures RandomAnswers(failed, coins)[i] <==> !failed && forall j :: 0 <= j <= i ==> !coins[j]
    decreases i
  {
    if i > 0 {
      RandomAnswersExactly(Latch(failed, coins[0]), coins[1..], i - 1);
      assert forall j :: 1 <= j <= i ==> coins[j] == coins[1..][j - 1];
    }
  }

  /** The latch is sticky: once failed, every later attempt fails, whatever the coins. */
  lemma StickyLatch(coins: seq<bool>)
    ensures forall i :: 0 <= i < |coins| ==> !RandomAnswers(true, coins)[i]
  {
    forall i | 0 <= i < |coins|
      ensures !RandomAnswers(true, coins)[i]
    {
      RandomAnswersExactly(true, coins, i);
    }
  }

  /** `RandomFailing`: a latch that a failing coin sets; an attempt succeeds while it is clear. */
  class RandomFailing {
    var failed: bool
    ghost var calls: seq<Call>

    constructor ()
      ensures !failed && calls == []
    {
      failed := false;
      calls := [];
    }

    /** `attemptOn` with the coin flip supplied. */
    method AttemptOn(coin: bool) returns (r: bool)
      modifies this
      ensures failed == Latch(old(failed), coin) && r == !failed
      ensures calls == old(calls) + [AttemptOnCall]
    {
      failed := failed || coin;
      r := !failed;
      calls := calls + [AttemptOnCall];
    }

    /** `reset`: clear the latch. */
    method Reset()
      modifies this
      ensures !failed
      ensures calls == old(calls) + [ResetCall]
    {
      failed := false;
      calls := calls + [ResetCall];
    }

    function PolicyName(): (name: string)
      ensures name == "random"
    {
      "random"
    }
  }

  /** A reference to some FailingPolicy: one of the two concrete policies. */
  datatype FailingPolicy = AfterTwo(afterTwo: AfterTwoFailing) | Random(random: RandomFailing) {

    /** The policy object itself. */
    function Obj(): object {
      match this
      case AfterTwo(p) => p
      case Random(p) => p
    }

    ghost function Calls(): seq<Call>
      reads Obj()
    {
      match this
      case AfterTwo(p) => p.calls
      case Random(p) => p.calls
    }

    function Failed(): bool
      reads Obj()
    {
      match this
      case AfterTwo(p) => p.failed
      case Random(p) => p.failed
    }

    /** The answer the next `attemptOn` gives, given the coin a RandomFailing would flip. */
    function Answer(coin: bool): bool
      reads Obj()
    {
      match this
      case AfterTwo(p) => p.interactions < 2
      case Random(p) => !Latch(p.failed, coin)
    }

    /** The concrete policy's name, which tells the two policies apart. */
    function PolicyName(): (name: string)
      ensures name == "After Two" <==> AfterTwo?
      ensures name == "random" <==> Random?
    {
      match this
      case AfterTwo(p) => p.PolicyName()
      case Random(p) => p.PolicyName()
    }

    /** `attemptOn`, dispatched to the concrete policy. */
    method AttemptOn(coin: bool) returns (r: bool)
      modifies Obj()
      ensures r == old(Answer(coin))
      ensures Failed() == (if AfterTwo? then r else !r)
      ensures AfterTwo? ==> afterTwo.interactions == old(afterTwo.interactions)
      ensures Calls() == old(Calls()) + [AttemptOnCall]
    {
      match this
      case AfterTwo(p) => r := p.AttemptOn();
      case Random(p) => r := p.AttemptOn(coin);
    }

    /** `reset`, dispatched to the concrete policy. */
    method Reset()
      modifies Obj()
      ensures !Failed()
      ensures AfterTwo? ==> afterTwo.interactions == 0
      ensures Calls() == old(Calls()) + [ResetCall]
    {
      match this
      case AfterTwo(p) => p.Reset();
      case Random(p) => p.Reset();
    }
  }

  /** One RandomFailing driven through three coins answers as `RandomAnswers` from a clear latch. */
  method ThreeRandomAttempts(c1: bool, c2: bool, c3: bool) returns (a1: bool, a2: bool, a3: bool)
    ensures [a1, a2, a3] == RandomAnswers(false, [c1, c2, c3])
  {
    var policy := new RandomFailing();
    a1 := policy.AttemptOn(c1);
    a2 := policy.AttemptOn(c2);
    a3 := policy.AttemptOn(c3);
    var f1 := Latch(false, c1);
    var f2 := Latch(f1, c2);
    assert [c1, c2, c3][1..] == [c2, c3];
    assert [c2, c3][1..] == [c3];
    assert RandomAnswers(f2, [c3]) == [a3];
    assert RandomAnswers(f1, [c2, c3]) == [a2, a3];
  }
}
