/**
 * The devices of the flaky-device demo (package revisedDevices): StandardDevice
 * and BrokenDevice, each with the `on` flag and the failure policy of their
 * abstract base Device. Switching on consults the policy once and throws
 * IllegalStateException when the policy refuses.
 */
module Devices {
  import opened Wrappers
  import opened Policies

  /** The exceptions the devices of the demo throw. */
  datatype Exception = IllegalStateException | NullPointerException

  /** Java's rendering of a boolean in string concatenation. */
  function ShowBool(b: bool): string {
    if b then "true" else "false"
  }

  /** The `toString` text shared by the devices: `<Class>{policy=<name>, on=<bool>}`. */
  function Describe(cls: string, policyName: string, on: bool): (s: string)
    ensures |s| == |cls| + |policyName| + |ShowBool(on)| + 14
    ensures s[..|cls| + 8] == cls + "{policy="
    ensures s[|cls| + 8..|cls| + 8 + |policyName|] == policyName
    ensures s[|cls| + 8 + |policyName|..] == ", on=" + ShowBool(on) + "}"
  {
    cls + "{policy=" + policyName + ", on=" + ShowBool(on) + "}"
  }

  /** The text identifies the policy name and the state: different devices print differently. */
  lemma DescribeInjective(cls: string, n1: string, b1: bool, n2: string, b2: bool)
    requires Describe(cls, n1, b1) == Describe(cls, n2, b2)
    ensures n1 == n2 && b1 == b2
  {
    var s := Describe(cls, n1, b1);
    var head := cls + "{policy=";
    assert s == head + n1 + ", on=" + ShowBool(b1) + "}";
    assert s == head + n2 + ", on=" + ShowBool(b2) + "}";
    // The third character from the end is 'u' of "true}" or 's' of "false}".
    assert s[|s| - 3] == (if b1 then 'u' else 's');
    assert s[|s| - 3] == (if b2 then 'u' else 's');
    assert |n1| == |n2|;
    assert n1 == s[|head|..|head| + |n1|];
    assert n2 == s[|head|..|head| + |n2|];
  }

  /** `StandardDevice`: on after a successful attempt, off on request. */
  class StandardDevice {
    const failingPolicy: FailingPolicy
    var on: bool

    constructor (failingPolicy: FailingPolicy)
      ensures this.failingPolicy == failingPolicy && !on
    {
      this.failingPolicy := failingPolicy;
      on := false;
    }

    /** `on`: consult the policy once; on refusal throw and keep the state. */
    method On(coin: bool) returns (r: Outcome<Exception>)
      modifies this, failingPolicy.Obj()
      ensures r.Pass? == old(failingPolicy.Answer(coin))
      ensures r.Pass? ==> on
      ensures r.Fail? ==> r.error == IllegalStateException && on == old(on)
      ensures failingPolicy.Failed() == (if failingPolicy.AfterTwo? then r.Pass? else r.Fail?)
      ensures failingPolicy.AfterTwo? ==> failingPolicy.afterTwo.interactions == old(failingPolicy.afterTwo.interactions)
      ensures failingPolicy.Calls() == old(failingPolicy.Calls()) + [AttemptOnCall]
    {
      var ok := failingPolicy.AttemptOn(coin);
      if !ok {
        return Fail(IllegalStateException);
      }
      on := true;
      r := Pass;
    }

    /** `off`: off, whatever the state, without touching the policy. */
    method Off()
      modifies this
      ensures !on
    {
      on := false;
    }

    /** `isOn`: a read of the flag; the policy is not consulted. */
    function IsOn(): (r: bool)
      reads this
      ensures r == on
    {
      on
    }

    /** `reset`: off, then one reset of the policy. */
    method Reset()
      modifies this, failingPolicy.Obj()
      ensures !on && !failingPolicy.Failed()
      ensures failingPolicy.AfterTwo? ==> failingPolicy.afterTwo.interactions == 0
      ensures failingPolicy.Calls() == old(failingPolicy.Calls()) + [ResetCall]
    {
      Off();
      failingPolicy.Reset();
    }

    function ToString(): (r: string)
      reads this
      ensures r == Describe("StandardDevice", failingPolicy.PolicyName(), on)
    {
      Describe("StandardDevice", failingPolicy.PolicyName(), on)
    }
  }

  /** `BrokenDevice`: consults its policy like a StandardDevice but never turns on. */
  class BrokenDevice {
    const failingPolicy: FailingPolicy
    var on: bool

    constructor (failingPolicy: FailingPolicy)
      ensures this.failingPolicy == failingPolicy && !on
    {
      this.failingPolicy := failingPolicy;
      on := false;
    }

    /**
     * `on`: consult the policy once; on success write false, on refusal throw
     * and keep the state. With the constructor, Off and Reset also leaving the
     * flag false, a BrokenDevice is never on.
     */
    method On(coin: bool) returns (r: Outcome<Exception>)
      modifies this, failingPolicy.Obj()
      ensures r.Pass? == old(failingPolicy.Answer(coin))
      ensures r.Pass? ==> !on
      ensures r.Fail? ==> r.error == IllegalStateException && on == old(on)
      ensures failingPolicy.Failed() == (if failingPolicy.AfterTwo? then r.Pass? else r.Fail?)
      ensures failingPolicy.AfterTwo? ==> failingPolicy.afterTwo.interactions == old(failingPolicy.afterTwo.interactions)
      ensures failingPolicy.Calls() == old(failingPolicy.Calls()) + [AttemptOnCall]
    {
      var ok := failingPolicy.AttemptOn(coin);
      if !ok {
        return Fail(IllegalStateException);
      }
      on := false;
      r := Pass;
    }

    method Off()
      modifies this
      ensures !on
    {
      on := false;
    }

    function IsOn(): (r: bool)
      reads this
      ensures r == on
    {
      on
    }

    method Reset()
      modifies this, failingPolicy.Obj()
      ensures !on && !failingPolicy.Failed()
      ensures failingPolicy.AfterTwo? ==> failingPolicy.afterTwo.interactions == 0
      ensures failingPolicy.Calls() == old(failingPolicy.Calls()) + [ResetCall]
    {
      Off();
      failingPolicy.Reset();
    }

    function ToString(): (r: string)
      reads this
      ensures r == Describe("BrokenDevice", failingPolicy.PolicyName(), on)
    {
      Describe("BrokenDevice", failingPolicy.PolicyName(), on)
    }
  }

  /**
   * An AfterTwoFailing policy never advances its counter, so a StandardDevice
   * using it switches on at every attempt; each attempt is one policy call.
   */
  method AfterTwoSwitchesOnThrice() returns (r1: Outcome<Exception>, r2: Outcome<Exception>, r3: Outcome<Exception>, ghost calls: seq<Call>)
    ensures r1 == Pass && r2 == Pass && r3 == Pass
    ensures calls == [AttemptOnCall, AttemptOnCall, AttemptOnCall]
  {
    var policy := new AfterTwoFailing();
    var device := new StandardDevice(AfterTwo(policy));
    r1 := device.On(false);
    r2 := device.On(false);
    r3 := device.On(false);
    calls := policy.calls;
  }

  /** Reading the state does not touch the policy; one attempt then a reset make two policy calls. */
  method AttemptThenReset() returns (wasOn: bool, isOn: bool, text: string, ghost calls: seq<Call>)
    ensures !wasOn && !isOn
    ensures text == "StandardDevice{policy=After Two, on=false}"
    ensures calls == [AttemptOnCall, ResetCall]
  {
    var policy := new AfterTwoFailing();
    var device := new StandardDevice(AfterTwo(policy));
    wasOn := device.IsOn();
    assert !wasOn;
    var _ := device.On(false);
    device.Reset();
    isOn := device.IsOn();
    assert !isOn;
    text := device.ToString();
    assert device.failingPolicy.PolicyName() == "After Two";
    assert text == Describe("StandardDevice", "After Two", false);
    assert Describe("StandardDevice", "After Two", false) == "StandardDevice{policy=After Two, on=false}";
    calls := policy.calls;
  }

  /** A StandardDevice whose policy accepts is on; one whose policy refuses throws and prints `on=false`. */
  method StandardDeviceOnOrThrows() returns (accepted: bool, refused: Outcome<Exception>, text: string)
    ensures accepted
    ensures refused == Fail(IllegalStateException)
    ensures text == "StandardDevice{policy=random, on=false}"
  {
    var p1 := new RandomFailing();
    var ok := new StandardDevice(Random(p1));
    var _ := ok.On(false);
    accepted := ok.IsOn();
    var p2 := new RandomFailing();
    var failing := new StandardDevice(Random(p2));
    refused := failing.On(true);
    text := failing.ToString();
  }

  /** A BrokenDevice stays off when its policy accepts, and throws and prints `on=false` when it refuses. */
  method BrokenDeviceStaysOff() returns (accepted: Outcome<Exception>, isOn: bool, refused: Outcome<Exception>, text: string)
    ensures accepted == Pass && !isOn
    ensures refused == Fail(IllegalStateException)
    ensures text == "BrokenDevice{policy=random, on=false}"
  {
    var p1 := new RandomFailing();
    var device := new BrokenDevice(Random(p1));
    accepted := device.On(false);
    isOn := device.IsOn();
    var p2 := new RandomFailing();
    var failing := new BrokenDevice(Random(p2));
    refused := failing.On(true);
    text := failing.ToString();
  }

  /** Whatever the policy answers, a BrokenDevice is off before and after every call. */
  method BrokenDeviceNeverOn(c1: bool, c2: bool) returns (states: seq<bool>)
    ensures |states| == 5
    ensures forall i :: 0 <= i < |states| ==> !states[i]
  {
    var policy := new RandomFailing();
    var device := new BrokenDevice(Random(policy));
    var s0 := device.IsOn();
    var _ := device.On(c1);
    var s1 := device.IsOn();
    device.Off();
    var s2 := device.IsOn();
    var _ := device.On(c2);
    var s3 := device.IsOn();
    device.Reset();
    var s4 := device.IsOn();
    states := [s0, s1, s2, s3, s4];
  }
}
