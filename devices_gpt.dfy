/**
 * The generated device of package GPTtests (GPTtests/StandardDeviceGPT.java).
 * Its policy interface, FailingPolicyGPT, is not part of this model; any
 * implementation of it is represented by `FailingPolicyGPT` below, whose
 * answer to `attemptOn` is supplied by the caller and whose name is fixed.
 */
module DevicesGPT {
  import opened Wrappers
  import Devices

  /** A FailingPolicyGPT: a name, and a ghost count of the `attemptOn` calls it received. */
  class FailingPolicyGPT {
    const name: string
    ghost var attempts: nat

    constructor (name: string)
      ensures this.name == name && attempts == 0
    {
      this.name := name;
      attempts := 0;
    }

    /** `attemptOn`: the implementation's answer is the supplied `verdict`. */
    method AttemptOn(verdict: bool) returns (r: bool)
      modifies this
      ensures r == verdict
      ensures attempts == old(attempts) + 1
    {
      r := verdict;
      attempts := attempts + 1;
    }

    function PolicyName(): (r: string)
      ensures r == name
    {
      name
    }
  }

  class StandardDeviceGPT {
    const policy: FailingPolicyGPT
    var on: bool

    /** The constructor once its null check has passed: the device starts off. */
    constructor (policy: FailingPolicyGPT)
      ensures this.policy == policy && !on
    {
      this.policy := policy;
      on := false;
    }

    /** `new StandardDeviceGPT(policy)`: a null policy throws NullPointerException. */
    static method Create(policy: FailingPolicyGPT?) returns (r: Result<StandardDeviceGPT, Devices.Exception>)
      ensures policy == null <==> r.Failure?
      ensures r.Failure? ==> r.error == Devices.NullPointerException
      ensures r.Success? ==> fresh(r.value) && r.value.policy == policy && !r.value.on
    {
      if policy == null {
        return Failure(Devices.NullPointerException);
      }
      var d := new StandardDeviceGPT(policy);
      r := Success(d);
    }

    /** `on`: consult the policy once; on refusal throw and keep the state. */
    method On(verdict: bool) returns (r: Outcome<Devices.Exception>)
      modifies this, policy
      ensures r.Pass? <==> verdict
      ensures r.Pass? ==> on
      ensures r.Fail? ==> r.error == Devices.IllegalStateException && on == old(on)
      ensures policy.attempts == old(policy.attempts) + 1
    {
      var ok := policy.AttemptOn(verdict);
      if !ok {
        return Fail(Devices.IllegalStateException);
      }
      on := true;
      r := Pass;
    }

    /** `off`: off, without consulting the policy. */
    method Off()
      modifies this
      ensures !on
    {
      on := false;
    }

    /** `reset`: one `attemptOn` whose answer is ignored, then off. */
    method Reset(verdict: bool)
      modifies this, policy
      ensures !on
      ensures policy.attempts == old(policy.attempts) + 1
    {
      var _ := policy.AttemptOn(verdict);
      on := false;
    }

    function IsOn(): (r: bool)
      reads this
      ensures r == on
    {
      on
    }

    function ToString(): (r: string)
      reads this
      ensures r == Devices.Describe("StandardDevice", policy.name, on)
    {
      Devices.Describe("StandardDevice", policy.PolicyName(), on)
    }
  }

  /** A null policy is rejected; a real one gives a device that is off and prints so. */
  method CreateScenario() returns (rejected: Result<StandardDeviceGPT, Devices.Exception>, wasOn: bool, text: string)
    ensures rejected == Failure(Devices.NullPointerException)
    ensures !wasOn
    ensures text == "StandardDevice{policy=RandomFailing, on=false}"
  {
    rejected := StandardDeviceGPT.Create(null);
    var policy := new FailingPolicyGPT("RandomFailing");
    var created := StandardDeviceGPT.Create(policy);
    var device := created.value;
    wasOn := device.IsOn();
    text := device.ToString();
  }

  /** Whatever the policy answers, a reset consults it once and leaves the device off. */
  method OnThenReset(verdict: bool) returns (afterOn: bool, afterReset: bool, ghost attempts: nat)
    ensures afterOn == verdict && !afterReset
    ensures attempts == 2
  {
    var policy := new FailingPolicyGPT("RandomFailing");
    var device := new StandardDeviceGPT(policy);
    var _ := device.On(verdict);
    afterOn := device.IsOn();
    device.Reset(verdict);
    afterReset := device.IsOn();
    attempts := policy.attempts;
  }
}
