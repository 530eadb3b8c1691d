/** Scaling evaluations and the order in which the broker hands them out. */
module Evals {
  type EvalId = string
  type PolicyId = string
  type Queue = string
  type Token = string

  /** The fields of a scaling policy that the broker reads; `ty` names its queue. */
  datatype Policy = Policy(id: PolicyId, ty: Queue, priority: int)

  /** A request to evaluate a policy; `createTime` counts nanoseconds. */
  datatype Eval = Eval(id: EvalId, policy: Policy, createTime: int)

  /** The heap's comparison: higher priority first, then earlier creation. */
  predicate Less(a: Eval, b: Eval) {
    if a.policy.priority != b.policy.priority
    then !(a.policy.priority < b.policy.priority)
    else a.createTime < b.createTime
  }

  /** `x` may be handed out before `y`: it has a higher priority, or the same and was created no later. */
  predicate MayPrecede(x: Eval, y: Eval) {
    || x.policy.priority > y.policy.priority
    || (x.policy.priority == y.policy.priority && x.createTime <= y.createTime)
  }

  /** Of all evaluations of `m`, `x` has the highest priority, and the earliest creation among those. */
  ghost predicate IsBest(x: Eval, m: multiset<Eval>) {
    && x in m
    && (forall y :: y in m ==> y.policy.priority <= x.policy.priority)
    && (forall y :: y in m && y.policy.priority == x.policy.priority ==> x.createTime <= y.createTime)
  }
}
