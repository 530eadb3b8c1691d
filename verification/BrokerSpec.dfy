/**
 What each critical section of the evaluation broker does to the broker's state.

 A heap is seen as the multiset it holds. Channels and timers belong to the Go
 runtime: a channel is an index into `slots` (is its one-element buffer full?), and
 `armed` holds the tokens whose Nack timer has neither fired nor been stopped.
 */
module BrokerSpec {
  import opened Options
  import opened Evals

  type Chan = nat

  datatype Unacked = Unacked(eval: Eval, token: Token)

  datatype State = State(
    limit: int,
    pending: map<Queue, multiset<Eval>>,
    enqueuedEvals: map<EvalId, int>,
    enqueuedPolicies: map<PolicyId, EvalId>,
    unack: map<EvalId, Unacked>,
    waiting: map<Queue, Chan>,
    slots: seq<bool>,
    armed: set<Token>)

  ghost function Pend(s: State, q: Queue): multiset<Eval> {
    if q in s.pending then s.pending[q] else multiset{}
  }

  /** The dequeue counter; reading a missing key of a Go map gives zero. */
  ghost function Counter(s: State, id: EvalId): int {
    if id in s.enqueuedEvals then s.enqueuedEvals[id] else 0
  }

  // ---------- Channels ----------

  ghost function OpenChannel(s: State, q: Queue): State {
    if q in s.waiting then s
    else s.(waiting := s.waiting[q := |s.slots|], slots := s.slots + [false])
  }

  ghost function OpenQueue(s: State, q: Queue): State {
    if q in s.pending then s else OpenChannel(s, q)
  }

  /** The buffers after a non-blocking send to the queue's channel; a missing channel takes nothing. */
  ghost function Notified(waiting: map<Queue, Chan>, slots: seq<bool>, q: Queue): seq<bool> {
    if q in waiting && waiting[q] < |slots| then slots[waiting[q] := true] else slots
  }

  // ---------- Enqueue ----------

  datatype Outcome =
    | Duplicate
    | Outdated(kept: Eval)
    | Replaced(victim: Eval)
    | Pushed

  ghost predicate IsDuplicate(s: State, e: Eval, token: Token) {
    e.id in s.enqueuedEvals && token == ""
  }

  ghost function Counts(s: State, e: Eval): map<EvalId, int> {
    if e.id in s.enqueuedEvals then s.enqueuedEvals else s.enqueuedEvals[e.id := 0]
  }

  /** Another evaluation is indexed for the policy of `e`. */
  ghost predicate IndexedOther(s: State, e: Eval) {
    e.policy.id in s.enqueuedPolicies && s.enqueuedPolicies[e.policy.id] != e.id
  }

  /** `x` is the indexed evaluation of the policy, and it waits in the queue of `e`. */
  ghost predicate Rival(s: State, e: Eval, x: Eval) {
    IndexedOther(s, e) && x in Pend(s, e.policy.ty) && x.id == s.enqueuedPolicies[e.policy.id]
  }

  ghost function AfterReplace(s: State, e: Eval, victim: Eval): State {
    var q := e.policy.ty;
    s.(enqueuedPolicies := s.enqueuedPolicies[e.policy.id := e.id],
       enqueuedEvals := s.enqueuedEvals - {e.id},
       pending := s.pending[q := Pend(s, q) - multiset{victim} + multiset{e}])
  }

  ghost function AfterPush(s: State, e: Eval): State {
    var q, o := e.policy.ty, OpenQueue(s, e.policy.ty);
    s.(enqueuedEvals := Counts(s, e),
       enqueuedPolicies := if e.policy.id in s.enqueuedPolicies then s.enqueuedPolicies
                           else s.enqueuedPolicies[e.policy.id := e.id],
       pending := s.pending[q := Pend(s, q) + multiset{e}],
       waiting := o.waiting,
       slots := Notified(o.waiting, o.slots, q))
  }

  ghost predicate EnqueueBy(s: State, e: Eval, token: Token, o: Outcome, s': State) {
    if IsDuplicate(s, e, token) then o == Duplicate && s' == s
    else match o
      case Duplicate => false
      case Outdated(x) => Rival(s, e, x) && e.createTime <= x.createTime && s' == s.(enqueuedEvals := Counts(s, e))
      case Replaced(x) => Rival(s, e, x) && e.createTime > x.createTime && s' == AfterReplace(s, e, x)
      case Pushed => (forall x :: x in Pend(s, e.policy.ty) ==> !Rival(s, e, x)) && s' == AfterPush(s, e)
  }

  // ---------- Dequeue ----------

  ghost predicate FindWorkBy(s: State, q: Queue, r: Option<Eval>, s': State) {
    match r
    case None => Pend(s, q) == multiset{} && s' == s
    case Some(x) => IsBest(x, Pend(s, q)) && s' == s.(pending := s.pending[q := Pend(s, q) - multiset{x}])
  }

  ghost function AfterDeliver(s: State, e: Eval, token: Token): State {
    s.(unack := s.unack[e.id := Unacked(e, token)],
       armed := s.armed + {token},
       enqueuedEvals := s.enqueuedEvals[e.id := Counter(s, e.id) + 1])
  }

  // ---------- Ack and Nack ----------

  ghost predicate Outstanding(s: State, id: EvalId, token: Token) {
    id in s.unack && s.unack[id].token == token
  }

  /** The entry leaves `unack` and its timer is stopped. */
  ghost function Closed(s: State, id: EvalId): State
    requires id in s.unack
  {
    s.(unack := s.unack - {id}, armed := s.armed - {s.unack[id].token})
  }

  /** The entry is closed and both indexes forget it. */
  ghost function Forgotten(s: State, id: EvalId): State
    requires id in s.unack
  {
    Closed(s, id).(enqueuedEvals := s.enqueuedEvals - {id},
                   enqueuedPolicies := s.enqueuedPolicies - {s.unack[id].eval.policy.id})
  }

  ghost predicate AckBy(s: State, id: EvalId, token: Token, ok: bool, s': State) {
    && ok == (Outstanding(s, id, token) && token in s.armed)
    && s' == if ok then Forgotten(s, id) else s
  }

  datatype Reply =
    | Rejected
    | LimitReached
    | Requeued(outcome: Outcome)

  ghost predicate NackBy(s: State, id: EvalId, token: Token, r: Reply, s': State) {
    if !Outstanding(s, id, token) then r == Rejected && s' == s
    else if Counter(s, id) >= s.limit then r == LimitReached && s' == Forgotten(s, id)
    else r.Requeued? && EnqueueBy(Closed(s, id), s.unack[id].eval, token, r.outcome, s')
  }
}
