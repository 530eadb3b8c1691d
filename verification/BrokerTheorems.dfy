/** What holds of every run of the broker, whatever the interleaving. */
module BrokerTheorems {
  import opened Options
  import opened Evals
  import opened BrokerSpec
  import opened BrokerRuns
  import opened BrokerPlaces
  import opened BrokerRequests
  import opened BrokerTokens
  import opened BrokerDelivery
  import opened BrokerKeys
  import opened BrokerDedup
  import opened BrokerWakeup

  ghost predicate Inv(s: System) {
    PlacesInv(s) && IndexInv(s) && NothingLost(s) && TokensInv(s) && DeliveryInv(s) && DedupInv(s) && WakeupInv(s)
  }

  lemma InitInv(s: System)
    requires Init(s)
    ensures Inv(s)
  {
    assert forall q :: Pend(s.b, q) == multiset{};
    assert forall x, p :: !At(s, x, p);
  }

  lemma StepInv(s: System, a: Action, t: System)
    requires Inv(s) && Step(s, a, t)
    ensures Inv(t)
  {
    PlacesPreserved(s, a, t);
    IndexPreserved(s, a, t);
    NothingLostPreserved(s, a, t);
    TokensPreserved(s, a, t);
    DeliveryPreserved(s, a, t);
    DedupPreserved(s, a, t);
    WakeupPreserved(s, a, t);
  }

  /** Every state of every run satisfies every invariant. */
  lemma {:induction false} RunInv(states: seq<System>, actions: seq<Action>, i: nat)
    requires IsRun(states, actions) && i <= |actions|
    ensures Inv(states[i])
  {
    if i == 0 {
      InitInv(states[0]);
    } else {
      RunInv(states, actions, i - 1);
      assert StepAt(states, actions, i - 1);
      StepInv(states[i - 1], actions[i - 1], states[i]);
    }
  }

  // ---------- History says what the trace did ----------

  /** The action removed `x` for good: it was acked, or Nacked at the delivery limit. */
  ghost predicate Ends(s: System, a: Action, x: Eval) {
    match a
    case Ack(id, _, ok) => ok && id in s.b.unack && s.b.unack[id].eval == x
    case Nack(id, _, r) => r.LimitReached? && id in s.b.unack && s.b.unack[id].eval == x
    case TimerNack(id, _, r) => r.LimitReached? && id in s.b.unack && s.b.unack[id].eval == x
    case _ => false
  }

  lemma {:induction false} FinishedWasEnded(states: seq<System>, actions: seq<Action>, i: nat, x: Eval)
    requires IsRun(states, actions) && i <= |actions| && x in states[i].h.finished
    ensures exists k :: 0 <= k < i && Ends(states[k], actions[k], x)
  {
    var s, a := states[i - 1], actions[i - 1];
    assert StepAt(states, actions, i - 1);
    if x in s.h.finished {
      FinishedWasEnded(states, actions, i - 1, x);
    } else {
      assert Ends(s, a, x);
    }
  }

  lemma {:induction false} RequestedStays(states: seq<System>, actions: seq<Action>, j: nat, i: nat)
    requires IsRun(states, actions) && j < i <= |actions| && actions[j].Enqueue?
    ensures actions[j].e in states[i].h.requested
  {
    assert StepAt(states, actions, i - 1);
    if j < i - 1 { RequestedStays(states, actions, j, i - 1); }
  }

  /** How many of the first `i` actions handed the eval `id` to a worker. */
  ghost function TimesDelivered(states: seq<System>, actions: seq<Action>, i: nat, id: EvalId): nat
    requires i <= |actions| && |states| == |actions| + 1
  {
    if i == 0 then 0
    else TimesDelivered(states, actions, i - 1, id) + if Delivers(states[i - 1], actions[i - 1], id) then 1 else 0
  }

  ghost predicate Delivers(s: System, a: Action, id: EvalId) {
    a.Deliver? && a.w in s.workers && s.workers[a.w].Holding? && s.workers[a.w].eval.id == id
  }

  lemma StepDeliveries(s: System, a: Action, t: System, id: EvalId)
    requires Step(s, a, t)
    ensures Deliveries(t, id) == Deliveries(s, id) + if Delivers(s, a, id) then 1 else 0
  {
  }

  lemma {:induction false} DeliveriesCounted(states: seq<System>, actions: seq<Action>, i: nat, id: EvalId)
    requires IsRun(states, actions) && i <= |actions|
    ensures Deliveries(states[i], id) == TimesDelivered(states, actions, i, id)
  {
    if i > 0 {
      DeliveriesCounted(states, actions, i - 1, id);
      assert StepAt(states, actions, i - 1);
      StepDeliveries(states[i - 1], actions[i - 1], states[i], id);
    }
  }

  /** The action sends the eval `id` back to its heap by the replace branch, which drops its counter. */
  ghost predicate ResetsCounter(a: Action, id: EvalId) {
    match a
    case Nack(k, _, Requeued(Replaced(_))) => k == id
    case TimerNack(k, _, Requeued(Replaced(_))) => k == id
    case _ => false
  }

  ghost function TimesReset(actions: seq<Action>, i: nat, id: EvalId): nat
    requires i <= |actions|
  {
    if i == 0 then 0
    else TimesReset(actions, i - 1, id) + if ResetsCounter(actions[i - 1], id) then 1 else 0
  }

  lemma StepResets(s: System, a: Action, t: System, id: EvalId)
    requires Step(s, a, t)
    ensures Resets(t, id) == Resets(s, id) + if ResetsCounter(a, id) then 1 else 0
  {
  }

  lemma {:induction false} ResetsCounted(states: seq<System>, actions: seq<Action>, i: nat, id: EvalId)
    requires IsRun(states, actions) && i <= |actions|
    ensures Resets(states[i], id) == TimesReset(actions, i, id)
  {
    if i > 0 {
      ResetsCounted(states, actions, i - 1, id);
      assert StepAt(states, actions, i - 1);
      StepResets(states[i - 1], actions[i - 1], states[i], id);
    }
  }

  lemma {:induction false} SettledStays(states: seq<System>, actions: seq<Action>, j: nat, i: nat)
    requires IsRun(states, actions) && j < i <= |actions| && SettledBy(actions[j]).Some?
    ensures SettledBy(actions[j]).value in states[i].h.settled
  {
    assert StepAt(states, actions, i - 1);
    StepSettles(states[i - 1], actions[i - 1], states[i]);
    if j < i - 1 { SettledStays(states, actions, j, i - 1); }
  }

  /** Which ids have lost or left behind their key after the first `i` actions. */
  ghost function KeysAt(states: seq<System>, actions: seq<Action>, i: nat): Ledger
    requires i <= |actions| && |states| == |actions| + 1
  {
    if i == 0 then Ledger({}, {}) else Next(KeysAt(states, actions, i - 1), states[i - 1], actions[i - 1])
  }

  lemma InitKeys(s: System)
    requires Init(s)
    ensures KeysInv(s, Ledger({}, {}))
  {
    assert forall q :: Pend(s.b, q) == multiset{};
    assert forall x, p :: !At(s, x, p);
  }

  lemma StepKeys(states: seq<System>, actions: seq<Action>, i: nat, k: Ledger)
    requires IsRun(states, actions) && i < |actions| && KeysInv(states[i], k)
    ensures KeysInv(states[i + 1], Next(k, states[i], actions[i]))
  {
    RunInv(states, actions, i);
    assert StepAt(states, actions, i);
    KeysPreserved(states[i], k, actions[i], states[i + 1]);
  }

  lemma {:induction false} KeysOfRun(states: seq<System>, actions: seq<Action>, i: nat)
    requires IsRun(states, actions) && i <= |actions|
    ensures KeysInv(states[i], KeysAt(states, actions, i))
  {
    if i == 0 {
      InitKeys(states[0]);
    } else {
      KeysOfRun(states, actions, i - 1);
      StepKeys(states, actions, i - 1, KeysAt(states, actions, i - 1));
    }
  }

  lemma {:induction false} LeakedGrows(states: seq<System>, actions: seq<Action>, j: nat, i: nat)
    requires j <= i <= |actions| && |states| == |actions| + 1
    ensures KeysAt(states, actions, j).leaked <= KeysAt(states, actions, i).leaked
  {
    if j < i { LeakedGrows(states, actions, j, i - 1); }
  }

  lemma StepLeaks(states: seq<System>, actions: seq<Action>, i: nat)
    requires IsRun(states, actions) && i < |actions|
    requires KeysAt(states, actions, i).leaked == {} ==> KeysAt(states, actions, i).uncounted == {}
    ensures var k, k' := KeysAt(states, actions, i), KeysAt(states, actions, i + 1);
            && (k'.leaked == {} <==> k.leaked == {} && !FindsRival(states[i], actions[i]))
            && (k'.leaked == {} ==> k'.uncounted == {})
  {
    RunInv(states, actions, i);
    assert StepAt(states, actions, i);
    LeaksIffRival(states[i], KeysAt(states, actions, i), actions[i], states[i + 1]);
  }

  /** Before the first leak no live eval misses its key. */
  lemma {:induction false} NoLeakNoneMissing(states: seq<System>, actions: seq<Action>, i: nat)
    requires IsRun(states, actions) && i <= |actions|
    ensures KeysAt(states, actions, i).leaked == {} ==> KeysAt(states, actions, i).uncounted == {}
  {
    if i > 0 {
      NoLeakNoneMissing(states, actions, i - 1);
      StepLeaks(states, actions, i - 1);
    }
  }

  lemma {:induction false} LeakOrigin(states: seq<System>, actions: seq<Action>, i: nat) returns (j: nat)
    requires IsRun(states, actions) && i <= |actions| && KeysAt(states, actions, i).leaked != {}
    ensures j < i && FindsRival(states[j], actions[j])
  {
    NoLeakNoneMissing(states, actions, i - 1);
    StepLeaks(states, actions, i - 1);
    if KeysAt(states, actions, i - 1).leaked != {} {
      j := LeakOrigin(states, actions, i - 1);
    } else {
      j := i - 1;
    }
  }

  lemma RivalLeaks(states: seq<System>, actions: seq<Action>, j: nat, i: nat)
    requires IsRun(states, actions) && j < i <= |actions| && FindsRival(states[j], actions[j])
    ensures KeysAt(states, actions, i).leaked != {}
  {
    NoLeakNoneMissing(states, actions, j);
    StepLeaks(states, actions, j);
    LeakedGrows(states, actions, j + 1, i);
  }

  lemma ExactIffNoLeak(states: seq<System>, actions: seq<Action>, i: nat)
    requires IsRun(states, actions) && i <= |actions|
    ensures KeysExact(states[i]) <==> KeysAt(states, actions, i).leaked == {}
  {
    NoLeakNoneMissing(states, actions, i);
    KeysOfRun(states, actions, i);
    var k := KeysAt(states, actions, i);
    if k.leaked == {} {
      forall id ensures id in states[i].b.enqueuedEvals <==> LiveId(states[i], id) { assert KeyRight(states[i], k, id); }
    } else {
      var id :| id in k.leaked;
      assert KeyRight(states[i], k, id);
    }
  }

  // ---------- Theorems ----------

  /** No request is lost: it is answered by a live eval, or by one that was ended. */
  lemma NoRequestLost(states: seq<System>, actions: seq<Action>, j: nat, i: nat)
    requires IsRun(states, actions) && j < i <= |actions| && actions[j].Enqueue?
    ensures exists x :: Answers(x, actions[j].e)
              && (Live(states[i], x) || exists k :: 0 <= k < i && Ends(states[k], actions[k], x))
  {
    RunInv(states, actions, i);
    RequestedStays(states, actions, j, i);
    var x :| (Live(states[i], x) || x in states[i].h.finished) && Answers(x, actions[j].e);
    if x in states[i].h.finished { FinishedWasEnded(states, actions, i, x); }
  }

  /** An eval is pending, in hand or unacknowledged, in one place and once. */
  lemma OnePlacePerEval(states: seq<System>, actions: seq<Action>, i: nat, x: Eval, p: Place, y: Eval, r: Place)
    requires IsRun(states, actions) && i <= |actions|
    requires At(states[i], x, p) && At(states[i], y, r) && x.id == y.id
    ensures x == y && p == r && (p.InHeap? ==> Pend(states[i].b, p.queue)[x] == 1)
  {
    RunInv(states, actions, i);
  }

  lemma IndexNeverDangles(states: seq<System>, actions: seq<Action>, i: nat, p: PolicyId)
    requires IsRun(states, actions) && i <= |actions| && p in states[i].b.enqueuedPolicies
    ensures exists x :: Live(states[i], x) && x.id == states[i].b.enqueuedPolicies[p] && x.policy.id == p
  {
    RunInv(states, actions, i);
    var x, r :| At(states[i], x, r) && x.id == states[i].b.enqueuedPolicies[p] && x.policy.id == p;
    assert Live(states[i], x);
  }

  /**
   An eval is delivered at most `max(1, limit)` times, and `max(1, limit) - 1` times
   more for each time it took the replace branch after a Nack. So the limit holds of
   every eval that never did, and of every eval when the limit is at most one. The
   stored counter of a live eval is right exactly when the eval never took that branch.
   */
  lemma DeliveryLimit(states: seq<System>, actions: seq<Action>, i: nat, id: EvalId)
    requires IsRun(states, actions) && i <= |actions|
    ensures TimesDelivered(states, actions, i, id)
            <= MaxDeliveries(states[i]) + TimesReset(actions, i, id) * (MaxDeliveries(states[i]) - 1)
    ensures TimesReset(actions, i, id) == 0 || states[i].b.limit <= 1 ==>
              TimesDelivered(states, actions, i, id) <= MaxDeliveries(states[i])
    ensures forall x :: Live(states[i], x) && x.id == id ==>
              (Counter(states[i].b, id) == TimesDelivered(states, actions, i, id) <==> TimesReset(actions, i, id) == 0)
  {
    DeliveriesCounted(states, actions, i, id);
    ResetsCounted(states, actions, i, id);
    DeliveriesBounded(states, actions, i, id);
    forall x | Live(states[i], x) && x.id == id
      ensures Counter(states[i].b, id) == Deliveries(states[i], id) <==> Resets(states[i], id) == 0
    {
      LiveAccounted(states, actions, i, x);
    }
  }

  lemma DeliveriesBounded(states: seq<System>, actions: seq<Action>, i: nat, id: EvalId)
    requires IsRun(states, actions) && i <= |actions|
    ensures Bounded(states[i], id)
  {
    RunInv(states, actions, i);
  }

  lemma LiveAccounted(states: seq<System>, actions: seq<Action>, i: nat, x: Eval)
    requires IsRun(states, actions) && i <= |actions| && Live(states[i], x)
    ensures CounterExact(states[i], x) <==> Resets(states[i], x.id) == 0
  {
    RunInv(states, actions, i);
    var p :| At(states[i], x, p);
    assert Accounted(states[i], x, p);
  }

  /**
   The keys of `enqueuedEvals` are the ids of the live evals, but for those that the
   replace branch kept since their last delivery, and the leaked ones.
   */
  lemma EnqueuedKeys(states: seq<System>, actions: seq<Action>, i: nat, id: EvalId)
    requires IsRun(states, actions) && i <= |actions|
    ensures var k := KeysAt(states, actions, i);
            id in states[i].b.enqueuedEvals <==> (LiveId(states[i], id) && id !in k.uncounted) || id in k.leaked
  {
    KeysOfRun(states, actions, i);
    assert KeyRight(states[i], KeysAt(states, actions, i), id);
  }

  /** A leaked key belongs to no live eval and is never removed. */
  lemma LeakedForGood(states: seq<System>, actions: seq<Action>, j: nat, i: nat, id: EvalId)
    requires IsRun(states, actions) && j <= i <= |actions| && id in KeysAt(states, actions, j).leaked
    ensures id in states[i].b.enqueuedEvals && !LiveId(states[i], id)
  {
    LeakedGrows(states, actions, j, i);
    KeysOfRun(states, actions, i);
    assert KeyRight(states[i], KeysAt(states, actions, i), id);
  }

  /** The keys are exactly the live ids as long as no enqueue or requeue found a rival waiting, and never again after. */
  lemma KeysExactIff(states: seq<System>, actions: seq<Action>, i: nat)
    requires IsRun(states, actions) && i <= |actions|
    ensures KeysExact(states[i]) <==> forall j :: 0 <= j < i ==> !FindsRival(states[j], actions[j])
  {
    ExactIffNoLeak(states, actions, i);
    if j :| 0 <= j < i && FindsRival(states[j], actions[j]) {
      RivalLeaks(states, actions, j, i);
    } else if KeysAt(states, actions, i).leaked != {} {
      var j := LeakOrigin(states, actions, i);
      assert false;
    }
  }

  /** No delivery token is settled twice, by whatever mixture of Ack, Nack and timer. */
  lemma SettledOnce(states: seq<System>, actions: seq<Action>, j: nat, i: nat, token: Token)
    requires IsRun(states, actions) && j < i < |actions| && SettledBy(actions[j]) == Some(token)
    ensures TokenOf(actions[i]) == Some(token) ==> states[i + 1].b == states[i].b
    ensures SettledBy(actions[i]) != Some(token)
  {
    RunInv(states, actions, i);
    SettledStays(states, actions, j, i);
    assert StepAt(states, actions, i);
    if TokenOf(actions[i]) == Some(token) {
      StaleTokenChangesNothing(states[i], actions[i], states[i + 1], token);
    }
  }

  /** Every unacknowledged eval has a running timer, or a Nack call that will settle it. */
  lemma NoOrphans(states: seq<System>, actions: seq<Action>, i: nat, id: EvalId)
    requires IsRun(states, actions) && i <= |actions| && id in states[i].b.unack
    ensures var token := states[i].b.unack[id].token;
            token in states[i].b.armed
            || ((id, token) in states[i].fired && exists r: Reply, t :: !r.Rejected? && Step(states[i], TimerNack(id, token, r), t))
  {
    var s := states[i];
    RunInv(states, actions, i);
    assert EntryTracked(s, id);
    var token := s.b.unack[id].token;
    if token !in s.b.armed {
      var r, b := NackEnabled(s.b, id, token);
      var s0 := s.(fired := s.fired - {(id, token)});
      var t := s0.(b := b, h := Nacked(s0, id, token, r));
      assert Step(s, TimerNack(id, token, r), t);
    }
  }

  /** A Nack with the outstanding token always has a result other than rejection. */
  lemma NackEnabled(s: State, id: EvalId, token: Token) returns (r: Reply, s': State)
    requires Outstanding(s, id, token)
    ensures NackBy(s, id, token, r, s') && !r.Rejected?
  {
    if Counter(s, id) >= s.limit {
      r, s' := LimitReached, Forgotten(s, id);
    } else {
      var o;
      o, s' := EnqueueEnabled(Closed(s, id), s.unack[id].eval, token);
      r := Requeued(o);
    }
  }

  lemma EnqueueEnabled(s: State, e: Eval, token: Token) returns (o: Outcome, s': State)
    ensures EnqueueBy(s, e, token, o, s')
  {
    if IsDuplicate(s, e, token) {
      o, s' := Duplicate, s;
    } else if x :| x in Pend(s, e.policy.ty) && Rival(s, e, x) {
      if e.createTime > x.createTime {
        o, s' := Replaced(x), AfterReplace(s, e, x);
      } else {
        o, s' := Outdated(x), s.(enqueuedEvals := Counts(s, e));
      }
    } else {
      o, s' := Pushed, AfterPush(s, e);
    }
  }

  /** A policy never enqueued while one of its evals was out has one live eval at most. */
  lemma OneEvalPerPolicy(states: seq<System>, actions: seq<Action>, i: nat, x: Eval, y: Eval)
    requires IsRun(states, actions) && i <= |actions|
    requires Live(states[i], x) && Live(states[i], y) && x.policy.id == y.policy.id
    requires x.policy.id !in states[i].h.overlapped
    ensures x == y && Indexed(states[i], x)
  {
    RunInv(states, actions, i);
    AtMostOneLive(states[i], x, y);
  }

  /** The action enqueues the policy while one of its evals is out of the heap, or waits under another type. */
  ghost predicate OverlapsBy(s: System, a: Action, p: PolicyId) {
    a.Enqueue? && a.e.policy.id == p && Overlaps(s, a.e)
  }

  lemma {:induction false} OverlapOrigin(states: seq<System>, actions: seq<Action>, i: nat, p: PolicyId) returns (j: nat)
    requires IsRun(states, actions) && i <= |actions| && p in states[i].h.overlapped
    ensures j < i && OverlapsBy(states[j], actions[j], p)
  {
    assert StepAt(states, actions, i - 1);
    if p in states[i - 1].h.overlapped {
      j := OverlapOrigin(states, actions, i - 1, p);
    } else {
      j := i - 1;
    }
  }

  /** A run reaches a state with two live evals of a policy exactly when some enqueue of the policy overlaps. */
  lemma DoubledIffOverlapped(states: seq<System>, actions: seq<Action>, i: nat, p: PolicyId)
    requires IsRun(states, actions) && i <= |actions|
    ensures (exists k :: 0 <= k <= i && Doubled(states[k], p))
            <==> (exists j :: 0 <= j < i && OverlapsBy(states[j], actions[j], p))
  {
    if k :| 0 <= k <= i && Doubled(states[k], p) {
      var x, y :| Live(states[k], x) && Live(states[k], y) && x != y && x.policy.id == y.policy.id == p;
      if p !in states[k].h.overlapped { OneEvalPerPolicy(states, actions, k, x, y); }
      var j := OverlapOrigin(states, actions, k, p);
    }
    if j :| 0 <= j < i && OverlapsBy(states[j], actions[j], p) {
      RunInv(states, actions, j);
      assert StepAt(states, actions, j);
      OverlapDoubles(states[j], actions[j].e, actions[j].outcome, states[j + 1]);
    }
  }

  /** Before cancellation, a non-empty queue never waits behind an empty channel with every worker parked. */
  lemma NoStrandedWork(states: seq<System>, actions: seq<Action>, i: nat, q: Queue)
    requires IsRun(states, actions) && i <= |actions| && !states[i].cancelled
    requires Pend(states[i].b, q) != multiset{}
    ensures q in states[i].b.waiting && states[i].b.waiting[q] < |states[i].b.slots|
    ensures states[i].b.slots[states[i].b.waiting[q]] || exists w :: WillLook(states[i], w, q)
    ensures forall w :: w in states[i].workers && states[i].workers[w].Parked? && states[i].workers[w].queue == q
              ==> states[i].workers[w].ch == states[i].b.waiting[q]
  {
    RunInv(states, actions, i);
    assert Attended(states[i], q);
  }
}
