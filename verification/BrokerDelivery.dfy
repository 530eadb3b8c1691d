/**
 The delivery limit. The stored counter of a live eval is its true number of
 deliveries exactly when the eval never took the replace branch after a Nack: that
 branch deletes the counter of the eval it keeps, which is then below the limit. So
 each such reset allows at most `max(1, limit) - 1` further deliveries.
 */
module BrokerDelivery {
  import opened Options
  import opened Evals
  import opened BrokerSpec
  import opened BrokerRuns
  import opened BrokerPlaces

  ghost function MaxDeliveries(s: System): int {
    if s.b.limit > 1 then s.b.limit else 1
  }

  ghost predicate CounterExact(s: System, x: Eval) {
    Counter(s.b, x.id) == Deliveries(s, x.id)
  }

  /** How far an eval's deliveries may exceed its counter. */
  ghost function Slack(s: System, id: EvalId): int {
    Resets(s, id) * (MaxDeliveries(s) - 1)
  }

  /** What the counter says about one live eval. */
  ghost predicate Accounted(s: System, x: Eval, p: Place) {
    && 0 <= Counter(s.b, x.id) <= Deliveries(s, x.id) <= Counter(s.b, x.id) + Slack(s, x.id)
    && (CounterExact(s, x) <==> Resets(s, x.id) == 0)
    && (p.InUnack? ==> x.id in s.b.enqueuedEvals && Counter(s.b, x.id) >= 1)
    && (!p.InUnack? ==> Counter(s.b, x.id) == 0 || Counter(s.b, x.id) < s.b.limit)
  }

  ghost predicate Bounded(s: System, id: EvalId) {
    Deliveries(s, id) <= MaxDeliveries(s) + Slack(s, id)
  }

  ghost predicate DeliveryInv(s: System) {
    && (forall x, p :: At(s, x, p) ==> Accounted(s, x, p))
    && (forall id :: Bounded(s, id))
    && s.h.deliveries.Keys <= s.h.issued && s.h.resets.Keys <= s.h.issued
  }

  lemma EnqueueCounter(s: State, e: Eval, token: Token, o: Outcome, s': State, id: EvalId)
    requires EnqueueBy(s, e, token, o, s')
    ensures Counter(s', id) == if id == e.id && o.Replaced? then 0 else Counter(s, id)
    ensures !o.Replaced? ==> s.enqueuedEvals.Keys <= s'.enqueuedEvals.Keys
    ensures id != e.id ==> (id in s'.enqueuedEvals <==> id in s.enqueuedEvals)
  {
    if !o.Duplicate? && !o.Replaced? {
      assert s'.enqueuedEvals == Counts(s, e);
    }
  }

  lemma SlackGrows(n: nat, m: nat)
    ensures (n + 1) * m == n * m + m >= n * m
  {
  }

  lemma BoundKept(s: System, t: System, id: EvalId)
    requires Bounded(s, id) && t.b.limit == s.b.limit && Deliveries(t, id) == Deliveries(s, id)
    requires Resets(s, id) <= Resets(t, id) <= Resets(s, id) + 1
    ensures Bounded(t, id)
  {
    SlackGrows(Resets(s, id), MaxDeliveries(s) - 1);
  }

  lemma EnqueueDelivery(s: System, e: Eval, o: Outcome, t: System)
    requires PlacesInv(s) && DeliveryInv(s) && EnqueueStep(s, e, o, t)
    ensures DeliveryInv(t)
  {
    StepMoves(s, Enqueue(e, o), t);
    EnqueueFrame(s.b, e, "", o, t.b);
    forall x, p | At(t, x, p) ensures Accounted(t, x, p) {
      EnqueueCounter(s.b, e, "", o, t.b, x.id);
      if At(s, x, p) { assert x.id in s.h.issued; }
    }
    forall id ensures Bounded(t, id) { BoundKept(s, t, id); }
  }

  lemma DeliverDelivery(s: System, w: WorkerId, token: Token, t: System)
    requires PlacesInv(s) && DeliveryInv(s) && DeliverStep(s, w, token, t)
    ensures DeliveryInv(t)
  {
    var e := s.workers[w].eval;
    StepMoves(s, Deliver(w, token), t);
    assert At(s, e, InHand(w));
    forall x, p | At(t, x, p) ensures Accounted(t, x, p) {
      if At(s, x, p) && (x, p) != (e, InHand(w)) { assert x.id != e.id; }
    }
    forall id ensures Bounded(t, id) {
      assert Bounded(s, id) && Slack(t, id) == Slack(s, id);
    }
  }

  /** After an accepted Nack the eval is nowhere but in the heap it was requeued to. */
  lemma NackSubject(s: System, a: Action, id: EvalId, token: Token, r: Reply, t: System, x: Eval, p: Place)
    requires PlacesInv(s) && Step(s, a, t) && !r.Rejected?
    requires a == Nack(id, token, r) || a == TimerNack(id, token, r)
    requires At(t, x, p) && x.id == id
    ensures r.Requeued? && x == s.b.unack[id].eval && p == InHeap(x.policy.ty)
  {
    StepMoves(s, a, t);
    assert At(s, s.b.unack[id].eval, InUnack);
  }


  lemma RequeuedAccounted(s: System, id: EvalId, token: Token, o: Outcome, t: System)
    requires PlacesInv(s) && DeliveryInv(s) && id in s.b.unack && Counter(s.b, id) < s.b.limit
    requires EnqueueBy(Closed(s.b, id), s.b.unack[id].eval, token, o, t.b)
    requires t.h.deliveries == s.h.deliveries
    requires t.h.resets == if o.Replaced? then s.h.resets[id := Resets(s, id) + 1] else s.h.resets
    ensures var x := s.b.unack[id].eval; Accounted(t, x, InHeap(x.policy.ty))
  {
    var x := s.b.unack[id].eval;
    assert At(s, x, InUnack) && Accounted(s, x, InUnack);
    EnqueueFrame(Closed(s.b, id), x, token, o, t.b);
    EnqueueCounter(Closed(s.b, id), x, token, o, t.b, id);
    SlackGrows(Resets(s, id), MaxDeliveries(s) - 1);
    assert Deliveries(t, id) == Deliveries(s, id);
  }

  lemma BystanderAccounted(s: System, id: EvalId, token: Token, r: Reply, t: System, x: Eval, p: Place)
    requires PlacesInv(s) && NackBy(s.b, id, token, r, t.b) && At(s, x, p) && Accounted(s, x, p) && x.id != id
    requires Deliveries(t, x.id) == Deliveries(s, x.id) && Resets(t, x.id) == Resets(s, x.id)
    ensures Accounted(t, x, p)
  {
    NackKeys(s, id, token, r, t);
    if r.Requeued? { EnqueueCounter(Closed(s.b, id), s.b.unack[id].eval, token, r.outcome, t.b, x.id); }
  }

  lemma NackAccounted(s: System, a: Action, id: EvalId, token: Token, r: Reply, t: System, x: Eval, p: Place)
    requires PlacesInv(s) && DeliveryInv(s) && Step(s, a, t) && !r.Rejected?
    requires a == Nack(id, token, r) || a == TimerNack(id, token, r)
    requires At(t, x, p)
    ensures Accounted(t, x, p)
  {
    if x.id == id {
      NackSubject(s, a, id, token, r, t, x, p);
      RequeuedAccounted(s, id, token, r.outcome, t);
    } else {
      assert At(s, x, p) by {
        StepMoves(s, a, t);
        assert At(s, s.b.unack[id].eval, InUnack);
      }
      BystanderAccounted(s, id, token, r, t, x, p);
    }
  }

  lemma NackDelivery(s: System, a: Action, id: EvalId, token: Token, r: Reply, t: System)
    requires PlacesInv(s) && DeliveryInv(s) && Step(s, a, t)
    requires a == Nack(id, token, r) || a == TimerNack(id, token, r)
    ensures DeliveryInv(t)
  {
    if r.Rejected? {
      StepMoves(s, a, t);
      SameDelivery(s, t);
    } else {
      assert At(s, s.b.unack[id].eval, InUnack);
      NackKeys(s, id, token, r, t);
      forall k ensures Bounded(t, k) { BoundKept(s, t, k); }
      forall x, p | At(t, x, p) ensures Accounted(t, x, p) { NackAccounted(s, a, id, token, r, t, x, p); }
    }
  }

  /** Steps that touch neither counters nor `unack` only need live evals to come from the same side of it. */
  lemma SameDelivery(s: System, t: System)
    requires DeliveryInv(s)
    requires t.b.enqueuedEvals == s.b.enqueuedEvals && t.b.limit == s.b.limit && t.h == s.h
    requires forall x, p :: At(t, x, p) ==> exists r :: At(s, x, r) && (r.InUnack? <==> p.InUnack?)
    ensures DeliveryInv(t)
  {
    forall x, p | At(t, x, p) ensures Accounted(t, x, p) {
      var r :| At(s, x, r) && (r.InUnack? <==> p.InUnack?);
      assert Accounted(s, x, r);
    }
    forall id ensures Bounded(t, id) { BoundKept(s, t, id); }
  }

  lemma FindWorkDelivery(s: System, w: WorkerId, found: Option<Eval>, t: System)
    requires PlacesInv(s) && DeliveryInv(s) && FindWorkStep(s, w, found, t)
    ensures DeliveryInv(t)
  {
    StepMoves(s, FindWork(w, found), t);
    if found.Some? { assert found.value in Pend(s.b, s.workers[w].queue); assert At(s, found.value, InHeap(found.value.policy.ty)); }
    SameDelivery(s, t);
  }

  lemma AckDelivery(s: System, id: EvalId, token: Token, t: System)
    requires PlacesInv(s) && DeliveryInv(s) && AckStep(s, id, token, true, t)
    ensures DeliveryInv(t)
  {
    StepMoves(s, Ack(id, token, true), t);
    assert At(s, s.b.unack[id].eval, InUnack);
    forall k ensures Bounded(t, k) { BoundKept(s, t, k); }
    forall x, p | At(t, x, p) ensures Accounted(t, x, p) {
      assert x.id != id && Accounted(s, x, p);
    }
  }

  lemma DeliveryPreserved(s: System, a: Action, t: System)
    requires PlacesInv(s) && DeliveryInv(s) && Step(s, a, t)
    ensures DeliveryInv(t)
  {
    match a
    case Enqueue(e, o) => EnqueueDelivery(s, e, o, t);
    case Deliver(w, token) => DeliverDelivery(s, w, token, t);
    case Nack(id, token, r) => NackDelivery(s, a, id, token, r, t);
    case TimerNack(id, token, r) => NackDelivery(s, a, id, token, r, t);
    case FindWork(w, found) => FindWorkDelivery(s, w, found, t);
    case Ack(id, token, true) => AckDelivery(s, id, token, t);
    case _ => StepMoves(s, a, t); SameDelivery(s, t);
  }
}
