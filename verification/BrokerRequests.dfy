/**
 No request is lost, and the policy index never dangles.

 A request may be answered by another evaluation of the same policy, but only by
 one created no earlier.
 */
module BrokerRequests {
  import opened Options
  import opened Evals
  import opened BrokerSpec
  import opened BrokerRuns
  import opened BrokerPlaces

  /** The index names a live eval of the policy it is filed under. */
  ghost predicate IndexInv(s: System) {
    forall p :: p in s.b.enqueuedPolicies ==>
      exists x, r :: At(s, x, r) && x.id == s.b.enqueuedPolicies[p] && x.policy.id == p
  }

  ghost predicate Answers(x: Eval, request: Eval) {
    x.policy.id == request.policy.id && x.createTime >= request.createTime
  }

  ghost predicate Served(s: System, request: Eval) {
    exists x :: (Live(s, x) || x in s.h.finished) && Answers(x, request)
  }

  ghost predicate NothingLost(s: System) {
    forall e :: e in s.h.requested ==> Served(s, e)
  }

  /** The eval that an enqueue finds through the index belongs to the same policy. */
  lemma RivalSharesPolicy(s: System, e: Eval, x: Eval)
    requires PlacesInv(s) && IndexInv(s) && Rival(s.b, e, x)
    ensures x.policy.id == e.policy.id && At(s, x, InHeap(e.policy.ty))
  {
    assert At(s, x, InHeap(e.policy.ty));
    var y, r :| At(s, y, r) && y.id == s.b.enqueuedPolicies[e.policy.id] && y.policy.id == e.policy.id;
  }

  ghost predicate Vanishes(s: System, a: Action, x: Eval) {
    (exists r :: (x, r) in Gone(s, a)) && (forall r :: (x, r) !in Added(s, a))
  }

  lemma StaysLive(s: System, a: Action, t: System, x: Eval)
    requires PlacesInv(s) && Step(s, a, t) && Live(s, x) && !Vanishes(s, a, x)
    ensures Live(t, x)
  {
    StepMoves(s, a, t);
    var r :| At(s, x, r);
    if (x, r) in Gone(s, a) {
      var d :| (x, d) in Added(s, a);
      assert At(t, x, d);
    } else {
      assert At(t, x, r);
    }
  }

  // ---------- The index ----------

  lemma EnqueueIndex(s: System, e: Eval, token: Token, o: Outcome, b: State, p: PolicyId)
    requires EnqueueBy(s.b, e, token, o, b) && p in b.enqueuedPolicies
    ensures || (p in s.b.enqueuedPolicies && b.enqueuedPolicies[p] == s.b.enqueuedPolicies[p])
            || (p == e.policy.id && b.enqueuedPolicies[p] == e.id && EnqueueAdded(e, o) != {})
    ensures o.Replaced? ==> e.policy.id in b.enqueuedPolicies && b.enqueuedPolicies[e.policy.id] == e.id
    ensures o.Outdated? ==> b.enqueuedPolicies[e.policy.id] == o.kept.id && o.kept.id != e.id
  {
  }

  /** An index entry is old, or names the eval that the step just put into a heap. */
  lemma IndexEntryOrigin(s: System, a: Action, t: System, p: PolicyId)
    requires PlacesInv(s) && Step(s, a, t) && p in t.b.enqueuedPolicies
    ensures || (p in s.b.enqueuedPolicies && t.b.enqueuedPolicies[p] == s.b.enqueuedPolicies[p])
            || (exists x, r :: (x, r) in Added(s, a) && x.id == t.b.enqueuedPolicies[p] && x.policy.id == p)
  {
    match a
    case Enqueue(e, o) =>
      EnqueueIndex(s, e, "", o, t.b, p);
      if EnqueueAdded(e, o) != {} { assert (e, InHeap(e.policy.ty)) in Added(s, a); }
    case Nack(id, token, r) => NackIndexOrigin(s, id, token, r, t, p);
    case TimerNack(id, token, r) => NackIndexOrigin(s, id, token, r, t, p);
    case _ =>
  }

  lemma NackIndexOrigin(s: System, id: EvalId, token: Token, r: Reply, t: System, p: PolicyId)
    requires PlacesInv(s) && NackBy(s.b, id, token, r, t.b) && p in t.b.enqueuedPolicies
    ensures || (p in s.b.enqueuedPolicies && t.b.enqueuedPolicies[p] == s.b.enqueuedPolicies[p])
            || (exists x, d :: (x, d) in NackAdded(s, id, r) && x.id == t.b.enqueuedPolicies[p] && x.policy.id == p)
  {
    if r.Requeued? {
      var e := s.b.unack[id].eval;
      EnqueueIndex(s.(b := Closed(s.b, id)), e, token, r.outcome, t.b, p);
      if EnqueueAdded(e, r.outcome) != {} { assert (e, InHeap(e.policy.ty)) in NackAdded(s, id, r); }
    }
  }

  /** What leaves the broker is not indexed afterwards, and something answers for it. */
  ghost predicate WellGone(t: System, x: Eval) {
    && !(x.policy.id in t.b.enqueuedPolicies && t.b.enqueuedPolicies[x.policy.id] == x.id)
    && Served(t, x)
  }

  lemma VictimIsWellGone(s: System, a: Action, t: System, e: Eval, victim: Eval)
    requires PlacesInv(s) && IndexInv(s) && Step(s, a, t) && Rival(s.b, e, victim)
    requires e.createTime > victim.createTime && (e, InHeap(e.policy.ty)) in Added(s, a)
    requires e.policy.id in t.b.enqueuedPolicies && t.b.enqueuedPolicies[e.policy.id] == e.id
    ensures WellGone(t, victim)
  {
    RivalSharesPolicy(s, e, victim);
    StepMoves(s, a, t);
    assert At(t, e, InHeap(e.policy.ty)) && Live(t, e) && Answers(e, victim);
  }

  lemma VanishedIsWellGone(s: System, a: Action, t: System, x: Eval)
    requires PlacesInv(s) && IndexInv(s) && Step(s, a, t) && Vanishes(s, a, x)
    ensures WellGone(t, x)
  {
    match a
    case Enqueue(e, Replaced(v)) => VictimIsWellGone(s, a, t, e, v);
    case Ack(id, token, ok) => assert Answers(x, x);
    case Nack(id, token, r) => NackVanishedIsWellGone(s, a, id, token, r, t, x);
    case TimerNack(id, token, r) => NackVanishedIsWellGone(s, a, id, token, r, t, x);
    case _ =>
  }

  lemma OutdatedIsWellGone(s: System, a: Action, id: EvalId, token: Token, k: Eval, t: System)
    requires PlacesInv(s) && IndexInv(s) && Step(s, a, t)
    requires a == Nack(id, token, Requeued(Outdated(k))) || a == TimerNack(id, token, Requeued(Outdated(k)))
    ensures WellGone(t, s.b.unack[id].eval)
  {
    var e := s.b.unack[id].eval;
    assert Rival(s.b, e, k);
    RivalSharesPolicy(s, e, k);
    StepMoves(s, a, t);
    assert At(t, k, InHeap(e.policy.ty)) && Live(t, k) && Answers(k, e);
  }

  lemma NackVanishedIsWellGone(s: System, a: Action, id: EvalId, token: Token, r: Reply, t: System, x: Eval)
    requires PlacesInv(s) && IndexInv(s) && Step(s, a, t) && Vanishes(s, a, x)
    requires a == Nack(id, token, r) || a == TimerNack(id, token, r)
    ensures WellGone(t, x)
  {
    var e := s.b.unack[id].eval;
    match r
    case LimitReached => assert Answers(x, x);
    case Requeued(Replaced(v)) =>
      assert (e, InHeap(e.policy.ty)) in Added(s, a);
      VictimIsWellGone(s, a, t, e, v);
    case Requeued(Outdated(k)) => OutdatedIsWellGone(s, a, id, token, k, t);
    case _ =>
  }

  /** The policy index never dangles. */
  lemma IndexPreserved(s: System, a: Action, t: System)
    requires PlacesInv(s) && IndexInv(s) && Step(s, a, t)
    ensures IndexInv(t)
  {
    StepMoves(s, a, t);
    forall p | p in t.b.enqueuedPolicies
      ensures exists x, r :: At(t, x, r) && x.id == t.b.enqueuedPolicies[p] && x.policy.id == p
    {
      IndexEntryOrigin(s, a, t, p);
      if x, r :| (x, r) in Added(s, a) && x.id == t.b.enqueuedPolicies[p] && x.policy.id == p {
        assert At(t, x, r);
      } else {
        var x, r :| At(s, x, r) && x.id == s.b.enqueuedPolicies[p] && x.policy.id == p;
        if Vanishes(s, a, x) { VanishedIsWellGone(s, a, t, x); }
        StaysLive(s, a, t, x);
        var d :| At(t, x, d);
      }
    }
  }

  // ---------- Requests ----------

  lemma ServedTransitive(t: System, x: Eval, request: Eval)
    requires Served(t, x) && Answers(x, request)
    ensures Served(t, request)
  {
    var y :| (Live(t, y) || y in t.h.finished) && Answers(y, x);
    assert Answers(y, request);
  }

  lemma ServedPreserved(s: System, a: Action, t: System, request: Eval)
    requires PlacesInv(s) && IndexInv(s) && Step(s, a, t) && Served(s, request)
    ensures Served(t, request)
  {
    var x :| (Live(s, x) || x in s.h.finished) && Answers(x, request);
    if x in s.h.finished {
      assert x in t.h.finished;
    } else if Vanishes(s, a, x) {
      VanishedIsWellGone(s, a, t, x);
      ServedTransitive(t, x, request);
    } else {
      StaysLive(s, a, t, x);
    }
  }

  lemma NewRequestServed(s: System, e: Eval, o: Outcome, t: System)
    requires PlacesInv(s) && IndexInv(s) && EnqueueStep(s, e, o, t)
    ensures Served(t, e)
  {
    var a := Enqueue(e, o);
    StepMoves(s, a, t);
    if o.Outdated? {
      RivalSharesPolicy(s, e, o.kept);
      assert At(t, o.kept, InHeap(e.policy.ty)) && Live(t, o.kept) && Answers(o.kept, e);
    } else {
      assert e.id !in s.b.enqueuedEvals;
      assert (e, InHeap(e.policy.ty)) in Added(s, a);
      assert At(t, e, InHeap(e.policy.ty)) && Live(t, e) && Answers(e, e);
    }
  }

  /** Every request handed to the broker stays served by a live or finished evaluation. */
  lemma NothingLostPreserved(s: System, a: Action, t: System)
    requires PlacesInv(s) && IndexInv(s) && NothingLost(s) && Step(s, a, t)
    ensures NothingLost(t)
  {
    forall e | e in t.h.requested ensures Served(t, e) {
      if e in s.h.requested {
        ServedPreserved(s, a, t, e);
      } else {
        NewRequestServed(s, e, a.outcome, t);
      }
    }
  }
}
