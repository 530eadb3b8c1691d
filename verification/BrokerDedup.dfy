/**
 Deduplication. A policy that is never enqueued while one of its evals is out of the
 heap, and never changes type, has at most one live eval, and the index names it. The
 first enqueue that breaks this rule leaves two. The module also says when the index
 follows a newer eval and when a live eval loses its entry.
 */
module BrokerDedup {
  import opened Options
  import opened Evals
  import opened BrokerSpec
  import opened BrokerRuns
  import opened BrokerPlaces
  import opened BrokerRequests
  import opened BrokerKeys

  ghost predicate Indexed(s: System, x: Eval) {
    x.policy.id in s.b.enqueuedPolicies && s.b.enqueuedPolicies[x.policy.id] == x.id
  }

  ghost predicate DedupInv(s: System) {
    forall x, p :: At(s, x, p) && x.policy.id !in s.h.overlapped ==> Indexed(s, x)
  }

  /** Two different evals of the policy are live. */
  ghost predicate Doubled(s: System, p: PolicyId) {
    exists x, y :: Live(s, x) && Live(s, y) && x != y && x.policy.id == y.policy.id == p
  }

  /** The index has one entry per policy, so indexed evals of one policy are the same. */
  lemma AtMostOneLive(s: System, x: Eval, y: Eval)
    requires PlacesInv(s) && DedupInv(s) && Live(s, x) && Live(s, y)
    requires x.policy.id == y.policy.id && x.policy.id !in s.h.overlapped
    ensures x == y && Indexed(s, x)
  {
    var p :| At(s, x, p);
    var r :| At(s, y, r);
    assert Indexed(s, x) && Indexed(s, y);
  }

  lemma OtherPolicyIndex(s: State, e: Eval, token: Token, o: Outcome, s': State, p: PolicyId)
    requires EnqueueBy(s, e, token, o, s') && p != e.policy.id && p in s.enqueuedPolicies
    ensures p in s'.enqueuedPolicies && s'.enqueuedPolicies[p] == s.enqueuedPolicies[p]
  {
  }

  lemma RivalOutcome(s: State, e: Eval, o: Outcome, s': State, x: Eval)
    requires EnqueueBy(s, e, "", o, s') && e.id !in s.enqueuedEvals && Rival(s, e, x)
    ensures o.Outdated? || (o.Replaced? && o.victim.id == x.id && Rival(s, e, o.victim))
    ensures o.Outdated? ==> s'.enqueuedPolicies == s.enqueuedPolicies
  {
  }

  lemma NewcomerIndexed(s: State, e: Eval, o: Outcome, s': State)
    requires EnqueueBy(s, e, "", o, s') && (o.Replaced? || (o.Pushed? && e.policy.id !in s.enqueuedPolicies))
    ensures e.policy.id in s'.enqueuedPolicies && s'.enqueuedPolicies[e.policy.id] == e.id
  {
  }

  /** Enqueueing a policy that does not overlap either replaces its one eval or finds none. */
  lemma SamePolicyDedup(s: System, e: Eval, o: Outcome, t: System, x: Eval, p: Place)
    requires PlacesInv(s) && IndexInv(s) && DedupInv(s) && EnqueueStep(s, e, o, t)
    requires At(t, x, p) && x.policy.id == e.policy.id && x.policy.id !in t.h.overlapped
    ensures Indexed(t, x)
  {
    EnqueueMoves(s, e, "", o, t);
    if (x, p) in EnqueueAdded(e, o) {
      if o.Pushed? { NoRivalNoIndex(s, e); }
      NewcomerIndexed(s.b, e, o, t.b);
    } else {
      NonOverlappingRival(s, e, x, p);
      RivalOutcome(s.b, e, o, t.b, x);
      if o.Replaced? { assert At(s, o.victim, InHeap(e.policy.ty)); }
    }
  }

  lemma EnqueueDedup(s: System, e: Eval, o: Outcome, t: System)
    requires PlacesInv(s) && IndexInv(s) && DedupInv(s) && EnqueueStep(s, e, o, t)
    ensures DedupInv(t)
  {
    EnqueueMoves(s, e, "", o, t);
    forall x, p | At(t, x, p) && x.policy.id !in t.h.overlapped ensures Indexed(t, x) {
      if x.policy.id != e.policy.id {
        assert At(s, x, p) && Indexed(s, x);
        OtherPolicyIndex(s.b, e, "", o, t.b, x.policy.id);
      } else {
        SamePolicyDedup(s, e, o, t, x, p);
      }
    }
  }

  lemma OverlappingStays(s: System, e: Eval, o: Outcome, t: System, x: Eval, p: Place)
    requires PlacesInv(s) && EnqueueStep(s, e, o, t)
    requires At(s, x, p) && (!p.InHeap? || x.policy.ty != e.policy.ty)
    ensures At(t, x, p)
  {
    EnqueueMoves(s, e, "", o, t);
  }

  /** After an enqueue the queue holds the newcomer, or the eval that outdates it. */
  lemma QueueAnswers(s: System, e: Eval, o: Outcome, t: System)
    requires PlacesInv(s) && IndexInv(s) && EnqueueStep(s, e, o, t)
    ensures if o.Outdated? then At(t, o.kept, InHeap(e.policy.ty)) && At(s, o.kept, InHeap(e.policy.ty)) && o.kept.policy.id == e.policy.id
            else At(t, e, InHeap(e.policy.ty))
  {
    EnqueueMoves(s, e, "", o, t);
    if o.Outdated? { RivalSharesPolicy(s, e, o.kept); }
  }

  /** Whatever eval of the policy is out of reach stays, next to the newcomer or the eval that outdates it. */
  lemma OverlapDoubles(s: System, e: Eval, o: Outcome, t: System)
    requires PlacesInv(s) && IndexInv(s) && EnqueueStep(s, e, o, t) && Overlaps(s, e)
    ensures Doubled(t, e.policy.id)
  {
    var x, p :| At(s, x, p) && x.policy.id == e.policy.id && (!p.InHeap? || x.policy.ty != e.policy.ty);
    OverlappingStays(s, e, o, t, x, p);
    var y := if o.Outdated? then o.kept else e;
    QueueAnswers(s, e, o, t);
    assert Live(t, x) && Live(t, y) && x != y;
  }

  /** Before a policy ever overlapped, an enqueue leaves two live evals of it exactly when it overlaps. */
  lemma DoublesIffOverlaps(s: System, e: Eval, o: Outcome, t: System)
    requires PlacesInv(s) && IndexInv(s) && DedupInv(s) && EnqueueStep(s, e, o, t)
    requires e.policy.id !in s.h.overlapped
    ensures Doubled(t, e.policy.id) <==> Overlaps(s, e)
  {
    if Overlaps(s, e) {
      OverlapDoubles(s, e, o, t);
    } else {
      PlacesPreserved(s, Enqueue(e, o), t);
      EnqueueDedup(s, e, o, t);
      if x, y :| Live(t, x) && Live(t, y) && x != y && x.policy.id == y.policy.id == e.policy.id {
        AtMostOneLive(t, x, y);
      }
    }
  }

  /** Of an eval and the indexed one that waits in its queue, the newer stays; on a tie, the one that waits. */
  lemma NewerOfTwoStays(s: System, e: Eval, o: Outcome, t: System, x: Eval)
    requires PlacesInv(s) && EnqueueStep(s, e, o, t) && Rival(s.b, e, x)
    ensures At(t, e, InHeap(e.policy.ty)) <==> e.createTime > x.createTime
    ensures At(t, x, InHeap(e.policy.ty)) <==> e.createTime <= x.createTime
  {
    EnqueueMoves(s, e, "", o, t);
    assert At(s, x, InHeap(e.policy.ty));
    if o.Replaced? || o.Outdated? {
      var y := if o.Replaced? then o.victim else o.kept;
      assert At(s, y, InHeap(e.policy.ty)) && y.id == x.id;
    }
  }

  /** Enqueueing an eval again changes nothing, unless the first time it replaced another one. */
  lemma EnqueueTwice(s: State, e: Eval, o: Outcome, s': State, again: Outcome, s'': State)
    requires EnqueueBy(s, e, "", o, s') && EnqueueBy(s', e, "", again, s'')
    ensures s'' == s' <==> !o.Replaced?
  {
    if o.Replaced? {
      assert again == Pushed;
      assert Pend(s'', e.policy.ty)[e] == Pend(s', e.policy.ty)[e] + 1;
    }
  }

  /** A newer eval takes over the index exactly when the indexed one waits in the same queue. */
  lemma IndexFollowsNewest(s: System, e: Eval, o: Outcome, t: System, x: Eval, p: Place)
    requires PlacesInv(s) && IndexInv(s) && EnqueueStep(s, e, o, t)
    requires At(s, x, p) && x.policy.id == e.policy.id && Indexed(s, x) && e.createTime > x.createTime
    ensures Indexed(t, e) <==> p == InHeap(e.policy.ty)
    ensures Indexed(t, x) <==> p != InHeap(e.policy.ty)
  {
    if o.Replaced? || o.Outdated? {
      var y := if o.Replaced? then o.victim else o.kept;
      assert At(s, y, InHeap(e.policy.ty)) && y.id == x.id;
    } else if p == InHeap(e.policy.ty) {
      assert Rival(s.b, e, x);
    }
  }

  /** The index entry of the policy of `x` after an enqueue or requeue, if it named `x`. */
  lemma PlacementIndex(s: System, a: Action, t: System, x: Eval)
    requires PlacesInv(s) && Step(s, a, t) && Placement(s, a).Some? && Indexed(s, x)
    ensures Indexed(t, x) || (Placement(s, a).value.1.Replaced? && Placement(s, a).value.1.victim.id == x.id)
  {
    PlacementOrigin(s, a, t);
  }

  /** Ack, or a Nack at the limit, of another eval of the policy. */
  ghost predicate ForgetsSibling(s: System, a: Action, x: Eval) {
    exists id :: id in Forgets(a) && id in s.b.unack && id != x.id && s.b.unack[id].eval.policy.id == x.policy.id
  }

  /** An indexed eval that stays live loses its index entry exactly when another eval of its policy is forgotten. */
  lemma LosesIndexIff(s: System, a: Action, t: System, x: Eval)
    requires PlacesInv(s) && Step(s, a, t) && Indexed(s, x) && Live(s, x) && Live(t, x)
    ensures !Indexed(t, x) <==> ForgetsSibling(s, a, x)
  {
    LiveIdsAfter(s, a, t, x.id);
    if Placement(s, a).Some? {
      PlacementIndex(s, a, t, x);
      PlacementOrigin(s, a, t);
    } else if id :| id in Forgets(a) {
      assert Forgets(a) == {id} && id != x.id;
    }
  }

  lemma NonOverlappingRival(s: System, e: Eval, x: Eval, p: Place)
    requires PlacesInv(s) && DedupInv(s) && e.id !in s.h.issued && !Overlaps(s, e)
    requires At(s, x, p) && x.policy.id == e.policy.id && x.policy.id !in s.h.overlapped
    ensures Rival(s.b, e, x)
  {
    assert p.InHeap? && x.policy.ty == e.policy.ty;
    assert Indexed(s, x);
  }

  lemma NoRivalNoIndex(s: System, e: Eval)
    requires PlacesInv(s) && IndexInv(s) && DedupInv(s) && e.id !in s.h.issued && !Overlaps(s, e)
    requires e.policy.id !in s.h.overlapped
    requires forall x :: x in Pend(s.b, e.policy.ty) ==> !Rival(s.b, e, x)
    ensures e.policy.id !in s.b.enqueuedPolicies
  {
    forall x, p | At(s, x, p) ensures x.policy.id != e.policy.id {
      if x.policy.id == e.policy.id { NonOverlappingRival(s, e, x, p); }
    }
  }

  lemma ForgottenDedup(s: System, a: Action, t: System, id: EvalId)
    requires PlacesInv(s) && DedupInv(s) && Step(s, a, t) && id in s.b.unack
    requires t.b.enqueuedPolicies == s.b.enqueuedPolicies - {s.b.unack[id].eval.policy.id}
    requires Gone(s, a) == {(s.b.unack[id].eval, InUnack)} && Added(s, a) == {}
    requires t.h.overlapped == s.h.overlapped
    ensures DedupInv(t)
  {
    StepMoves(s, a, t);
    var e := s.b.unack[id].eval;
    assert At(s, e, InUnack);
    forall x, p | At(t, x, p) && x.policy.id !in t.h.overlapped ensures Indexed(t, x) {
      assert At(s, x, p) && Indexed(s, x);
    }
  }

  /** A Nacked eval of such a policy is the indexed one, so it is pushed back. */
  lemma RequeueIndex(s: System, id: EvalId, token: Token, o: Outcome, b: State, x: Eval)
    requires PlacesInv(s) && IndexInv(s) && DedupInv(s) && id in s.b.unack && token != ""
    requires EnqueueBy(Closed(s.b, id), s.b.unack[id].eval, token, o, b)
    requires x.policy.id !in s.h.overlapped && Indexed(s, x)
    ensures x.policy.id in b.enqueuedPolicies && b.enqueuedPolicies[x.policy.id] == x.id
  {
    var e := s.b.unack[id].eval;
    assert At(s, e, InUnack);
    if x.policy.id == e.policy.id { assert Indexed(s, e); }
  }

  lemma RequeueDedup(s: System, a: Action, t: System, id: EvalId, token: Token, o: Outcome)
    requires PlacesInv(s) && IndexInv(s) && DedupInv(s) && Step(s, a, t)
    requires a == Nack(id, token, Requeued(o)) || a == TimerNack(id, token, Requeued(o))
    ensures DedupInv(t)
  {
    StepMoves(s, a, t);
    AddedIsNewOrMoved(s, a, t);
    forall x, p | At(t, x, p) && x.policy.id !in t.h.overlapped ensures Indexed(t, x) {
      if (x, p) in Added(s, a) { assert At(s, x, InUnack); }
      assert Indexed(s, x);
      RequeueIndex(s, id, token, o, t.b, x);
    }
  }

  lemma DedupPreserved(s: System, a: Action, t: System)
    requires PlacesInv(s) && IndexInv(s) && DedupInv(s) && Step(s, a, t)
    ensures DedupInv(t)
  {
    match a
    case Enqueue(e, o) => EnqueueDedup(s, e, o, t);
    case Ack(id, token, true) => ForgottenDedup(s, a, t, id);
    case Nack(id, token, LimitReached) => ForgottenDedup(s, a, t, id);
    case TimerNack(id, token, LimitReached) => ForgottenDedup(s, a, t, id);
    case Nack(id, token, Requeued(o)) => RequeueDedup(s, a, t, id, token, o);
    case TimerNack(id, token, Requeued(o)) => RequeueDedup(s, a, t, id, token, o);
    case _ => UnindexedDedup(s, a, t);
  }

  lemma UnindexedDedup(s: System, a: Action, t: System)
    requires PlacesInv(s) && DedupInv(s) && Step(s, a, t)
    requires t.b.enqueuedPolicies == s.b.enqueuedPolicies && t.h.overlapped == s.h.overlapped
    requires forall x, p :: (x, p) in Added(s, a) ==> exists r :: (x, r) in Gone(s, a)
    ensures DedupInv(t)
  {
    StepMoves(s, a, t);
    AddedIsNewOrMoved(s, a, t);
    forall x, p | At(t, x, p) && x.policy.id !in t.h.overlapped ensures Indexed(t, x) {
      if (x, p) in Added(s, a) {
        var r :| (x, r) in Gone(s, a);
        assert At(s, x, r);
      }
    }
  }
}
