/**
 No stranded work. Every queue keeps the one channel it was given, so a worker that
 parks listens where the next push will signal, and unless the context is cancelled
 a non-empty queue has a full channel or a worker on its way to look again.
 */
module BrokerWakeup {
  import opened Options
  import opened Evals
  import opened BrokerSpec
  import opened BrokerRuns
  import opened BrokerPlaces

  ghost predicate ChannelsInv(s: System) {
    && s.b.pending.Keys <= s.b.waiting.Keys
    && (forall q :: q in s.b.waiting ==> s.b.waiting[q] < |s.b.slots|)
    && (forall q, r :: q in s.b.waiting && r in s.b.waiting && s.b.waiting[q] == s.b.waiting[r] ==> q == r)
    && (forall w :: w in s.workers && s.workers[w].Parked? ==>
          s.workers[w].queue in s.b.waiting && s.b.waiting[s.workers[w].queue] == s.workers[w].ch)
  }

  /** The worker will call findWork again before it parks. */
  ghost predicate WillLook(s: System, w: WorkerId, q: Queue) {
    && w in s.workers && s.workers[w].queue == q
    && (s.workers[w].Looking? || s.workers[w].Holding? || s.workers[w].Busy?)
  }

  ghost predicate Signalled(s: System, q: Queue) {
    q in s.b.waiting && s.b.waiting[q] < |s.b.slots| && s.b.slots[s.b.waiting[q]]
  }

  ghost predicate Attended(s: System, q: Queue) {
    Signalled(s, q) || exists w :: WillLook(s, w, q)
  }

  ghost predicate WakeupInv(s: System) {
    && ChannelsInv(s)
    && (!s.cancelled ==> forall q :: Pend(s.b, q) != multiset{} ==> Attended(s, q))
  }

  /** Channels are created once and never replaced. */
  lemma ChannelsNeverReplaced(s: System, a: Action, t: System, q: Queue)
    requires Step(s, a, t) && q in s.b.waiting
    ensures q in t.b.waiting && t.b.waiting[q] == s.b.waiting[q]
  {
    match a
    case Enqueue(e, o) => EnqueueChannels(s.b, e, "", o, t.b);
    case Nack(id, token, r) => if r.Requeued? { EnqueueChannels(Closed(s.b, id), s.b.unack[id].eval, token, r.outcome, t.b); }
    case TimerNack(id, token, r) => if r.Requeued? { EnqueueChannels(Closed(s.b, id), s.b.unack[id].eval, token, r.outcome, t.b); }
    case _ =>
  }

  /** An enqueue opens at most its own queue's channel, signals it on a push, and touches no other slot. */
  lemma EnqueueChannels(s: State, e: Eval, token: Token, o: Outcome, s': State)
    requires EnqueueBy(s, e, token, o, s')
    ensures !o.Pushed? ==> s'.waiting == s.waiting && s'.slots == s.slots
    ensures o.Pushed? ==> s'.waiting == OpenQueue(s, e.policy.ty).waiting
    ensures s.waiting.Keys <= s'.waiting.Keys && forall q :: q in s.waiting ==> s'.waiting[q] == s.waiting[q]
    ensures |s.slots| <= |s'.slots| && forall c :: 0 <= c < |s.slots| && s.slots[c] ==> s'.slots[c]
    ensures s'.pending.Keys <= s.pending.Keys + {e.policy.ty}
  {
  }

  lemma EnqueueWakeup(s: System, e: Eval, token: Token, o: Outcome, t: System)
    requires WakeupInv(s) && EnqueueBy(s.b, e, token, o, t.b)
    requires t.workers == s.workers && t.cancelled == s.cancelled
    ensures WakeupInv(t)
  {
    EnqueueChannels(s.b, e, token, o, t.b);
    assert ChannelsInv(t);
    forall q | !t.cancelled && Pend(t.b, q) != multiset{} ensures Attended(t, q) {
      EnqueuePend(s.b, e, token, o, t.b, q);
      if o.Pushed? && q == e.policy.ty {
        assert Signalled(t, q);
      } else {
        StillAttended(s, t, q);
      }
    }
  }

  lemma StillAttended(s: System, t: System, q: Queue)
    requires Attended(s, q) && t.workers == s.workers
    requires Signalled(s, q) ==> Signalled(t, q)
    ensures Attended(t, q)
  {
    if !Signalled(s, q) {
      var w :| WillLook(s, w, q);
      assert WillLook(t, w, q);
    }
  }

  lemma NackWakeup(s: System, id: EvalId, token: Token, r: Reply, t: System)
    requires WakeupInv(s) && NackBy(s.b, id, token, r, t.b)
    requires t.workers == s.workers && t.cancelled == s.cancelled
    ensures WakeupInv(t)
  {
    if r.Requeued? {
      var c := s.(b := Closed(s.b, id));
      QuietWakeup(s, c);
      EnqueueWakeup(c, s.b.unack[id].eval, token, r.outcome, t);
    } else {
      QuietWakeup(s, t);
    }
  }

  lemma QuietWakeup(s: System, t: System)
    requires WakeupInv(s) && t.workers == s.workers && (s.cancelled ==> t.cancelled)
    requires t.b.pending == s.b.pending && t.b.waiting == s.b.waiting && t.b.slots == s.b.slots
    ensures WakeupInv(t)
  {
    forall q | !t.cancelled && Pend(t.b, q) != multiset{} ensures Attended(t, q) {
      assert Pend(s.b, q) != multiset{};
      StillAttended(s, t, q);
    }
  }

  /** A worker changes phase; its queue stays attended if it will look, or found nothing. */
  lemma PhaseWakeup(s: System, w: WorkerId, phase: Phase, t: System)
    requires WakeupInv(s) && ChannelsInv(t)
    requires t.workers == s.workers[w := phase] && t.cancelled == s.cancelled
    requires w in s.workers ==> s.workers[w].queue == phase.queue
    requires forall q :: q != phase.queue ==> Pend(t.b, q) == Pend(s.b, q) && (Signalled(s, q) ==> Signalled(t, q))
    requires (phase.Looking? || phase.Holding? || phase.Busy?) || Pend(t.b, phase.queue) == multiset{}
             || (w in s.workers && s.workers[w].Registering? && Pend(t.b, phase.queue) == Pend(s.b, phase.queue)
                 && (Signalled(s, phase.queue) ==> Signalled(t, phase.queue)))
    ensures WakeupInv(t)
  {
    forall q | !t.cancelled && Pend(t.b, q) != multiset{} ensures Attended(t, q) {
      if q == phase.queue && (phase.Looking? || phase.Holding? || phase.Busy?) {
        assert WillLook(t, w, q);
      } else {
        assert Attended(s, q);
        if !Signalled(s, q) {
          var v :| WillLook(s, v, q);
          assert WillLook(t, v, q);
        }
      }
    }
  }

  lemma FindWorkWakeup(s: System, w: WorkerId, found: Option<Eval>, t: System)
    requires WakeupInv(s) && FindWorkStep(s, w, found, t)
    ensures WakeupInv(t)
  {
    PhaseWakeup(s, w, t.workers[w], t);
  }

  lemma RegisterWakeup(s: System, w: WorkerId, t: System)
    requires WakeupInv(s) && RegisterStep(s, w, t)
    ensures WakeupInv(t)
  {
    PhaseWakeup(s, w, t.workers[w], t);
  }

  lemma WakeWakeup(s: System, w: WorkerId, t: System)
    requires WakeupInv(s) && WakeStep(s, w, t)
    ensures WakeupInv(t)
  {
    PhaseWakeup(s, w, t.workers[w], t);
  }

  lemma WakeupPreserved(s: System, a: Action, t: System)
    requires WakeupInv(s) && Step(s, a, t)
    ensures WakeupInv(t)
  {
    match a
    case Enqueue(e, o) => EnqueueWakeup(s, e, "", o, t);
    case Nack(id, token, r) => NackWakeup(s, id, token, r, t);
    case TimerNack(id, token, r) => NackWakeup(s, id, token, r, t);
    case FindWork(w, found) => FindWorkWakeup(s, w, found, t);
    case Register(w) => RegisterWakeup(s, w, t);
    case Wake(w) => WakeWakeup(s, w, t);
    case Deliver(w, token) => PhaseWakeup(s, w, t.workers[w], t);
    case Return(w) => PhaseWakeup(s, w, t.workers[w], t);
    case Start(w, q) => PhaseWakeup(s, w, t.workers[w], t);
    case Exit(w) =>
    case _ => QuietWakeup(s, t);
  }
}
