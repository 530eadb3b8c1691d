/**
 The broker object. Each method is one critical section under the broker's lock and
 is proved to take the step that `BrokerSpec` gives for it.
 */
module BrokerObject {
  import opened Options
  import opened Evals
  import opened BrokerSpec
  import opened PendingHeap

  /** How `Broker.Place` changes the state `c` in which `e` is counted and its queue open. */
  ghost predicate PlaceBy(c: State, pending: seq<Eval>, e: Eval, o: Outcome, t: State) {
    var q := e.policy.ty;
    match o
    case Duplicate => false
    case Outdated(x) =>
      && IndexedOther(c, e) && x in pending && x.id == c.enqueuedPolicies[e.policy.id]
      && e.createTime <= x.createTime && t == c
    case Replaced(x) =>
      && IndexedOther(c, e) && x in pending && x.id == c.enqueuedPolicies[e.policy.id]
      && e.createTime > x.createTime
      && t == c.(enqueuedPolicies := c.enqueuedPolicies[e.policy.id := e.id],
                 enqueuedEvals := c.enqueuedEvals - {e.id},
                 pending := c.pending[q := multiset(pending) - multiset{x} + multiset{e}])
    case Pushed =>
      && (IndexedOther(c, e) ==> forall x :: x in pending ==> x.id != c.enqueuedPolicies[e.policy.id])
      && t == c.(enqueuedPolicies := if e.policy.id in c.enqueuedPolicies then c.enqueuedPolicies
                                     else c.enqueuedPolicies[e.policy.id := e.id],
                 pending := c.pending[q := multiset(pending) + multiset{e}],
                 slots := Notified(c.waiting, c.slots, q))
  }

  lemma PlaceIsEnqueue(s: State, e: Eval, token: Token, c: State, pending: seq<Eval>, o: Outcome, t: State)
    requires !IsDuplicate(s, e, token) && c == OpenQueue(s, e.policy.ty).(enqueuedEvals := Counts(s, e))
    requires multiset(pending) == Pend(s, e.policy.ty) && PlaceBy(c, pending, e, o, t)
    ensures EnqueueBy(s, e, token, o, t)
  {
    assert forall x :: x in pending <==> x in Pend(s, e.policy.ty);
    assert c.enqueuedPolicies == s.enqueuedPolicies && c.pending == s.pending;
    if o.Replaced? {
      assert c.enqueuedEvals - {e.id} == s.enqueuedEvals - {e.id};
    }
  }

  class Broker {
    const deliveryLimit: int
    var pendingEvals: map<Queue, seq<Eval>>
    var enqueuedEvals: map<EvalId, int>
    var enqueuedPolicies: map<PolicyId, EvalId>
    var unack: map<EvalId, Unacked>
    var waiting: map<Queue, Chan>
    // The Go runtime's part: channel buffers and running timers.
    var slots: seq<bool>
    var armed: set<Token>

    ghost predicate Valid()
      reads this`pendingEvals
    {
      forall q :: q in pendingEvals ==> IsHeap(pendingEvals[q])
    }

    ghost function Abs(): State
      reads this
    {
      State(deliveryLimit, map q | q in pendingEvals :: multiset(pendingEvals[q]),
            enqueuedEvals, enqueuedPolicies, unack, waiting, slots, armed)
    }

    constructor (deliveryLimit: int)
      ensures Valid()
      ensures Abs() == State(deliveryLimit, map[], map[], map[], map[], map[], [], {})
    {
      this.deliveryLimit := deliveryLimit;
      pendingEvals, enqueuedEvals, enqueuedPolicies, unack, waiting := map[], map[], map[], map[], map[];
      slots, armed := [], {};
    }

    method Enqueue(e: Eval) returns (ghost o: Outcome)
      requires Valid()
      modifies this
      ensures Valid() && EnqueueBy(old(Abs()), e, "", o, Abs())
    {
      o := EnqueueLocked(e, "");
    }

    method EnqueueLocked(e: Eval, token: Token) returns (ghost o: Outcome)
      requires Valid()
      modifies this
      ensures Valid() && EnqueueBy(old(Abs()), e, token, o, Abs())
    {
      ghost var s := Abs();
      if e.id in enqueuedEvals {
        if token == "" {
          return Duplicate;
        }
      } else {
        enqueuedEvals := enqueuedEvals[e.id := 0];
      }
      assert Abs() == s.(enqueuedEvals := Counts(s, e));
      var queue := e.policy.ty;
      var pending := [];
      if queue in pendingEvals {
        pending := pendingEvals[queue];
      } else {
        var _ := Channel(queue);
      }
      assert Abs() == OpenQueue(s, queue).(enqueuedEvals := Counts(s, e)) && multiset(pending) == Pend(s, queue);
      ghost var c := Abs();
      o := Place(queue, pending, e);
      PlaceIsEnqueue(s, e, token, c, pending, o, Abs());
    }

    /** Put `e` into its queue's heap, unless the policy's indexed eval waits there and is no older. */
    method Place(queue: Queue, pending: seq<Eval>, e: Eval) returns (ghost o: Outcome)
      requires Valid() && IsHeap(pending) && queue == e.policy.ty
      modifies this
      ensures Valid()
      ensures PlaceBy(old(Abs()), pending, e, o, Abs())
    {
      if e.policy.id !in enqueuedPolicies {
        enqueuedPolicies := enqueuedPolicies[e.policy.id := e.id];
      } else if enqueuedPolicies[e.policy.id] != e.id {
        var i := GetEvaluation(pending, enqueuedPolicies[e.policy.id]);
        if i >= 0 {
          var replaced := ReplaceIfNewer(queue, pending, i, e);
          o := if replaced then Replaced(pending[i]) else Outdated(pending[i]);
          return;
        }
      }
      PushAndNotify(queue, pending, e);
      o := Outcome.Pushed;
    }

    /** `b.pendingEvals[queue] = h`. */
    method StoreHeap(queue: Queue, h: seq<Eval>)
      requires Valid() && IsHeap(h)
      modifies this`pendingEvals
      ensures Valid() && Abs() == old(Abs()).(pending := old(Abs()).pending[queue := multiset(h)])
    {
      pendingEvals := pendingEvals[queue := h];
      assert Abs().pending == old(Abs()).pending[queue := multiset(h)];
    }

    /** The indexed eval waits at position `i`: a newer `e` takes its place, an older one is dropped. */
    method ReplaceIfNewer(queue: Queue, pending: seq<Eval>, i: nat, e: Eval) returns (replaced: bool)
      requires Valid() && IsHeap(pending) && i < |pending|
      modifies this
      ensures Valid() && replaced == (e.createTime > pending[i].createTime)
      ensures Abs() == var s := old(Abs());
                       if !replaced then s
                       else s.(enqueuedPolicies := s.enqueuedPolicies[e.policy.id := e.id],
                               enqueuedEvals := s.enqueuedEvals - {e.id},
                               pending := s.pending[queue := multiset(pending) - multiset{pending[i]} + multiset{e}])
    {
      replaced := e.createTime > pending[i].createTime;
      if replaced {
        FixedSpec(pending, i, e);
        enqueuedPolicies := enqueuedPolicies[e.policy.id := e.id];
        enqueuedEvals := enqueuedEvals - {e.id};
        StoreHeap(queue, Fixed(pending[i := e], i));
      }
    }

    /** The push at the end of an enqueue, and the send that wakes a parked worker. */
    method PushAndNotify(queue: Queue, pending: seq<Eval>, e: Eval)
      requires Valid() && IsHeap(pending)
      modifies this`pendingEvals, this`slots
      ensures Valid()
      ensures Abs() == var s := old(Abs());
                       s.(pending := s.pending[queue := multiset(pending) + multiset{e}],
                          slots := Notified(s.waiting, s.slots, queue))
    {
      PushedSpec(pending, e);
      StoreHeap(queue, PendingHeap.Pushed(pending, e));
      if queue in waiting && waiting[queue] < |slots| {
        slots := slots[waiting[queue] := true];
      }
    }

    /** The queue's channel, created on first use. */
    method Channel(queue: Queue) returns (ch: Chan)
      modifies this`waiting, this`slots
      ensures Abs() == OpenChannel(old(Abs()), queue)
      ensures queue in waiting && ch == waiting[queue]
    {
      if queue !in waiting {
        waiting, slots := waiting[queue := |slots|], slots + [false];
      }
      ch := waiting[queue];
    }

    /** The first critical section of Dequeue. */
    method FindWork(queue: Queue) returns (r: Option<Eval>)
      requires Valid()
      modifies this`pendingEvals
      ensures Valid() && FindWorkBy(old(Abs()), queue, r, Abs())
      ensures r.Some? <==> queue in old(pendingEvals) && old(pendingEvals)[queue] != []
      ensures r.Some? ==> IsBest(r.value, multiset(old(pendingEvals)[queue]))
    {
      if queue !in pendingEvals || |pendingEvals[queue]| == 0 {
        return None;
      }
      ghost var m := multiset(pendingEvals[queue]);
      PoppedSpec(pendingEvals[queue]);
      var (x, rest) := Popped(pendingEvals[queue]);
      StoreHeap(queue, rest);
      assert multiset(rest) == m - multiset{x};
      return Some(x);
    }

    /** The second critical section of Dequeue, with the token it generated. */
    method Deliver(e: Eval, token: Token)
      modifies this`unack, this`armed, this`enqueuedEvals
      ensures Abs() == AfterDeliver(old(Abs()), e, token)
    {
      armed := armed + {token};
      unack := unack[e.id := Unacked(e, token)];
      enqueuedEvals := enqueuedEvals[e.id := (if e.id in enqueuedEvals then enqueuedEvals[e.id] else 0) + 1];
    }

    /** `NackTimer.Stop`: whether the timer was still running. */
    method StopTimer(token: Token) returns (stopped: bool)
      modifies this`armed
      ensures Abs() == old(Abs()).(armed := old(armed) - {token})
      ensures stopped == (token in old(armed))
    {
      stopped := token in armed;
      armed := armed - {token};
    }

    method Ack(id: EvalId, token: Token) returns (ok: bool)
      modifies this`unack, this`armed, this`enqueuedEvals, this`enqueuedPolicies
      ensures AckBy(old(Abs()), id, token, ok, Abs())
    {
      if id !in unack { return false; }
      if unack[id].token != token { return false; }
      var stopped := StopTimer(token);
      if !stopped { return false; }
      var policy := unack[id].eval.policy.id;
      unack := unack - {id};
      enqueuedEvals := enqueuedEvals - {id};
      enqueuedPolicies := enqueuedPolicies - {policy};
      ok := true;
    }

    method Nack(id: EvalId, token: Token) returns (ok: bool, ghost r: Reply)
      requires Valid()
      modifies this
      ensures Valid() && NackBy(old(Abs()), id, token, r, Abs()) && ok == !r.Rejected?
    {
      if id !in unack { return false, Rejected; }
      if unack[id].token != token { return false, Rejected; }
      ghost var s := Abs();
      var e := unack[id].eval;
      var _ := StopTimer(token);
      unack := unack - {id};
      if (if id in enqueuedEvals then enqueuedEvals[id] else 0) >= deliveryLimit {
        enqueuedEvals := enqueuedEvals - {id};
        enqueuedPolicies := enqueuedPolicies - {e.policy.id};
        assert Abs() == Forgotten(s, id);
        return true, LimitReached;
      }
      assert Abs() == Closed(s, id);
      ghost var o := EnqueueLocked(e, token);
      return true, Requeued(o);
    }
  }
}
