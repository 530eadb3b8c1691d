/**
 Runs in which the broker does what its header comment rules out: two evals of one
 policy delivered at once, a live eval without its index entry, counters that outlive
 or miss their eval, and an eval delivered more often than the limit. Each worker
 settles its delivery before it looks for the next one.
 */
module BrokerWitness {
  import opened Options
  import opened Evals
  import opened BrokerSpec
  import opened BrokerRuns
  import opened BrokerDelivery

  ghost predicate Reachable(s: System) {
    exists states, actions :: IsRun(states, actions) && states[|actions|] == s
  }

  lemma ReachableStep(s: System, a: Action, t: System)
    requires Reachable(s) && Step(s, a, t)
    ensures Reachable(t)
  {
    var states, actions :| IsRun(states, actions) && states[|actions|] == s;
    var states', actions' := states + [t], actions + [a];
    forall i | 0 <= i < |actions'| ensures StepAt(states', actions', i) {
      if i < |actions| { assert StepAt(states, actions, i); }
    }
    assert IsRun(states', actions') && states'[|actions'|] == t;
  }

  const P := Policy("p", "q", 0)
  const A := Eval("a", P, 1)
  const B := Eval("b", P, 2)

  ghost function Broker(pend: multiset<Eval>, counts: map<EvalId, int>, indexed: EvalId,
                        unack: map<EvalId, Unacked>, full: bool, armed: set<Token>): State {
    State(2, map["q" := pend], counts, map["p" := indexed], unack, map["q" := 0], [full], armed)
  }

  /** Pushing into the empty queue. */
  lemma PushAlone(counts: map<EvalId, int>, indexed: EvalId, unack: map<EvalId, Unacked>, full: bool, armed: set<Token>, e: Eval)
    requires e.policy == P
    ensures AfterPush(Broker(multiset{}, counts, indexed, unack, full, armed), e)
            == Broker(multiset{e}, if e.id in counts then counts else counts[e.id := 0], indexed, unack, true, armed)
  {
    var b := AfterPush(Broker(multiset{}, counts, indexed, unack, full, armed), e);
    assert b.slots == [true] && b.pending["q"] == multiset{e};
    assert b.pending == map["q" := multiset{e}];
  }

  /** A worker finds the one pending eval and registers it. */
  lemma DeliverNext(s: System, w: WorkerId, e: Eval, token: Token) returns (t: System)
    requires Reachable(s) && w in s.workers && s.workers[w] == Looking("q") && s.b.pending == map["q" := multiset{e}]
    requires token != "" && token !in s.h.tokens
    ensures Reachable(t) && t.workers == s.workers[w := Busy("q")]
    ensures t.b == AfterDeliver(s.b.(pending := map["q" := multiset{}]), e, token)
    ensures t.h == s.h.(tokens := s.h.tokens + {token}, deliveries := s.h.deliveries[e.id := Deliveries(s, e.id) + 1])
  {
    var m := s.(b := s.b.(pending := map["q" := multiset{}]), workers := s.workers[w := Holding("q", e)]);
    assert multiset{e} - multiset{e} == multiset{};
    assert m.b.pending == s.b.pending["q" := Pend(s.b, "q") - multiset{e}];
    assert FindWorkStep(s, w, Some(e), m);
    ReachableStep(s, FindWork(w, Some(e)), m);
    t := m.(b := AfterDeliver(m.b, e, token), workers := s.workers[w := Busy("q")],
            h := s.h.(tokens := s.h.tokens + {token}, deliveries := s.h.deliveries[e.id := Deliveries(s, e.id) + 1]));
    assert t.workers == m.workers[w := Busy("q")];
    assert DeliverStep(m, w, token, t);
    ReachableStep(m, Deliver(w, token), t);
  }

  lemma ReplaceAlone(counts: map<EvalId, int>)
    ensures AfterReplace(Broker(multiset{A}, counts, "a", map[], true, {}), B, A)
            == Broker(multiset{B}, counts - {"b"}, "b", map[], true, {})
  {
    var b := AfterReplace(Broker(multiset{A}, counts, "a", map[], true, {}), B, A);
    assert b.pending["q"] == multiset{B};
    assert b.pending == map["q" := multiset{B}];
  }

  lemma Started() returns (s: System)
    ensures Reachable(s) && s.workers == map[0 := Looking("q"), 1 := Looking("q")]
    ensures s.b == State(2, map[], map[], map[], map[], map[], [], {})
    ensures s.h == History({}, {}, {}, {}, {}, map[], map[], {})
  {
    var s0 := System(State(2, map[], map[], map[], map[], map[], [], {}), map[], {}, false,
                     History({}, {}, {}, {}, {}, map[], map[], {}));
    var none: seq<Action> := [];
    assert IsRun([s0], none) && [s0][|none|] == s0;
    var s1 := s0.(workers := map[0 := Looking("q")]);
    ReachableStep(s0, Start(0, "q"), s1);
    s := s1.(workers := map[0 := Looking("q"), 1 := Looking("q")]);
    ReachableStep(s1, Start(1, "q"), s);
  }

  /** Two workers have started, and the older eval waits. */
  lemma FirstPushed() returns (s: System)
    ensures Reachable(s) && s.workers == map[0 := Looking("q"), 1 := Looking("q")]
    ensures s.h.tokens == {} && s.h.deliveries == map[] && s.h.resets == map[] && s.h.issued == {"a"}
    ensures s.b == Broker(multiset{A}, map["a" := 0], "a", map[], true, {})
  {
    var s0 := Started();
    s := s0.(b := AfterPush(s0.b, A), h := Requested(s0, A));
    ReachableStep(s0, Enqueue(A, Pushed), s);
    assert s.b.slots == [true] && s.b.pending["q"] == multiset{A};
    assert s.b == Broker(multiset{A}, map["a" := 0], "a", map[], true, {});
  }

  lemma FirstOut() returns (s: System)
    ensures Reachable(s) && s.workers == map[0 := Busy("q"), 1 := Looking("q")]
    ensures s.h.tokens == {"1"} && s.h.issued == {"a"} && Deliveries(s, "b") == 0 && s.h.resets == map[]
    ensures s.b == Broker(multiset{}, map["a" := 1], "a", map["a" := Unacked(A, "1")], true, {"1"})
  {
    var s0 := FirstPushed();
    s := DeliverNext(s0, 0, A, "1");
  }

  /** Worker 0 has the older eval when the newer one is enqueued. */
  lemma SecondPushed() returns (s: System)
    ensures Reachable(s) && s.workers == map[0 := Busy("q"), 1 := Looking("q")]
    ensures s.h.tokens == {"1"} && s.h.issued == {"a", "b"} && Deliveries(s, "b") == 0 && s.h.resets == map[]
    ensures s.b == Broker(multiset{B}, map["a" := 1, "b" := 0], "a", map["a" := Unacked(A, "1")], true, {"1"})
  {
    var s0 := FirstOut();
    PushAlone(map["a" := 1], "a", map["a" := Unacked(A, "1")], true, {"1"}, B);
    s := s0.(b := AfterPush(s0.b, B), h := Requested(s0, B));
    assert EnqueueBy(s0.b, B, "", Pushed, s.b);
    ReachableStep(s0, Enqueue(B, Pushed), s);
  }

  /** Worker 1 takes the newer eval while the older one is out, and the index keeps the older. */
  lemma TwoEvalsOfOnePolicyOut() returns (s: System)
    ensures Reachable(s) && s.workers == map[0 := Busy("q"), 1 := Busy("q")]
    ensures s.b == Broker(multiset{}, map["a" := 1, "b" := 1], "a",
                          map["a" := Unacked(A, "1"), "b" := Unacked(B, "2")], true, {"1", "2"})
    ensures s.h.tokens == {"1", "2"} && s.h.issued == {"a", "b"} && Deliveries(s, "b") == 1 && s.h.resets == map[]
  {
    var s0 := SecondPushed();
    s := DeliverNext(s0, 1, B, "2");
    assert s.b.enqueuedEvals == map["a" := 1, "b" := 1];
    assert s.b.unack == map["a" := Unacked(A, "1"), "b" := Unacked(B, "2")];
  }

  /** Worker 1 Acks the newer eval, and the older one, still out, loses its index entry. */
  lemma IndexLost() returns (s: System)
    ensures Reachable(s) && s.b.unack == map["a" := Unacked(A, "1")] && s.b.enqueuedPolicies == map[]
  {
    var s0 := TwoEvalsOfOnePolicyOut();
    s := s0.(b := Forgotten(s0.b, "b"), h := Acked(s0, "b", "2", true));
    ReachableStep(s0, Ack("b", "2", true), s);
  }

  /** Worker 0 Nacks the older eval, which waits again while the newer one is still out. */
  lemma OlderRequeued() returns (s: System)
    ensures Reachable(s) && s.workers == map[0 := Busy("q"), 1 := Busy("q")]
    ensures s.b == Broker(multiset{A}, map["a" := 1, "b" := 1], "a", map["b" := Unacked(B, "2")], true, {"2"})
    ensures s.h.tokens == {"1", "2"} && s.h.issued == {"a", "b"} && Deliveries(s, "b") == 1 && s.h.resets == map[]
  {
    var s0 := TwoEvalsOfOnePolicyOut();
    var c := Closed(s0.b, "a");
    assert c == Broker(multiset{}, map["a" := 1, "b" := 1], "a", map["b" := Unacked(B, "2")], true, {"2"});
    PushAlone(c.enqueuedEvals, "a", c.unack, true, {"2"}, A);
    s := s0.(b := AfterPush(c, A), h := Nacked(s0, "a", "1", Requeued(Pushed)));
    assert NackBy(s0.b, "a", "1", Requeued(Pushed), s.b);
    ReachableStep(s0, Nack("a", "1", Requeued(Pushed)), s);
  }

  lemma NewerReplaces(s: State, b: State)
    requires s == Broker(multiset{A}, map["a" := 1, "b" := 1], "a", map["b" := Unacked(B, "2")], true, {"2"})
    requires b == Broker(multiset{B}, map["a" := 1], "b", map[], true, {})
    ensures NackBy(s, "b", "2", Requeued(Replaced(A)), b)
  {
    var c := Closed(s, "b");
    assert c == Broker(multiset{A}, map["a" := 1, "b" := 1], "a", map[], true, {});
    assert Rival(c, B, A);
    ReplaceAlone(c.enqueuedEvals);
    assert map["a" := 1, "b" := 1] - {"b"} == map["a" := 1];
  }

  /**
   Worker 1 Nacks the newer eval, which takes the replace branch: the counter of the
   replaced eval stays and the kept eval has none.
   */
  lemma CounterOutlivesEval() returns (s: System)
    ensures Reachable(s) && s.workers == map[0 := Busy("q"), 1 := Looking("q")]
    ensures s.b == Broker(multiset{B}, map["a" := 1], "b", map[], true, {})
    ensures s.h.tokens == {"1", "2"} && s.h.issued == {"a", "b"} && Deliveries(s, "b") == 1 && Resets(s, "b") == 1
  {
    var s0 := OlderRequeued();
    var b := Broker(multiset{B}, map["a" := 1], "b", map[], true, {});
    NewerReplaces(s0.b, b);
    var s1 := s0.(b := b, h := Nacked(s0, "b", "2", Requeued(Replaced(A))));
    ReachableStep(s0, Nack("b", "2", Requeued(Replaced(A))), s1);
    s := s1.(workers := map[0 := Busy("q"), 1 := Looking("q")]);
    ReachableStep(s1, Return(1), s);
  }

  /** Worker 1 takes the kept eval again and Nacks it: it waits with a counter of one after two deliveries. */
  lemma DeliveredTwice() returns (s: System)
    ensures Reachable(s) && s.workers == map[0 := Busy("q"), 1 := Looking("q")]
    ensures s.b == Broker(multiset{B}, map["a" := 1, "b" := 1], "b", map[], true, {})
    ensures s.h.tokens == {"1", "2", "3"} && Deliveries(s, "b") == 2 && Resets(s, "b") == 1
  {
    var s0 := CounterOutlivesEval();
    var s1 := DeliverNext(s0, 1, B, "3");
    assert s1.b == Broker(multiset{}, map["a" := 1, "b" := 1], "b", map["b" := Unacked(B, "3")], true, {"3"});
    assert Closed(s1.b, "b") == Broker(multiset{}, map["a" := 1, "b" := 1], "b", map[], true, {});
    PushAlone(map["a" := 1, "b" := 1], "b", map[], true, {}, B);
    var s2 := s1.(b := AfterPush(Closed(s1.b, "b"), B), h := Nacked(s1, "b", "3", Requeued(Pushed)));
    assert NackBy(s1.b, "b", "3", Requeued(Pushed), s2.b);
    ReachableStep(s1, Nack("b", "3", Requeued(Pushed)), s2);
    s := s2.(workers := map[0 := Busy("q"), 1 := Looking("q")]);
    ReachableStep(s2, Return(1), s);
  }

  /** With a limit of two, an eval that was reset once is delivered three times: the bound is attained. */
  lemma LimitExceeded() returns (s: System)
    ensures Reachable(s) && s.b.limit == 2 && Resets(s, "b") == 1
    ensures Deliveries(s, "b") == 3 == MaxDeliveries(s) + Slack(s, "b") > MaxDeliveries(s)
  {
    var s0 := DeliveredTwice();
    s := DeliverNext(s0, 1, B, "4");
  }

  /** Fresh ids are needed: enqueueing the kept eval again puts it into the heap twice. */
  lemma ReusedIdDuplicates() returns (s: System, b: State)
    ensures Reachable(s) && B in Pend(s.b, "q") && B.id in s.h.issued
    ensures EnqueueBy(s.b, B, "", Pushed, b) && Pend(b, "q") == multiset{B, B}
  {
    s := CounterOutlivesEval();
    b := AfterPush(s.b, B);
    assert multiset{B} + multiset{B} == multiset{B, B};
  }
}
