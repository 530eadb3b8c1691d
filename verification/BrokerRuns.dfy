/**
 The broker under concurrent use: every interleaving of the producers, workers,
 timers and callbacks that take its lock, as a step relation over whole runs.

 `Dequeue` is two critical sections, so between `FindWork` and `Deliver` an
 evaluation is in the worker's hand, in neither the heap nor `unack`. `Ack` and
 `Nack` may be called by anyone with any arguments, at any time.
 */
module BrokerRuns {
  import opened Options
  import opened Evals
  import opened BrokerSpec

  type WorkerId = nat

  /** Where a worker's goroutine stands. */
  datatype Phase =
    | Looking(queue: Queue)               // about to call findWork
    | Registering(queue: Queue)           // found nothing, about to fetch the channel
    | Parked(queue: Queue, ch: Chan)      // receiving from the channel
    | Holding(queue: Queue, eval: Eval)   // popped an eval, not yet in unack
    | Busy(queue: Queue)                  // Dequeue returned, evaluating the policy

  /** What happened so far; no step reads it except to demand fresh names. */
  datatype History = History(
    issued: set<EvalId>,              // ids handed to Enqueue
    requested: set<Eval>,             // evals handed to Enqueue
    finished: set<Eval>,              // evals acked or dropped at the delivery limit
    tokens: set<Token>,               // delivery tokens generated
    settled: set<Token>,              // tokens whose delivery ended by Ack or Nack
    deliveries: map<EvalId, nat>,     // how often each eval was really delivered
    resets: map<EvalId, nat>,         // how often each eval took the replace branch after a Nack
    overlapped: set<PolicyId>)        // policies enqueued while an eval was out, or with another type

  datatype System = System(
    b: State,
    workers: map<WorkerId, Phase>,
    fired: set<(EvalId, Token)>,      // expired timers whose Nack call is still to run
    cancelled: bool,
    h: History)

  datatype Action =
    | Enqueue(e: Eval, outcome: Outcome)
    | FindWork(w: WorkerId, found: Option<Eval>)
    | Deliver(w: WorkerId, token: Token)
    | Register(w: WorkerId)
    | Wake(w: WorkerId)
    | Return(w: WorkerId)
    | Ack(id: EvalId, token: Token, ok: bool)
    | Nack(id: EvalId, token: Token, reply: Reply)
    | TimerFires(id: EvalId, token: Token)
    | TimerNack(id: EvalId, token: Token, reply: Reply)
    | Start(w: WorkerId, queue: Queue)
    | Cancel
    | Exit(w: WorkerId)

  // ---------- Places ----------

  datatype Place = InHeap(queue: Queue) | InHand(w: WorkerId) | InUnack

  ghost predicate At(s: System, e: Eval, p: Place) {
    match p
    case InHeap(q) => e in Pend(s.b, q)
    case InHand(w) => w in s.workers && s.workers[w].Holding? && s.workers[w].eval == e
    case InUnack => e.id in s.b.unack && s.b.unack[e.id].eval == e
  }

  ghost predicate Live(s: System, e: Eval) {
    exists p :: At(s, e, p)
  }

  /** Some eval of the policy is out of the heap, or waits under another type. */
  ghost predicate Overlaps(s: System, e: Eval) {
    exists x, p :: At(s, x, p) && x.policy.id == e.policy.id && (!p.InHeap? || x.policy.ty != e.policy.ty)
  }

  ghost function Deliveries(s: System, id: EvalId): nat {
    if id in s.h.deliveries then s.h.deliveries[id] else 0
  }

  ghost function Resets(s: System, id: EvalId): nat {
    if id in s.h.resets then s.h.resets[id] else 0
  }

  // ---------- Steps ----------

  ghost function Requested(s: System, e: Eval): History {
    s.h.(issued := s.h.issued + {e.id},
         requested := s.h.requested + {e},
         overlapped := s.h.overlapped + if Overlaps(s, e) then {e.policy.id} else {})
  }

  ghost predicate EnqueueStep(s: System, e: Eval, o: Outcome, t: System) {
    && e.id !in s.h.issued
    && EnqueueBy(s.b, e, "", o, t.b)
    && t == s.(b := t.b, h := Requested(s, e))
  }

  ghost predicate FindWorkStep(s: System, w: WorkerId, found: Option<Eval>, t: System) {
    && w in s.workers && s.workers[w].Looking?
    && var q := s.workers[w].queue;
    && FindWorkBy(s.b, q, found, t.b)
    && t == s.(b := t.b, workers := s.workers[w := if found.Some? then Holding(q, found.value) else Registering(q)])
  }

  ghost predicate DeliverStep(s: System, w: WorkerId, token: Token, t: System) {
    && w in s.workers && s.workers[w].Holding?
    && token != "" && token !in s.h.tokens
    && var e := s.workers[w].eval;
    t == s.(b := AfterDeliver(s.b, e, token),
            workers := s.workers[w := Busy(s.workers[w].queue)],
            h := s.h.(tokens := s.h.tokens + {token},
                      deliveries := s.h.deliveries[e.id := Deliveries(s, e.id) + 1]))
  }

  ghost predicate RegisterStep(s: System, w: WorkerId, t: System) {
    && w in s.workers && s.workers[w].Registering?
    && var q := s.workers[w].queue;
    && var b := OpenChannel(s.b, q);
    t == s.(b := b, workers := s.workers[w := Parked(q, b.waiting[q])])
  }

  ghost predicate WakeStep(s: System, w: WorkerId, t: System) {
    && w in s.workers && s.workers[w].Parked?
    && var ch := s.workers[w].ch;
    && ch < |s.b.slots| && s.b.slots[ch]
    && t == s.(b := s.b.(slots := s.b.slots[ch := false]),
               workers := s.workers[w := Looking(s.workers[w].queue)])
  }

  ghost function Acked(s: System, id: EvalId, token: Token, ok: bool): History
    requires ok ==> id in s.b.unack
  {
    if ok then s.h.(settled := s.h.settled + {token}, finished := s.h.finished + {s.b.unack[id].eval})
    else s.h
  }

  ghost predicate AckStep(s: System, id: EvalId, token: Token, ok: bool, t: System) {
    && AckBy(s.b, id, token, ok, t.b)
    && t == s.(b := t.b, h := Acked(s, id, token, ok))
  }

  ghost function Nacked(s: System, id: EvalId, token: Token, r: Reply): History
    requires !r.Rejected? ==> id in s.b.unack
  {
    match r
    case Rejected => s.h
    case LimitReached => Acked(s, id, token, true)
    case Requeued(o) => s.h.(settled := s.h.settled + {token},
                             resets := if o.Replaced? then s.h.resets[id := Resets(s, id) + 1] else s.h.resets)
  }

  ghost predicate NackStep(s: System, id: EvalId, token: Token, r: Reply, t: System) {
    && NackBy(s.b, id, token, r, t.b)
    && t == s.(b := t.b, h := Nacked(s, id, token, r))
  }

  ghost predicate TimerFiresStep(s: System, id: EvalId, token: Token, t: System) {
    && Outstanding(s.b, id, token) && token in s.b.armed
    && t == s.(b := s.b.(armed := s.b.armed - {token}), fired := s.fired + {(id, token)})
  }

  ghost predicate Step(s: System, a: Action, t: System) {
    match a
    case Enqueue(e, o) => EnqueueStep(s, e, o, t)
    case FindWork(w, found) => FindWorkStep(s, w, found, t)
    case Deliver(w, token) => DeliverStep(s, w, token, t)
    case Register(w) => RegisterStep(s, w, t)
    case Wake(w) => WakeStep(s, w, t)
    case Return(w) =>
      && w in s.workers && s.workers[w].Busy?
      && t == s.(workers := s.workers[w := Looking(s.workers[w].queue)])
    case Ack(id, token, ok) => AckStep(s, id, token, ok, t)
    case Nack(id, token, r) => NackStep(s, id, token, r, t)
    case TimerFires(id, token) => TimerFiresStep(s, id, token, t)
    case TimerNack(id, token, r) =>
      (id, token) in s.fired && NackStep(s.(fired := s.fired - {(id, token)}), id, token, r, t)
    case Start(w, q) => w !in s.workers && t == s.(workers := s.workers[w := Looking(q)])
    case Cancel => t == s.(cancelled := true)
    case Exit(w) =>
      && s.cancelled && w in s.workers && (s.workers[w].Parked? || s.workers[w].Busy?)
      && t == s.(workers := s.workers - {w})
  }

  ghost predicate Init(s: System) {
    && s.b == State(s.b.limit, map[], map[], map[], map[], map[], [], {})
    && s.workers == map[] && s.fired == {} && !s.cancelled
    && s.h == History({}, {}, {}, {}, {}, map[], map[], {})
  }

  ghost predicate StepAt(states: seq<System>, actions: seq<Action>, i: nat)
    requires i < |actions| && |states| == |actions| + 1
  {
    Step(states[i], actions[i], states[i + 1])
  }

  /** A run: `states[i]` becomes `states[i + 1]` by `actions[i]`. */
  ghost predicate IsRun(states: seq<System>, actions: seq<Action>) {
    && |states| == |actions| + 1
    && Init(states[0])
    && forall i :: 0 <= i < |actions| ==> StepAt(states, actions, i)
  }
}
