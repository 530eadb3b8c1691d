/**
 Every evaluation is in at most one place: one heap, one worker's hand or `unack`,
 and there only once. The other invariants rest on how steps move evaluations.
 */
module BrokerPlaces {
  import opened Options
  import opened Evals
  import opened BrokerSpec
  import opened BrokerRuns

  /** A heap holds evals of its own type, each once. */
  ghost predicate HeapsTyped(b: State) {
    forall q, e :: e in Pend(b, q) ==> e.policy.ty == q && Pend(b, q)[e] == 1
  }

  /** Entries of `unack` are filed under their id, with a token that was generated. */
  ghost predicate UnackKeyed(s: System) {
    && "" !in s.h.tokens
    && forall id :: id in s.b.unack ==> s.b.unack[id].eval.id == id && s.b.unack[id].token in s.h.tokens
  }

  ghost predicate HandsTyped(s: System) {
    forall w :: w in s.workers && s.workers[w].Holding? ==> s.workers[w].eval.policy.ty == s.workers[w].queue
  }

  ghost predicate WellFormed(s: System) {
    && HeapsTyped(s.b)
    && UnackKeyed(s)
    && HandsTyped(s)
    && s.b.enqueuedEvals.Keys <= s.h.issued
  }

  ghost predicate UniquePlace(s: System) {
    forall x, p, y, r :: At(s, x, p) && At(s, y, r) && x.id == y.id ==> x == y && p == r
  }

  ghost predicate PlacesInv(s: System) {
    && WellFormed(s)
    && UniquePlace(s)
    && (forall x, p :: At(s, x, p) ==> x.id in s.h.issued)
  }

  // ---------- How a step moves evaluations ----------

  ghost function EnqueueGone(e: Eval, o: Outcome): set<(Eval, Place)> {
    if o.Replaced? then {(o.victim, InHeap(e.policy.ty))} else {}
  }

  ghost function EnqueueAdded(e: Eval, o: Outcome): set<(Eval, Place)> {
    if o.Replaced? || o.Pushed? then {(e, InHeap(e.policy.ty))} else {}
  }

  ghost function NackGone(s: System, id: EvalId, r: Reply): set<(Eval, Place)> {
    if r.Rejected? || id !in s.b.unack then {}
    else
      var e := s.b.unack[id].eval;
      {(e, InUnack)} + if r.Requeued? then EnqueueGone(e, r.outcome) else {}
  }

  ghost function NackAdded(s: System, id: EvalId, r: Reply): set<(Eval, Place)> {
    if r.Requeued? && id in s.b.unack then EnqueueAdded(s.b.unack[id].eval, r.outcome) else {}
  }

  ghost function Gone(s: System, a: Action): set<(Eval, Place)> {
    match a
    case Enqueue(e, o) => EnqueueGone(e, o)
    case FindWork(w, Some(e)) => {(e, InHeap(e.policy.ty))}
    case Deliver(w, _) => if w in s.workers && s.workers[w].Holding? then {(s.workers[w].eval, InHand(w))} else {}
    case Ack(id, _, ok) => if ok && id in s.b.unack then {(s.b.unack[id].eval, InUnack)} else {}
    case Nack(id, _, r) => NackGone(s, id, r)
    case TimerNack(id, _, r) => NackGone(s, id, r)
    case _ => {}
  }

  ghost function Added(s: System, a: Action): set<(Eval, Place)> {
    match a
    case Enqueue(e, o) => EnqueueAdded(e, o)
    case FindWork(w, Some(e)) => {(e, InHand(w))}
    case Deliver(w, _) => if w in s.workers && s.workers[w].Holding? then {(s.workers[w].eval, InUnack)} else {}
    case Nack(id, _, r) => NackAdded(s, id, r)
    case TimerNack(id, _, r) => NackAdded(s, id, r)
    case _ => {}
  }

  ghost predicate Moved(s: System, t: System, gone: set<(Eval, Place)>, added: set<(Eval, Place)>) {
    forall x, p {:trigger At(t, x, p)} {:trigger At(s, x, p)} ::
      At(t, x, p) <==> (At(s, x, p) && (x, p) !in gone) || (x, p) in added
  }

  /** The effect of an enqueue on every heap. */
  lemma EnqueuePend(s: State, e: Eval, token: Token, o: Outcome, s': State, q: Queue)
    requires EnqueueBy(s, e, token, o, s')
    ensures Pend(s', q) ==
            if q != e.policy.ty || o.Duplicate? || o.Outdated? then Pend(s, q)
            else if o.Replaced? then Pend(s, q) - multiset{o.victim} + multiset{e}
            else Pend(s, q) + multiset{e}
  {
  }

  lemma EnqueueFrame(s: State, e: Eval, token: Token, o: Outcome, s': State)
    requires EnqueueBy(s, e, token, o, s')
    ensures s'.unack == s.unack && s'.armed == s.armed && s'.limit == s.limit
  {
  }

  lemma EnqueueMovesOne(s: System, e: Eval, token: Token, o: Outcome, t: System, x: Eval, p: Place)
    requires HeapsTyped(s.b) && EnqueueBy(s.b, e, token, o, t.b) && t.workers == s.workers
    ensures At(t, x, p) <==> (At(s, x, p) && (x, p) !in EnqueueGone(e, o)) || (x, p) in EnqueueAdded(e, o)
  {
    match p
    case InHeap(q) => EnqueuePend(s.b, e, token, o, t.b, q);
    case _ => EnqueueFrame(s.b, e, token, o, t.b);
  }

  lemma EnqueueMoves(s: System, e: Eval, token: Token, o: Outcome, t: System)
    requires HeapsTyped(s.b) && EnqueueBy(s.b, e, token, o, t.b) && t.workers == s.workers
    ensures Moved(s, t, EnqueueGone(e, o), EnqueueAdded(e, o))
  {
    forall x, p
      ensures At(t, x, p) <==> (At(s, x, p) && (x, p) !in EnqueueGone(e, o)) || (x, p) in EnqueueAdded(e, o)
    {
      EnqueueMovesOne(s, e, token, o, t, x, p);
    }
  }

  /** Steps that leave the heaps, the hands and `unack` alone, or remove one entry from `unack`. */
  lemma UnackMoves(s: System, t: System, gone: set<EvalId>)
    requires UnackKeyed(s) && t.b.pending == s.b.pending && t.b.unack == s.b.unack - gone && gone <= s.b.unack.Keys
    requires forall w :: HoldsSame(s, t, w)
    ensures Moved(s, t, set id | id in gone :: (s.b.unack[id].eval, InUnack), {})
  {
    forall x, p
      ensures At(t, x, p) <==> At(s, x, p) && (x, p) !in set id | id in gone :: (s.b.unack[id].eval, InUnack)
    {
      match p
      case InHeap(q) => assert Pend(t.b, q) == Pend(s.b, q);
      case InHand(w) => assert HoldsSame(s, t, w);
      case InUnack =>
    }
  }

  ghost predicate HoldsSame(s: System, t: System, w: WorkerId) {
    && (w in s.workers && s.workers[w].Holding? <==> w in t.workers && t.workers[w].Holding?)
    && (w in s.workers && s.workers[w].Holding? ==> t.workers[w] == s.workers[w])
  }

  lemma CloseMoves(s: System, id: EvalId, t: System)
    requires UnackKeyed(s) && id in s.b.unack && t.workers == s.workers
    requires t.b.pending == s.b.pending && t.b.unack == s.b.unack - {id}
    ensures Moved(s, t, {(s.b.unack[id].eval, InUnack)}, {})
  {
    UnackMoves(s, t, {id});
    assert (set k | k in {id} :: (s.b.unack[k].eval, InUnack)) == {(s.b.unack[id].eval, InUnack)};
  }

  lemma QuietMoves(s: System, t: System)
    requires UnackKeyed(s) && t.b.pending == s.b.pending && t.b.unack == s.b.unack
    requires forall w :: HoldsSame(s, t, w)
    ensures Moved(s, t, {}, {})
  {
    UnackMoves(s, t, {});
  }

  lemma NackMoves(s: System, id: EvalId, token: Token, r: Reply, t: System)
    requires PlacesInv(s) && NackBy(s.b, id, token, r, t.b) && t.workers == s.workers
    ensures Moved(s, t, NackGone(s, id, r), NackAdded(s, id, r))
  {
    if r.Rejected? {
      QuietMoves(s, t);
    } else if r.LimitReached? {
      CloseMoves(s, id, t);
    } else {
      var c := s.(b := Closed(s.b, id));
      CloseMoves(s, id, c);
      assert forall q :: Pend(c.b, q) == Pend(s.b, q);
      EnqueueMoves(c, s.b.unack[id].eval, token, r.outcome, t);
    }
  }

  lemma FindWorkMoves(s: System, w: WorkerId, e: Eval, t: System)
    requires WellFormed(s) && FindWorkStep(s, w, Some(e), t)
    ensures Moved(s, t, {(e, InHeap(e.policy.ty))}, {(e, InHand(w))})
  {
    var q := s.workers[w].queue;
    assert e.policy.ty == q;
    forall x, p ensures At(t, x, p) <==> (At(s, x, p) && (x, p) != (e, InHeap(q))) || (x, p) == (e, InHand(w)) {
      if p.InHeap? {
        assert Pend(t.b, p.queue) == if p.queue == q then Pend(s.b, q) - multiset{e} else Pend(s.b, p.queue);
      }
    }
  }

  lemma DeliverMoves(s: System, w: WorkerId, token: Token, t: System)
    requires PlacesInv(s) && DeliverStep(s, w, token, t)
    ensures Moved(s, t, {(s.workers[w].eval, InHand(w))}, {(s.workers[w].eval, InUnack)})
  {
    var e := s.workers[w].eval;
    assert At(s, e, InHand(w));
    forall x, p ensures At(t, x, p) <==> (At(s, x, p) && (x, p) != (e, InHand(w))) || (x, p) == (e, InUnack) {
      match p
      case InHeap(q) => assert Pend(t.b, q) == Pend(s.b, q);
      case InHand(v) =>
      case InUnack =>
        if At(s, x, InUnack) { assert x.id != e.id; }
    }
  }

  lemma StepMoves(s: System, a: Action, t: System)
    requires PlacesInv(s) && Step(s, a, t)
    ensures Moved(s, t, Gone(s, a), Added(s, a))
  {
    match a
    case Enqueue(e, o) => EnqueueMoves(s, e, "", o, t);
    case Nack(id, token, r) => NackMoves(s, id, token, r, t);
    case TimerNack(id, token, r) => NackMoves(s, id, token, r, t);
    case FindWork(w, Some(e)) => FindWorkMoves(s, w, e, t);
    case Deliver(w, token) => DeliverMoves(s, w, token, t);
    case _ => OtherStepsMoveNothing(s, a, t);
  }

  lemma OtherStepsMoveNothing(s: System, a: Action, t: System)
    requires Step(s, a, t) && PlacesInv(s)
    requires !a.Enqueue? && !a.Nack? && !a.TimerNack? && !a.Deliver? && !(a.FindWork? && a.found.Some?)
    ensures Moved(s, t, Gone(s, a), Added(s, a))
  {
    if a.Ack? && a.ok {
      CloseMoves(s, a.id, t);
    } else {
      QuietMoves(s, t);
    }
  }

  lemma AddedIsOne(s: System, a: Action)
    ensures forall x, p, y, r :: (x, p) in Added(s, a) && (y, r) in Added(s, a) ==> (x, p) == (y, r)
  {
  }

  lemma GoneWasThere(s: System, a: Action, t: System)
    requires PlacesInv(s) && Step(s, a, t)
    ensures forall x, p :: (x, p) in Gone(s, a) ==> At(s, x, p)
  {
    match a
    case Nack(id, token, r) => NackGoneWasThere(s, id, token, r, t);
    case TimerNack(id, token, r) => NackGoneWasThere(s, id, token, r, t);
    case _ =>
  }

  lemma NackGoneWasThere(s: System, id: EvalId, token: Token, r: Reply, t: System)
    requires PlacesInv(s) && NackBy(s.b, id, token, r, t.b)
    ensures forall x, p :: (x, p) in NackGone(s, id, r) ==> At(s, x, p)
  {
    if r.Requeued? {
      assert Pend(Closed(s.b, id), s.b.unack[id].eval.policy.ty) == Pend(s.b, s.b.unack[id].eval.policy.ty);
    }
  }

  /** What a step adds is either new or was taken from elsewhere in the same step. */
  lemma AddedIsNewOrMoved(s: System, a: Action, t: System)
    requires PlacesInv(s) && Step(s, a, t)
    ensures forall x, p, y, r :: (x, p) in Added(s, a) && (y, r) in Added(s, a) ==> (x, p) == (y, r)
    ensures forall x, p :: (x, p) in Added(s, a) ==> x.id !in s.h.issued || exists r :: (x, r) in Gone(s, a)
    ensures forall x, p :: (x, p) in Gone(s, a) ==> At(s, x, p)
  {
    AddedIsOne(s, a);
    GoneWasThere(s, a, t);
  }

  // ---------- Preservation ----------

  lemma IssuedGrows(s: System, a: Action, t: System)
    requires Step(s, a, t)
    ensures s.h.issued <= t.h.issued && s.h.tokens <= t.h.tokens
    ensures a.Enqueue? ==> a.e.id in t.h.issued
  {
  }

  lemma UniquePreserved(s: System, a: Action, t: System)
    requires PlacesInv(s) && Step(s, a, t)
    ensures UniquePlace(t)
    ensures forall x, p :: At(t, x, p) ==> x.id in t.h.issued
  {
    StepMoves(s, a, t);
    AddedIsNewOrMoved(s, a, t);
    IssuedGrows(s, a, t);
    forall x, p | At(t, x, p) ensures x.id in t.h.issued {
      if (x, p) in Added(s, a) && x.id !in s.h.issued { assert a.Enqueue? && x == a.e; }
    }
    forall x, p, y, r | At(t, x, p) && At(t, y, r) && x.id == y.id ensures x == y && p == r {
      if (x, p) in Added(s, a) && (y, r) !in Added(s, a) {
        AddedExcludesOld(s, a, t, x, p, y, r);
      } else if (y, r) in Added(s, a) && (x, p) !in Added(s, a) {
        AddedExcludesOld(s, a, t, y, r, x, p);
      }
    }
  }

  /** An eval that stayed where it was has another id than the one the step added. */
  lemma AddedExcludesOld(s: System, a: Action, t: System, x: Eval, p: Place, y: Eval, r: Place)
    requires PlacesInv(s) && Step(s, a, t)
    requires (x, p) in Added(s, a) && At(s, y, r) && (y, r) !in Gone(s, a)
    ensures x.id != y.id
  {
    AddedIsNewOrMoved(s, a, t);
    if x.id in s.h.issued {
      var from :| (x, from) in Gone(s, a);
      assert At(s, x, from);
    }
  }

  lemma WellFormedPreserved(s: System, a: Action, t: System)
    requires PlacesInv(s) && Step(s, a, t)
    ensures WellFormed(t)
  {
    HeapsStayTyped(s, a, t);
    UnackStaysKeyed(s, a, t);
    HandsStayTyped(s, a, t);
    KeysStayIssued(s, a, t);
  }

  lemma UnackStaysKeyed(s: System, a: Action, t: System)
    requires PlacesInv(s) && Step(s, a, t)
    ensures UnackKeyed(t)
  {
    match a
    case Nack(id, token, r) => NackKeys(s, id, token, r, t);
    case TimerNack(id, token, r) => NackKeys(s, id, token, r, t);
    case Enqueue(e, o) => EnqueueFrame(s.b, e, "", o, t.b);
    case _ =>
  }

  lemma HandsStayTyped(s: System, a: Action, t: System)
    requires PlacesInv(s) && Step(s, a, t)
    ensures HandsTyped(t)
  {
    match a
    case FindWork(w, Some(e)) => assert e in Pend(s.b, s.workers[w].queue);
    case _ =>
  }

  lemma KeysStayIssued(s: System, a: Action, t: System)
    requires PlacesInv(s) && Step(s, a, t)
    ensures t.b.enqueuedEvals.Keys <= t.h.issued
  {
    match a
    case Nack(id, token, r) => NackKeys(s, id, token, r, t);
    case TimerNack(id, token, r) => NackKeys(s, id, token, r, t);
    case Deliver(w, token) => assert At(s, s.workers[w].eval, InHand(w));
    case _ =>
  }

  lemma NackKeys(s: System, id: EvalId, token: Token, r: Reply, t: System)
    requires PlacesInv(s) && NackBy(s.b, id, token, r, t.b)
    ensures t.b.unack == if r.Rejected? then s.b.unack else s.b.unack - {id}
    ensures t.b.armed == if r.Rejected? then s.b.armed else s.b.armed - {token}
    ensures t.b.limit == s.b.limit
    ensures t.b.enqueuedEvals.Keys <= s.h.issued
    ensures forall x :: x != id ==> Counter(t.b, x) == Counter(s.b, x)
  {
    if r.Requeued? {
      var e := s.b.unack[id].eval;
      EnqueueFrame(Closed(s.b, id), e, token, r.outcome, t.b);
      assert At(s, e, InUnack);
    }
  }

  lemma HeapsStayTyped(s: System, a: Action, t: System)
    requires PlacesInv(s) && Step(s, a, t)
    ensures HeapsTyped(t.b)
  {
    forall q, x | x in Pend(t.b, q) ensures x.policy.ty == q && Pend(t.b, q)[x] == 1 {
      match a
      case Enqueue(e, o) =>
        assert !At(s, e, InHeap(e.policy.ty));
        EnqueueKeepsHeap(s.b, e, "", o, t.b, q, x);
      case Nack(id, token, r) => NackKeepsHeap(s, id, token, r, t, q, x);
      case TimerNack(id, token, r) => NackKeepsHeap(s, id, token, r, t, q, x);
      case FindWork(w, Some(e)) =>
        assert Pend(t.b, q) == if q == s.workers[w].queue then Pend(s.b, q) - multiset{e} else Pend(s.b, q);
        assert x in Pend(s.b, q);
      case _ => assert Pend(t.b, q) == Pend(s.b, q);
    }
  }

  lemma EnqueueKeepsHeap(s: State, e: Eval, token: Token, o: Outcome, t: State, q: Queue, x: Eval)
    requires EnqueueBy(s, e, token, o, t) && x in Pend(t, q)
    requires HeapsTyped(s) && e !in Pend(s, e.policy.ty)
    ensures x.policy.ty == q && Pend(t, q)[x] == 1
  {
    EnqueuePend(s, e, token, o, t, q);
    if x in Pend(s, q) { assert x.policy.ty == q && Pend(s, q)[x] == 1; }
  }

  lemma NackKeepsHeap(s: System, id: EvalId, token: Token, r: Reply, t: System, q: Queue, x: Eval)
    requires PlacesInv(s) && NackBy(s.b, id, token, r, t.b) && x in Pend(t.b, q)
    ensures x.policy.ty == q && Pend(t.b, q)[x] == 1
  {
    if r.Requeued? {
      var c := Closed(s.b, id);
      var e := s.b.unack[id].eval;
      assert forall k :: Pend(c, k) == Pend(s.b, k);
      assert At(s, e, InUnack) && !At(s, e, InHeap(e.policy.ty));
      EnqueueKeepsHeap(c, e, token, r.outcome, t.b, q, x);
    } else {
      assert Pend(t.b, q) == Pend(s.b, q);
    }
  }

  /** In every run with fresh ids, each eval stays in one place at a time. */
  lemma PlacesPreserved(s: System, a: Action, t: System)
    requires PlacesInv(s) && Step(s, a, t)
    ensures PlacesInv(t)
  {
    UniquePreserved(s, a, t);
    WellFormedPreserved(s, a, t);
  }
}
