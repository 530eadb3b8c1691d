/**
 Which ids are keys of `enqueuedEvals`. The header comment would have them be the ids
 of the live evals. The code differs in two ways: an eval kept by the replace branch
 loses its key until its next delivery, and an eval that is replaced, or dropped as
 outdated, leaves its key behind for good.
 */
module BrokerKeys {
  import opened Options
  import opened Evals
  import opened BrokerSpec
  import opened BrokerRuns
  import opened BrokerPlaces
  import opened BrokerDelivery

  ghost predicate LiveId(s: System, id: EvalId) {
    exists x, p :: At(s, x, p) && x.id == id
  }

  ghost predicate KeysExact(s: System) {
    forall id :: id in s.b.enqueuedEvals <==> LiveId(s, id)
  }

  // ---------- What a step does to keys and live ids ----------

  /** The enqueue that an action performs: its eval and its outcome. */
  ghost function Placement(s: System, a: Action): Option<(Eval, Outcome)> {
    match a
    case Enqueue(e, o) => Some((e, o))
    case Nack(id, _, Requeued(o)) => if id in s.b.unack then Some((s.b.unack[id].eval, o)) else None
    case TimerNack(id, _, Requeued(o)) => if id in s.b.unack then Some((s.b.unack[id].eval, o)) else None
    case _ => None
  }

  /** The id that an Ack, or a Nack at the limit, removes. */
  ghost function Forgets(a: Action): set<EvalId> {
    match a
    case Ack(id, _, true) => {id}
    case Nack(id, _, LimitReached) => {id}
    case TimerNack(id, _, LimitReached) => {id}
    case _ => {}
  }

  ghost function Delivered(s: System, a: Action): set<EvalId> {
    if a.Deliver? && a.w in s.workers && s.workers[a.w].Holding? then {s.workers[a.w].eval.id} else {}
  }

  lemma EnqueueKeys(s: State, e: Eval, token: Token, o: Outcome, s': State, id: EvalId)
    requires EnqueueBy(s, e, token, o, s') && !o.Duplicate?
    ensures id in s'.enqueuedEvals <==> if id == e.id then !o.Replaced? else id in s.enqueuedEvals
  {
  }

  /** The evaluation is new or was just unacknowledged, and the id it collides with is another one. */
  lemma PlacementOrigin(s: System, a: Action, t: System)
    requires PlacesInv(s) && Step(s, a, t) && Placement(s, a).Some?
    ensures var (e, o) := Placement(s, a).value;
            && !o.Duplicate?
            && (if a.Enqueue? then e.id !in s.h.issued else At(s, e, InUnack))
            && (o.Replaced? ==> Rival(s.b, e, o.victim))
            && (o.Outdated? ==> Rival(s.b, e, o.kept))
            && (o.Pushed? ==> forall x :: x in Pend(s.b, e.policy.ty) ==> !Rival(s.b, e, x))
  {
    if !a.Enqueue? {
      var c := Closed(s.b, a.id);
      var e := Placement(s, a).value.0;
      assert Pend(c, e.policy.ty) == Pend(s.b, e.policy.ty);
      assert forall x :: Rival(c, e, x) <==> Rival(s.b, e, x);
    }
  }

  lemma KeysAfter(s: System, a: Action, t: System, id: EvalId)
    requires PlacesInv(s) && Step(s, a, t)
    ensures id in t.b.enqueuedEvals <==>
            match Placement(s, a)
            case Some((e, o)) => if id == e.id then !o.Replaced? else id in s.b.enqueuedEvals
            case None => (id in s.b.enqueuedEvals && id !in Forgets(a)) || id in Delivered(s, a)
  {
    if Placement(s, a).Some? {
      PlacementOrigin(s, a, t);
      match a
      case Enqueue(e, o) => EnqueueKeys(s.b, e, "", o, t.b, id);
      case Nack(k, token, r) => EnqueueKeys(Closed(s.b, k), s.b.unack[k].eval, token, r.outcome, t.b, id);
      case TimerNack(k, token, r) => EnqueueKeys(Closed(s.b, k), s.b.unack[k].eval, token, r.outcome, t.b, id);
    }
  }

  ghost predicate AddsId(s: System, a: Action, id: EvalId) {
    exists x, p :: (x, p) in Added(s, a) && x.id == id
  }

  ghost predicate TakesId(s: System, a: Action, id: EvalId) {
    exists x, p :: (x, p) in Gone(s, a) && x.id == id
  }

  lemma LiveIdStays(s: System, a: Action, t: System, id: EvalId)
    requires PlacesInv(s) && Step(s, a, t) && (AddsId(s, a, id) || (LiveId(s, id) && !TakesId(s, a, id)))
    ensures LiveId(t, id)
  {
    StepMoves(s, a, t);
    if AddsId(s, a, id) {
      var x, p :| (x, p) in Added(s, a) && x.id == id;
      assert At(t, x, p);
    } else {
      var x, p :| At(s, x, p) && x.id == id;
      assert At(t, x, p);
    }
  }

  lemma LiveIdOrigin(s: System, a: Action, t: System, id: EvalId)
    requires PlacesInv(s) && Step(s, a, t) && LiveId(t, id) && !AddsId(s, a, id)
    ensures LiveId(s, id) && !TakesId(s, a, id)
  {
    StepMoves(s, a, t);
    GoneWasThere(s, a, t);
    var x, p :| At(t, x, p) && x.id == id;
    assert At(s, x, p) && (x, p) !in Gone(s, a);
    if y, r :| (y, r) in Gone(s, a) && y.id == id { assert At(s, y, r); }
  }

  lemma LiveIdMoves(s: System, a: Action, t: System, id: EvalId)
    requires PlacesInv(s) && Step(s, a, t)
    ensures LiveId(t, id) <==> AddsId(s, a, id) || (LiveId(s, id) && !TakesId(s, a, id))
  {
    if LiveId(t, id) && !AddsId(s, a, id) {
      LiveIdOrigin(s, a, t, id);
    }
    if AddsId(s, a, id) || (LiveId(s, id) && !TakesId(s, a, id)) {
      LiveIdStays(s, a, t, id);
    }
  }

  /** What a placement adds and takes: its eval, unless dropped, and the eval it replaces. */
  lemma PlacementMoves(s: System, a: Action, t: System, id: EvalId)
    requires PlacesInv(s) && Step(s, a, t) && Placement(s, a).Some?
    ensures var (e, o) := Placement(s, a).value;
            && (AddsId(s, a, id) <==> id == e.id && (o.Pushed? || o.Replaced?))
            && (TakesId(s, a, id) <==> (!a.Enqueue? && id == e.id) || (o.Replaced? && id == o.victim.id))
  {
    var (e, o) := Placement(s, a).value;
    PlacementOrigin(s, a, t);
    assert Added(s, a) == EnqueueAdded(e, o);
    assert Gone(s, a) == EnqueueGone(e, o) + if a.Enqueue? then {} else {(e, InUnack)};
    if o.Pushed? || o.Replaced? { assert (e, InHeap(e.policy.ty)) in Added(s, a); }
    if o.Replaced? { assert (o.victim, InHeap(e.policy.ty)) in Gone(s, a); }
    if !a.Enqueue? { assert (e, InUnack) in Gone(s, a); }
  }

  lemma LiveIdsAfter(s: System, a: Action, t: System, id: EvalId)
    requires PlacesInv(s) && Step(s, a, t)
    ensures LiveId(t, id) <==>
            match Placement(s, a)
            case Some((e, o)) =>
              if id == e.id then o.Pushed? || o.Replaced? else LiveId(s, id) && !(o.Replaced? && id == o.victim.id)
            case None => LiveId(s, id) && id !in Forgets(a)
  {
    LiveIdMoves(s, a, t, id);
    if Placement(s, a).Some? {
      PlacementMoves(s, a, t, id);
      PlacementOrigin(s, a, t);
    } else {
      QuietIds(s, a, t, id);
    }
  }

  /** Other actions only move an eval, or take it for good. */
  lemma QuietIds(s: System, a: Action, t: System, id: EvalId)
    requires PlacesInv(s) && Step(s, a, t) && Placement(s, a).None?
    ensures if id in Forgets(a) then TakesId(s, a, id) && !AddsId(s, a, id)
            else TakesId(s, a, id) <==> AddsId(s, a, id)
    ensures TakesId(s, a, id) ==> LiveId(s, id)
  {
    GoneWasThere(s, a, t);
    match a
    case FindWork(w, Some(e)) => assert (e, InHeap(e.policy.ty)) in Gone(s, a) && (e, InHand(w)) in Added(s, a);
    case Deliver(w, _) =>
      var e := s.workers[w].eval;
      assert (e, InHand(w)) in Gone(s, a) && (e, InUnack) in Added(s, a);
    case Ack(k, _, true) => assert (s.b.unack[k].eval, InUnack) in Gone(s, a);
    case Nack(k, _, LimitReached) => assert (s.b.unack[k].eval, InUnack) in Gone(s, a);
    case TimerNack(k, _, LimitReached) => assert (s.b.unack[k].eval, InUnack) in Gone(s, a);
    case _ =>
  }

  // ---------- The exact set of keys ----------

  datatype Ledger = Ledger(
    uncounted: set<EvalId>,    // kept by the replace branch since their last delivery
    leaked: set<EvalId>)       // replaced while counted, or dropped as outdated

  ghost function Next(k: Ledger, s: System, a: Action): Ledger {
    match Placement(s, a)
    case Some((e, Replaced(victim))) => Ledger(k.uncounted + {e.id}, k.leaked + ({victim.id} - k.uncounted))
    case Some((e, Outdated(_))) => k.(leaked := k.leaked + {e.id})
    case Some(_) => k
    case None => k.(uncounted := k.uncounted - Delivered(s, a))
  }

  ghost predicate KeyRight(s: System, k: Ledger, id: EvalId) {
    && (id in s.b.enqueuedEvals <==> (LiveId(s, id) && id !in k.uncounted) || id in k.leaked)
    && (id in k.leaked ==> !LiveId(s, id))
  }

  ghost predicate KeysInv(s: System, k: Ledger) {
    (forall id :: KeyRight(s, k, id)) && k.uncounted <= s.h.issued
  }

  /** An eval about to be placed is neither uncounted nor leaked. */
  lemma PlacedIsCounted(s: System, k: Ledger, a: Action, t: System)
    requires PlacesInv(s) && DeliveryInv(s) && KeysInv(s, k) && Step(s, a, t) && Placement(s, a).Some?
    ensures var e := Placement(s, a).value.0; e.id !in k.uncounted && e.id !in k.leaked
  {
    PlacementOrigin(s, a, t);
    var e := Placement(s, a).value.0;
    assert KeyRight(s, k, e.id);
    if !a.Enqueue? { assert Accounted(s, e, InUnack) && LiveId(s, e.id); }
  }

  lemma PlacementKeepsKey(s: System, k: Ledger, a: Action, t: System, id: EvalId)
    requires PlacesInv(s) && DeliveryInv(s) && KeysInv(s, k) && Step(s, a, t) && Placement(s, a).Some?
    ensures KeyRight(t, Next(k, s, a), id)
  {
    var (e, o) := Placement(s, a).value;
    PlacementOrigin(s, a, t);
    PlacedIsCounted(s, k, a, t);
    KeysAfter(s, a, t, id);
    LiveIdsAfter(s, a, t, id);
    assert KeyRight(s, k, id);
    if o.Replaced? && id == o.victim.id { assert At(s, o.victim, InHeap(e.policy.ty)) && LiveId(s, id); }
  }

  lemma OtherKeepsKey(s: System, k: Ledger, a: Action, t: System, id: EvalId)
    requires PlacesInv(s) && KeysInv(s, k) && Step(s, a, t) && Placement(s, a).None?
    ensures KeyRight(t, Next(k, s, a), id)
  {
    KeysAfter(s, a, t, id);
    LiveIdsAfter(s, a, t, id);
    assert KeyRight(s, k, id);
    if a.Deliver? { assert At(s, s.workers[a.w].eval, InHand(a.w)); }
    if id in Forgets(a) { assert At(s, s.b.unack[id].eval, InUnack); }
  }

  /** Every step keeps the keys to the counted live ids and the leaked ones. */
  lemma KeysPreserved(s: System, k: Ledger, a: Action, t: System)
    requires PlacesInv(s) && DeliveryInv(s) && KeysInv(s, k) && Step(s, a, t)
    ensures KeysInv(t, Next(k, s, a))
  {
    IssuedGrows(s, a, t);
    if Placement(s, a).Some? {
      PlacementOrigin(s, a, t);
      forall id ensures KeyRight(t, Next(k, s, a), id) { PlacementKeepsKey(s, k, a, t, id); }
    } else {
      forall id ensures KeyRight(t, Next(k, s, a), id) { OtherKeepsKey(s, k, a, t, id); }
    }
  }

  /** The action enqueues or requeues an eval while another one, indexed for its policy, waits in its queue. */
  ghost predicate FindsRival(s: System, a: Action) {
    Placement(s, a).Some? && exists x :: Rival(s.b, Placement(s, a).value.0, x)
  }

  /** A step leaks the first key exactly when it finds a rival, and before that no key is missing. */
  lemma LeaksIffRival(s: System, k: Ledger, a: Action, t: System)
    requires PlacesInv(s) && Step(s, a, t) && (k.leaked == {} ==> k.uncounted == {})
    ensures Next(k, s, a).leaked == {} <==> k.leaked == {} && !FindsRival(s, a)
    ensures Next(k, s, a).leaked == {} ==> Next(k, s, a).uncounted == {}
  {
    if Placement(s, a).Some? {
      PlacementOrigin(s, a, t);
      var (e, o) := Placement(s, a).value;
      if o.Replaced? && k.leaked == {} { assert o.victim.id in Next(k, s, a).leaked; }
      if o.Outdated? { assert e.id in Next(k, s, a).leaked; }
    }
  }
}
