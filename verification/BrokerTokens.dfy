/** Deliveries end once, stale tokens do nothing, and no unacknowledged eval is orphaned. */
module BrokerTokens {
  import opened Options
  import opened Evals
  import opened BrokerSpec
  import opened BrokerRuns
  import opened BrokerPlaces

  ghost predicate Unsettled(s: System, token: Token) {
    token in s.h.tokens && token !in s.h.settled
  }

  /** An entry of `unack` has a token of its own and a timer that fires or whose Nack is due. */
  ghost predicate EntryTracked(s: System, id: EvalId)
    requires id in s.b.unack
  {
    var token := s.b.unack[id].token;
    && Unsettled(s, token)
    && (token in s.b.armed || (id, token) in s.fired)
    && forall other :: Outstanding(s.b, other, token) ==> other == id
  }

  ghost predicate TokensInv(s: System) {
    && s.h.settled <= s.h.tokens
    && (forall id :: id in s.b.unack ==> EntryTracked(s, id))
    && (forall k :: Unsettled(s, k) ==> exists id :: Outstanding(s.b, id, k))
    && (forall k :: k in s.b.armed ==> Unsettled(s, k))
  }

  lemma DeliverTokens(s: System, w: WorkerId, token: Token, t: System)
    requires PlacesInv(s) && TokensInv(s) && DeliverStep(s, w, token, t)
    ensures TokensInv(t)
  {
    var e := s.workers[w].eval;
    assert At(s, e, InHand(w));
    assert e.id !in s.b.unack by {
      assert e.id in s.b.unack ==> At(s, s.b.unack[e.id].eval, InUnack);
    }
    forall k | Unsettled(t, k) ensures exists id :: Outstanding(t.b, id, k) {
      if k == token {
        assert Outstanding(t.b, e.id, k);
      } else {
        assert Unsettled(s, k);
        var id :| Outstanding(s.b, id, k);
        assert Outstanding(t.b, id, k);
      }
    }
    forall id | id in t.b.unack ensures EntryTracked(t, id) {
      if id != e.id { assert EntryTracked(s, id); }
    }
  }

  /** Closing the entry of a token removes exactly that token from the outstanding ones. */
  lemma CloseTokens(s: System, id: EvalId, token: Token, t: System)
    requires TokensInv(s) && Outstanding(s.b, id, token)
    requires t.b.unack == s.b.unack - {id} && t.b.armed == s.b.armed - {token}
    requires t.h.tokens == s.h.tokens && t.h.settled == s.h.settled + {token}
    requires s.fired - {(id, token)} <= t.fired
    ensures TokensInv(t)
  {
    assert EntryTracked(s, id);
    forall k | Unsettled(t, k) ensures exists other :: Outstanding(t.b, other, k) {
      assert Unsettled(s, k);
      var other :| Outstanding(s.b, other, k);
      assert Outstanding(t.b, other, k);
    }
    forall other | other in t.b.unack ensures EntryTracked(t, other) {
      assert EntryTracked(s, other);
    }
  }

  lemma SameTokens(s: System, t: System)
    requires TokensInv(s)
    requires t.b.unack == s.b.unack && t.b.armed == s.b.armed
    requires forall id, k :: Outstanding(s.b, id, k) && (id, k) in s.fired ==> (id, k) in t.fired
    requires t.h.tokens == s.h.tokens && t.h.settled == s.h.settled
    ensures TokensInv(t)
  {
    forall k | Unsettled(t, k) ensures exists other :: Outstanding(t.b, other, k) {
      assert Unsettled(s, k);
      var other :| Outstanding(s.b, other, k);
      assert Outstanding(t.b, other, k);
    }
    forall other | other in t.b.unack ensures EntryTracked(t, other) { assert EntryTracked(s, other); }
  }

  lemma NackTokens(s: System, id: EvalId, token: Token, r: Reply, t: System, fired: set<(EvalId, Token)>)
    requires PlacesInv(s) && TokensInv(s) && fired == s.fired - {(id, token)}
    requires NackStep(s, id, token, r, t) || NackStep(s.(fired := fired), id, token, r, t)
    ensures TokensInv(t)
  {
    NackKeys(s, id, token, r, t);
    if r.Rejected? { SameTokens(s, t); } else { CloseTokens(s, id, token, t); }
  }

  lemma TimerFiresTokens(s: System, id: EvalId, token: Token, t: System)
    requires TokensInv(s) && TimerFiresStep(s, id, token, t)
    ensures TokensInv(t)
  {
    assert EntryTracked(s, id);
    forall k | Unsettled(t, k) ensures exists other :: Outstanding(t.b, other, k) {
      assert Unsettled(s, k);
      var other :| Outstanding(s.b, other, k);
      assert Outstanding(t.b, other, k);
    }
    forall other | other in t.b.unack ensures EntryTracked(t, other) { assert EntryTracked(s, other); }
  }

  lemma TokensPreserved(s: System, a: Action, t: System)
    requires PlacesInv(s) && TokensInv(s) && Step(s, a, t)
    ensures TokensInv(t)
  {
    match a
    case Deliver(w, token) => DeliverTokens(s, w, token, t);
    case Ack(id, token, true) => CloseTokens(s, id, token, t);
    case Nack(id, token, r) => NackTokens(s, id, token, r, t, s.fired - {(id, token)});
    case TimerNack(id, token, r) => NackTokens(s, id, token, r, t, s.fired - {(id, token)});
    case TimerFires(id, token) => TimerFiresTokens(s, id, token, t);
    case Enqueue(e, o) => EnqueueFrame(s.b, e, "", o, t.b); SameTokens(s, t);
    case _ => SameTokens(s, t);
  }

  // ---------- Settling ----------

  /** The token whose delivery the action ended, if any. */
  function SettledBy(a: Action): Option<Token> {
    match a
    case Ack(_, token, true) => Some(token)
    case Nack(_, token, r) => if r.Rejected? then None else Some(token)
    case TimerNack(_, token, r) => if r.Rejected? then None else Some(token)
    case _ => None
  }

  function TokenOf(a: Action): Option<Token> {
    match a
    case Ack(_, token, _) => Some(token)
    case Nack(_, token, _) => Some(token)
    case TimerNack(_, token, _) => Some(token)
    case _ => None
  }

  /** A call with a settled token is refused and leaves the broker as it was. */
  lemma StaleTokenChangesNothing(s: System, a: Action, t: System, token: Token)
    requires TokensInv(s) && Step(s, a, t) && TokenOf(a) == Some(token) && token in s.h.settled
    ensures t.b == s.b && SettledBy(a) == None
  {
    assert forall id :: Outstanding(s.b, id, token) ==> EntryTracked(s, id);
  }

  lemma StepSettles(s: System, a: Action, t: System)
    requires Step(s, a, t)
    ensures t.h.settled == s.h.settled + if SettledBy(a).Some? then {SettledBy(a).value} else {}
  {
  }
}
