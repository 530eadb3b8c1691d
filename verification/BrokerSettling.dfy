/**
 What a worker may rely on for the delivery it holds: in every run, its Ack succeeds and
 its Nack is taken exactly as long as nothing else has ended that delivery.
 */
module BrokerSettling {
  import opened Options
  import opened Evals
  import opened BrokerSpec
  import opened BrokerRuns
  import opened BrokerPlaces
  import opened BrokerTokens
  import opened BrokerDelivery
  import opened BrokerTheorems

  /** The action hands the eval `id` to a worker under `token`. */
  ghost predicate DeliversUnder(s: System, a: Action, id: EvalId, token: Token) {
    Delivers(s, a, id) && a.token == token
  }

  /** The action is the timer of the delivery running out. */
  ghost predicate Expires(a: Action, token: Token) {
    a.TimerFires? && a.token == token
  }

  // ---------- One step ----------

  lemma StaysOutstanding(s: System, a: Action, t: System, id: EvalId, token: Token)
    requires PlacesInv(s) && Step(s, a, t) && Outstanding(s.b, id, token) && SettledBy(a) != Some(token)
    ensures Outstanding(t.b, id, token)
  {
    match a
    case Enqueue(e, o) => EnqueueFrame(s.b, e, "", o, t.b);
    case Nack(k, other, r) => NackKeys(s, k, other, r, t);
    case TimerNack(k, other, r) => NackKeys(s, k, other, r, t);
    case Deliver(w, _) =>
      assert At(s, s.b.unack[id].eval, InUnack) && At(s, s.workers[w].eval, InHand(w));
    case _ =>
  }

  /** A timer stops running when its delivery is settled or it fires, and never runs again. */
  lemma ArmedAfter(s: System, a: Action, t: System, token: Token)
    requires PlacesInv(s) && TokensInv(s) && Step(s, a, t) && token in s.h.tokens
    ensures token in t.b.armed <==> token in s.b.armed && SettledBy(a) != Some(token) && !Expires(a, token)
  {
    match a
    case Enqueue(e, o) => EnqueueFrame(s.b, e, "", o, t.b);
    case Nack(k, other, r) => NackKeys(s, k, other, r, t);
    case TimerNack(k, other, r) => NackKeys(s, k, other, r, t);
    case _ =>
  }

  // ---------- Whole runs ----------

  lemma DeliveryStarts(states: seq<System>, actions: seq<Action>, j: nat, id: EvalId, token: Token)
    requires IsRun(states, actions) && j < |actions| && DeliversUnder(states[j], actions[j], id, token)
    ensures Outstanding(states[j + 1].b, id, token) && token in states[j + 1].b.armed && token in states[j + 1].h.tokens
  {
    assert StepAt(states, actions, j);
  }

  lemma {:induction false} TokenStays(states: seq<System>, actions: seq<Action>, j: nat, i: nat, token: Token)
    requires IsRun(states, actions) && j <= i <= |actions| && token in states[j].h.tokens
    ensures token in states[i].h.tokens
  {
    if j < i {
      TokenStays(states, actions, j, i - 1, token);
      assert StepAt(states, actions, i - 1);
      IssuedGrows(states[i - 1], actions[i - 1], states[i]);
    }
  }

  lemma {:induction false} OutstandingWhile(states: seq<System>, actions: seq<Action>, j: nat, i: nat, id: EvalId, token: Token)
    requires IsRun(states, actions) && j <= i <= |actions| && Outstanding(states[j].b, id, token)
    requires forall m :: j <= m < i ==> SettledBy(actions[m]) != Some(token)
    ensures Outstanding(states[i].b, id, token)
  {
    if j < i {
      OutstandingWhile(states, actions, j, i - 1, id, token);
      assert PlacesInv(states[i - 1]) by { RunInv(states, actions, i - 1); }
      assert StepAt(states, actions, i - 1);
      StaysOutstanding(states[i - 1], actions[i - 1], states[i], id, token);
    }
  }

  lemma ArmedNext(states: seq<System>, actions: seq<Action>, i: nat, token: Token)
    requires IsRun(states, actions) && i < |actions| && token in states[i].h.tokens
    ensures token in states[i + 1].b.armed <==>
            token in states[i].b.armed && SettledBy(actions[i]) != Some(token) && !Expires(actions[i], token)
  {
    RunInv(states, actions, i);
    assert StepAt(states, actions, i);
    ArmedAfter(states[i], actions[i], states[i + 1], token);
  }

  lemma {:induction false} ArmedWhile(states: seq<System>, actions: seq<Action>, j: nat, i: nat, token: Token)
    requires IsRun(states, actions) && j <= i <= |actions| && token in states[j].b.armed && token in states[j].h.tokens
    ensures token in states[i].b.armed <==>
            forall m :: j <= m < i ==> SettledBy(actions[m]) != Some(token) && !Expires(actions[m], token)
  {
    if j < i {
      ArmedWhile(states, actions, j, i - 1, token);
      TokenStays(states, actions, j, i - 1, token);
      ArmedNext(states, actions, i - 1, token);
    }
  }

  /** An Ack of a delivery succeeds exactly when the delivery was not settled before and its timer has not fired. */
  lemma AckSucceedsIff(states: seq<System>, actions: seq<Action>, j: nat, i: nat, id: EvalId, token: Token, ok: bool)
    requires IsRun(states, actions) && j < i < |actions|
    requires DeliversUnder(states[j], actions[j], id, token) && actions[i] == Ack(id, token, ok)
    ensures ok <==> forall m :: j < m < i ==> SettledBy(actions[m]) != Some(token) && !Expires(actions[m], token)
  {
    DeliveryStarts(states, actions, j, id, token);
    ArmedWhile(states, actions, j + 1, i, token);
    assert StepAt(states, actions, i);
    if token in states[i].b.armed { OutstandingWhile(states, actions, j + 1, i, id, token); }
  }

  /** A Nack of a delivery is refused exactly when the delivery was settled before. */
  lemma NackRefusedIff(states: seq<System>, actions: seq<Action>, j: nat, i: nat, id: EvalId, token: Token, r: Reply)
    requires IsRun(states, actions) && j < i < |actions|
    requires DeliversUnder(states[j], actions[j], id, token)
    requires actions[i] == Nack(id, token, r) || actions[i] == TimerNack(id, token, r)
    ensures r.Rejected? <==> exists m :: j < m < i && SettledBy(actions[m]) == Some(token)
  {
    if m :| j < m < i && SettledBy(actions[m]) == Some(token) {
      SettledOnce(states, actions, m, i, token);
    } else {
      DeliveryStarts(states, actions, j, id, token);
      OutstandingWhile(states, actions, j + 1, i, id, token);
      assert StepAt(states, actions, i);
    }
  }

  /** An eval is given up only after it was delivered as often as the limit allows, and at least once. */
  lemma GivenUpAtLimit(states: seq<System>, actions: seq<Action>, i: nat, id: EvalId, token: Token)
    requires IsRun(states, actions) && i < |actions|
    requires actions[i] == Nack(id, token, LimitReached) || actions[i] == TimerNack(id, token, LimitReached)
    ensures TimesDelivered(states, actions, i, id) >= MaxDeliveries(states[i])
  {
    assert StepAt(states, actions, i);
    RunInv(states, actions, i);
    DeliveriesCounted(states, actions, i, id);
    assert At(states[i], states[i].b.unack[id].eval, InUnack);
  }
}
