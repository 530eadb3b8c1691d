/**
 The policy manager: it keeps one handler per policy in step with the ID lists that
 the policy sources send. A handler's goroutine deletes its policy's entry when it
 ends, which may be long after the handler was stopped.
 */
module Manager {
  type PolicyId = string
  type SourceName = string

  /** A handler object; the serial number stands for its identity. */
  datatype Handler = Handler(id: PolicyId, source: SourceName, serial: nat)

  type Handlers = map<PolicyId, Handler>

  /** Entries are filed under the handler's own policy. */
  ghost predicate Filed(handlers: Handlers) {
    forall k :: k in handlers ==> handlers[k].id == k
  }

  /** `after` keeps the entries it shares with `before`; the others are new handlers of `source`, numbered apart from `next` on. */
  ghost predicate Extends(before: Handlers, source: SourceName, next: nat, after: Handlers, limit: nat) {
    && next <= limit
    && (forall k :: k in after && k in before ==> after[k] == before[k])
    && (forall k :: k in after && k !in before ==>
          after[k].id == k && after[k].source == source && next <= after[k].serial < limit)
    && (forall k, l :: k in after && l in after && k !in before && l !in before && k != l ==> after[k].serial != after[l].serial)
  }

  /** The entries after a message listing `ids` from `source`: the other sources' and the listed ones. */
  ghost predicate Reconciled(before: Handlers, ids: seq<PolicyId>, source: SourceName, next: nat, after: Handlers, limit: nat) {
    && after.Keys == (set k | k in before && before[k].source != source) + (set k | k in ids)
    && Extends(before, source, next, after, limit)
  }

  class PolicyManager {
    var handlers: Handlers
    var keep: set<PolicyId>
    var next: nat

    constructor ()
      ensures handlers == map[]
    {
      handlers, keep, next := map[], {}, 0;
    }

    /** The reaction to an ID message: start what is missing, stop what is gone. */
    method Receive(ids: seq<PolicyId>, source: SourceName)
      requires Filed(handlers)
      modifies this
      ensures Filed(handlers) && Reconciled(old(handlers), ids, source, old(next), handlers, next)
    {
      StartMissing(ids, source);
      StopGone(source);
      assert handlers.Keys == (set k | k in old(handlers) && old(handlers)[k].source != source) + (set k | k in ids);
    }

    method StartMissing(ids: seq<PolicyId>, source: SourceName)
      requires Filed(handlers)
      modifies this
      ensures keep == (set k | k in ids) && handlers.Keys == old(handlers).Keys + keep
      ensures Filed(handlers) && Extends(old(handlers), source, old(next), handlers, next)
    {
      keep := {};
      for i := 0 to |ids|
        invariant keep == (set k | k in ids[..i]) && handlers.Keys == old(handlers).Keys + keep
        invariant Filed(handlers) && Extends(old(handlers), source, old(next), handlers, next)
      {
        assert ids[..i + 1] == ids[..i] + [ids[i]];
        keep := keep + {ids[i]};
        if ids[i] in handlers { continue; }
        handlers := handlers[ids[i] := Handler(ids[i], source, next)];
        next := next + 1;
      }
      assert ids[..|ids|] == ids;
    }

    /** Stops the source's handlers that are not to be kept; the map shrinks while it is walked. */
    method StopGone(source: SourceName)
      requires Filed(handlers)
      modifies this`handlers
      ensures handlers == map k | k in old(handlers) && (k in keep || old(handlers)[k].source != source) :: old(handlers)[k]
    {
      var todo := handlers.Keys;
      while todo != {}
        invariant todo <= handlers.Keys
        invariant handlers == map k | k in old(handlers) && (k in todo || k in keep || old(handlers)[k].source != source)
                              :: old(handlers)[k]
        decreases |todo|
      {
        var k :| k in todo;
        todo := todo - {k};
        if k !in keep && handlers[k].source == source {
          StopHandler(handlers[k]);
        }
      }
    }

    method StopHandler(h: Handler)
      modifies this`handlers
      ensures handlers == old(handlers) - {h.id}
    {
      handlers := handlers - {h.id};
    }

    /** An unrecoverable error stops every handler and starts over. */
    method StopHandlers()
      requires Filed(handlers)
      modifies this`handlers
      ensures handlers == map[]
    {
      var todo := handlers.Keys;
      while todo != {}
        invariant Filed(handlers) && handlers.Keys == todo
        decreases |todo|
      {
        var k :| k in todo;
        todo := todo - {k};
        StopHandler(handlers[k]);
      }
    }
  }

  // ---------- Runs ----------

  /**
   `running` are the handlers whose goroutine has not ended, `stopped` those told to
   stop, `last` the last message of each source, and `revived` the policies that got a
   new handler while the goroutine of an older one was still running.
   */
  datatype System = System(
    handlers: Handlers,
    next: nat,
    running: set<Handler>,
    stopped: set<Handler>,
    last: map<SourceName, set<PolicyId>>,
    revived: set<PolicyId>)

  datatype Action =
    | Message(ids: seq<PolicyId>, source: SourceName)
    | GoroutineEnds(h: Handler)
    | Restart

  ghost function Started(s: System, t: Handlers): set<Handler> {
    set k | k in t && k !in s.handlers :: t[k]
  }

  ghost function Dropped(s: System, t: Handlers): set<Handler> {
    set k | k in s.handlers && k !in t :: s.handlers[k]
  }

  ghost function Received(s: System, ids: seq<PolicyId>, source: SourceName, handlers: Handlers, next: nat): System {
    System(handlers, next, s.running + Started(s, handlers), s.stopped + Dropped(s, handlers),
           s.last[source := set k | k in ids],
           s.revived + (set h | h in s.running && h.id in handlers && h.id !in s.handlers :: h.id))
  }

  ghost predicate Step(s: System, a: Action, t: System) {
    match a
    case Message(ids, source) =>
      && Reconciled(s.handlers, ids, source, s.next, t.handlers, t.next)
      && t == Received(s, ids, source, t.handlers, t.next)
    case GoroutineEnds(h) =>
      h in s.running && t == s.(running := s.running - {h}, handlers := s.handlers - {h.id})
    case Restart => t == s.(handlers := map[], stopped := s.stopped + Dropped(s, map[]))
  }

  ghost predicate IsRun(states: seq<System>, actions: seq<Action>) {
    && |states| == |actions| + 1
    && states[0] == System(map[], 0, {}, {}, map[], {})
    && forall i :: 0 <= i < |actions| ==> Step(states[i], actions[i], states[i + 1])
  }

  /** Every tracked handler is listed in the last message of its source. */
  ghost predicate WithinLast(s: System) {
    forall k :: k in s.handlers ==>
      s.handlers[k].source in s.last && k in s.last[s.handlers[k].source]
  }

  /** Tracked handlers run; serial numbers tell handlers apart. */
  ghost predicate Tracked(s: System) {
    && Filed(s.handlers)
    && (forall k :: k in s.handlers ==> s.handlers[k] in s.running && s.handlers[k] !in s.stopped)
    && (forall h :: h in s.running + s.stopped ==> h.serial < s.next)
  }

  /** A policy that was never revived has one running goroutine at most, and it is tracked unless stopped. */
  ghost predicate Owned(s: System) {
    forall h :: h in s.running && h.id !in s.revived ==>
      && (h !in s.stopped ==> h.id in s.handlers && s.handlers[h.id] == h)
      && (forall g :: g in s.running && g.id == h.id ==> g == h)
  }

  ghost predicate Inv(s: System) {
    WithinLast(s) && Tracked(s) && Owned(s)
  }

  lemma MessageWithinLast(s: System, ids: seq<PolicyId>, source: SourceName, t: System)
    requires WithinLast(s) && Tracked(s) && Step(s, Message(ids, source), t)
    ensures WithinLast(t)
  {
  }

  lemma MessageTracked(s: System, ids: seq<PolicyId>, source: SourceName, t: System)
    requires Tracked(s) && Step(s, Message(ids, source), t)
    ensures Tracked(t)
  {
    forall k | k in t.handlers ensures t.handlers[k] in t.running && t.handlers[k] !in t.stopped {
      if k !in s.handlers { assert t.handlers[k] in Started(s, t.handlers); }
    }
  }

  lemma MessageOwned(s: System, ids: seq<PolicyId>, source: SourceName, t: System)
    requires Tracked(s) && Owned(s) && Step(s, Message(ids, source), t)
    ensures Owned(t)
  {
    assert forall h :: h in Dropped(s, t.handlers) ==> h in t.stopped;
  }

  lemma MessageInv(s: System, ids: seq<PolicyId>, source: SourceName, t: System)
    requires Inv(s) && Step(s, Message(ids, source), t)
    ensures Inv(t)
  {
    MessageWithinLast(s, ids, source, t);
    MessageTracked(s, ids, source, t);
    MessageOwned(s, ids, source, t);
  }

  lemma GoroutineEndsInv(s: System, h: Handler, t: System)
    requires Inv(s) && Step(s, GoroutineEnds(h), t)
    ensures Inv(t)
  {
  }

  lemma RestartInv(s: System, t: System)
    requires Inv(s) && Step(s, Restart, t)
    ensures Inv(t)
  {
  }

  lemma {:induction false} RunInv(states: seq<System>, actions: seq<Action>, i: nat)
    requires IsRun(states, actions) && i <= |actions|
    ensures Inv(states[i])
  {
    if i > 0 {
      RunInv(states, actions, i - 1);
      match actions[i - 1]
      case Message(ids, source) => MessageInv(states[i - 1], ids, source, states[i]);
      case GoroutineEnds(h) => GoroutineEndsInv(states[i - 1], h, states[i]);
      case Restart => RestartInv(states[i - 1], states[i]);
    }
  }

  /** In every run, each source's tracked handlers stay within that source's last message. */
  lemma HandlersWithinLastMessage(states: seq<System>, actions: seq<Action>, i: nat, k: PolicyId)
    requires IsRun(states, actions) && i <= |actions| && k in states[i].handlers
    ensures var h := states[i].handlers[k];
            h.id == k && h.source in states[i].last && k in states[i].last[h.source] && h in states[i].running
  {
    RunInv(states, actions, i);
  }

  /**
   Right after a message, exactly the listed policies and those of other sources are
   tracked, each by a running handler, and by the same one if it was tracked before.
   */
  lemma MessageTracksListed(states: seq<System>, actions: seq<Action>, i: nat, k: PolicyId)
    requires IsRun(states, actions) && i < |actions| && actions[i].Message?
    ensures var s, t := states[i].handlers, states[i + 1].handlers;
            && (k in t <==> k in actions[i].ids || (k in s && s[k].source != actions[i].source))
            && (k in t ==> t[k] in states[i + 1].running)
            && (k in t && k in s ==> t[k] == s[k])
            && (k in t && k !in s ==> t[k].source == actions[i].source && t[k] !in states[i].running)
  {
    RunInv(states, actions, i);
    RunInv(states, actions, i + 1);
    assert Step(states[i], actions[i], states[i + 1]);
  }

  /** A handler runs untracked and unstopped only for policies revived before an old goroutine ended. */
  lemma UnstoppedIsTracked(states: seq<System>, actions: seq<Action>, i: nat, h: Handler)
    requires IsRun(states, actions) && i <= |actions|
    requires h in states[i].running && h !in states[i].stopped && h.id !in states[i].revived
    ensures h.id in states[i].handlers && states[i].handlers[h.id] == h
  {
    RunInv(states, actions, i);
  }

  /** A goroutine's end untracks a handler that still runs exactly when the entry is not its own. */
  lemma EndOrphansOther(s: System, h: Handler, t: System)
    requires Inv(s) && Step(s, GoroutineEnds(h), t)
    ensures (exists g :: g in t.running && g !in t.stopped && g.id in s.handlers && s.handlers[g.id] == g && g.id !in t.handlers)
            <==> h.id in s.handlers && s.handlers[h.id] != h
  {
    if h.id in s.handlers && s.handlers[h.id] != h {
      var g := s.handlers[h.id];
      assert g in t.running && g !in t.stopped && g.id !in t.handlers;
    }
  }

  lemma Listed(s: System, h: Handler) returns (t: System)
    requires s.handlers == map[] && h.serial == s.next
    ensures Step(s, Message([h.id], h.source), t)
    ensures t.handlers == map[h.id := h] && t.next == s.next + 1 && t.running == s.running + {h} && t.stopped == s.stopped
    ensures h.source in t.last && h.id in t.last[h.source]
  {
    t := Received(s, [h.id], h.source, map[h.id := h], s.next + 1);
    assert t.handlers[h.id] in Started(s, t.handlers);
    assert Started(s, t.handlers) == {h};
  }

  lemma Unlisted(s: System, h: Handler) returns (t: System)
    requires s.handlers == map[h.id := h]
    ensures Step(s, Message([], h.source), t)
    ensures t.handlers == map[] && t.next == s.next && t.running == s.running && t.stopped == s.stopped + {h}
  {
    t := Received(s, [], h.source, map[], s.next);
    assert h == s.handlers[h.id];
    assert Dropped(s, t.handlers) == {h};
  }

  lemma Extended(states: seq<System>, actions: seq<Action>, a: Action, t: System)
    requires IsRun(states, actions) && Step(states[|actions|], a, t)
    ensures IsRun(states + [t], actions + [a])
  {
  }

  /** A run that loses a live handler: dropped and listed again before the old goroutine ended. */
  lemma LostHandler() returns (states: seq<System>, actions: seq<Action>)
    ensures IsRun(states, actions)
    ensures var s := states[|actions|];
            exists h :: h in s.running && h !in s.stopped && h.source in s.last && h.id in s.last[h.source] && h.id !in s.handlers
  {
    var a, b := Handler("p", "nomad", 0), Handler("p", "nomad", 1);
    var s0 := System(map[], 0, {}, {}, map[], {});
    states, actions := [s0], [];
    var s1 := Listed(s0, a);
    Extended(states, actions, Message([a.id], a.source), s1);
    states, actions := states + [s1], actions + [Message([a.id], a.source)];
    var s2 := Unlisted(s1, a);
    Extended(states, actions, Message([], a.source), s2);
    states, actions := states + [s2], actions + [Message([], a.source)];
    var s3 := Listed(s2, b);
    Extended(states, actions, Message([b.id], b.source), s3);
    states, actions := states + [s3], actions + [Message([b.id], b.source)];
    var s4 := s3.(running := s3.running - {a}, handlers := s3.handlers - {a.id});
    Extended(states, actions, GoroutineEnds(a), s4);
    states, actions := states + [s4], actions + [GoroutineEnds(a)];
    assert b in s4.running && b !in s4.stopped && b.id in s4.last[b.source] && b.id !in s4.handlers;
  }
}
