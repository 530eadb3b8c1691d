/**
 The policy worker: each check is turned into an action within the policy's limits,
 one action is chosen, and the target is scaled with it.
 */
module Worker {
  import opened Options
  import opened ScalingActions

  /** What the plugins of one check answered. The strategy returns the action it was given. */
  datatype CheckReply =
    | Unavailable                     // a plugin is missing or of the wrong kind, or a query or strategy failed
    | Interrupted                     // the context ended during the query
    | NoMetrics
    | Ran(action: ScalingAction)

  /** The same, seen as a value. */
  datatype Answer = NoAnswer | Nothing | Empty | Wants(wish: Wish)

  ghost function AnswerOf(r: CheckReply): Answer
    reads if r.Ran? then {r.action} else {}
  {
    match r
    case Unavailable => NoAnswer
    case Interrupted => Nothing
    case NoMetrics => Empty
    case Ran(a) => Wants(a.Wished())
  }

  /** What a check contributes to the decision; `None` when it failed or was interrupted. */
  function Decide(a: Answer, count: int, min: int, max: int): (r: Option<Wish>) {
    match a
    case NoAnswer => None
    case Nothing => None
    case Empty => Some(Wish(Hold, 0))
    case Wants(w) =>
      var wish := if w.direction != Hold then w
                  else if count < min then Wish(Up, min)
                  else if count > max then Wish(Down, max)
                  else w;
      var capped := Capped(wish.count, min, max);
      if wish.direction == Hold || capped == count then Some(Wish(Hold, 0))
      else Some(Wish(wish.direction, capped))
  }

  /** Only a check whose plugins failed, or that was interrupted, contributes nothing; without metrics it holds. */
  lemma AnswersCount(a: Answer, count: int, min: int, max: int)
    ensures Decide(a, count, min, max).None? <==> a.NoAnswer? || a.Nothing?
    ensures a.Empty? ==> Decide(a, count, min, max).value.direction == Hold
  {
  }

  /**
   The limits are enforced whatever the strategy says: a check holds only within them.
   An idle strategy outside the limits is overruled, and a wish is moved to the nearest
   count within them.
   */
  lemma LimitsEnforced(w: Wish, count: int, min: int, max: int)
    requires 0 <= count && min <= max
    ensures var r := Decide(Wants(w), count, min, max);
            && r.Some?
            && (r.value.direction == Hold ==> min <= count <= max)
            && (w.direction == Hold && count < min ==> r.value == Wish(Up, min))
            && (w.direction == Hold && count > max ==> r.value == Wish(Down, max))
            && (w.direction == Hold && min <= count <= max ==> r.value.direction == Hold)
            && (w.direction != Hold && w.count == -1 ==> r.value == w)
            && (w.direction != Hold && w.count != -1 ==>
                  if NearestWithin(count, w.count, min, max) then r.value.direction == Hold
                  else r.value.direction == w.direction && NearestWithin(r.value.count, w.count, min, max))
  {
    CappedIsNearest(w.count, min, max);
  }

  method NewHold() returns (a: ScalingAction)
    ensures fresh(a) && a.Wished() == Wish(Hold, 0)
  {
    a := new ScalingAction(Hold, 0);
  }

  /** `checkHandler.start`, after the plugins have answered. */
  method Start(reply: CheckReply, count: int, min: int, max: int) returns (err: bool, action: ScalingAction?)
    modifies if reply.Ran? then {reply.action} else {}
    ensures err == reply.Unavailable? && (err ==> action == null)
    ensures action == null <==> Decide(old(AnswerOf(reply)), count, min, max) == None
    ensures action != null ==> Some(action.Wished()) == Decide(old(AnswerOf(reply)), count, min, max)
    ensures action != null && action.direction != Hold ==> action.meta.Some?
    ensures action != null ==> fresh(action) || (reply.Ran? && action == reply.action)
  {
    match reply
    case Unavailable => return true, null;
    case Interrupted => return false, null;
    case NoMetrics =>
      action := NewHold();
      return false, action;
    case Ran(result) =>
      var chosen := result;
      if result.direction == Hold {
        if count < min {
          chosen := new ScalingAction(Up, min);
        } else if count > max {
          chosen := new ScalingAction(Down, max);
        } else {
          action := NewHold();
          return false, action;
        }
      }
      chosen.Canonicalize();
      chosen.CapCount(min, max);
      if count == chosen.count {
        action := NewHold();
        return false, action;
      }
      return false, chosen;
  }

  // ---------- Choosing among the checks ----------

  /** Check `w` made the first of the strongest wishes among the first `n`. */
  ghost predicate Wins(wishes: seq<Option<Wish>>, n: nat, w: nat)
    requires n <= |wishes|
  {
    && w < n && wishes[w].Some?
    && (forall i :: 0 <= i < n && wishes[i].Some? ==> !Preempts(wishes[i].value, wishes[w].value))
    && (forall i :: 0 <= i < w && wishes[i].Some? ==> Preempts(wishes[w].value, wishes[i].value))
  }

  ghost function Wishes(answers: seq<Answer>, count: int, min: int, max: int): (r: seq<Option<Wish>>)
    ensures |r| == |answers|
  {
    seq(|answers|, i requires 0 <= i < |answers| => Decide(answers[i], count, min, max))
  }

  ghost function Answers(replies: seq<CheckReply>): (r: seq<Answer>)
    reads set i | 0 <= i < |replies| && replies[i].Ran? :: replies[i].action
    ensures |r| == |replies|
  {
    seq(|replies|, i requires 0 <= i < |replies| reads (if 0 <= i < |replies| && replies[i].Ran? then {replies[i].action} else {}) =>
      AnswerOf(replies[i]))
  }

  /** Every check has an action object of its own. */
  ghost predicate OwnActions(replies: seq<CheckReply>) {
    forall i, j :: 0 <= i < j < |replies| && replies[i].Ran? && replies[j].Ran? ==> replies[i].action != replies[j].action
  }

  /** As soon as one check wishes something, one check wins, and only one. */
  lemma {:induction false} WinnerExists(wishes: seq<Option<Wish>>, n: nat)
    requires n <= |wishes|
    ensures (exists i :: 0 <= i < n && wishes[i].Some?) <==> (exists w: nat :: Wins(wishes, n, w))
    ensures forall v: nat, w: nat :: Wins(wishes, n, v) && Wins(wishes, n, w) ==> v == w
  {
    if n > 0 && exists i :: 0 <= i < n && wishes[i].Some? {
      var m := n - 1;
      WinnerExists(wishes, m);
      if v: nat :| Wins(wishes, m, v) {
        if wishes[n - 1].Some? && Preempts(wishes[n - 1].value, wishes[v].value) {
          assert Wins(wishes, n, n - 1);
        } else {
          assert Wins(wishes, n, v);
        }
      } else {
        assert Wins(wishes, n, n - 1);
      }
    }
  }

  /** The winner is an argmax: up beats hold beats down, and within a direction the largest count wins. */
  lemma WinnerIsSafest(wishes: seq<Option<Wish>>, w: nat)
    requires Wins(wishes, |wishes|, w)
    ensures wishes[w].value.direction == Up <==> exists i :: 0 <= i < |wishes| && wishes[i].Some? && wishes[i].value.direction == Up
    ensures wishes[w].value.direction == Down <==>
            forall i :: 0 <= i < |wishes| && wishes[i].Some? ==> wishes[i].value.direction == Down
    ensures wishes[w].value.direction != Hold ==>
            forall i :: 0 <= i < |wishes| && wishes[i].Some? && wishes[i].value.direction == wishes[w].value.direction
              ==> wishes[i].value.count <= wishes[w].value.count
  {
    assert forall i :: 0 <= i < |wishes| && wishes[i].Some? ==> Rank(wishes[i].value.direction) <= Rank(wishes[w].value.direction);
  }

  /** Within the limits, one check without metrics or without a wish keeps all the others from scaling down. */
  lemma IdleCheckBlocksDown(answers: seq<Answer>, count: int, min: int, max: int, w: nat, i: nat)
    requires 0 <= count && min <= count <= max
    requires Wins(Wishes(answers, count, min, max), |answers|, w)
    requires i < |answers| && (answers[i].Empty? || (answers[i].Wants? && answers[i].wish.direction == Hold))
    ensures Wishes(answers, count, min, max)[w].value.direction != Down
  {
    var wishes := Wishes(answers, count, min, max);
    if answers[i].Wants? { LimitsEnforced(answers[i].wish, count, min, max); }
    WinnerIsSafest(wishes, w);
    assert wishes[i].Some? && wishes[i].value.direction == Hold;
  }

  /** Whatever a strategy asks for, a check's action stays within the limits or is the dry-run marker it asked for. */
  lemma DecidedWithinLimits(a: Answer, count: int, min: int, max: int)
    requires min <= max
    ensures var r := Decide(a, count, min, max);
            r.Some? && r.value.direction != Hold ==>
              && r.value.count != count
              && (min <= r.value.count <= max || (r.value.count == DRY_RUN_COUNT && a.Wants? && a.wish.count == DRY_RUN_COUNT))
  {
  }

  /** The outcome of evaluating a policy; `handler` is the check whose action was executed. */
  datatype Outcome = NoAction | Scale(handler: nat, action: ScalingAction)

  /**
   The reconciliation of `handlePolicy` once the target has reported `count`.
   `stop` is the number of checks after which the context is seen to be done.
   */
  method Reconcile(replies: seq<CheckReply>, count: int, min: int, max: int, dryRun: bool, stop: nat)
    returns (r: Outcome)
    requires OwnActions(replies)
    modifies set i | 0 <= i < |replies| && replies[i].Ran? :: replies[i].action
    ensures var wishes := Wishes(old(Answers(replies)), count, min, max);
            match r
            case NoAction => stop <= |replies| || forall w: nat :: Wins(wishes, |wishes|, w) ==> wishes[w].value.direction == Hold
            case Scale(w, a) =>
              && stop > |replies| && Wins(wishes, |wishes|, w) && wishes[w].value.direction != Hold
              && a.direction == wishes[w].value.direction
              && a.count == (if dryRun then DRY_RUN_COUNT else wishes[w].value.count)
              && (min <= max ==> min <= a.count <= max || a.count == DRY_RUN_COUNT)
              && a.meta.Some?
              && (fresh(a) || (replies[w].Ran? && a == replies[w].action))
              && (dryRun ==> META_DRY_RUN_COUNT in a.meta.value
                             && a.meta.value[META_DRY_RUN_COUNT] == Number(wishes[w].value.count))
  {
    ghost var answers := Answers(replies);
    ghost var wishes := Wishes(answers, count, min, max);
    var winningAction: ScalingAction? := null;
    var winningHandler := -1;
    for i := 0 to |replies|
      invariant forall j :: i <= j < |replies| ==> AnswerOf(replies[j]) == answers[j]
      invariant winningAction == null ==> forall j :: 0 <= j < i ==> wishes[j].None?
      invariant winningAction != null ==>
        && 0 <= winningHandler < i && Wins(wishes, i, winningHandler)
        && winningAction.Wished() == wishes[winningHandler].value
        && (winningAction.direction != Hold ==> winningAction.meta.Some?)
        && (fresh(winningAction) || (replies[winningHandler].Ran? && winningAction == replies[winningHandler].action))
    {
      if i == stop { return NoAction; }
      var err, action := Start(replies[i], count, min, max);
      if err { continue; }
      winningAction := PreemptScalingAction(winningAction, action);
      if winningAction == action { winningHandler := i; }
    }
    if winningAction == null || winningAction.direction == Hold {
      assert forall w: nat :: Wins(wishes, |wishes|, w) ==> w == winningHandler;
      return NoAction;
    }
    if dryRun { winningAction.SetDryRun(); }
    if stop <= |replies| { return NoAction; }
    if min <= max { DecidedWithinLimits(answers[winningHandler], count, min, max); }
    return Scale(winningHandler, winningAction);
  }

  datatype Status = StatusFailed | NotReady | Ready(count: int)

  /** Evaluating a policy: an error makes the worker Nack, and only a successful scaling starts the cooldown. */
  method HandlePolicy(status: Status, replies: seq<CheckReply>, min: int, max: int, dryRun: bool, stop: nat, scaleFails: bool)
    returns (err: bool, scaled: Option<int>, cooldown: bool)
    requires OwnActions(replies)
    modifies set i | 0 <= i < |replies| && replies[i].Ran? :: replies[i].action
    ensures err <==> !status.Ready? || (scaled.Some? && scaleFails)
    ensures cooldown <==> scaled.Some? && !scaleFails
    ensures scaled.Some? ==> status.Ready?
    ensures status.Ready? ==>
              var wishes := Wishes(old(Answers(replies)), status.count, min, max);
              if scaled.Some? then
                exists w: nat :: Wins(wishes, |wishes|, w) && wishes[w].value.direction != Hold
                                 && scaled.value == if dryRun then DRY_RUN_COUNT else wishes[w].value.count
              else
                stop <= |replies| || forall w: nat :: Wins(wishes, |wishes|, w) ==> wishes[w].value.direction == Hold
    ensures scaled.Some? && min <= max ==> min <= scaled.value <= max || scaled.value == DRY_RUN_COUNT
  {
    if !status.Ready? { return true, None, false; }
    var r := Reconcile(replies, status.count, min, max, dryRun, stop);
    if r.NoAction? { return false, None, false; }
    return scaleFails, Some(r.action.count), !scaleFails;
  }
}
