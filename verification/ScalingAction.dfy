/** The scaling action that a check produces, and the rule that picks one of two. */
module ScalingActions {
  import opened Options

  /** From riskiest to safest, as the source orders its constants. */
  datatype Direction = Down | Hold | Up

  function Rank(d: Direction): int {
    match d
    case Down => -1
    case Hold => 0
    case Up => 1
  }

  datatype MetaValue = Flag(flag: bool) | Number(number: int)

  const DRY_RUN_COUNT := -1
  const META_DRY_RUN := "nomad_autoscaler.dry_run"
  const META_DRY_RUN_COUNT := "nomad_autoscaler.dry_run.count"
  const META_CAPPED := "nomad_autoscaler.count.capped"
  const META_ORIGINAL := "nomad_autoscaler.count.original"

  /** What an action asks for. */
  datatype Wish = Wish(direction: Direction, count: int)

  /** The count after capping: the dry-run marker is left alone. */
  function Capped(count: int, min: int, max: int): (r: int)
    ensures min <= max && count != DRY_RUN_COUNT ==> min <= r <= max
    ensures min <= count <= max || count == DRY_RUN_COUNT ==> r == count
  {
    if count == DRY_RUN_COUNT then count
    else if count < min then min
    else if count > max then max
    else count
  }

  function Distance(a: int, b: int): nat {
    if a < b then b - a else a - b
  }

  /** `r` is the count within the limits that is nearest to `count`. */
  ghost predicate NearestWithin(r: int, count: int, min: int, max: int) {
    && min <= r <= max
    && (forall m :: min <= m <= max ==> Distance(r, count) <= Distance(m, count))
  }

  /** Apart from the marker, which stays, a count is moved no further than the limits demand. */
  lemma CappedIsNearest(count: int, min: int, max: int)
    requires min <= max
    ensures if count == -1 then Capped(count, min, max) == -1 else NearestWithin(Capped(count, min, max), count, min, max)
    ensures min <= count <= max ==> Capped(count, min, max) == count
    ensures forall r :: count != -1 && NearestWithin(r, count, min, max) ==> r == Capped(count, min, max)
  {
    var c := Capped(count, min, max);
    forall r | count != -1 && NearestWithin(r, count, min, max) ensures r == c {
      assert Distance(r, count) <= Distance(c, count);
    }
  }

  class ScalingAction {
    var count: int
    var direction: Direction
    var meta: Option<map<string, MetaValue>>   // None is Go's nil map, which panics when written

    constructor (direction: Direction, count: int)
      ensures Wished() == Wish(direction, count) && meta == None
    {
      this.direction, this.count, this.meta := direction, count, None;
    }

    function Wished(): Wish
      reads this
    {
      Wish(direction, count)
    }

    method Canonicalize()
      modifies this`meta
      ensures meta == Some(if old(meta).Some? then old(meta).value else map[])
    {
      if meta.None? { meta := Some(map[]); }
    }

    method SetMeta(key: string, v: MetaValue)
      requires meta.Some?
      modifies this`meta
      ensures meta == Some(old(meta).value[key := v])
    {
      meta := Some(meta.value[key := v]);
    }

    /** Marks the action as a dry run; the wished count survives in the metadata. */
    method SetDryRun()
      requires meta.Some?
      modifies this`meta, this`count
      ensures count == DRY_RUN_COUNT
      ensures meta == Some(old(meta).value[META_DRY_RUN := Flag(true)][META_DRY_RUN_COUNT := Number(old(count))])
    {
      SetMeta(META_DRY_RUN, Flag(true));
      SetMeta(META_DRY_RUN_COUNT, Number(count));
      count := DRY_RUN_COUNT;
    }

    /** Brings the count within limits; the metadata is written only if the count changes. */
    method CapCount(min: int, max: int)
      requires Capped(count, min, max) != count ==> meta.Some?
      modifies this`meta, this`count
      ensures count == Capped(old(count), min, max)
      ensures meta == if count == old(count) then old(meta)
                      else Some(old(meta).value[META_CAPPED := Flag(true)][META_ORIGINAL := Number(old(count))])
      ensures min <= old(count) <= max ==> count == old(count)
      ensures min <= max && old(count) != -1 ==> NearestWithin(count, old(count), min, max)
    {
      if count == DRY_RUN_COUNT { return; }
      var newCount := count;
      if newCount < min {
        newCount := min;
      } else if newCount > max {
        newCount := max;
      }
      if newCount != count {
        SetMeta(META_CAPPED, Flag(true));
        SetMeta(META_ORIGINAL, Number(count));
        count := newCount;
      }
      if min <= max { CappedIsNearest(old(count), min, max); }
    }
  }

  /** `b` takes precedence over `a`: safer direction, or same real direction and more instances. */
  predicate Preempts(b: Wish, a: Wish) {
    || Rank(b.direction) > Rank(a.direction)
    || (b.direction == a.direction && a.direction != Hold && b.count > a.count)
  }

  function PreemptScalingAction(a: ScalingAction?, b: ScalingAction?): (r: ScalingAction?)
    reads a, b
    ensures r == a || r == b
    ensures r == null <==> a == null && b == null
    ensures a != null && b != null ==> !Preempts(a.Wished(), r.Wished()) && !Preempts(b.Wished(), r.Wished())
    ensures a != null && b != null && a != b ==> (r == b <==> Preempts(b.Wished(), a.Wished()))
  {
    if a == null then b
    else if b == null then a
    else if Rank(b.direction) > Rank(a.direction) then b
    else if a.direction == b.direction && a.direction != Hold && b.count > a.count then b
    else a
  }
}
