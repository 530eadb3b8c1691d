/** Which Nomad nodes form a pool, and which of them a scale-in removes. */
module NodePool {
  import opened Options

  datatype Status = Initializing | Ready | OtherStatus

  datatype Node = Node(id: string, nodeClass: string, status: Status, eligible: bool, drain: bool)

  const DEFAULT_POOL := "autoscaler-default-pool"
  const KEY_CLASS := "class"
  const NEWEST_CREATE_INDEX := "newest_create_index"
  const MAX_REPORTED := 10

  datatype Result = Unstable(nodes: seq<Node>) | Failed | Nodes(nodes: seq<Node>)

  // ---------- What the filter is for ----------

  predicate InPool(n: Node, pool: string) {
    if n.nodeClass == "" then pool == DEFAULT_POOL else n.nodeClass == pool
  }

  /** The node is registering, draining, or drained and not yet gone. */
  predicate IsUnstable(n: Node) {
    n.status == Initializing || (n.status == Ready && !n.eligible)
  }

  predicate IsUsable(n: Node) {
    n.eligible && n.status != Initializing
  }

  ghost function Select(nodes: seq<Node>, keep: Node -> bool): (r: seq<Node>) {
    if nodes == [] then []
    else
      var k := |nodes| - 1;
      Select(nodes[..k], keep) + if keep(nodes[k]) then [nodes[k]] else []
  }

  lemma {:induction false} SelectMembers(nodes: seq<Node>, keep: Node -> bool, n: Node)
    ensures n in Select(nodes, keep) <==> n in nodes && keep(n)
  {
    if nodes != [] {
      var k := |nodes| - 1;
      assert nodes == nodes[..k] + [nodes[k]];
      SelectMembers(nodes[..k], keep, n);
    }
  }

  ghost function BadFor(pool: string): Node -> bool {
    n => InPool(n, pool) && IsUnstable(n)
  }

  ghost function GoodFor(pool: string): Node -> bool {
    n => InPool(n, pool) && IsUsable(n)
  }

  ghost function OtherThan(id: string): Node -> bool {
    (n: Node) => id == "" || n.id != id
  }

  ghost function UnstableIn(nodes: seq<Node>, pool: string): seq<Node> {
    Select(nodes, BadFor(pool))
  }

  ghost function UsableIn(nodes: seq<Node>, pool: string): seq<Node> {
    Select(nodes, GoodFor(pool))
  }

  lemma SelectOne(nodes: seq<Node>, k: nat, keep: Node -> bool)
    requires k < |nodes|
    ensures Select(nodes[..k + 1], keep) == Select(nodes[..k], keep) + if keep(nodes[k]) then [nodes[k]] else []
  {
    assert nodes[..k + 1][..k] == nodes[..k];
  }

  /** What was selected from a prefix is a prefix of what is selected from the whole. */
  lemma {:induction false} SelectPrefix(nodes: seq<Node>, k: nat, keep: Node -> bool)
    requires k <= |nodes|
    ensures Select(nodes[..k], keep) <= Select(nodes, keep)
    decreases |nodes| - k
  {
    if k < |nodes| {
      SelectOne(nodes, k, keep);
      SelectPrefix(nodes, k + 1, keep);
    } else {
      assert nodes[..k] == nodes;
    }
  }

  lemma SelectSingle(n: Node, keep: Node -> bool)
    ensures Select([n], keep) == if keep(n) then [n] else []
  {
    assert [n][..0] == [] && Select([], keep) == [];
  }

  /** Selecting goes node by node and keeps their order. */
  lemma {:induction false} SelectInOrder(a: seq<Node>, b: seq<Node>, keep: Node -> bool)
    ensures Select(a + b, keep) == Select(a, keep) + Select(b, keep)
  {
    if b == [] {
      assert a + b == a;
    } else {
      var k := |b| - 1;
      assert (a + b)[..|a| + k] == a + b[..k];
      SelectInOrder(a, b[..k], keep);
    }
  }

  /** The pool is named by the node's class; nodes without a class form the default pool. */
  ghost predicate Belongs(n: Node, pool: string) {
    (n.nodeClass != "" && n.nodeClass == pool) || (n.nodeClass == "" && pool == "autoscaler-default-pool")
  }

  /** Initializing nodes, and ready ones that take no work, are reported; eligible nodes are kept, the rest ignored. */
  lemma FilteredInFields(nodes: seq<Node>, pool: string, n: Node)
    ensures n in UnstableIn(nodes, pool) <==>
            n in nodes && Belongs(n, pool) && (n.status == Initializing || (n.status == Ready && !n.eligible))
    ensures n in UsableIn(nodes, pool) <==> n in nodes && Belongs(n, pool) && n.status != Initializing && n.eligible
  {
    SelectMembers(nodes, BadFor(pool), n);
    SelectMembers(nodes, GoodFor(pool), n);
  }

  // ---------- The filter ----------

  /** The early-exit loop: it stops looking once ten unstable nodes are known. */
  method FilterByClass(nodes: seq<Node>, pool: string) returns (r: Result)
    ensures var bad := UnstableIn(nodes, pool);
            r == if bad == [] then Nodes(UsableIn(nodes, pool))
                 else Unstable(bad[..if |bad| < 10 then |bad| else 10])
  {
    ghost var isBad := BadFor(pool);
    ghost var isGood := GoodFor(pool);
    var out: seq<Node>, err: seq<Node> := [], [];
    for i := 0 to |nodes|
      invariant |err| <= MAX_REPORTED
      invariant err == Select(nodes[..i], isBad)
      invariant err == [] ==> out == Select(nodes[..i], isGood)
    {
      if |err| >= MAX_REPORTED {
        SelectPrefix(nodes, i, isBad);
        assert err == UnstableIn(nodes, pool)[..MAX_REPORTED];
        return Unstable(err);
      }
      SelectOne(nodes, i, isBad);
      SelectOne(nodes, i, isGood);
      var node := nodes[i];
      assert isBad(node) == (InPool(node, pool) && IsUnstable(node)) && isGood(node) == (InPool(node, pool) && IsUsable(node));
      if (node.nodeClass != "" && node.nodeClass != pool) || (node.nodeClass == "" && pool != DEFAULT_POOL) {
        continue;
      }
      if node.status == Initializing {
        err := err + [node];
        continue;
      }
      if node.eligible {
        if err == [] { out := out + [node]; }
        continue;
      }
      if node.drain && node.status == Ready {
        err := err + [node];
        continue;
      }
      if !node.drain && node.status == Ready {
        err := err + [node];
      }
    }
    assert nodes[..|nodes|] == nodes;
    if err != [] { return Unstable(err); }
    return Nodes(out);
  }

  method IdentifyNodes(key: string, pool: string, nodes: seq<Node>) returns (r: Result)
    ensures key != KEY_CLASS ==> r == Failed
    ensures key == KEY_CLASS ==>
              var bad := UnstableIn(nodes, pool);
              r == if bad == [] then Nodes(UsableIn(nodes, pool))
                   else Unstable(bad[..if |bad| < 10 then |bad| else 10])
  {
    if key != KEY_CLASS { return Failed; }
    r := FilterByClass(nodes, pool);
  }

  // ---------- Scale-in ----------

  /** Where the autoscaler itself runs is never removed; an unknown id removes nothing. */
  method FilterOutNodeId(nodes: seq<Node>, id: string) returns (out: seq<Node>)
    ensures out == Select(nodes, OtherThan(id))
  {
    ghost var keep := OtherThan(id);
    assert nodes[..|nodes|] == nodes;
    if id == "" {
      SelectAll(nodes, keep);
      return nodes;
    }
    out := [];
    for i := 0 to |nodes|
      invariant out == Select(nodes[..i], keep)
    {
      SelectOne(nodes, i, keep);
      if nodes[i].id == id { continue; }
      out := out + [nodes[i]];
    }
  }

  lemma {:induction false} SelectAll(nodes: seq<Node>, keep: Node -> bool)
    requires forall n :: n in nodes ==> keep(n)
    ensures Select(nodes, keep) == nodes
  {
    if nodes != [] {
      var k := |nodes| - 1;
      assert nodes == nodes[..k] + [nodes[k]];
      SelectAll(nodes[..k], keep);
    }
  }

  ghost function Candidates(nodes: seq<Node>, pool: string, self: string): seq<Node> {
    Select(UsableIn(nodes, pool), OtherThan(self))
  }

  /** `listed` is the answer of the Nomad API; the first usable nodes of the pool are chosen. */
  method IdentifyTargets(listed: Option<seq<Node>>, num: int, key: string, pool: string, strategy: string, self: string)
    returns (r: Result)
    ensures r.Nodes? <==> listed.Some? && key == KEY_CLASS && UnstableIn(listed.value, pool) == []
                          && Candidates(listed.value, pool, self) != [] && strategy == NEWEST_CREATE_INDEX
    ensures r.Nodes? ==>
              var c := Candidates(listed.value, pool, self);
              r.nodes == c[..if num < 0 then 0 else if num < |c| then num else |c|]
    ensures r.Unstable? <==> listed.Some? && key == KEY_CLASS && UnstableIn(listed.value, pool) != []
  {
    if listed.None? { return Failed; }
    r := IdentifyNodes(key, pool, listed.value);
    if !r.Nodes? { return; }
    var filtered := FilterOutNodeId(r.nodes, self);
    if |filtered| == 0 { return Failed; }
    if strategy != NEWEST_CREATE_INDEX { return Failed; }
    var n := if num > |filtered| then |filtered| else num;
    var out := [];
    for i := 0 to if n < 0 then 0 else n
      invariant out == filtered[..i]
    {
      out := out + [filtered[i]];
    }
    r := Nodes(out);
  }

  /**
   What a scale-in removes: eligible nodes of the pool other than the autoscaler's own,
   while no node of the pool is initializing or ready without taking work.
   */
  lemma TargetsAreSafe(nodes: seq<Node>, pool: string, self: string, k: nat)
    requires UnstableIn(nodes, pool) == [] && k <= |Candidates(nodes, pool, self)|
    ensures forall n :: n in Candidates(nodes, pool, self)[..k] ==>
              && n in nodes && Belongs(n, pool) && n.eligible && n.status != Initializing
              && (self != "" ==> n.id != self)
    ensures forall n :: n in nodes && Belongs(n, pool) ==> n.status != Initializing && (n.status == Ready ==> n.eligible)
  {
    forall n | n in nodes && Belongs(n, pool) ensures n.status != Initializing && (n.status == Ready ==> n.eligible) {
      FilteredInFields(nodes, pool, n);
    }
    forall n | n in Candidates(nodes, pool, self)[..k]
      ensures n in nodes && Belongs(n, pool) && n.eligible && n.status != Initializing && (self != "" ==> n.id != self)
    {
      CandidatesAreAll(nodes, pool, self, n);
    }
  }

  /** Nothing else is spared: an eligible node of the pool other than the autoscaler's own is a candidate. */
  lemma CandidatesAreAll(nodes: seq<Node>, pool: string, self: string, n: Node)
    ensures n in Candidates(nodes, pool, self) <==>
            n in nodes && Belongs(n, pool) && n.status != Initializing && n.eligible && (self == "" || n.id != self)
  {
    FilteredInFields(nodes, pool, n);
    SelectMembers(UsableIn(nodes, pool), OtherThan(self), n);
  }
}
