/**
 Nomad APM queries: the policy processor completes a short query
 `<operation>_<metric>` for its target, and the APM plugin parses the result.
 */
module Queries {
  import opened Options

  // ---------- strings.SplitN ----------

  /** Where `c` first occurs in `s`; the length if it does not. */
  function IndexOf(s: string, c: char): (i: nat)
    ensures i <= |s| && c !in s[..i] && (i < |s| ==> s[i] == c)
    ensures i == |s| <==> c !in s
  {
    if s == [] then 0 else if s[0] == c then 0 else 1 + IndexOf(s[1..], c)
  }

  /** `strings.SplitN` for a one-character separator and a positive limit. */
  function SplitN(s: string, sep: char, n: nat): (parts: seq<string>)
    requires n >= 1
    ensures 1 <= |parts| <= n
    ensures Join(parts, sep) == s
    ensures forall i :: 0 <= i < |parts| - 1 ==> sep !in parts[i]
    decreases n
  {
    var i := IndexOf(s, sep);
    if n == 1 || i == |s| then [s]
    else
      var rest := SplitN(s[i + 1..], sep, n - 1);
      assert s == s[..i] + [sep] + s[i + 1..];
      assert ([s[..i]] + rest)[1..] == rest;
      [s[..i]] + rest
  }

  ghost function Join(parts: seq<string>, sep: char): string
    requires parts != []
  {
    if |parts| == 1 then parts[0] else parts[0] + [sep] + Join(parts[1..], sep)
  }

  lemma IndexOfAfter(a: string, sep: char, b: string)
    requires sep !in a
    ensures IndexOf(a + [sep] + b, sep) == |a|
  {
    var s := a + [sep] + b;
    assert s[|a|] == sep && s[..|a|] == a;
  }

  /** Splitting peels off what stands before the first separator. */
  lemma SplitPeels(a: string, sep: char, b: string, n: nat)
    requires sep !in a && n >= 2
    ensures SplitN(a + [sep] + b, sep, n) == [a] + SplitN(b, sep, n - 1)
  {
    var s := a + [sep] + b;
    IndexOfAfter(a, sep, b);
    assert s[..|a|] == a && s[|a| + 1..] == b;
  }

  /** Conversely, the first part is what stands before the first separator. */
  lemma SplitHead(s: string, sep: char, n: nat)
    requires n >= 2 && sep in s
    ensures var p := SplitN(s, sep, n); |p| >= 2 && s == p[0] + [sep] + Join(p[1..], sep) && sep !in p[0]
  {
  }

  // ---------- The processor ----------

  const JOB := "Job"
  const GROUP := "Group"
  const CLASS := "node_class"

  type Config = map<string, string>

  predicate IsShortQuery(q: string) {
    |SplitN(q, '_', 2)| == 2 && '/' !in q
  }

  function TaskGroupQuery(q: string, group: string, job: string): string {
    "taskgroup_" + q + "/" + group + "/" + job
  }

  function NodeQuery(q: string, nodeClass: string): string {
    "node_" + q + "/" + nodeClass + "/class"
  }

  /** The query that the APM is asked, for a check with the given source and target. */
  function Canonical(apms: seq<string>, source: string, q: string, target: Option<Config>): string {
    if target.None? || source !in apms || !IsShortQuery(q) then q
    else if JOB in target.value && GROUP in target.value then TaskGroupQuery(q, target.value[GROUP], target.value[JOB])
    else if CLASS in target.value then NodeQuery(q, target.value[CLASS])
    else q
  }

  class Check {
    var source: string
    var query: string

    constructor (source: string, query: string)
      ensures this.source == source && this.query == query
    {
      this.source, this.query := source, query;
    }

    /** A check without a source asks the Nomad APM. */
    method Canonicalize(apms: seq<string>, target: Option<Config>)
      modifies this
      ensures source == if old(source) == "" then "nomad-apm" else old(source)
      ensures query == Canonical(apms, source, old(query), target)
    {
      if source == "" { source := "nomad-apm"; }
      if target.None? { return; }
      var known := IsNomadApm(apms, source);
      if !known { return; }
      if !IsShortQuery(query) { return; }
      var config := target.value;
      if JOB in config && GROUP in config {
        query := TaskGroupQuery(query, config[GROUP], config[JOB]);
        return;
      }
      if CLASS in config {
        query := NodeQuery(query, config[CLASS]);
      }
    }
  }

  method IsNomadApm(apms: seq<string>, source: string) returns (known: bool)
    ensures known <==> source in apms
  {
    for i := 0 to |apms|
      invariant source !in apms[..i]
    {
      if source == apms[i] { return true; }
    }
    return false;
  }

  // ---------- The plugin ----------

  /** A parsed query; the pool of a node query is identified by a key and a value. */
  datatype Parsed =
    | ForTaskGroup(operation: string, metric: string, group: string, job: string)
    | ForNodes(operation: string, metric: string, key: string, value: string)

  predicate TaskGroupOperation(op: string) {
    op == "sum" || op == "avg" || op == "min" || op == "max"
  }

  predicate TaskGroupMetric(m: string) {
    m == "cpu" || m == "cpu-allocated" || m == "memory" || m == "memory-allocated"
  }

  predicate NodeOperation(op: string) {
    op == "percentage-allocated"
  }

  predicate NodeMetric(m: string) {
    m == "cpu" || m == "memory"
  }

  function ParseTaskGroupQuery(q: string): (r: Option<Parsed>) {
    var main := SplitN(q, '/', 3);
    if |main| != 3 then None
    else
      var parts := SplitN(main[0], '_', 3);
      if |parts| != 3 || !TaskGroupMetric(parts[2]) || !TaskGroupOperation(parts[1]) then None
      else Some(ForTaskGroup(parts[1], parts[2], main[1], main[2]))
  }

  function ParseNodePoolQuery(q: string): (r: Option<Parsed>) {
    var main := SplitN(q, '/', 3);
    if |main| != 3 then None
    else
      var parts := SplitN(main[0], '_', 3);
      if |parts| != 3 || !NodeMetric(parts[2]) || !NodeOperation(parts[1]) then None
      else Some(ForNodes(parts[1], parts[2], main[2], main[1]))
  }

  /** `Query` looks at what stands before the first underscore; other types are refused. */
  function Parse(q: string): (r: Option<Parsed>) {
    var kind := q[..IndexOf(q, '_')];
    if kind == "taskgroup" then ParseTaskGroupQuery(q)
    else if kind == "node" then ParseNodePoolQuery(q)
    else None
  }

  // ---------- Round trips ----------

  /** Three parts come back as three parts if the first two do not contain the separator. */
  lemma SplitThree(a: string, b: string, c: string, sep: char)
    requires sep !in a && sep !in b
    ensures SplitN(a + [sep] + b + [sep] + c, sep, 3) == [a, b, c]
  {
    var tail := b + [sep] + c;
    assert a + [sep] + b + [sep] + c == a + [sep] + tail;
    SplitPeels(a, sep, tail, 3);
    SplitPeels(b, sep, c, 2);
  }

  /** With a separator in the middle, another middle comes back. */
  lemma SplitSlashed(a: string, b: string, c: string, sep: char)
    requires sep !in a && sep in b
    ensures var p := SplitN(a + [sep] + b + [sep] + c, sep, 3); |p| == 3 && p[0] == a && p[1] != b
  {
    var tail := b + [sep] + c;
    assert a + [sep] + b + [sep] + c == a + [sep] + tail;
    SplitPeels(a, sep, tail, 3);
    assert tail[|b|] == sep;
    SplitHead(tail, sep, 2);
  }

  /** How both parsers cut a canonical query `kind_q/middle/last`. */
  lemma CanonicalSplit(kind: string, q: string, middle: string, last: string)
    requires '_' !in kind && '/' !in kind && IsShortQuery(q)
    ensures var p, head := SplitN(q, '_', 2), kind + "_" + q;
            && SplitN(head, '_', 3) == [kind, p[0], p[1]]
            && var m := SplitN(head + "/" + middle + "/" + last, '/', 3);
               |m| == 3 && m[0] == head && if '/' in middle then m[1] != middle else m == [head, middle, last]
  {
    ShortQueryParts(q);
    var p, head := SplitN(q, '_', 2), kind + "_" + q;
    assert head == kind + ['_'] + p[0] + ['_'] + p[1];
    SplitThree(kind, p[0], p[1], '_');
    assert head + "/" + middle + "/" + last == head + ['/'] + middle + ['/'] + last;
    if '/' in middle { SplitSlashed(head, middle, last, '/'); } else { SplitThree(head, middle, last, '/'); }
  }

  /** A short query is an operation and a metric; the operation ends at the first underscore. */
  lemma ShortQueryParts(q: string)
    requires IsShortQuery(q)
    ensures var p := SplitN(q, '_', 2); |p| == 2 && q == p[0] + "_" + p[1] && '_' !in p[0] && '/' !in p[0] && '/' !in p[1]
  {
    var p := SplitN(q, '_', 2);
    assert '_' in q;
    SplitHead(q, '_', 2);
    assert p[1..] == [p[1]];
    assert q == p[0] + "_" + p[1];
    forall i | 0 <= i < |p[0]| ensures p[0][i] != '/' { assert q[i] == p[0][i]; }
    forall i | 0 <= i < |p[1]| ensures p[1][i] != '/' { assert q[|p[0]| + 1 + i] == p[1][i]; }
  }

  lemma KindOf(kind: string, q: string, middle: string, last: string)
    requires '_' !in kind
    ensures var s := kind + "_" + q + "/" + middle + "/" + last; s[..IndexOf(s, '_')] == kind
  {
    var s := kind + "_" + q + "/" + middle + "/" + last;
    assert s == kind + ['_'] + (q + "/" + middle + "/" + last);
    IndexOfAfter(kind, '_', q + "/" + middle + "/" + last);
  }

  lemma TaskGroupFromParts(s: string, m: seq<string>, kind: string, op: string, metric: string)
    requires SplitN(s, '/', 3) == m && |m| == 3 && SplitN(m[0], '_', 3) == [kind, op, metric]
    ensures ParseTaskGroupQuery(s) == if TaskGroupMetric(metric) && TaskGroupOperation(op)
                                      then Some(ForTaskGroup(op, metric, m[1], m[2])) else None
  {
  }

  lemma NodesFromParts(s: string, m: seq<string>, kind: string, op: string, metric: string)
    requires SplitN(s, '/', 3) == m && |m| == 3 && SplitN(m[0], '_', 3) == [kind, op, metric]
    ensures ParseNodePoolQuery(s) == if NodeMetric(metric) && NodeOperation(op)
                                     then Some(ForNodes(op, metric, m[2], m[1])) else None
  {
  }

  /** The task group round trip succeeds exactly for known operations and metrics and groups without a slash. */
  lemma TaskGroupRoundTrip(q: string, group: string, job: string)
    requires IsShortQuery(q)
    ensures var p := SplitN(q, '_', 2);
            Parse(TaskGroupQuery(q, group, job)) == Some(ForTaskGroup(p[0], p[1], group, job))
            <==> TaskGroupOperation(p[0]) && TaskGroupMetric(p[1]) && '/' !in group
  {
    var kind, s, p := "taskgroup", TaskGroupQuery(q, group, job), SplitN(q, '_', 2);
    assert s == kind + "_" + q + "/" + group + "/" + job;
    KindOf(kind, q, group, job);
    CanonicalSplit(kind, q, group, job);
    TaskGroupFromParts(s, SplitN(s, '/', 3), kind, p[0], p[1]);
    assert Parse(s) == ParseTaskGroupQuery(s);
  }

  /** The node pool round trip succeeds exactly for the known operation and metrics and classes without a slash. */
  lemma NodeRoundTrip(q: string, nodeClass: string)
    requires IsShortQuery(q)
    ensures var p := SplitN(q, '_', 2);
            Parse(NodeQuery(q, nodeClass)) == Some(ForNodes(p[0], p[1], "class", nodeClass))
            <==> NodeOperation(p[0]) && NodeMetric(p[1]) && '/' !in nodeClass
  {
    var kind, s, p := "node", NodeQuery(q, nodeClass), SplitN(q, '_', 2);
    assert s == kind + "_" + q + "/" + nodeClass + "/" + "class";
    KindOf(kind, q, nodeClass, "class");
    CanonicalSplit(kind, q, nodeClass, "class");
    NodesFromParts(s, SplitN(s, '/', 3), kind, p[0], p[1]);
    assert Parse(s) == ParseNodePoolQuery(s);
  }

  ghost function Spelled(kind: string, op: string, metric: string, middle: string, last: string): string {
    kind + ['_'] + op + ['_'] + metric + ['/'] + middle + ['/'] + last
  }

  /** The query that a parsed query stands for. */
  ghost function Show(p: Parsed): string {
    match p
    case ForTaskGroup(op, metric, group, job) => Spelled("taskgroup", op, metric, group, job)
    case ForNodes(op, metric, key, value) => Spelled("node", op, metric, value, key)
  }

  lemma JoinThree(p: seq<string>, sep: char)
    requires |p| == 3
    ensures Join(p, sep) == p[0] + [sep] + p[1] + [sep] + p[2]
  {
    assert p[1..][1..] == [p[2]];
    assert Join(p[1..], sep) == p[1] + [sep] + p[2];
    assert p[0] + [sep] + (p[1] + [sep] + p[2]) == p[0] + [sep] + p[1] + [sep] + p[2];
  }

  lemma SpelledKind(kind: string, op: string, metric: string, middle: string, last: string)
    requires '_' !in kind
    ensures var q := Spelled(kind, op, metric, middle, last); q[..IndexOf(q, '_')] == kind
  {
    var q := Spelled(kind, op, metric, middle, last);
    var rest := op + ['_'] + metric + ['/'] + middle + ['/'] + last;
    assert q == kind + ['_'] + rest;
    IndexOfAfter(kind, '_', rest);
  }

  /** Both parsers read the query as three parts, the first of them again as three. */
  lemma ReadAsSpelled(q: string, m: seq<string>, p: seq<string>)
    requires m == SplitN(q, '/', 3) && |m| == 3 && p == SplitN(m[0], '_', 3) && |p| == 3
    ensures q == Spelled(p[0], p[1], p[2], m[1], m[2]) && q[..IndexOf(q, '_')] == p[0]
  {
    JoinThree(m, '/');
    JoinThree(p, '_');
    SpelledKind(p[0], p[1], p[2], m[1], m[2]);
  }

  /** What a query parses to prints as that query. */
  lemma ParsedPrintsBack(q: string)
    requires Parse(q).Some?
    ensures Show(Parse(q).value) == q
  {
    var m := SplitN(q, '/', 3);
    var p := SplitN(m[0], '_', 3);
    ReadAsSpelled(q, m, p);
    if p[0] == "taskgroup" {
      assert Parse(q) == Some(ForTaskGroup(p[1], p[2], m[1], m[2]));
    } else {
      assert Parse(q) == Some(ForNodes(p[1], p[2], m[2], m[1]));
    }
  }

  // ---------- The whole way from the policy to the plugin ----------

  lemma ShortQueryIs(op: string, metric: string)
    requires '_' !in op && '/' !in op && '/' !in metric
    ensures IsShortQuery(op + "_" + metric) && SplitN(op + "_" + metric, '_', 2) == [op, metric]
  {
    assert op + "_" + metric == op + ['_'] + metric;
    SplitPeels(op, '_', metric, 2);
  }

  /** For a job's task group, the plugin is asked for the check's operation and metric on that group of that job. */
  lemma TaskGroupAsked(apms: seq<string>, source: string, op: string, metric: string, config: Config)
    requires source in apms && '_' !in op && '/' !in op && '/' !in metric && "Job" in config && "Group" in config
    ensures Parse(Canonical(apms, source, op + "_" + metric, Some(config)))
            == Some(ForTaskGroup(op, metric, config["Group"], config["Job"]))
            <==> && (op == "sum" || op == "avg" || op == "min" || op == "max")
                 && (metric == "cpu" || metric == "cpu-allocated" || metric == "memory" || metric == "memory-allocated")
                 && '/' !in config["Group"]
  {
    ShortQueryIs(op, metric);
    TaskGroupRoundTrip(op + "_" + metric, config["Group"], config["Job"]);
  }

  /** For a pool of client nodes, it is asked for the nodes of that class. */
  lemma NodesAsked(apms: seq<string>, source: string, op: string, metric: string, config: Config)
    requires source in apms && '_' !in op && '/' !in op && '/' !in metric
    requires !("Job" in config && "Group" in config) && "node_class" in config
    ensures Parse(Canonical(apms, source, op + "_" + metric, Some(config)))
            == Some(ForNodes(op, metric, "class", config["node_class"]))
            <==> op == "percentage-allocated" && (metric == "cpu" || metric == "memory") && '/' !in config["node_class"]
  {
    ShortQueryIs(op, metric);
    NodeRoundTrip(op + "_" + metric, config["node_class"]);
  }

  /** Queries of other sources or targets, and queries that are not short, stay as they are; all others change. */
  lemma OthersUnchanged(apms: seq<string>, source: string, q: string, target: Option<Config>)
    ensures Canonical(apms, source, q, target) != q <==>
            && target.Some? && source in apms && '_' in q && '/' !in q
            && (("Job" in target.value && "Group" in target.value) || "node_class" in target.value)
  {
    var c := Canonical(apms, source, q, target);
    assert IsShortQuery(q) <==> '_' in q && '/' !in q;
    if target.Some? && source in apms && IsShortQuery(q) {
      if "Job" in target.value && "Group" in target.value {
        assert |c| > |q|;
      } else if "node_class" in target.value {
        assert |c| > |q|;
      }
    }
  }

  /** A canonical query is not short any more, so canonicalizing again changes nothing. */
  lemma CanonicalIdempotent(apms: seq<string>, source: string, q: string, target: Option<Config>)
    ensures var c := Canonical(apms, source, q, target); Canonical(apms, source, c, target) == c
  {
    var c := Canonical(apms, source, q, target);
    if c != q {
      if JOB in target.value && GROUP in target.value {
        assert c[|"taskgroup_" + q|] == '/';
      } else {
        assert c[|"node_" + q|] == '/';
      }
    }
  }
}
