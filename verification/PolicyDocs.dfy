/**
 Scaling policies as they come from the Nomad API: untyped nested blocks, a validator
 over them, and a best-effort parser that skips whatever it does not understand.

 `time.ParseDuration` and the formatting of values belong to Go's library and are
 parameters: `Env` says which strings are durations and how a value prints.
 */
module PolicyDocs {
  import opened Options

  /** A decoded `interface{}`; `Scalar` stands for numbers, booleans and the like. */
  datatype Value =
    | Nil
    | Str(text: string)
    | Scalar(tag: int)
    | List(items: seq<Value>)
    | Block(fields: map<string, Value>)

  type Fields = map<string, Value>

  datatype Env = Env(duration: string -> Option<int>, format: Value -> string)

  datatype ApiPolicy = ApiPolicy(
    id: string,
    ty: string,
    min: Option<int>,
    max: Option<int>,
    enabled: Option<bool>,
    target: Option<map<string, string>>,
    policy: Option<Fields>)

  const SOURCE := "source"
  const QUERY := "query"
  const QUERY_WINDOW := "query_window"
  const EVALUATION_INTERVAL := "evaluation_interval"
  const TARGET := "target"
  const CHECKS := "check"
  const STRATEGY := "strategy"
  const COOLDOWN := "cooldown"

  /** Reading a missing key of a Go map gives nil. */
  function Get(m: Fields, key: string): Value {
    if key in m then m[key] else Nil
  }

  // ---------- Blocks ----------

  /** The labels of a list of blocks; a later block overrides an earlier one. */
  function Flatten(items: seq<Value>): (m: Fields) {
    if items == [] then map[]
    else
      var n := |items| - 1;
      Flatten(items[..n]) + FieldsOf(items[n])
  }

  function FieldsOf(v: Value): Fields {
    if v.Block? then v.fields else map[]
  }

  /** A label comes from the last block that has it. */
  lemma {:induction false} FlattenTakesLast(items: seq<Value>, k: string)
    ensures k in Flatten(items) ==>
              exists i :: 0 <= i < |items| && k in FieldsOf(items[i]) && Flatten(items)[k] == FieldsOf(items[i])[k]
                          && forall j :: i < j < |items| ==> k !in FieldsOf(items[j])
    ensures k !in Flatten(items) ==> forall i :: 0 <= i < |items| ==> k !in FieldsOf(items[i])
  {
    if items != [] {
      var n := |items| - 1;
      FlattenTakesLast(items[..n], k);
      if k in Flatten(items) && k !in FieldsOf(items[n]) {
        var i :| 0 <= i < n && k in FieldsOf(items[..n][i]) && Flatten(items[..n])[k] == FieldsOf(items[..n][i])[k]
                 && forall j :: i < j < n ==> k !in FieldsOf(items[..n][j]);
        forall j | i < j < |items| ensures k !in FieldsOf(items[j]) {
          if j < n { assert items[..n][j] == items[j]; }
        }
        assert items[..n][i] == items[i];
      }
      forall i | k !in Flatten(items) && 0 <= i < |items| ensures k !in FieldsOf(items[i]) {
        if i < n { assert items[..n][i] == items[i]; }
      }
    }
  }

  /** The single map that a block must be, as the parser sees it. */
  function ParseBlock(v: Value): (r: Option<Fields>) {
    if v.List? && |v.items| == 1 && v.items[0].Block? then Some(v.items[0].fields) else None
  }

  /** The validator also takes the bare map, which the parser does not. */
  predicate BlockOk(v: Value, valid: Fields -> bool) {
    if v.Block? then valid(v.fields)
    else ParseBlock(v).Some? && valid(ParseBlock(v).value)
  }

  predicate LabelsOk(b: Fields, min: int, max: Option<int>, valid: Fields -> bool) {
    |b| == 0 ||
    (|b| >= min && (max.Some? ==> |b| <= max.value) && forall k :: k in b ==> k != "" && BlockOk(b[k], valid))
  }

  predicate BlocksOk(v: Value, valid: Fields -> bool) {
    v.List? && (forall i :: 0 <= i < |v.items| ==> v.items[i].Block?) && valid(Flatten(v.items))
  }

  /** The loop of `validateBlocks` and `parseBlocks`: skip what is not a map, merge the rest. */
  method MergeBlocks(items: seq<Value>) returns (m: Fields, skipped: nat)
    ensures m == Flatten(items)
    ensures skipped == 0 <==> forall i :: 0 <= i < |items| ==> items[i].Block?
  {
    m, skipped := map[], 0;
    for n := 0 to |items|
      invariant m == Flatten(items[..n])
      invariant skipped == 0 <==> forall i :: 0 <= i < n ==> items[i].Block?
    {
      assert items[..n + 1][..n] == items[..n];
      if !items[n].Block? {
        skipped := skipped + 1;
        continue;
      }
      m := m + items[n].fields;
    }
    assert items[..|items|] == items;
  }

  method ValidateLabeledBlocks(b: Fields, min: int, max: Option<int>, valid: Fields -> bool) returns (errors: nat)
    ensures errors == 0 <==> LabelsOk(b, min, max, valid)
  {
    if |b| == 0 { return 0; }
    if |b| < min { return 1; }
    if max.Some? && |b| > max.value { return 1; }
    errors := 0;
    var todo := b.Keys;
    while todo != {}
      invariant todo <= b.Keys
      invariant errors == 0 <==> forall k :: k in b && k !in todo ==> k != "" && BlockOk(b[k], valid)
      decreases |todo|
    {
      var k :| k in todo;
      todo := todo - {k};
      if k == "" { errors := errors + 1; }
      if !BlockOk(b[k], valid) { errors := errors + 1; }
    }
  }

  /** `validateBlocks` with a validator of labeled blocks, which is what every caller passes. */
  method ValidateBlocks(v: Value, min: int, max: Option<int>, valid: Fields -> bool) returns (errors: nat)
    ensures errors == 0 <==> BlocksOk(v, labels => LabelsOk(labels, min, max, valid))
  {
    if !v.List? { return 1; }
    var labels, skipped := MergeBlocks(v.items);
    var invalid := ValidateLabeledBlocks(labels, min, max, valid);
    errors := skipped + invalid;
  }

  // ---------- The validator ----------

  predicate DurationOk(env: Env, m: Fields, key: string) {
    key in m ==> m[key].Str? && env.duration(m[key].text).Some?
  }

  predicate AnyBlock(m: Fields) {
    true
  }

  predicate StrategyOk(m: Fields) {
    LabelsOk(m, 1, Some(1), AnyBlock)
  }

  predicate CheckOk(env: Env, c: Fields) {
    && (SOURCE in c ==> c[SOURCE].Str?)
    && (QUERY in c ==> c[QUERY].Str? && c[QUERY].text != "")
    && DurationOk(env, c, QUERY_WINDOW)
    && BlocksOk(Get(c, STRATEGY), StrategyOk)
  }

  /** Horizontal and cluster policies also demand a query. */
  predicate HasQuery(c: Fields) {
    QUERY in c
  }

  predicate TargetLabelsOk(m: Fields) {
    LabelsOk(m, 0, Some(1), AnyBlock)
  }

  function CheckLabelsOk(env: Env): Fields -> bool {
    m => LabelsOk(m, 1, None, c => CheckOk(env, c))
  }

  predicate QueryLabelsOk(m: Fields) {
    LabelsOk(m, 1, None, HasQuery)
  }

  predicate PolicyOk(env: Env, p: Fields) {
    && DurationOk(env, p, EVALUATION_INTERVAL)
    && DurationOk(env, p, COOLDOWN)
    && (TARGET in p ==> BlocksOk(p[TARGET], TargetLabelsOk))
    && BlocksOk(Get(p, CHECKS), CheckLabelsOk(env))
  }

  predicate HorizontalOk(p: ApiPolicy) {
    && p.min.Some? && p.max.Some? && 0 <= p.min.value <= p.max.value
    && p.policy.Some? && BlocksOk(Get(p.policy.value, CHECKS), QueryLabelsOk)
  }

  /** `validateScalingPolicy` finds nothing to complain about. */
  predicate Validates(env: Env, p: ApiPolicy) {
    && p.id != "" && p.target.Some?
    && p.policy.Some? && PolicyOk(env, p.policy.value)
    && (p.ty == "horizontal" || p.ty == "" || p.ty == "cluster")
    && HorizontalOk(p)
  }

  method ValidatePolicy(env: Env, doc: Option<Fields>) returns (errors: nat)
    ensures errors == 0 <==> doc.Some? && PolicyOk(env, doc.value)
  {
    if doc.None? { return 1; }
    var p := doc.value;
    errors := 0;
    if EVALUATION_INTERVAL in p && !DurationOk(env, p, EVALUATION_INTERVAL) { errors := errors + 1; }
    if COOLDOWN in p && !DurationOk(env, p, COOLDOWN) { errors := errors + 1; }
    if TARGET in p {
      var e := ValidateBlocks(p[TARGET], 0, Some(1), AnyBlock);
      errors := errors + e;
    }
    var e := ValidateBlocks(Get(p, CHECKS), 1, None, c => CheckOk(env, c));
    errors := errors + e;
  }

  method ValidateHorizontalPolicy(p: ApiPolicy) returns (errors: nat)
    ensures errors == 0 <==> HorizontalOk(p)
  {
    errors := 0;
    if p.min.None? {
      errors := errors + 1;
    } else if p.max.None? {
      errors := errors + 1;
    } else {
      var min := p.min.value;
      if min < 0 { errors := errors + 1; }
      if min > p.max.value { errors := errors + 1; }
      if p.max.value < 0 { errors := errors + 1; }
    }
    var e := ValidateBlocks(if p.policy.Some? then Get(p.policy.value, CHECKS) else Nil, 1, None, HasQuery);
    errors := errors + e;
  }

  /** A nil policy is an error; an unknown type is one too. */
  method ValidateScalingPolicy(env: Env, policy: Option<ApiPolicy>) returns (errors: nat)
    ensures errors == 0 <==> policy.Some? && Validates(env, policy.value)
  {
    if policy.None? { return 1; }
    var p := policy.value;
    errors := 0;
    if p.id == "" { errors := errors + 1; }
    if p.target.None? { errors := errors + 1; }
    var e := ValidatePolicy(env, p.policy);
    errors := errors + e;
    if p.ty == "horizontal" || p.ty == "" || p.ty == "cluster" {
      e := ValidateHorizontalPolicy(p);
      errors := errors + e;
    } else {
      errors := errors + 1;
    }
  }

  // ---------- The parser ----------

  datatype Strategy = Strategy(name: string, config: map<string, string>)

  datatype Check = Check(name: string, source: string, query: string, window: int, strategy: Option<Strategy>)

  datatype Target = Target(name: string, config: map<string, string>)

  datatype Policy = Policy(
    id: string,
    ty: string,
    min: int,
    max: int,
    enabled: bool,
    interval: int,
    cooldown: int,
    checks: seq<Check>,
    target: Option<Target>)

  function Print(env: Env, m: Fields): map<string, string> {
    map k | k in m :: env.format(m[k])
  }

  function TextAt(m: Fields, key: string): string {
    if Get(m, key).Str? then Get(m, key).text else ""
  }

  /** A duration field; anything unreadable silently becomes zero. */
  function DurationAt(env: Env, m: Fields, key: string): int {
    if Get(m, key).Str? && env.duration(Get(m, key).text).Some? then env.duration(Get(m, key).text).value else 0
  }

  function Labels(v: Value): Fields {
    if v.List? then Flatten(v.items) else map[]
  }

  /** `s` is the strategy under one of the labels that hold a block; there is none only if no label does. */
  predicate StrategyFrom(env: Env, labels: Fields, s: Option<Strategy>) {
    match s
    case None => forall k :: k in labels ==> ParseBlock(labels[k]).None?
    case Some(x) => x.name in labels && ParseBlock(labels[x.name]).Some? && x.config == Print(env, ParseBlock(labels[x.name]).value)
  }

  predicate CheckFrom(env: Env, name: string, c: Fields, r: Check) {
    && r.name == name && r.source == TextAt(c, SOURCE) && r.query == TextAt(c, QUERY)
    && r.window == DurationAt(env, c, QUERY_WINDOW)
    && StrategyFrom(env, Labels(Get(c, STRATEGY)), r.strategy)
  }

  method ParseBlocks(v: Value) returns (m: Fields)
    ensures m == Labels(v)
  {
    if !v.List? { return map[]; }
    var skipped;
    m, skipped := MergeBlocks(v.items);
  }

  method ParseCheck(env: Env, name: string, v: Value) returns (r: Option<Check>)
    ensures r.Some? <==> ParseBlock(v).Some?
    ensures r.Some? ==> CheckFrom(env, name, ParseBlock(v).value, r.value)
  {
    var block := ParseBlock(v);
    if block.None? { return None; }
    var c := block.value;
    var labels := ParseBlocks(Get(c, STRATEGY));
    var strategy: Option<Strategy> := None;
    var todo := labels.Keys;
    while todo != {}
      invariant todo <= labels.Keys && strategy == None
      invariant forall k :: k in labels && k !in todo ==> ParseBlock(labels[k]).None?
      decreases |todo|
    {
      var k :| k in todo;
      todo := todo - {k};
      var s := ParseBlock(labels[k]);
      if s.Some? {
        strategy := Some(Strategy(k, Print(env, s.value)));
        break;
      }
    }
    return Some(Check(name, TextAt(c, SOURCE), TextAt(c, QUERY), DurationAt(env, c, QUERY_WINDOW), strategy));
  }

  predicate ParsedAs(env: Env, labels: Fields, c: Check) {
    && c.name in labels && ParseBlock(labels[c.name]).Some?
    && CheckFrom(env, c.name, ParseBlock(labels[c.name]).value, c)
  }

  /** `checks` are the parsed blocks of `labels`, one for each label that holds a block, in any order. */
  ghost predicate ChecksFrom(env: Env, labels: Fields, done: set<string>, checks: seq<Check>) {
    && (forall i :: 0 <= i < |checks| ==> checks[i].name in done && ParsedAs(env, labels, checks[i]))
    && (forall k :: k in done && k in labels && ParseBlock(labels[k]).Some? ==>
          exists i :: 0 <= i < |checks| && checks[i].name == k)
    && (forall i, j :: 0 <= i < j < |checks| ==> checks[i].name != checks[j].name)
  }

  lemma OneMoreCheck(env: Env, labels: Fields, done: set<string>, checks: seq<Check>, k: string, r: Option<Check>)
    requires ChecksFrom(env, labels, done, checks) && k in labels && k !in done
    requires r.Some? <==> ParseBlock(labels[k]).Some?
    requires r.Some? ==> CheckFrom(env, k, ParseBlock(labels[k]).value, r.value)
    ensures ChecksFrom(env, labels, done + {k}, if r.Some? then checks + [r.value] else checks)
  {
    if r.Some? {
      var more := checks + [r.value];
      forall x | x in done + {k} && x in labels && ParseBlock(labels[x]).Some?
        ensures exists i :: 0 <= i < |more| && more[i].name == x
      {
        if x == k {
          assert more[|checks|].name == x;
        } else {
          var i :| 0 <= i < |checks| && checks[i].name == x;
          assert more[i].name == x;
        }
      }
    }
  }

  /** Ranging over a map takes its labels in any order. */
  method NextLabel(labels: Fields, ghost done: set<string>, todo: set<string>) returns (k: string, rest: set<string>)
    requires todo == labels.Keys - done && todo != {}
    ensures k in labels && k !in done && rest == labels.Keys - (done + {k}) && |rest| < |todo|
  {
    k :| k in todo;
    rest := todo - {k};
  }

  /** One round of the loop over the labels. */
  method AppendCheck(env: Env, labels: Fields, ghost done: set<string>, checks: seq<Check>, k: string) returns (more: seq<Check>)
    requires ChecksFrom(env, labels, done, checks) && k in labels && k !in done
    ensures ChecksFrom(env, labels, done + {k}, more)
  {
    var r := ParseCheck(env, k, labels[k]);
    OneMoreCheck(env, labels, done, checks, k, r);
    more := if r.Some? then checks + [r.value] else checks;
  }

  method ParseChecks(env: Env, v: Value) returns (checks: seq<Check>)
    ensures ChecksFrom(env, Labels(v), Labels(v).Keys, checks)
  {
    var labels := ParseBlocks(v);
    checks := [];
    var todo := labels.Keys;
    ghost var done := {};
    while todo != {}
      invariant done <= labels.Keys && todo == labels.Keys - done
      invariant ChecksFrom(env, labels, done, checks)
      decreases |todo|
    {
      var k;
      k, todo := NextLabel(labels, done, todo);
      checks := AppendCheck(env, labels, done, checks, k);
      done := done + {k};
    }
    assert done == labels.Keys;
  }

  predicate TargetFrom(env: Env, labels: Fields, attr: Option<map<string, string>>, t: Option<Target>) {
    match t
    case None => forall k :: k in labels ==> ParseTarget(env, labels[k], attr).None?
    case Some(x) => x.name in labels && ParseTarget(env, labels[x.name], attr) == Some(x.config)
  }

  /** Values of the target block take precedence over the policy's own target attributes. */
  function ParseTarget(env: Env, v: Value, attr: Option<map<string, string>>): (config: Option<map<string, string>>) {
    var block := ParseBlock(v);
    if block.None? && attr.None? then None
    else Some((if attr.Some? then attr.value else map[]) + (if block.Some? then Print(env, block.value) else map[]))
  }

  method PickTarget(env: Env, labels: Fields, attr: Option<map<string, string>>) returns (t: Option<Target>)
    ensures TargetFrom(env, labels, attr, t)
  {
    var todo := labels.Keys;
    while todo != {}
      invariant todo <= labels.Keys
      invariant forall k :: k in labels && k !in todo ==> ParseTarget(env, labels[k], attr).None?
      decreases |todo|
    {
      var k :| k in todo;
      todo := todo - {k};
      var config := ParseTarget(env, labels[k], attr);
      if config.Some? { return Some(Target(k, config.value)); }
    }
    return None;
  }

  function Document(p: ApiPolicy): Fields {
    if p.policy.Some? then p.policy.value else map[]
  }

  /** `r` is what a policy parses to: missing fields have defaults, unreadable ones are skipped. */
  ghost predicate PolicyFrom(env: Env, p: ApiPolicy, r: Policy)
    requires p.max.Some?
  {
    var doc := Document(p);
    && r.id == p.id && r.ty == p.ty && r.enabled == (p.enabled.Some? ==> p.enabled.value)
    && r.max == p.max.value && r.min == (if p.min.Some? then p.min.value else 0)
    && r.interval == DurationAt(env, doc, EVALUATION_INTERVAL) && r.cooldown == DurationAt(env, doc, COOLDOWN)
    && ChecksFrom(env, Labels(Get(doc, CHECKS)), Labels(Get(doc, CHECKS)).Keys, r.checks)
    && (if Get(doc, TARGET).Nil? then r.target == if p.target.None? then None else Some(Target("", p.target.value))
        else TargetFrom(env, Labels(Get(doc, TARGET)), p.target, r.target))
  }

  /** `parsePolicy`: nil gives the zero policy, and Max is read without checking that it is there. */
  method ParsePolicy(env: Env, policy: Option<ApiPolicy>) returns (r: Policy)
    requires policy.Some? ==> policy.value.max.Some?
    ensures if policy.Some? then PolicyFrom(env, policy.value, r)
            else r == Policy("", "", 0, 0, false, 0, 0, [], None)
  {
    if policy.None? { return Policy("", "", 0, 0, false, 0, 0, [], None); }
    var p := policy.value;
    var doc := Document(p);
    var checks := ParseChecks(env, Get(doc, CHECKS));
    var min, enabled := 0, true;
    if p.min.Some? { min := p.min.value; }
    if p.enabled.Some? { enabled := p.enabled.value; }
    var target: Option<Target>;
    if Get(doc, TARGET).Nil? {
      var config := ParseTarget(env, Nil, p.target);
      target := if config.None? then None else Some(Target("", config.value));
      assert p.target.Some? ==> p.target.value + map[] == p.target.value;
    } else {
      var labels := ParseBlocks(Get(doc, TARGET));
      target := PickTarget(env, labels, p.target);
    }
    r := Policy(p.id, p.ty, min, p.max.value, enabled,
                DurationAt(env, doc, EVALUATION_INTERVAL), DurationAt(env, doc, COOLDOWN), checks, target);
  }

  // ---------- What the parser reads, key by key ----------

  /** A block is a list of exactly one map. */
  lemma BlockIs(v: Value, m: Fields)
    ensures ParseBlock(v) == Some(m) <==> v == List([Block(m)])
  {
    if ParseBlock(v) == Some(m) { assert v.items == [Block(m)]; }
  }

  /** A strategy's configuration has the block's keys with their values printed. */
  lemma StrategyConfig(env: Env, labels: Fields, s: Strategy, m: Fields, key: string)
    requires StrategyFrom(env, labels, Some(s)) && labels[s.name] == List([Block(m)])
    ensures key in s.config <==> key in m
    ensures key in m ==> s.config[key] == env.format(m[key])
  {
  }

  /** A target's configuration: the block's value wins over the policy's own attribute. */
  lemma TargetConfig(env: Env, m: Fields, attr: map<string, string>, key: string)
    ensures ParseTarget(env, List([Block(m)]), Some(attr)).Some? && ParseTarget(env, List([Block(m)]), None).Some?
    ensures var c := ParseTarget(env, List([Block(m)]), Some(attr)).value;
            if key in m then key in c && c[key] == env.format(m[key])
            else if key in attr then key in c && c[key] == attr[key]
            else key !in c
    ensures var c := ParseTarget(env, List([Block(m)]), None).value;
            key in c <==> key in m && c[key] == env.format(m[key])
  {
  }

  /** Without a block the attributes stand alone; without both there is no target. */
  lemma TargetWithoutBlock(env: Env, v: Value, attr: Option<map<string, string>>)
    requires forall m :: v != List([Block(m)])
    ensures ParseTarget(env, v, attr) == attr
  {
    if ParseBlock(v).Some? { BlockIs(v, ParseBlock(v).value); }
    assert attr.Some? ==> attr.value + map[] == attr.value;
  }

  /** Missing and unreadable fields are empty and zero. */
  lemma FieldDefaults(env: Env, m: Fields, key: string)
    ensures (forall text :: !(key in m && m[key] == Str(text))) ==> TextAt(m, key) == "" && DurationAt(env, m, key) == 0
    ensures forall text :: key in m && m[key] == Str(text) ==>
              TextAt(m, key) == text && DurationAt(env, m, key) == (if env.duration(text).Some? then env.duration(text).value else 0)
  {
    if Get(m, key).Str? { assert key in m && m[key] == Str(m[key].text); }
  }

  // ---------- Agreement ----------

  /** No duration field of the block is one that the parser would silently read as zero. */
  predicate DurationRead(env: Env, m: Fields, key: string) {
    key in m ==> m[key].Str? && env.duration(m[key].text) == Some(DurationAt(env, m, key))
  }

  /** A validated policy has limits and readable durations. */
  lemma ValidLimits(env: Env, p: ApiPolicy)
    requires Validates(env, p)
    ensures p.max.Some? && p.min.Some? && 0 <= p.min.value <= p.max.value
    ensures DurationRead(env, p.policy.value, EVALUATION_INTERVAL) && DurationRead(env, p.policy.value, COOLDOWN)
  {
  }

  ghost function CheckLabels(p: ApiPolicy): Fields
    requires p.policy.Some?
  {
    Labels(Get(p.policy.value, CHECKS))
  }

  /** Each label of a validated policy holds a check with a query, a readable window and at most one strategy. */
  lemma ValidCheck(env: Env, p: ApiPolicy, k: string)
    requires Validates(env, p) && k in CheckLabels(p) && ParseBlock(CheckLabels(p)[k]).Some?
    ensures var c := ParseBlock(CheckLabels(p)[k]).value;
            && k != "" && TextAt(c, QUERY) != "" && DurationRead(env, c, QUERY_WINDOW)
            && (SOURCE in c ==> c[SOURCE] == Str(TextAt(c, SOURCE)))
            && Get(c, STRATEGY).List? && |Labels(Get(c, STRATEGY))| <= 1
  {
    var labels := CheckLabels(p);
    assert LabelsOk(labels, 1, None, c => CheckOk(env, c));
    assert LabelsOk(labels, 1, None, HasQuery);
    assert |labels| != 0;
  }

  /** A target of a validated policy is a list with at most one label, named and holding one map. */
  lemma ValidTarget(env: Env, p: ApiPolicy, k: string)
    requires Validates(env, p) && TARGET in p.policy.value
    ensures var v := p.policy.value[TARGET];
            && v.List? && |Labels(v)| <= 1
            && (k in Labels(v) ==> k != "" && exists m :: Labels(v)[k] == Block(m) || Labels(v)[k] == List([Block(m)]))
  {
    var labels := Labels(p.policy.value[TARGET]);
    if k in labels {
      assert |labels| != 0 && BlockOk(labels[k], AnyBlock);
      var m := if labels[k].Block? then labels[k].fields else ParseBlock(labels[k]).value;
      BlockIs(labels[k], m);
      assert labels[k] == Block(m) || labels[k] == List([Block(m)]);
    }
  }

  /** Exactly the labels whose block is list-shaped become checks; a bare map passes validation and is lost. */
  lemma ChecksAgree(env: Env, p: ApiPolicy, checks: seq<Check>)
    requires Validates(env, p) && ChecksFrom(env, CheckLabels(p), CheckLabels(p).Keys, checks)
    ensures forall k :: k in CheckLabels(p) ==>
              ((exists i :: 0 <= i < |checks| && checks[i].name == k) <==> CheckLabels(p)[k].List?)
    ensures forall i :: 0 <= i < |checks| ==> checks[i].query != "" && checks[i].name in CheckLabels(p)
  {
    var labels := CheckLabels(p);
    forall k | k in labels ensures (exists i :: 0 <= i < |checks| && checks[i].name == k) <==> labels[k].List? {
      assert LabelsOk(labels, 1, None, HasQuery);
      assert |labels| != 0 && BlockOk(labels[k], HasQuery);
    }
    forall i | 0 <= i < |checks| ensures checks[i].query != "" {
      ValidCheck(env, p, checks[i].name);
    }
  }

  ghost function Names(checks: seq<Check>): set<string> {
    set i | 0 <= i < |checks| :: checks[i].name
  }

  lemma NamesSplit(checks: seq<Check>)
    requires checks != []
    ensures var n := |checks| - 1; Names(checks) == Names(checks[..n]) + {checks[n].name}
  {
    var n := |checks| - 1;
    assert checks == checks[..n] + [checks[n]];
    forall x | x in Names(checks[..n]) ensures x in Names(checks) {
      var i :| 0 <= i < n && checks[..n][i].name == x;
      assert checks[i].name == x;
    }
    forall x | x in Names(checks) ensures x in Names(checks[..n]) + {checks[n].name} {
      var i :| 0 <= i < |checks| && checks[i].name == x;
      if i < n { assert checks[..n][i].name == x; }
    }
  }

  lemma {:induction false} DistinctNames(checks: seq<Check>)
    requires forall i, j :: 0 <= i < j < |checks| ==> checks[i].name != checks[j].name
    ensures |Names(checks)| == |checks|
  {
    if checks != [] {
      var n := |checks| - 1;
      DistinctNames(checks[..n]);
      NamesSplit(checks);
      assert checks[n].name !in Names(checks[..n]);
    }
  }

  lemma CountByNames(labels: Fields, checks: seq<Check>)
    requires forall i, j :: 0 <= i < j < |checks| ==> checks[i].name != checks[j].name
    requires forall i :: 0 <= i < |checks| ==> checks[i].name in labels
    requires forall k :: k in labels ==> ((exists i :: 0 <= i < |checks| && checks[i].name == k) <==> labels[k].List?)
    ensures |checks| == |labels| <==> forall k :: k in labels ==> labels[k].List?
  {
    DistinctNames(checks);
    var names := Names(checks);
    SubsetSize(names, labels.Keys);
    assert forall k :: k in labels ==> (k in names <==> labels[k].List?);
    if forall k :: k in labels ==> labels[k].List? { assert names == labels.Keys; }
  }

  /** A validated policy has one check per label exactly when every check block is list-shaped. */
  lemma CheckCount(env: Env, p: ApiPolicy, checks: seq<Check>)
    requires Validates(env, p) && ChecksFrom(env, CheckLabels(p), CheckLabels(p).Keys, checks)
    ensures |checks| == |CheckLabels(p)| <==> forall k :: k in CheckLabels(p) ==> CheckLabels(p)[k].List?
  {
    ChecksAgree(env, p, checks);
    CountByNames(CheckLabels(p), checks);
  }

  /** A validated policy has no checks exactly when every label, if there is any, holds a bare map. */
  lemma NoChecks(env: Env, p: ApiPolicy, checks: seq<Check>)
    requires Validates(env, p) && ChecksFrom(env, CheckLabels(p), CheckLabels(p).Keys, checks)
    ensures checks == [] <==> forall k :: k in CheckLabels(p) ==> CheckLabels(p)[k].Block?
  {
    var labels := CheckLabels(p);
    ChecksAgree(env, p, checks);
    assert LabelsOk(labels, 1, None, HasQuery);
    forall k | k in labels ensures labels[k].Block? || labels[k].List? {
      assert |labels| != 0 && BlockOk(labels[k], HasQuery);
    }
    if checks != [] { assert checks[0].name == checks[0].name; }
  }

  function Sample(checks: seq<Value>): ApiPolicy {
    ApiPolicy("id", "horizontal", Some(1), Some(9), None, Some(map[]), Some(map[CHECKS := List(checks)]))
  }

  const CHECK: Fields := map[QUERY := Str("avg_cpu"), STRATEGY := List([])]

  const TWO_CHECKS: Fields := map["kept" := List([Block(CHECK)]), "lost" := Block(CHECK)]

  lemma FlattenOne(m: Fields)
    ensures Flatten([Block(m)]) == m
  {
    assert [Block(m)][..0] == [] && Flatten([]) == map[];
  }

  lemma TwoLabelsOk(valid: Fields -> bool)
    requires valid(CHECK)
    ensures LabelsOk(TWO_CHECKS, 1, None, valid)
  {
    assert TWO_CHECKS.Keys == {"kept", "lost"};
  }

  lemma TwoChecksValidate(env: Env)
    ensures Validates(env, Sample([Block(TWO_CHECKS)])) && CheckLabels(Sample([Block(TWO_CHECKS)])) == TWO_CHECKS
  {
    FlattenOne(TWO_CHECKS);
    TwoLabelsOk(c => CheckOk(env, c));
    TwoLabelsOk(HasQuery);
  }

  /** Of two checks that pass validation, the bare map is lost, and the other has no strategy. */
  lemma BareMapLost(env: Env, checks: seq<Check>)
    requires ChecksFrom(env, TWO_CHECKS, TWO_CHECKS.Keys, checks)
    ensures Validates(env, Sample([Block(TWO_CHECKS)])) && CheckLabels(Sample([Block(TWO_CHECKS)])) == TWO_CHECKS
    ensures |checks| == 1 && checks[0].name == "kept" && checks[0].strategy.None?
  {
    TwoChecksValidate(env);
    ChecksAgree(env, Sample([Block(TWO_CHECKS)]), checks);
    assert TWO_CHECKS["kept"].List?;
    assert Names(checks) == {"kept"};
    DistinctNames(checks);
    assert ParsedAs(env, TWO_CHECKS, checks[0]) && Labels(CHECK[STRATEGY]) == map[];
  }

  /** A policy without any check block passes validation. */
  lemma NoCheckNeeded(env: Env, checks: seq<Check>)
    requires ChecksFrom(env, CheckLabels(Sample([])), CheckLabels(Sample([])).Keys, checks)
    ensures Validates(env, Sample([])) && checks == []
  {
    NoChecks(env, Sample([]), checks);
  }

  lemma SubsetSize(a: set<string>, b: set<string>)
    requires a <= b
    ensures |a| <= |b| && (|a| == |b| ==> a == b)
  {
    assert |b| == |a| + |b - a| by { assert b == a + (b - a); }
  }

  /** A check has a strategy exactly when its strategy label, if any, holds a list-shaped block. */
  lemma StrategyAgrees(env: Env, p: ApiPolicy, checks: seq<Check>, i: nat)
    requires Validates(env, p) && ChecksFrom(env, CheckLabels(p), CheckLabels(p).Keys, checks) && i < |checks|
    ensures var c := ParseBlock(CheckLabels(p)[checks[i].name]).value;
            var labels := Labels(Get(c, STRATEGY));
            && (checks[i].strategy.Some? <==> exists k :: k in labels && labels[k].List?)
            && ((forall k :: k in labels ==> labels[k].List?) ==> (checks[i].strategy.Some? <==> labels != map[]))
  {
    var checkLabels := CheckLabels(p);
    var c := ParseBlock(checkLabels[checks[i].name]).value;
    assert LabelsOk(checkLabels, 1, None, c => CheckOk(env, c)) && |checkLabels| != 0;
    assert CheckOk(env, c);
    var labels := Labels(Get(c, STRATEGY));
    assert StrategyOk(labels);
    assert labels != map[] ==> |labels| != 0;
    forall k | k in labels ensures ParseBlock(labels[k]).Some? <==> labels[k].List? {
      assert |labels| != 0 && BlockOk(labels[k], AnyBlock);
    }
  }

  /** A validated policy has a target unless it has a target list without labels. */
  lemma TargetAgrees(env: Env, p: ApiPolicy, t: Option<Target>)
    requires Validates(env, p)
    requires var v := Get(p.policy.value, TARGET);
             if v.Nil? then t == Some(Target("", p.target.value)) else TargetFrom(env, Labels(v), p.target, t)
    ensures var v := Get(p.policy.value, TARGET);
            t.Some? <==> v.Nil? || Labels(v) != map[]
  {
    var v := Get(p.policy.value, TARGET);
    if !v.Nil? {
      assert forall k :: k in Labels(v) ==> ParseTarget(env, Labels(v)[k], p.target).Some?;
    }
  }

  const TARGET_LIST := Sample([]).(policy := Some(map[CHECKS := List([]), TARGET := List([])]))

  /** A policy with an empty target list passes validation and has no target. */
  lemma TargetLost(env: Env, t: Option<Target>)
    requires TargetFrom(env, Labels(Get(TARGET_LIST.policy.value, TARGET)), TARGET_LIST.target, t)
    ensures Validates(env, TARGET_LIST) && t.None?
  {
    TargetAgrees(env, TARGET_LIST, t);
  }
}
