/**
 Policies written out as blocks. A draft says what the author of a policy means; its
 document is the nested blocks that Nomad makes of it. The validator accepts exactly the
 drafts that make sense, and the parser reads them back.
 */
module PolicyDrafts {
  import opened Options
  import opened PolicyDocs

  datatype CheckDraft = CheckDraft(
    source: Option<string>,
    query: string,
    window: Option<string>,
    strategy: Option<(string, Fields)>)

  datatype PolicyDraft = PolicyDraft(
    id: string,
    ty: string,
    min: int,
    max: int,
    enabled: Option<bool>,
    target: map<string, string>,
    interval: Option<string>,
    cooldown: Option<string>,
    checks: map<string, CheckDraft>)

  // ---------- The document ----------

  function Optional(key: string, text: Option<string>): Fields {
    if text.Some? then map[key := Str(text.value)] else map[]
  }

  function StrategyDoc(s: Option<(string, Fields)>): seq<Value> {
    if s.Some? then [Block(map[s.value.0 := List([Block(s.value.1)])])] else []
  }

  function CheckDoc(c: CheckDraft): Fields {
    map["query" := Str(c.query), "strategy" := List(StrategyDoc(c.strategy))]
    + Optional("source", c.source) + Optional("query_window", c.window)
  }

  function CheckLabelsOf(checks: map<string, CheckDraft>): Fields {
    map k | k in checks :: List([Block(CheckDoc(checks[k]))])
  }

  /** `items` are the check blocks of the draft, one by one or several together. */
  ghost predicate Spells(items: seq<Value>, d: PolicyDraft) {
    (forall i :: 0 <= i < |items| ==> items[i].Block?) && Flatten(items) == CheckLabelsOf(d.checks)
  }

  function PolicyDoc(d: PolicyDraft, items: seq<Value>): ApiPolicy {
    ApiPolicy(d.id, d.ty, Some(d.min), Some(d.max), d.enabled, Some(d.target),
              Some(map["check" := List(items)] + Optional("evaluation_interval", d.interval) + Optional("cooldown", d.cooldown)))
  }

  // The documents' keys are different strings.
  lemma CheckKeysDiffer()
    ensures QUERY != STRATEGY && QUERY != SOURCE && QUERY != QUERY_WINDOW
    ensures STRATEGY != SOURCE && STRATEGY != QUERY_WINDOW && SOURCE != QUERY_WINDOW
  {
    assert |QUERY| == 5 && |STRATEGY| == 8 && |SOURCE| == 6 && |QUERY_WINDOW| == 12;
  }

  lemma PolicyKeysDiffer()
    ensures CHECKS != EVALUATION_INTERVAL && CHECKS != COOLDOWN && EVALUATION_INTERVAL != COOLDOWN
    ensures TARGET != CHECKS && TARGET != EVALUATION_INTERVAL && TARGET != COOLDOWN
  {
    assert |CHECKS| == 5 && |EVALUATION_INTERVAL| == 19 && |COOLDOWN| == 8 && |TARGET| == 6;
  }

  /** The field holds the text, or is missing. */
  predicate Holds(m: Fields, key: string, text: Option<string>) {
    if text.Some? then key in m && m[key] == Str(text.value) else key !in m
  }

  lemma CheckDocFields(c: CheckDraft)
    ensures Holds(CheckDoc(c), QUERY, Some(c.query)) && Holds(CheckDoc(c), SOURCE, c.source) && Holds(CheckDoc(c), QUERY_WINDOW, c.window)
    ensures STRATEGY in CheckDoc(c) && CheckDoc(c)[STRATEGY] == List(StrategyDoc(c.strategy))
  {
    CheckKeysDiffer();
  }

  lemma PolicyDocFields(d: PolicyDraft, items: seq<Value>)
    ensures var doc := PolicyDoc(d, items).policy.value;
            && CHECKS in doc && doc[CHECKS] == List(items) && TARGET !in doc
            && Holds(doc, EVALUATION_INTERVAL, d.interval) && Holds(doc, COOLDOWN, d.cooldown)
  {
    PolicyKeysDiffer();
  }

  // ---------- What makes sense ----------

  predicate Readable(env: Env, text: Option<string>) {
    text.Some? ==> env.duration(text.value).Some?
  }

  predicate CheckSound(env: Env, c: CheckDraft) {
    c.query != "" && Readable(env, c.window) && (c.strategy.Some? ==> c.strategy.value.0 != "")
  }

  ghost predicate Sound(env: Env, d: PolicyDraft) {
    && d.id != "" && (d.ty == "" || d.ty == "horizontal" || d.ty == "cluster")
    && 0 <= d.min <= d.max && Readable(env, d.interval) && Readable(env, d.cooldown)
    && (forall k :: k in d.checks ==> k != "" && CheckSound(env, d.checks[k]))
  }

  // ---------- The validator ----------

  lemma StrategyLabels(s: Option<(string, Fields)>)
    ensures Labels(List(StrategyDoc(s))) == if s.Some? then map[s.value.0 := List([Block(s.value.1)])] else map[]
  {
    if s.Some? { FlattenOne(map[s.value.0 := List([Block(s.value.1)])]); }
  }

  lemma StrategySound(s: Option<(string, Fields)>)
    ensures BlocksOk(List(StrategyDoc(s)), StrategyOk) <==> (s.Some? ==> s.value.0 != "")
  {
    StrategyLabels(s);
    if s.Some? {
      var labels: Fields := map[s.value.0 := List([Block(s.value.1)])];
      assert labels.Keys == {s.value.0};
      assert |labels| == |labels.Keys| == 1;
      assert s.value.0 in labels;
    }
  }

  lemma CheckSoundIff(env: Env, c: CheckDraft)
    ensures CheckOk(env, CheckDoc(c)) <==> CheckSound(env, c)
    ensures HasQuery(CheckDoc(c))
  {
    CheckDocFields(c);
    StrategySound(c.strategy);
  }

  /** The labels are valid when they are named and the checks under them are. */
  lemma CheckLabelsOkIff(checks: map<string, CheckDraft>, valid: Fields -> bool)
    ensures LabelsOk(CheckLabelsOf(checks), 1, None, valid) <==> forall k :: k in checks ==> k != "" && valid(CheckDoc(checks[k]))
  {
    var labels := CheckLabelsOf(checks);
    assert labels.Keys == checks.Keys;
    if |labels| == 0 {
      assert forall k :: k !in labels;
    }
    forall k | k in checks ensures BlockOk(labels[k], valid) <==> valid(CheckDoc(checks[k])) {
      BlockIs(labels[k], CheckDoc(checks[k]));
    }
  }

  lemma ChecksSound(env: Env, d: PolicyDraft, items: seq<Value>)
    requires Spells(items, d)
    ensures BlocksOk(List(items), CheckLabelsOk(env)) <==> forall k :: k in d.checks ==> k != "" && CheckSound(env, d.checks[k])
  {
    CheckLabelsOkIff(d.checks, c => CheckOk(env, c));
    forall k | k in d.checks ensures CheckOk(env, CheckDoc(d.checks[k])) <==> CheckSound(env, d.checks[k]) {
      CheckSoundIff(env, d.checks[k]);
    }
  }

  lemma QueriesThere(d: PolicyDraft, items: seq<Value>)
    requires Spells(items, d)
    ensures BlocksOk(List(items), QueryLabelsOk) <==> forall k :: k in d.checks ==> k != ""
  {
    CheckLabelsOkIff(d.checks, HasQuery);
    forall k | k in d.checks ensures HasQuery(CheckDoc(d.checks[k])) { CheckDocFields(d.checks[k]); }
  }

  lemma DurationSound(env: Env, m: Fields, key: string, text: Option<string>)
    requires Holds(m, key, text)
    ensures DurationOk(env, m, key) <==> Readable(env, text)
  {
  }

  lemma PolicySound(env: Env, d: PolicyDraft, items: seq<Value>, doc: Fields)
    requires Spells(items, d) && Get(doc, CHECKS) == List(items) && TARGET !in doc
    requires Holds(doc, EVALUATION_INTERVAL, d.interval) && Holds(doc, COOLDOWN, d.cooldown)
    ensures PolicyOk(env, doc) <==>
            && Readable(env, d.interval) && Readable(env, d.cooldown)
            && BlocksOk(List(items), CheckLabelsOk(env))
  {
    DurationSound(env, doc, EVALUATION_INTERVAL, d.interval);
    DurationSound(env, doc, COOLDOWN, d.cooldown);
  }

  /** The validator accepts a written-out draft exactly when it makes sense. */
  lemma ValidatesIffSound(env: Env, d: PolicyDraft, items: seq<Value>)
    requires Spells(items, d)
    ensures Validates(env, PolicyDoc(d, items)) <==> Sound(env, d)
  {
    var p := PolicyDoc(d, items);
    PolicyDocFields(d, items);
    PolicySound(env, d, items, p.policy.value);
    ChecksSound(env, d, items);
    assert HorizontalOk(p) <==> 0 <= d.min <= d.max && forall k :: k in d.checks ==> k != "" by {
      QueriesThere(d, items);
    }
  }

  // ---------- The parser ----------

  /** The check means what the draft says. */
  ghost predicate Means(env: Env, c: Check, draft: CheckDraft) {
    && c.source == (if draft.source.Some? then draft.source.value else "")
    && c.query == draft.query
    && c.window == Duration(env, draft.window)
    && (c.strategy.Some? <==> draft.strategy.Some?)
    && (c.strategy.Some? ==> c.strategy.value.name == draft.strategy.value.0)
    && (c.strategy.Some? ==> c.strategy.value.config == Print(env, draft.strategy.value.1))
  }

  function Duration(env: Env, text: Option<string>): int {
    if text.Some? && env.duration(text.value).Some? then env.duration(text.value).value else 0
  }

  lemma CheckReadBack(env: Env, name: string, draft: CheckDraft, c: Check)
    requires CheckFrom(env, name, CheckDoc(draft), c)
    ensures Means(env, c, draft)
  {
    CheckDocFields(draft);
    StrategyLabels(draft.strategy);
    if draft.strategy.Some? {
      assert draft.strategy.value.0 in Labels(List(StrategyDoc(draft.strategy)));
    }
  }

  /** Parsing a written-out draft gives the draft back: its fields, and one check per label with its meaning. */
  lemma ReadBack(env: Env, d: PolicyDraft, items: seq<Value>, r: Policy)
    requires Spells(items, d) && PolicyFrom(env, PolicyDoc(d, items), r)
    ensures r.id == d.id && r.ty == d.ty && r.min == d.min && r.max == d.max && r.enabled == (d.enabled != Some(false))
    ensures r.interval == Duration(env, d.interval) && r.cooldown == Duration(env, d.cooldown)
    ensures r.target == Some(Target("", d.target))
    ensures Names(r.checks) == d.checks.Keys && |r.checks| == |d.checks|
    ensures forall i :: 0 <= i < |r.checks| ==> r.checks[i].name in d.checks && Means(env, r.checks[i], d.checks[r.checks[i].name])
  {
    PolicyDocFields(d, items);
    ChecksReadBack(env, d.checks, r.checks);
  }

  lemma ReadBackOne(env: Env, drafts: map<string, CheckDraft>, c: Check)
    requires ParsedAs(env, CheckLabelsOf(drafts), c)
    ensures c.name in drafts && Means(env, c, drafts[c.name])
  {
    var draft := drafts[c.name];
    assert ParseBlock(CheckLabelsOf(drafts)[c.name]) == Some(CheckDoc(draft));
    CheckReadBack(env, c.name, draft, c);
  }

  lemma ChecksReadBack(env: Env, drafts: map<string, CheckDraft>, checks: seq<Check>)
    requires ChecksFrom(env, CheckLabelsOf(drafts), CheckLabelsOf(drafts).Keys, checks)
    ensures Names(checks) == drafts.Keys && |checks| == |drafts|
    ensures forall i :: 0 <= i < |checks| ==> checks[i].name in drafts && Means(env, checks[i], drafts[checks[i].name])
  {
    forall i | 0 <= i < |checks| ensures checks[i].name in drafts && Means(env, checks[i], drafts[checks[i].name]) {
      ReadBackOne(env, drafts, checks[i]);
    }
    var labels := CheckLabelsOf(drafts);
    assert labels.Keys == drafts.Keys && |drafts| == |drafts.Keys|;
    NamesReadBack(env, labels, checks);
  }

  lemma NamesReadBack(env: Env, labels: Fields, checks: seq<Check>)
    requires ChecksFrom(env, labels, labels.Keys, checks)
    requires forall k :: k in labels ==> ParseBlock(labels[k]).Some?
    ensures Names(checks) == labels.Keys && |checks| == |labels.Keys|
  {
    forall k | k in labels ensures k in Names(checks) {
      var i :| 0 <= i < |checks| && checks[i].name == k;
    }
    DistinctNames(checks);
  }
}
