/** The performance decision engine: it checks a publication's latest metrics
    snapshot against the active threshold rules, grades each triggered rule by
    how far the metric is from its threshold, and records a recommendation per
    (publication, rule) pair unless an unresolved one is already there. It
    also resolves recommendations, lists them, and counts them per campaign. */
module DecisionEngine {
  import opened Wrappers
  import opened Tables
  import Sorting
  import Strings

  // ---------------------------------------------------------------------
  // evaluateRule

  /** Where a value lies relative to a threshold. */
  datatype Order = Below | Equal | Above

  function Compare(v: real, t: real): Order
  {
    if v < t then Below else if v == t then Equal else Above
  }

  /** The orders each known operator accepts; an unknown operator accepts none. */
  function AcceptedOrders(op: string): set<Order>
  {
    if op == "<" then {Below}
    else if op == "<=" then {Below, Equal}
    else if op == ">" then {Above}
    else if op == ">=" then {Equal, Above}
    else if op == "==" || op == "=" then {Equal}
    else if op == "!=" then {Below, Above}
    else {}
  }

  /** A rule fires only when its metric is present and the value stands in
      one of the orders its operator accepts. */
  function EvaluateRule(snap: Snapshot, rule: Rule): (triggered: bool)
    ensures triggered ==> rule.metric in snap
    ensures rule.metric in snap ==>
      (triggered <==> Compare(snap[rule.metric], rule.threshold) in AcceptedOrders(rule.operator))
  {
    if rule.metric !in snap then false
    else
      var v, t := snap[rule.metric], rule.threshold;
      if rule.operator == "<" then v < t
      else if rule.operator == "<=" then v <= t
      else if rule.operator == ">" then v > t
      else if rule.operator == ">=" then v >= t
      else if rule.operator == "==" || rule.operator == "=" then v == t
      else if rule.operator == "!=" then v != t
      else false
  }

  // ---------------------------------------------------------------------
  // calculateSeverity

  function Abs(x: real): real { if x < 0.0 then -x else x }

  /** The value of `|v - t| / t * 100` in IEEE arithmetic: a finite number,
      +Infinity (a non-zero distance over a zero threshold) or NaN (0 / 0, or
      a missing metric). */
  datatype Percent = Finite(value: real) | Infinite | NotANumber

  function Percentage(value: Option<real>, threshold: real): (p: Percent)
    ensures value.None? ==> p.NotANumber?
    ensures value.Some? && threshold != 0.0 ==>
      p.Finite? && p.value * threshold == Abs(value.value - threshold) * 100.0
    ensures value.Some? && threshold == 0.0 ==> (p.Infinite? <==> value.value != 0.0)
  {
    match value
    case None => NotANumber
    case Some(v) =>
      var diff := Abs(v - threshold);
      if threshold != 0.0 then Finite(diff / threshold * 100.0)
      else if diff == 0.0 then NotANumber
      else Infinite
  }

  /** `p > bound` in IEEE arithmetic: Infinity exceeds every bound, NaN none. */
  predicate Exceeds(p: Percent, bound: real)
  {
    match p
    case Finite(x) => x > bound
    case Infinite => true
    case NotANumber => false
  }

  /** The severity of a triggered rule: priority-1 rules grade critical, high
      or medium; every other priority one step lower. */
  function CalculateSeverity(snap: Snapshot, rule: Rule): (s: Severity)
    ensures rule.priority == 1 ==> s != Low
    ensures rule.priority != 1 ==> s != Critical
  {
    var p := Percentage(if rule.metric in snap then Some(snap[rule.metric]) else None, rule.threshold);
    if rule.priority == 1 then
      if Exceeds(p, 50.0) then Critical else if Exceeds(p, 25.0) then High else Medium
    else
      if Exceeds(p, 50.0) then High else if Exceeds(p, 25.0) then Medium else Low
  }

  /** The position of a severity in the listing order. */
  function Rank(s: Severity): nat
  {
    match s
    case Critical => 1
    case High => 2
    case Medium => 3
    case Low => 4
  }

  /** For a positive threshold, the severity band is fixed by comparing the
      distance with a quarter and a half of the threshold, without division:
      a distance of exactly half the threshold is not yet in the top band. */
  lemma SeverityBands(snap: Snapshot, rule: Rule)
    requires rule.threshold > 0.0 && rule.metric in snap
    ensures var d, t := Abs(snap[rule.metric] - rule.threshold), rule.threshold;
      Rank(CalculateSeverity(snap, rule))
        == (if rule.priority == 1 then 0 else 1)
         + (if d * 2.0 > t then 1 else if d * 4.0 > t then 2 else 3)
  {
    var d, t := Abs(snap[rule.metric] - rule.threshold), rule.threshold;
    var p := d / t * 100.0;
    assert p * t == d * 100.0;
    BandStep(p, t, d, 50.0, 2.0);
    BandStep(p, t, d, 25.0, 4.0);
  }

  /** `p > bound` is `d * k > t` when `p * t == d * 100` and `bound * k == 100`. */
  lemma BandStep(p: real, t: real, d: real, bound: real, k: real)
    requires t > 0.0 && p * t == d * 100.0 && bound * k == 100.0 && k > 0.0
    ensures p > bound <==> d * k > t
  {
    assert (p - bound) * t * k == (d * k - t) * 100.0;
    if p > bound {
      assert (p - bound) * t > 0.0;
    } else {
      assert (p - bound) * t <= 0.0;
    }
  }

  /** A metric further from a positive threshold is never graded lower. */
  lemma SeverityMonotone(rule: Rule, v1: real, v2: real)
    requires rule.threshold > 0.0
    requires Abs(v1 - rule.threshold) <= Abs(v2 - rule.threshold)
    ensures Rank(CalculateSeverity(map[rule.metric := v2], rule))
         <= Rank(CalculateSeverity(map[rule.metric := v1], rule))
  {
    SeverityBands(map[rule.metric := v1], rule);
    SeverityBands(map[rule.metric := v2], rule);
  }

  /** For the same metric and threshold, a rule of any other priority is
      graded exactly one step below a priority-1 rule, on every input
      (including a zero threshold and a missing metric). */
  lemma SeverityPriorityShift(snap: Snapshot, r1: Rule, r2: Rule)
    requires r1.metric == r2.metric && r1.threshold == r2.threshold
    requires r1.priority == 1 && r2.priority != 1
    ensures Rank(CalculateSeverity(snap, r2)) == Rank(CalculateSeverity(snap, r1)) + 1
  {
  }

  // ---------------------------------------------------------------------
  // Display tables and the message

  const MetricNames: map<string, string> := map[
    "vtr" := "VTR (View Through Rate)",
    "ctr" := "CTR (Click Through Rate)",
    "cpm" := "CPM (Cost Per Mille)",
    "cpc" := "CPC (Cost Per Click)",
    "cpa" := "CPA (Cost Per Acquisition)",
    "roas" := "ROAS (Return on Ad Spend)",
    "engagement_rate" := "Engagement Rate",
    "impressions" := "Impresiones",
    "views" := "Visualizaciones",
    "clicks" := "Clicks",
    "conversions" := "Conversiones"]

  const MetricUnits: map<string, string> := map[
    "vtr" := "%",
    "ctr" := "%",
    "engagement_rate" := "%",
    "cpm" := "$",
    "cpc" := "$",
    "cpa" := "$",
    "roas" := "x"]

  const ActionDescriptions: map<string, string> := map[
    "change_creative" := "Cambiar el creativo de la publicación por uno nuevo que capture mejor la atención",
    "optimize_targeting" := "Optimizar la segmentación de audiencia, revisar demografía, intereses y comportamientos",
    "reduce_budget" := "Reducir el presupuesto diario o pausar la publicación hasta optimizarla",
    "review_strategy" := "Revisar la estrategia completa: objetivo, audiencia, mensaje y canal",
    "change_format" := "Cambiar el formato de la publicación (ej: de imagen a video, de carousel a stories)",
    "adjust_bid" := "Ajustar la estrategia de puja (manual, automática, CPC, CPM)",
    "scale_budget" := "Incrementar el presupuesto para maximizar resultados de esta publicación exitosa",
    "duplicate_campaign" := "Duplicar esta campaña exitosa para expandir alcance manteniendo la fórmula ganadora",
    "test_ab" := "Crear variaciones A/B test para validar mejoras",
    "expand_audience" := "Expandir la audiencia a segmentos similares (lookalike)",
    "pause_publication" := "Pausar temporalmente hasta implementar mejoras"]

  const DefaultAction: string := "Revisar y optimizar"

  /** What the engine renders with: its three display tables, `toFixed(2)`
      for the metric and the default number-to-string conversion for the
      threshold. The engine's own tables are the constants above
      (`EngineTables`); the number renderers are left abstract. */
  datatype Rendering = Rendering(
    names: map<string, string>,
    units: map<string, string>,
    actions: map<string, string>,
    fixed2: real -> string,
    show: real -> string)

  predicate EngineTables(fmt: Rendering)
  {
    fmt.names == MetricNames && fmt.units == MetricUnits && fmt.actions == ActionDescriptions
  }

  /** `metricNames[metric] || metric`; every entry of the tables is
      non-empty, so the fallback is taken exactly when the key is missing. */
  function MetricDisplayName(fmt: Rendering, metric: string): (name: string)
    ensures metric in fmt.names ==> name == fmt.names[metric]
    ensures metric !in fmt.names ==> name == metric
  {
    if metric in fmt.names then fmt.names[metric] else metric
  }

  /** `units[metric] || ''`. */
  function MetricUnit(fmt: Rendering, metric: string): (unit: string)
    ensures metric in fmt.units ==> unit == fmt.units[metric]
    ensures metric !in fmt.units ==> unit == ""
  {
    if metric in fmt.units then fmt.units[metric] else ""
  }

  /** `descriptions[action] || 'Revisar y optimizar'`. */
  function ActionDescription(fmt: Rendering, action: string): (text: string)
    ensures action in fmt.actions ==> text == fmt.actions[action]
    ensures action !in fmt.actions ==> text == DefaultAction
  {
    if action in fmt.actions then fmt.actions[action] else DefaultAction
  }

  /** "<rule name>: <metric name> actual es <value><unit>, threshold es
      <threshold><unit>". The metric must be present: `toFixed` of a missing
      value throws. */
  function GenerateMessage(rule: Rule, snap: Snapshot, fmt: Rendering): (m: string)
    requires rule.metric in snap
    ensures Strings.StartsWith(m, rule.name + ": " + MetricDisplayName(fmt, rule.metric))
    ensures Strings.EndsWith(m, ", threshold es " + fmt.show(rule.threshold) + MetricUnit(fmt, rule.metric))
  {
    var unit := MetricUnit(fmt, rule.metric);
    var head := rule.name + ": " + MetricDisplayName(fmt, rule.metric);
    var tail := ", threshold es " + fmt.show(rule.threshold) + unit;
    var m := head + " actual es " + fmt.fixed2(snap[rule.metric]) + unit + tail;
    assert m[..|head|] == head;
    assert m[|m| - |tail|..] == tail;
    m
  }

  // ---------------------------------------------------------------------
  // The rows evaluatePublication reads

  /** The publication's metrics row with the latest date, the first such row
      in table order on a tie, or None when the publication has no row. */
  function LatestMetrics(rows: seq<MetricsRow>, pub: nat): (r: Option<MetricsRow>)
    ensures r.None? <==> forall i :: 0 <= i < |rows| ==> rows[i].publicationId != pub
    ensures r.Some? ==> r.value in rows && r.value.publicationId == pub
    ensures r.Some? ==> forall i :: 0 <= i < |rows| && rows[i].publicationId == pub ==>
      rows[i].metricDate <= r.value.metricDate
    decreases |rows|
  {
    if rows == [] then None
    else
      var rest := LatestMetrics(rows[1..], pub);
      assert forall i :: 1 <= i < |rows| ==> rows[i] == rows[1..][i - 1];
      if rows[0].publicationId != pub then rest
      else if rest.None? || rest.value.metricDate <= rows[0].metricDate then Some(rows[0])
      else rest
  }

  /** The active rules, in table order. */
  function ActiveOnly(rules: seq<Rule>): (r: seq<Rule>)
    ensures forall x :: x in r <==> x in rules && x.isActive
  {
    if rules == [] then []
    else
      assert forall x :: x in rules <==> x == rules[0] || x in rules[1..];
      (if rules[0].isActive then [rules[0]] else []) + ActiveOnly(rules[1..])
  }

  function PriorityKey(r: Rule): Sorting.Key
  {
    (r.priority as real, 0.0)
  }

  /** `WHERE is_active = 1 ORDER BY priority ASC`; rules of equal priority
      keep their table order. */
  function ActiveByPriority(rules: seq<Rule>): (r: seq<Rule>)
    ensures forall x :: x in r <==> x in rules && x.isActive
    ensures forall i, j :: 0 <= i < j < |r| ==> r[i].priority <= r[j].priority
  {
    var active := ActiveOnly(rules);
    var sorted := Sorting.SortBy(active, PriorityKey);
    Sorting.SortByMembers(active, PriorityKey);
    PriorityOrder(sorted);
    sorted
  }

  lemma PriorityOrder(s: seq<Rule>)
    requires Sorting.SortedBy(s, PriorityKey)
    ensures forall i, j :: 0 <= i < j < |s| ==> s[i].priority <= s[j].priority
  {
    forall i, j | 0 <= i < j < |s|
      ensures s[i].priority <= s[j].priority
    {
      assert Sorting.KeyLe(PriorityKey(s[i]), PriorityKey(s[j]));
    }
  }

  // ---------------------------------------------------------------------
  // createRecommendation and evaluatePublication, as functions of the table

  /** The recommendations table and the next id to hand out. */
  datatype EngineState = EngineState(recs: seq<Recommendation>, nextId: nat)

  /** An unresolved recommendation exists for the (publication, rule) pair. */
  predicate HasUnresolved(recs: seq<Recommendation>, pub: nat, ruleId: nat)
  {
    exists i :: 0 <= i < |recs| && recs[i].publicationId == pub && recs[i].ruleId == ruleId
      && !recs[i].isResolved
  }

  /** A row that is kept stays unresolved when rows are appended. */
  lemma HasUnresolvedKept(a: seq<Recommendation>, b: seq<Recommendation>, pub: nat, ruleId: nat)
    requires |a| <= |b| && b[..|a|] == a && HasUnresolved(a, pub, ruleId)
    ensures HasUnresolved(b, pub, ruleId)
  {
    var i :| 0 <= i < |a| && a[i].publicationId == pub && a[i].ruleId == ruleId && !a[i].isResolved;
    assert b[i] == a[i];
  }

  /** The row createRecommendation builds for a triggered rule. */
  function NewRecommendation(id: nat, pub: nat, rule: Rule, snap: Snapshot, fmt: Rendering, now: int)
    : (r: Recommendation)
    requires rule.metric in snap
  {
    Recommendation(id, pub, rule.id, CalculateSeverity(snap, rule), GenerateMessage(rule, snap, fmt),
      ActionDescription(fmt, rule.action), false, None, now)
  }

  /** With the engine's own tables, a row's action text is the table entry
      for the rule's action, or 'Revisar y optimizar' for an action without
      one, and its message starts with the rule name and the metric's display
      name, or the metric key itself when it has none. */
  lemma EngineRowTexts(id: nat, pub: nat, rule: Rule, snap: Snapshot, fmt: Rendering, now: int)
    requires EngineTables(fmt) && rule.metric in snap
    ensures var r := NewRecommendation(id, pub, rule, snap, fmt, now);
      r.actionRequired == (if rule.action in ActionDescriptions then ActionDescriptions[rule.action] else DefaultAction)
      && Strings.StartsWith(r.message, rule.name + ": "
           + (if rule.metric in MetricNames then MetricNames[rule.metric] else rule.metric))
  {
  }

  /** createRecommendation: nothing happens and null is returned while the
      pair has an unresolved row (the stored row keeps its old severity and
      message); otherwise exactly one unresolved row is appended and returned.
      Either way the pair has an unresolved row afterwards and the table
      invariant is kept. */
  function Create(st: EngineState, pub: nat, rule: Rule, snap: Snapshot, fmt: Rendering, now: int)
    : (res: (EngineState, Option<Recommendation>))
    requires rule.metric in snap
    ensures HasUnresolved(st.recs, pub, rule.id) ==> res == (st, None)
    ensures !HasUnresolved(st.recs, pub, rule.id) ==>
      res.1 == Some(NewRecommendation(st.nextId, pub, rule, snap, fmt, now))
      && res.0 == EngineState(st.recs + [res.1.value], st.nextId + 1)
    ensures HasUnresolved(res.0.recs, pub, rule.id)
    ensures RecsValid(st.recs, st.nextId) ==> RecsValid(res.0.recs, res.0.nextId)
  {
    if HasUnresolved(st.recs, pub, rule.id) then (st, None)
    else
      var r := NewRecommendation(st.nextId, pub, rule, snap, fmt, now);
      var recs := st.recs + [r];
      assert recs[|st.recs|] == r;
      (EngineState(recs, st.nextId + 1), Some(r))
  }

  /** How many of the rules fire on the snapshot. */
  function CountTriggered(rules: seq<Rule>, snap: Snapshot): nat
  {
    if rules == [] then 0
    else CountTriggered(rules[..|rules| - 1], snap) + (if EvaluateRule(snap, rules[|rules| - 1]) then 1 else 0)
  }

  /** The loop of evaluatePublication over the given rules: one entry per
      triggered rule (null for a deduplicated one). Earlier rows are kept as
      they were, and every appended row is an unresolved row of this
      publication. */
  function RunRules(st: EngineState, pub: nat, rules: seq<Rule>, snap: Snapshot, fmt: Rendering, now: int)
    : (res: (EngineState, seq<Option<Recommendation>>))
    ensures |res.1| == CountTriggered(rules, snap)
    ensures |st.recs| <= |res.0.recs| && res.0.recs[..|st.recs|] == st.recs
    ensures forall i :: |st.recs| <= i < |res.0.recs| ==>
      res.0.recs[i].publicationId == pub && !res.0.recs[i].isResolved
    ensures RecsValid(st.recs, st.nextId) ==> RecsValid(res.0.recs, res.0.nextId)
    decreases |rules|
  {
    if rules == [] then (st, [])
    else
      var init, last := rules[..|rules| - 1], rules[|rules| - 1];
      var prev := RunRules(st, pub, init, snap, fmt, now);
      var s1, c1 := prev.0, prev.1;
      if EvaluateRule(snap, last) then
        var step := Create(s1, pub, last, snap, fmt, now);
        assert step.0.recs[..|s1.recs|] == s1.recs;
        assert step.0.recs[..|st.recs|] == s1.recs[..|st.recs|];
        (step.0, c1 + [step.1])
      else (s1, c1)
  }

  /** Every row the loop appends comes from one of the rules that fired. */
  lemma {:induction false} RunRulesOrigin(st: EngineState, pub: nat, rules: seq<Rule>, snap: Snapshot,
                                          fmt: Rendering, now: int, i: nat)
    requires |st.recs| <= i < |RunRules(st, pub, rules, snap, fmt, now).0.recs|
    ensures exists r :: r in rules && EvaluateRule(snap, r)
                        && r.id == RunRules(st, pub, rules, snap, fmt, now).0.recs[i].ruleId
  {
    var init, last := rules[..|rules| - 1], rules[|rules| - 1];
    var s1 := RunRules(st, pub, init, snap, fmt, now).0;
    var s := RunRules(st, pub, rules, snap, fmt, now).0;
    if i < |s1.recs| {
      RunRulesOrigin(st, pub, init, snap, fmt, now, i);
      var r :| r in init && EvaluateRule(snap, r) && r.id == s1.recs[i].ruleId;
      assert r in rules;
      if EvaluateRule(snap, last) {
        assert s.recs[..|s1.recs|] == s1.recs;
        assert s.recs[i] == s1.recs[i];
      }
    } else {
      assert EvaluateRule(snap, last) && s.recs[i].ruleId == last.id;
    }
  }

  /** One more rule in the loop: it either goes through createRecommendation
      or is skipped. */
  lemma RunRulesStep(st: EngineState, pub: nat, rules: seq<Rule>, i: nat, snap: Snapshot,
                     fmt: Rendering, now: int)
    requires i < |rules|
    ensures var prev := RunRules(st, pub, rules[..i], snap, fmt, now);
      RunRules(st, pub, rules[..i + 1], snap, fmt, now)
        == if EvaluateRule(snap, rules[i])
           then (Create(prev.0, pub, rules[i], snap, fmt, now).0, prev.1 + [Create(prev.0, pub, rules[i], snap, fmt, now).1])
           else prev
  {
    assert rules[..i + 1][..i] == rules[..i];
  }

  /** After the loop, every rule that fired has an unresolved row for this
      publication. */
  lemma {:induction false} RunRulesCovers(st: EngineState, pub: nat, rules: seq<Rule>, snap: Snapshot,
                                          fmt: Rendering, now: int)
    ensures forall k :: 0 <= k < |rules| && EvaluateRule(snap, rules[k]) ==>
      HasUnresolved(RunRules(st, pub, rules, snap, fmt, now).0.recs, pub, rules[k].id)
  {
    if rules != [] {
      var init, last := rules[..|rules| - 1], rules[|rules| - 1];
      RunRulesCovers(st, pub, init, snap, fmt, now);
      var s1 := RunRules(st, pub, init, snap, fmt, now).0;
      var s := RunRules(st, pub, rules, snap, fmt, now).0;
      forall k | 0 <= k < |rules| && EvaluateRule(snap, rules[k])
        ensures HasUnresolved(s.recs, pub, rules[k].id)
      {
        if k < |rules| - 1 {
          assert rules[k] == init[k];
          if EvaluateRule(snap, last) {
            HasUnresolvedKept(s1.recs, s.recs, pub, rules[k].id);
          }
        }
      }
    }
  }

  /** When every rule that fires already has an unresolved row, the loop
      changes nothing and yields only nulls. */
  lemma {:induction false} RunRulesSettled(st: EngineState, pub: nat, rules: seq<Rule>, snap: Snapshot,
                                           fmt: Rendering, now: int)
    requires forall k :: 0 <= k < |rules| && EvaluateRule(snap, rules[k]) ==> HasUnresolved(st.recs, pub, rules[k].id)
    ensures RunRules(st, pub, rules, snap, fmt, now).0 == st
    ensures forall i :: 0 <= i < |RunRules(st, pub, rules, snap, fmt, now).1| ==>
      RunRules(st, pub, rules, snap, fmt, now).1[i].None?
  {
    if rules != [] {
      var init := rules[..|rules| - 1];
      assert forall k :: 0 <= k < |init| ==> init[k] == rules[k];
      RunRulesSettled(st, pub, init, snap, fmt, now);
    }
  }

  /** Running the rules a second time on the same snapshot creates nothing. */
  lemma RunRulesIdempotent(st: EngineState, pub: nat, rules: seq<Rule>, snap: Snapshot, fmt: Rendering,
                           now: int, later: int)
    ensures var s1 := RunRules(st, pub, rules, snap, fmt, now).0;
      RunRules(s1, pub, rules, snap, fmt, later).0 == s1
      && forall i :: 0 <= i < |RunRules(s1, pub, rules, snap, fmt, later).1| ==>
           RunRules(s1, pub, rules, snap, fmt, later).1[i].None?
  {
    RunRulesCovers(st, pub, rules, snap, fmt, now);
    RunRulesSettled(RunRules(st, pub, rules, snap, fmt, now).0, pub, rules, snap, fmt, later);
  }

  /** The result of evaluatePublication. */
  datatype Evaluation =
    | NotEvaluated(reason: string)
    | Evaluated(publicationId: nat, metrics: MetricsRow, recommendationsCreated: nat,
                recommendations: seq<Option<Recommendation>>)

  /** evaluatePublication as a function of the tables: without a metrics row
      nothing changes; otherwise the active rules run in ascending priority on
      the latest snapshot, and `recommendationsCreated` counts every rule that
      fired, deduplicated ones included. */
  function Evaluate(st: EngineState, metrics: seq<MetricsRow>, rules: seq<Rule>, pub: nat,
                    fmt: Rendering, now: int): (res: (EngineState, Evaluation))
    ensures LatestMetrics(metrics, pub).None? ==> res == (st, NotEvaluated("No metrics found"))
    ensures LatestMetrics(metrics, pub).Some? ==>
      res.1.Evaluated? && res.1.publicationId == pub && res.1.metrics == LatestMetrics(metrics, pub).value
      && res.1.recommendationsCreated == |res.1.recommendations|
      == CountTriggered(ActiveByPriority(rules), res.1.metrics.values)
    ensures RecsValid(st.recs, st.nextId) ==> RecsValid(res.0.recs, res.0.nextId)
  {
    match LatestMetrics(metrics, pub)
    case None => (st, NotEvaluated("No metrics found"))
    case Some(row) =>
      var run := RunRules(st, pub, ActiveByPriority(rules), row.values, fmt, now);
      (run.0, Evaluated(pub, row, |run.1|, run.1))
  }

  /** After an evaluation, every active rule that fires on the latest
      snapshot has an unresolved recommendation for the publication. */
  lemma EvaluateCovers(st: EngineState, metrics: seq<MetricsRow>, rules: seq<Rule>, pub: nat,
                       fmt: Rendering, now: int, r: Rule)
    requires LatestMetrics(metrics, pub).Some?
    requires r in rules && r.isActive && EvaluateRule(LatestMetrics(metrics, pub).value.values, r)
    ensures HasUnresolved(Evaluate(st, metrics, rules, pub, fmt, now).0.recs, pub, r.id)
  {
    var snap := LatestMetrics(metrics, pub).value.values;
    var active := ActiveByPriority(rules);
    RunRulesCovers(st, pub, active, snap, fmt, now);
    var k :| 0 <= k < |active| && active[k] == r;
  }

  /** Every row an evaluation appends belongs to this publication, is
      unresolved, and comes from an active rule that fires on the latest
      snapshot: inactive rules are never applied. */
  lemma EvaluateOnlyActive(st: EngineState, metrics: seq<MetricsRow>, rules: seq<Rule>, pub: nat,
                           fmt: Rendering, now: int, i: nat)
    requires LatestMetrics(metrics, pub).Some?
    requires |st.recs| <= i < |Evaluate(st, metrics, rules, pub, fmt, now).0.recs|
    ensures var row := Evaluate(st, metrics, rules, pub, fmt, now).0.recs[i];
      row.publicationId == pub && !row.isResolved
      && exists r :: r in rules && r.isActive && r.id == row.ruleId
                     && EvaluateRule(LatestMetrics(metrics, pub).value.values, r)
  {
    var snap := LatestMetrics(metrics, pub).value.values;
    var active := ActiveByPriority(rules);
    var s := RunRules(st, pub, active, snap, fmt, now).0;
    RunRulesOrigin(st, pub, active, snap, fmt, now, i);
    var r :| r in active && EvaluateRule(snap, r) && r.id == s.recs[i].ruleId;
    assert r in rules;
  }

  /** Evaluating the same publication twice without new metrics adds nothing
      the second time. */
  lemma EvaluateIdempotent(st: EngineState, metrics: seq<MetricsRow>, rules: seq<Rule>, pub: nat,
                           fmt: Rendering, now: int, later: int)
    ensures var s1 := Evaluate(st, metrics, rules, pub, fmt, now).0;
      Evaluate(s1, metrics, rules, pub, fmt, later).0 == s1
  {
    if LatestMetrics(metrics, pub).Some? {
      RunRulesIdempotent(st, pub, ActiveByPriority(rules), LatestMetrics(metrics, pub).value.values, fmt, now, later);
    }
  }

  /** createRecommendation on the store. */
  method CreateRecommendation(db: Db, pub: nat, rule: Rule, snap: Snapshot, fmt: Rendering, now: int)
    returns (r: Option<Recommendation>)
    requires db.Valid() && rule.metric in snap
    modifies db
    ensures db.Valid()
    ensures db.rules == old(db.rules) && db.publications == old(db.publications) && db.metrics == old(db.metrics)
    ensures (EngineState(db.recommendations, db.nextId), r)
         == Create(EngineState(old(db.recommendations), old(db.nextId)), pub, rule, snap, fmt, now)
  {
    var rec := NewRecommendation(db.nextId, pub, rule, snap, fmt, now);
    if HasUnresolved(db.recommendations, pub, rule.id) {
      return None;
    }
    db.recommendations := db.recommendations + [rec];
    db.nextId := db.nextId + 1;
    r := Some(rec);
  }

  /** The `for (const rule of rules)` loop of evaluatePublication on the store. */
  method ApplyRules(db: Db, pub: nat, rules: seq<Rule>, snap: Snapshot, fmt: Rendering, now: int)
    returns (created: seq<Option<Recommendation>>)
    requires db.Valid()
    modifies db
    ensures db.Valid()
    ensures db.rules == old(db.rules) && db.publications == old(db.publications) && db.metrics == old(db.metrics)
    ensures (EngineState(db.recommendations, db.nextId), created)
         == RunRules(EngineState(old(db.recommendations), old(db.nextId)), pub, rules, snap, fmt, now)
  {
    ghost var st0 := EngineState(db.recommendations, db.nextId);
    created := [];
    var i := 0;
    while i < |rules|
      invariant 0 <= i <= |rules|
      invariant db.Valid()
      invariant db.rules == old(db.rules) && db.publications == old(db.publications) && db.metrics == old(db.metrics)
      invariant (EngineState(db.recommendations, db.nextId), created) == RunRules(st0, pub, rules[..i], snap, fmt, now)
    {
      RunRulesStep(st0, pub, rules, i, snap, fmt, now);
      ghost var before := created;
      var more := ApplyRule(db, pub, rules[i], snap, fmt, now);
      created := created + more;
      assert !EvaluateRule(snap, rules[i]) ==> created == before;
      i := i + 1;
    }
    assert rules[..|rules|] == rules;
  }

  /** One pass of that loop: the rule is evaluated and, when it fires, a
      recommendation is created for it. */
  method ApplyRule(db: Db, pub: nat, rule: Rule, snap: Snapshot, fmt: Rendering, now: int)
    returns (more: seq<Option<Recommendation>>)
    requires db.Valid()
    modifies db
    ensures db.Valid()
    ensures db.rules == old(db.rules) && db.publications == old(db.publications) && db.metrics == old(db.metrics)
    ensures !EvaluateRule(snap, rule) ==>
      more == [] && db.recommendations == old(db.recommendations) && db.nextId == old(db.nextId)
    ensures EvaluateRule(snap, rule) ==>
      var step := Create(EngineState(old(db.recommendations), old(db.nextId)), pub, rule, snap, fmt, now);
      EngineState(db.recommendations, db.nextId) == step.0 && more == [step.1]
  {
    more := [];
    if EvaluateRule(snap, rule) {
      var rec := CreateRecommendation(db, pub, rule, snap, fmt, now);
      more := [rec];
    }
  }

  /** evaluatePublication on the store. */
  method EvaluatePublication(db: Db, pub: nat, fmt: Rendering, now: int) returns (res: Evaluation)
    requires db.Valid()
    modifies db
    ensures db.Valid()
    ensures db.rules == old(db.rules) && db.publications == old(db.publications) && db.metrics == old(db.metrics)
    ensures (EngineState(db.recommendations, db.nextId), res)
         == Evaluate(EngineState(old(db.recommendations), old(db.nextId)), old(db.metrics), old(db.rules), pub, fmt, now)
  {
    var latest := LatestMetrics(db.metrics, pub);
    if latest.None? {
      return NotEvaluated("No metrics found");
    }
    var row := latest.value;
    var created := ApplyRules(db, pub, ActiveByPriority(db.rules), row.values, fmt, now);
    res := Evaluated(pub, row, |created|, created);
  }

  // ---------------------------------------------------------------------
  // evaluateCampaign

  /** `SELECT id FROM publications WHERE campaign_id = ? AND status = 'active'`,
      in table order. */
  function ActivePublicationIds(pubs: seq<Publication>, campaign: nat): (ids: seq<nat>)
    ensures forall x :: x in ids <==>
      exists p :: p in pubs && p.id == x && p.campaignId == campaign && p.status == "active"
  {
    if pubs == [] then []
    else
      assert forall p :: p in pubs <==> p == pubs[0] || p in pubs[1..];
      var p := pubs[0];
      (if p.campaignId == campaign && p.status == "active" then [p.id] else []) + ActivePublicationIds(pubs[1..], campaign)
  }

  /** The loop of evaluateCampaign over the given publication ids: one
      evaluation per id, in order, each seeing the table the previous ones
      left behind. */
  function RunCampaign(st: EngineState, metrics: seq<MetricsRow>, rules: seq<Rule>, ids: seq<nat>,
                       fmt: Rendering, now: int): (res: (EngineState, seq<Evaluation>))
    ensures |res.1| == |ids|
    decreases |ids|
  {
    if ids == [] then (st, [])
    else
      var prev := RunCampaign(st, metrics, rules, ids[..|ids| - 1], fmt, now);
      var one := Evaluate(prev.0, metrics, rules, ids[|ids| - 1], fmt, now);
      (one.0, prev.1 + [one.1])
  }

  /** Evaluation `i` of the campaign, when there is one, is of publication
      `ids[i]`. */
  lemma {:induction false} RunCampaignIds(st: EngineState, metrics: seq<MetricsRow>, rules: seq<Rule>, ids: seq<nat>,
                                          fmt: Rendering, now: int)
    ensures var res := RunCampaign(st, metrics, rules, ids, fmt, now);
      forall i :: 0 <= i < |ids| && res.1[i].Evaluated? ==> res.1[i].publicationId == ids[i]
  {
    if ids != [] {
      var init := ids[..|ids| - 1];
      RunCampaignIds(st, metrics, rules, init, fmt, now);
      var prev := RunCampaign(st, metrics, rules, init, fmt, now);
      var one := Evaluate(prev.0, metrics, rules, ids[|ids| - 1], fmt, now);
      var evals := prev.1 + [one.1];
      assert RunCampaign(st, metrics, rules, ids, fmt, now).1 == evals;
      forall i | 0 <= i < |ids| && evals[i].Evaluated?
        ensures evals[i].publicationId == ids[i]
      {
        if i < |init| {
          assert evals[i] == prev.1[i] && init[i] == ids[i];
        }
      }
    }
  }

  /** The campaign loop keeps the table invariant. */
  lemma {:induction false} RunCampaignKeepsValid(st: EngineState, metrics: seq<MetricsRow>, rules: seq<Rule>,
                                                 ids: seq<nat>, fmt: Rendering, now: int)
    requires RecsValid(st.recs, st.nextId)
    ensures var res := RunCampaign(st, metrics, rules, ids, fmt, now);
      RecsValid(res.0.recs, res.0.nextId)
  {
    if ids != [] {
      RunCampaignKeepsValid(st, metrics, rules, ids[..|ids| - 1], fmt, now);
    }
  }

  /** The result of evaluateCampaign. */
  datatype CampaignEvaluation = CampaignEvaluation(campaignId: nat, evaluatedCount: nat, results: seq<Evaluation>)

  /** Only active publications of the campaign are ever evaluated. */
  lemma CampaignEvaluatesActiveOnly(st: EngineState, metrics: seq<MetricsRow>, rules: seq<Rule>,
                                    pubs: seq<Publication>, campaign: nat, fmt: Rendering, now: int, i: nat)
    requires var res := RunCampaign(st, metrics, rules, ActivePublicationIds(pubs, campaign), fmt, now);
      i < |res.1| && res.1[i].Evaluated?
    ensures var res := RunCampaign(st, metrics, rules, ActivePublicationIds(pubs, campaign), fmt, now);
      exists p :: p in pubs && p.id == res.1[i].publicationId && p.campaignId == campaign && p.status == "active"
  {
    var ids := ActivePublicationIds(pubs, campaign);
    RunCampaignIds(st, metrics, rules, ids, fmt, now);
    assert ids[i] in ids;
  }

  /** The per-publication step of evaluateCampaign's loop. */
  lemma RunCampaignStep(st: EngineState, metrics: seq<MetricsRow>, rules: seq<Rule>, ids: seq<nat>, i: nat,
                        fmt: Rendering, now: int)
    requires i < |ids|
    ensures var prev := RunCampaign(st, metrics, rules, ids[..i], fmt, now);
      var one := Evaluate(prev.0, metrics, rules, ids[i], fmt, now);
      RunCampaign(st, metrics, rules, ids[..i + 1], fmt, now) == (one.0, prev.1 + [one.1])
  {
    assert ids[..i + 1][..i] == ids[..i];
  }

  /** evaluateCampaign on the store. */
  method EvaluateCampaign(db: Db, campaign: nat, fmt: Rendering, now: int) returns (res: CampaignEvaluation)
    requires db.Valid()
    modifies db
    ensures db.Valid()
    ensures db.rules == old(db.rules) && db.publications == old(db.publications) && db.metrics == old(db.metrics)
    ensures res.campaignId == campaign && res.evaluatedCount == |res.results|
    ensures (EngineState(db.recommendations, db.nextId), res.results)
         == RunCampaign(EngineState(old(db.recommendations), old(db.nextId)), old(db.metrics), old(db.rules),
                        ActivePublicationIds(old(db.publications), campaign), fmt, now)
  {
    var ids := ActivePublicationIds(db.publications, campaign);
    ghost var st0 := EngineState(db.recommendations, db.nextId);
    var results: seq<Evaluation> := [];
    var i := 0;
    while i < |ids|
      invariant 0 <= i <= |ids|
      invariant db.Valid()
      invariant db.rules == old(db.rules) && db.publications == old(db.publications) && db.metrics == old(db.metrics)
      invariant (EngineState(db.recommendations, db.nextId), results) == RunCampaign(st0, db.metrics, db.rules, ids[..i], fmt, now)
    {
      RunCampaignStep(st0, db.metrics, db.rules, ids, i, fmt, now);
      var one := EvaluatePublication(db, ids[i], fmt, now);
      results := results + [one];
      i := i + 1;
    }
    assert ids[..|ids|] == ids;
    res := CampaignEvaluation(campaign, |results|, results);
  }

  // ---------------------------------------------------------------------
  // resolveRecommendation

  /** `UPDATE recommendations SET is_resolved = 1, resolved_at = ? WHERE id = ?`:
      the rows with that id become resolved at `now`; every other field and
      every other row stays as it was. */
  function Resolve(recs: seq<Recommendation>, id: nat, now: int): (r: seq<Recommendation>)
    ensures |r| == |recs|
    ensures forall i :: 0 <= i < |recs| && recs[i].id != id ==> r[i] == recs[i]
    ensures forall i :: 0 <= i < |recs| && recs[i].id == id ==>
      r[i].isResolved && r[i].resolvedAt == Some(now)
      && r[i].(isResolved := recs[i].isResolved, resolvedAt := recs[i].resolvedAt) == recs[i]
  {
    seq(|recs|, i requires 0 <= i < |recs| =>
      if recs[i].id == id then recs[i].(isResolved := true, resolvedAt := Some(now)) else recs[i])
  }

  /** Resolving keeps the table invariant. */
  lemma ResolveKeepsValid(recs: seq<Recommendation>, nextId: nat, id: nat, now: int)
    requires RecsValid(recs, nextId)
    ensures RecsValid(Resolve(recs, id, now), nextId)
  {
    var r := Resolve(recs, id, now);
    assert forall i :: 0 <= i < |r| ==>
      r[i].id == recs[i].id && r[i].publicationId == recs[i].publicationId
      && r[i].ruleId == recs[i].ruleId && (recs[i].isResolved ==> r[i].isResolved);
  }

  /** Resolving the unresolved recommendation of a pair frees the pair: the
      next evaluation that fires the rule records a new recommendation. */
  lemma ResolveFreesPair(recs: seq<Recommendation>, nextId: nat, k: nat, now: int)
    requires RecsValid(recs, nextId) && k < |recs| && !recs[k].isResolved
    ensures !HasUnresolved(Resolve(recs, recs[k].id, now), recs[k].publicationId, recs[k].ruleId)
  {
    var r := Resolve(recs, recs[k].id, now);
    forall j | 0 <= j < |r| && r[j].publicationId == recs[k].publicationId && r[j].ruleId == recs[k].ruleId
      ensures r[j].isResolved
    {
      if recs[j].id != recs[k].id {
        assert r[j] == recs[j];
        SamePairOneOpen(recs, j, k);
      }
    }
  }

  /** Two distinct rows of one pair are not both unresolved. */
  lemma SamePairOneOpen(recs: seq<Recommendation>, a: nat, b: nat)
    requires OneUnresolvedPerPair(recs) && a < |recs| && b < |recs| && a != b
    requires recs[a].publicationId == recs[b].publicationId && recs[a].ruleId == recs[b].ruleId
    ensures recs[a].isResolved || recs[b].isResolved
  {
    if b < a {
      assert recs[b].isResolved || recs[a].isResolved;
    }
  }

  /** The result of resolveRecommendation: success even when no row matched. */
  datatype ResolveResult = ResolveResult(success: bool, recommendationId: nat)

  method ResolveRecommendation(db: Db, id: nat, now: int) returns (res: ResolveResult)
    requires db.Valid()
    modifies db
    ensures db.Valid()
    ensures res == ResolveResult(true, id)
    ensures db.recommendations == Resolve(old(db.recommendations), id, now)
    ensures db.rules == old(db.rules) && db.publications == old(db.publications)
    ensures db.metrics == old(db.metrics) && db.nextId == old(db.nextId)
  {
    ResolveKeepsValid(db.recommendations, db.nextId, id, now);
    db.recommendations := Resolve(db.recommendations, id, now);
    res := ResolveResult(true, id);
  }

  // ---------------------------------------------------------------------
  // getPublicationRecommendations

  /** A recommendation row joined with its rule's name and description. */
  datatype ListedRecommendation = ListedRecommendation(rec: Recommendation, ruleName: string, ruleDescription: string)

  /** The joined row carries the name and description of a rule with the
      recommendation's rule id. */
  predicate JoinedWith(x: ListedRecommendation, rules: seq<Rule>)
  {
    exists rule :: rule in rules && rule.id == x.rec.ruleId && x.ruleName == rule.name
                   && x.ruleDescription == rule.description
  }

  /** One joined row per rule whose id matches, in rule-table order. */
  function JoinRule(rec: Recommendation, rules: seq<Rule>): (r: seq<ListedRecommendation>)
    ensures forall x :: x in r <==> (x.rec == rec && JoinedWith(x, rules))
  {
    if rules == [] then []
    else
      assert forall q :: q in rules <==> q == rules[0] || q in rules[1..];
      (if rules[0].id == rec.ruleId then [ListedRecommendation(rec, rules[0].name, rules[0].description)] else [])
      + JoinRule(rec, rules[1..])
  }

  /** Whether a row passes the WHERE clause of the listing. */
  predicate Listed(rec: Recommendation, pub: nat, includeResolved: bool)
  {
    rec.publicationId == pub && (includeResolved || !rec.isResolved)
  }

  /** The filtered inner join of the recommendations with the rules. */
  function JoinRules(recs: seq<Recommendation>, rules: seq<Rule>, pub: nat, includeResolved: bool)
    : (r: seq<ListedRecommendation>)
    ensures forall x :: x in r <==> (x.rec in recs && Listed(x.rec, pub, includeResolved) && JoinedWith(x, rules))
  {
    if recs == [] then []
    else
      assert forall q :: q in recs <==> q == recs[0] || q in recs[1..];
      (if Listed(recs[0], pub, includeResolved) then JoinRule(recs[0], rules) else [])
      + JoinRules(recs[1..], rules, pub, includeResolved)
  }

  /** The ORDER BY of the unresolved listing: severity rank, then newest first. */
  function OpenKey(x: ListedRecommendation): Sorting.Key
  {
    (Rank(x.rec.severity) as real, -(x.rec.createdAt as real))
  }

  /** The ORDER BY of the full listing: newest first. */
  function HistoryKey(x: ListedRecommendation): Sorting.Key
  {
    (-(x.rec.createdAt as real), 0.0)
  }

  /** getPublicationRecommendations: exactly the joined rows of the
      publication (unresolved ones only, unless resolved rows are asked for),
      each once per matching rule, ordered critical, high, medium, low and
      newest first within a severity; or newest first overall when resolved
      rows are included. */
  function GetPublicationRecommendations(recs: seq<Recommendation>, rules: seq<Rule>, pub: nat,
                                         includeResolved: bool): (r: seq<ListedRecommendation>)
    ensures multiset(r) == multiset(JoinRules(recs, rules, pub, includeResolved))
    ensures forall x :: x in r <==> (x.rec in recs && Listed(x.rec, pub, includeResolved) && JoinedWith(x, rules))
    ensures !includeResolved ==> forall i, j :: 0 <= i < j < |r| ==>
      Rank(r[i].rec.severity) < Rank(r[j].rec.severity)
      || (r[i].rec.severity == r[j].rec.severity && r[i].rec.createdAt >= r[j].rec.createdAt)
    ensures includeResolved ==> forall i, j :: 0 <= i < j < |r| ==> r[i].rec.createdAt >= r[j].rec.createdAt
  {
    var joined := JoinRules(recs, rules, pub, includeResolved);
    var sorted := Sorting.SortBy(joined, if includeResolved then HistoryKey else OpenKey);
    SameElements(sorted, joined);
    if includeResolved then HistoryOrder(sorted); sorted
    else OpenOrder(sorted); sorted
  }

  /** Two sequences with the same multiset have the same elements. */
  lemma SameElements<T>(a: seq<T>, b: seq<T>)
    requires multiset(a) == multiset(b)
    ensures forall x :: x in a <==> x in b
  {
    assert forall x :: x in a <==> x in multiset(a);
    assert forall x :: x in b <==> x in multiset(b);
  }

  lemma OpenOrder(s: seq<ListedRecommendation>)
    requires Sorting.SortedBy(s, OpenKey)
    ensures forall i, j :: 0 <= i < j < |s| ==>
      Rank(s[i].rec.severity) < Rank(s[j].rec.severity)
      || (s[i].rec.severity == s[j].rec.severity && s[i].rec.createdAt >= s[j].rec.createdAt)
  {
    forall i, j | 0 <= i < j < |s|
      ensures Rank(s[i].rec.severity) < Rank(s[j].rec.severity)
        || (s[i].rec.severity == s[j].rec.severity && s[i].rec.createdAt >= s[j].rec.createdAt)
    {
      assert Sorting.KeyLe(OpenKey(s[i]), OpenKey(s[j]));
    }
  }

  lemma HistoryOrder(s: seq<ListedRecommendation>)
    requires Sorting.SortedBy(s, HistoryKey)
    ensures forall i, j :: 0 <= i < j < |s| ==> s[i].rec.createdAt >= s[j].rec.createdAt
  {
    forall i, j | 0 <= i < j < |s| ensures s[i].rec.createdAt >= s[j].rec.createdAt {
      assert Sorting.KeyLe(HistoryKey(s[i]), HistoryKey(s[j]));
    }
  }

  // ---------------------------------------------------------------------
  // getRecommendationStats

  /** Some publication row of the campaign has the recommendation's
      publication id. */
  predicate InCampaign(rec: Recommendation, pubs: seq<Publication>, campaign: nat)
  {
    exists p :: p in pubs && p.id == rec.publicationId && p.campaignId == campaign
  }

  /** The recommendations joined with the publications of the campaign: each
      row once per matching publication row. */
  function CampaignRows(recs: seq<Recommendation>, pubs: seq<Publication>, campaign: nat): (r: seq<Recommendation>)
    ensures forall x :: x in r <==> (x in recs && InCampaign(x, pubs, campaign))
  {
    if recs == [] then []
    else
      assert forall q :: q in recs <==> q == recs[0] || q in recs[1..];
      MatchingPublications(recs[0], pubs, campaign) + CampaignRows(recs[1..], pubs, campaign)
  }

  /** The row once per publication of the campaign with its publication id. */
  function MatchingPublications(rec: Recommendation, pubs: seq<Publication>, campaign: nat): (r: seq<Recommendation>)
    ensures forall x :: x in r <==> (x == rec && InCampaign(rec, pubs, campaign))
  {
    if pubs == [] then []
    else
      assert forall q :: q in pubs <==> q == pubs[0] || q in pubs[1..];
      (if pubs[0].id == rec.publicationId && pubs[0].campaignId == campaign then [rec] else [])
      + MatchingPublications(rec, pubs[1..], campaign)
  }

  /** The number of unresolved rows, of the given severity when one is given. */
  function CountOpen(rows: seq<Recommendation>, severity: Option<Severity>): nat
  {
    if rows == [] then 0
    else
      (if !rows[0].isResolved && (severity.None? || rows[0].severity == severity.value) then 1 else 0)
      + CountOpen(rows[1..], severity)
  }

  /** The four severity counts split the unresolved rows, and there are no
      more unresolved rows than rows. */
  lemma {:induction false} CountOpenPartition(rows: seq<Recommendation>)
    ensures CountOpen(rows, None) == CountOpen(rows, Some(Critical)) + CountOpen(rows, Some(High))
                                   + CountOpen(rows, Some(Medium)) + CountOpen(rows, Some(Low))
    ensures CountOpen(rows, None) <= |rows|
  {
    if rows != [] {
      CountOpenPartition(rows[1..]);
    }
  }

  /** The aggregate row; a SUM over no rows is NULL. */
  datatype Stats = Stats(total: nat, active: Option<nat>, critical: Option<nat>, high: Option<nat>,
                         medium: Option<nat>, low: Option<nat>)

  /** getRecommendationStats: `total` counts resolved and unresolved rows of
      the campaign alike; the four severity counts cover the unresolved rows
      only and add up to `active`; with no rows every SUM is NULL. */
  function GetRecommendationStats(recs: seq<Recommendation>, pubs: seq<Publication>, campaign: nat): (s: Stats)
    ensures s.total == |CampaignRows(recs, pubs, campaign)|
    ensures s.total == 0 <==> s.active.None?
    ensures s.active.None? ==> s.critical.None? && s.high.None? && s.medium.None? && s.low.None?
    ensures s.active.Some? ==>
      s.critical.Some? && s.high.Some? && s.medium.Some? && s.low.Some?
      && s.active.value <= s.total
      && s.active.value == s.critical.value + s.high.value + s.medium.value + s.low.value
    ensures var rows := CampaignRows(recs, pubs, campaign);
      s.active.Some? ==>
        s.active.value == CountOpen(rows, None)
        && s.critical.value == CountOpen(rows, Some(Critical)) && s.high.value == CountOpen(rows, Some(High))
        && s.medium.value == CountOpen(rows, Some(Medium)) && s.low.value == CountOpen(rows, Some(Low))
  {
    var rows := CampaignRows(recs, pubs, campaign);
    if rows == [] then Stats(0, None, None, None, None, None)
    else
      CountOpenPartition(rows);
      Stats(|rows|, Some(CountOpen(rows, None)), Some(CountOpen(rows, Some(Critical))),
            Some(CountOpen(rows, Some(High))), Some(CountOpen(rows, Some(Medium))), Some(CountOpen(rows, Some(Low))))
  }
}
