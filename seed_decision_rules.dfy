/** The rule table the server seeds at start-up. The rule ids 1 to 8 stand for
    the random UUIDs each rule receives. */
module SeedDecisionRules {
  import opened Tables
  import DecisionEngine

  const DefaultRules: seq<Rule> := [
    Rule(1, "VTR Bajo - Cambiar Creativo", "Si el VTR es menor al 10%, se debe cambiar el creativo",
         "vtr", "<", 10.0, "change_creative", 1, true),
    Rule(2, "CTR Bajo - Optimizar Targeting", "Si el CTR es menor al 1%, se debe optimizar el targeting",
         "ctr", "<", 1.0, "optimize_targeting", 2, true),
    Rule(3, "CPA Alto - Reducir Presupuesto", "Si el CPA es mayor al objetivo, reducir presupuesto o pausar",
         "cpa", ">", 50.0, "reduce_budget", 1, true),
    Rule(4, "ROAS Bajo - Revisar Estrategia", "Si el ROAS es menor a 2, revisar estrategia completa",
         "roas", "<", 2.0, "review_strategy", 1, true),
    Rule(5, "Engagement Bajo - Cambiar Formato", "Si el engagement rate es menor al 2%, cambiar formato",
         "engagement_rate", "<", 2.0, "change_format", 2, true),
    Rule(6, "CPM Alto - Ajustar Puja", "Si el CPM es mayor a $20, ajustar estrategia de puja",
         "cpm", ">", 20.0, "adjust_bid", 3, true),
    Rule(7, "VTR Excelente - Escalar", "Si el VTR es mayor al 25%, escalar presupuesto",
         "vtr", ">", 25.0, "scale_budget", 1, true),
    Rule(8, "ROAS Alto - Duplicar Campaña", "Si el ROAS es mayor a 5, duplicar campaña exitosa",
         "roas", ">", 5.0, "duplicate_campaign", 1, true)
  ]

  /** The low-ROAS rule, which every metrics row of the server triggers. */
  const LowRoasRule: Rule := DefaultRules[3]

  /** Eight rules with distinct ids, all active, each comparing with '<' or
      '>' against a strictly positive threshold, so the severity division is
      defined for every one of them. */
  lemma SeedShape()
    ensures |DefaultRules| == 8
    ensures forall i, j :: 0 <= i < j < |DefaultRules| ==> DefaultRules[i].id != DefaultRules[j].id
    ensures forall r :: r in DefaultRules ==>
      r.isActive && (r.operator == "<" || r.operator == ">") && r.threshold > 0.0
  {
  }

  /** Every seeded metric has a display name and a unit, and every seeded
      action has a description, so no seeded message or action text falls
      back to a default. */
  lemma SeedTablesCovered()
    ensures forall i :: 0 <= i < |DefaultRules| ==>
      DefaultRules[i].metric in DecisionEngine.MetricNames && DefaultRules[i].metric in DecisionEngine.MetricUnits
    ensures forall i :: 0 <= i < |DefaultRules| ==> DefaultRules[i].action in DecisionEngine.ActionDescriptions
  {
    forall i | 0 <= i < |DefaultRules|
      ensures DefaultRules[i].metric in DecisionEngine.MetricNames && DefaultRules[i].metric in DecisionEngine.MetricUnits
      ensures DefaultRules[i].action in DecisionEngine.ActionDescriptions
    {
      var r := DefaultRules[i];
      assert r.metric in {"vtr", "ctr", "cpa", "roas", "engagement_rate", "cpm"};
      assert r.action in {"change_creative", "optimize_targeting", "reduce_budget", "review_strategy",
                          "change_format", "adjust_bid", "scale_budget", "duplicate_campaign"};
    }
  }

  /** Priority 1 for the vtr, cpa and roas rules, 2 for ctr and engagement
      rate, 3 for cpm. */
  lemma SeedPriorities()
    ensures forall r :: r in DefaultRules ==>
      r.priority == (if r.metric == "ctr" || r.metric == "engagement_rate" then 2
                     else if r.metric == "cpm" then 3 else 1)
  {
  }

  /** On one snapshot the two vtr rules never both fire, and neither do the
      two roas rules. */
  lemma SeedOppositeRulesExclusive(snap: Snapshot)
    ensures !(DecisionEngine.EvaluateRule(snap, DefaultRules[0]) && DecisionEngine.EvaluateRule(snap, DefaultRules[6]))
    ensures !(DecisionEngine.EvaluateRule(snap, DefaultRules[3]) && DecisionEngine.EvaluateRule(snap, DefaultRules[7]))
  {
  }

  /** A roas of 0 fires the low-ROAS rule with a 100% overshoot, which is
      critical. */
  lemma ZeroRoasIsCritical(snap: Snapshot)
    requires "roas" in snap && snap["roas"] == 0.0
    ensures DecisionEngine.EvaluateRule(snap, LowRoasRule)
    ensures DecisionEngine.CalculateSeverity(snap, LowRoasRule) == Critical
  {
  }
}
