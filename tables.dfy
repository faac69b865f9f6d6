/** The rows the performance side of the server keeps: decision rules,
    publications, metrics snapshots and recommendations, held in memory by one
    `Db` object whose tables the server code reads and appends to. Row ids are
    serial numbers handed out by `nextId`; they stand for the random UUIDs the
    server generates, of which only freshness matters. */
module Tables {
  import opened Wrappers

  /** The numeric columns of a metrics row, by column name. A column that is
      NULL is absent from the map. */
  type Snapshot = map<string, real>

  /** A row of `decision_rules`. */
  datatype Rule = Rule(
    id: nat,
    name: string,
    description: string,
    metric: string,
    operator: string,
    threshold: real,
    action: string,
    priority: int,
    isActive: bool)

  datatype Severity = Critical | High | Medium | Low

  /** A row of `recommendations`. */
  datatype Recommendation = Recommendation(
    id: nat,
    publicationId: nat,
    ruleId: nat,
    severity: Severity,
    message: string,
    actionRequired: string,
    isResolved: bool,
    resolvedAt: Option<int>,
    createdAt: int)

  /** A row of `publications`. */
  datatype Publication = Publication(
    id: nat,
    campaignId: nat,
    contentPieceId: Option<nat>,
    name: string,
    status: string,
    platform: string,
    format: string,
    buyType: Option<string>,
    duration: Option<int>,
    objective: string,
    budget: real,
    startDate: Option<int>,
    endDate: Option<int>,
    creativeVersion: int,
    parentId: Option<nat>,
    createdAt: int,
    updatedAt: int)

  /** A row of `performance_metrics`. */
  datatype MetricsRow = MetricsRow(
    id: nat,
    publicationId: nat,
    metricDate: int,
    values: Snapshot,
    createdAt: int)

  /** No two unresolved recommendations share a (publication, rule) pair. */
  ghost predicate OneUnresolvedPerPair(recs: seq<Recommendation>)
  {
    forall i, j ::
      0 <= i < j < |recs| && recs[i].publicationId == recs[j].publicationId && recs[i].ruleId == recs[j].ruleId
      ==> recs[i].isResolved || recs[j].isResolved
  }

  /** Recommendation ids are distinct and below the next id to hand out, and
      the at-most-one-unresolved rule holds. */
  ghost predicate RecsValid(recs: seq<Recommendation>, nextId: nat)
  {
    (forall i :: 0 <= i < |recs| ==> recs[i].id < nextId)
    && (forall i, j :: 0 <= i < j < |recs| ==> recs[i].id != recs[j].id)
    && OneUnresolvedPerPair(recs)
  }

  class Db {
    var rules: seq<Rule>
    var publications: seq<Publication>
    var metrics: seq<MetricsRow>
    var recommendations: seq<Recommendation>
    var nextId: nat

    ghost predicate Valid()
      reads this
    {
      RecsValid(recommendations, nextId)
      && (forall i :: 0 <= i < |publications| ==> publications[i].id < nextId)
      && (forall i :: 0 <= i < |metrics| ==> metrics[i].id < nextId)
    }

    /** A store holding the given rule table and nothing else. */
    constructor (rules: seq<Rule>)
      ensures Valid()
      ensures this.rules == rules && publications == [] && metrics == []
      ensures recommendations == [] && nextId == 0
    {
      this.rules := rules;
      publications := [];
      metrics := [];
      recommendations := [];
      nextId := 0;
    }
  }
}
