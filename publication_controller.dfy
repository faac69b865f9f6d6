/** The parts of the publication controller that feed the decision engine:
    deriving rates from the raw counts of a metrics report, storing the row
    and evaluating the publication, creating publications, and numbering the
    creative versions of a publication. */
module PublicationController {
  import opened Wrappers
  import opened Tables
  import DecisionEngine
  import SeedDecisionRules
  import Strings

  // ---------------------------------------------------------------------
  // Derived metrics

  /** A numeric field of a JSON request body: absent, `null`, or a number. */
  datatype Field = Missing | Null | Num(n: real)

  /** JavaScript truthiness of the field: a non-zero number. */
  predicate Truthy(f: Field)
  {
    f.Num? && f.n != 0.0
  }

  /** `f || 0`. */
  function OrZero(f: Field): (r: real)
    ensures f.Num? ==> r == f.n
    ensures !f.Num? ==> r == 0.0
  {
    if Truthy(f) then f.n else 0.0
  }

  /** `a + b` on two fields: `undefined` makes the sum NaN (None here), and
      `null` counts as 0. */
  function Plus(a: Field, b: Field): Option<real>
  {
    if a.Missing? || b.Missing? then None else Some(OrZero(a) + OrZero(b))
  }

  /** `num && den ? num / den * scale : 0`: zero unless both fields are
      non-zero numbers, and then the value whose product with the
      denominator is `num * scale`. */
  function Rate(num: Field, den: Field, scale: real): (r: real)
    ensures !(Truthy(num) && Truthy(den)) ==> r == 0.0
    ensures Truthy(num) && Truthy(den) ==> r * den.n == num.n * scale
  {
    if Truthy(num) && Truthy(den) then num.n / den.n * scale else 0.0
  }

  /** `(clicks + views) && impressions ? (clicks + views) / impressions * 100 : 0`. */
  function EngagementRate(clicks: Field, views: Field, impressions: Field): (r: real)
    ensures Plus(clicks, views).Some? && Plus(clicks, views).value != 0.0 && Truthy(impressions) ==>
      r * impressions.n == Plus(clicks, views).value * 100.0
    ensures !(Plus(clicks, views).Some? && Plus(clicks, views).value != 0.0 && Truthy(impressions)) ==> r == 0.0
  {
    var sum := Plus(clicks, views);
    if sum.Some? && sum.value != 0.0 && Truthy(impressions) then sum.value / impressions.n * 100.0 else 0.0
  }

  /** The body of a metrics report; `metricDate` is the parsed date, or None
      when the field is falsy. */
  datatype MetricsInput = MetricsInput(
    metricDate: Option<int>,
    impressions: Field,
    views: Field,
    clicks: Field,
    conversions: Field,
    spend: Field)

  /** The numeric columns of the stored metrics row. */
  function DerivedSnapshot(m: MetricsInput): (snap: Snapshot)
    ensures forall k :: k in snap <==> k in MetricColumns
    ensures snap["roas"] == 0.0
  {
    map[
      "impressions" := OrZero(m.impressions),
      "views" := OrZero(m.views),
      "clicks" := OrZero(m.clicks),
      "conversions" := OrZero(m.conversions),
      "spend" := OrZero(m.spend),
      "vtr" := Rate(m.views, m.impressions, 100.0),
      "ctr" := Rate(m.clicks, m.impressions, 100.0),
      "cpm" := Rate(m.spend, m.impressions, 1000.0),
      "cpc" := Rate(m.spend, m.clicks, 1.0),
      "cpa" := Rate(m.spend, m.conversions, 1.0),
      "roas" := 0.0,
      "engagement_rate" := EngagementRate(m.clicks, m.views, m.impressions)]
  }

  const MetricColumns: set<string> := {"impressions", "views", "clicks", "conversions", "spend",
    "vtr", "ctr", "cpm", "cpc", "cpa", "roas", "engagement_rate"}

  /** Without impressions every per-impression rate is 0. */
  lemma NoImpressionsNoRates(m: MetricsInput)
    requires !Truthy(m.impressions)
    ensures var s := DerivedSnapshot(m);
      s["vtr"] == 0.0 && s["ctr"] == 0.0 && s["cpm"] == 0.0 && s["engagement_rate"] == 0.0
  {
  }

  /** When clicks and views are both sent (as numbers or null), the
      engagement rate is the sum of the view and click rates. */
  lemma EngagementIsVtrPlusCtr(m: MetricsInput)
    requires !m.clicks.Missing? && !m.views.Missing?
    ensures var s := DerivedSnapshot(m); s["engagement_rate"] == s["vtr"] + s["ctr"]
  {
    var s := DerivedSnapshot(m);
    EngagementSum(m.clicks, m.views, m.impressions);
    assert s["engagement_rate"] == EngagementRate(m.clicks, m.views, m.impressions);
    assert s["vtr"] == Rate(m.views, m.impressions, 100.0);
    assert s["ctr"] == Rate(m.clicks, m.impressions, 100.0);
  }

  lemma EngagementSum(clicks: Field, views: Field, impressions: Field)
    requires !clicks.Missing? && !views.Missing?
    ensures EngagementRate(clicks, views, impressions) == Rate(views, impressions, 100.0) + Rate(clicks, impressions, 100.0)
  {
    if Truthy(impressions) {
      var i := impressions.n;
      assert Rate(views, impressions, 100.0) == OrZero(views) / i * 100.0;
      assert Rate(clicks, impressions, 100.0) == OrZero(clicks) / i * 100.0;
      assert EngagementRate(clicks, views, impressions) == (OrZero(clicks) + OrZero(views)) / i * 100.0;
      SplitQuotient(OrZero(clicks), OrZero(views), i);
    }
  }

  lemma SplitQuotient(x: real, y: real, d: real)
    requires d != 0.0
    ensures (x + y) / d * 100.0 == y / d * 100.0 + x / d * 100.0
  {
  }

  /** With spend, clicks and impressions all non-zero, the cost per mille is
      ten times the cost per click times the click rate. */
  lemma CpmFromCpcAndCtr(m: MetricsInput)
    requires Truthy(m.spend) && Truthy(m.clicks) && Truthy(m.impressions)
    ensures var s := DerivedSnapshot(m); s["cpm"] == 10.0 * s["cpc"] * s["ctr"]
  {
    var cpc, ctr, cpm := Rate(m.spend, m.clicks, 1.0), Rate(m.clicks, m.impressions, 100.0), Rate(m.spend, m.impressions, 1000.0);
    RatesIdentity(m.spend.n, m.clicks.n, m.impressions.n, cpc, ctr, cpm);
    var s := DerivedSnapshot(m);
    assert s["cpc"] == cpc && s["ctr"] == ctr && s["cpm"] == cpm;
  }

  /** The algebra behind `CpmFromCpcAndCtr`, over plain reals. */
  lemma RatesIdentity(sp: real, c: real, i: real, cpc: real, ctr: real, cpm: real)
    requires i != 0.0
    requires cpc * c == sp && ctr * i == c * 100.0 && cpm * i == sp * 1000.0
    ensures cpm == 10.0 * cpc * ctr
  {
    assert (10.0 * cpc * ctr) * i == 10.0 * cpc * (ctr * i);
    assert 10.0 * cpc * (c * 100.0) == 1000.0 * (cpc * c);
    assert (cpm - 10.0 * cpc * ctr) * i == 0.0;
  }

  /** Every stored row fires the seeded low-ROAS rule, at critical severity. */
  lemma StoredRowIsLowRoas(m: MetricsInput)
    ensures DecisionEngine.EvaluateRule(DerivedSnapshot(m), SeedDecisionRules.LowRoasRule)
    ensures DecisionEngine.CalculateSeverity(DerivedSnapshot(m), SeedDecisionRules.LowRoasRule) == Critical
  {
    SeedDecisionRules.ZeroRoasIsCritical(DerivedSnapshot(m));
  }

  /** A store whose metrics rows were all written by the server flags the
      publication with the low-ROAS recommendation at every evaluation, as
      long as the seeded rule is in the rule table. */
  lemma EvaluationAlwaysFlagsLowRoas(st: DecisionEngine.EngineState, metrics: seq<MetricsRow>, rules: seq<Rule>,
                                     pub: nat, fmt: DecisionEngine.Rendering, now: int)
    requires forall r :: r in metrics ==> "roas" in r.values && r.values["roas"] == 0.0
    requires SeedDecisionRules.LowRoasRule in rules
    requires exists r :: r in metrics && r.publicationId == pub
    ensures var res := DecisionEngine.Evaluate(st, metrics, rules, pub, fmt, now);
      res.1.Evaluated? && DecisionEngine.HasUnresolved(res.0.recs, pub, SeedDecisionRules.LowRoasRule.id)
  {
    var r :| r in metrics && r.publicationId == pub;
    var latest := DecisionEngine.LatestMetrics(metrics, pub);
    SeedDecisionRules.ZeroRoasIsCritical(latest.value.values);
    DecisionEngine.EvaluateCovers(st, metrics, rules, pub, fmt, now, SeedDecisionRules.LowRoasRule);
  }

  /** The outcome of a metrics report. */
  datatype UpdateResult =
    | PublicationNotFound
    | Stored(metrics: MetricsRow, evaluation: DecisionEngine.Evaluation)

  /** The user each campaign belongs to: the `user_id` of the project of the
      campaign's ecosystem, as the joins campaigns, ecosystems, projects
      reach it. A campaign the joins do not reach is absent. */
  type CampaignOwners = map<nat, nat>

  /** The publication's campaign belongs to the user. */
  predicate OwnedBy(p: Publication, owners: CampaignOwners, user: nat)
  {
    p.campaignId in owners && owners[p.campaignId] == user
  }

  /** The access query `... WHERE p.id = ? AND pr.user_id = ?` finds a row:
      the publication exists and belongs to the user. */
  predicate Accessible(pubs: seq<Publication>, owners: CampaignOwners, user: nat, id: nat)
  {
    exists i :: 0 <= i < |pubs| && pubs[i].id == id && OwnedBy(pubs[i], owners, user)
  }

  /** `INSERT INTO performance_metrics`: one row with a fresh id. */
  method InsertMetrics(db: Db, pub: nat, date: int, values: Snapshot, now: int) returns (row: MetricsRow)
    requires db.Valid()
    modifies db
    ensures db.Valid()
    ensures row == MetricsRow(old(db.nextId), pub, date, values, now)
    ensures db.metrics == old(db.metrics) + [row] && db.nextId == old(db.nextId) + 1
    ensures db.rules == old(db.rules) && db.publications == old(db.publications)
    ensures db.recommendations == old(db.recommendations)
  {
    row := MetricsRow(db.nextId, pub, date, values, now);
    db.metrics := db.metrics + [row];
    db.nextId := db.nextId + 1;
  }

  /** updatePerformanceMetrics: for a publication of the user's, stores one
      metrics row with the derived rates (dated by the report, or now) and
      then evaluates the publication, which therefore always finds a row. */
  method UpdatePerformanceMetrics(db: Db, owners: CampaignOwners, user: nat, pub: nat, input: MetricsInput, fmt: DecisionEngine.Rendering, now: int)
    returns (res: UpdateResult)
    requires db.Valid()
    modifies db
    ensures db.Valid()
    ensures db.rules == old(db.rules) && db.publications == old(db.publications)
    ensures res.PublicationNotFound? <==> !Accessible(old(db.publications), owners, user, pub)
    ensures res.PublicationNotFound? ==> db.metrics == old(db.metrics) && db.recommendations == old(db.recommendations) && db.nextId == old(db.nextId)
    ensures res.Stored? ==>
      res.metrics == MetricsRow(old(db.nextId), pub, input.metricDate.GetOr(now), DerivedSnapshot(input), now)
      && db.metrics == old(db.metrics) + [res.metrics]
      && res.evaluation.Evaluated?
    ensures res.Stored? ==>
      (DecisionEngine.EngineState(db.recommendations, db.nextId), res.evaluation)
         == DecisionEngine.Evaluate(DecisionEngine.EngineState(old(db.recommendations), old(db.nextId) + 1),
                                    db.metrics, db.rules, pub, fmt, now)
  {
    if !Accessible(db.publications, owners, user, pub) {
      return PublicationNotFound;
    }
    var row := InsertMetrics(db, pub, input.metricDate.GetOr(now), DerivedSnapshot(input), now);
    assert db.metrics[|db.metrics| - 1] == row;
    ghost var st1 := DecisionEngine.EngineState(db.recommendations, db.nextId);
    assert st1 == DecisionEngine.EngineState(old(db.recommendations), old(db.nextId) + 1);
    var evaluation := DecisionEngine.EvaluatePublication(db, pub, fmt, now);
    ghost var after := (DecisionEngine.EngineState(db.recommendations, db.nextId), evaluation);
    assert after == DecisionEngine.Evaluate(st1, db.metrics, db.rules, pub, fmt, now);
    res := Stored(row, evaluation);
  }

  // ---------------------------------------------------------------------
  // createPublication

  /** The body of a publication request, with JavaScript's falsy values
      already read as missing where the source writes `x || null`. */
  datatype PublicationInput = PublicationInput(
    campaignId: nat,
    contentPieceId: Option<nat>,
    name: string,
    platform: string,
    format: string,
    buyType: Option<string>,
    duration: Option<int>,
    objective: string,
    budget: real,
    startDate: Option<int>,
    endDate: Option<int>,
    parentId: Option<nat>)

  /** A new publication is active, and is version 2 when it names a parent
      and version 1 otherwise. */
  function NewPublication(id: nat, input: PublicationInput, now: int): (p: Publication)
    ensures p.id == id && p.status == "active" && p.parentId == input.parentId
    ensures p.creativeVersion == if input.parentId.Some? then 2 else 1
  {
    Publication(id, input.campaignId, input.contentPieceId, input.name, "active", input.platform, input.format,
      input.buyType, input.duration, input.objective, input.budget, input.startDate, input.endDate,
      if input.parentId.Some? then 2 else 1, input.parentId, now, now)
  }

  method CreatePublication(db: Db, input: PublicationInput, now: int) returns (p: Publication)
    requires db.Valid()
    modifies db
    ensures db.Valid()
    ensures p == NewPublication(old(db.nextId), input, now)
    ensures db.publications == old(db.publications) + [p] && db.nextId == old(db.nextId) + 1
    ensures db.rules == old(db.rules) && db.metrics == old(db.metrics) && db.recommendations == old(db.recommendations)
  {
    p := NewPublication(db.nextId, input, now);
    db.publications := db.publications + [p];
    db.nextId := db.nextId + 1;
  }

  // ---------------------------------------------------------------------
  // createCreativeVersion

  /** The first row the access query returns: the first publication with the
      id that belongs to the user, if any. */
  function FindPublication(pubs: seq<Publication>, owners: CampaignOwners, user: nat, id: nat): (r: Option<Publication>)
    ensures r.None? <==> !Accessible(pubs, owners, user, id)
    ensures r.Some? ==> r.value in pubs && r.value.id == id && OwnedBy(r.value, owners, user)
  {
    if pubs == [] then None
    else if pubs[0].id == id && OwnedBy(pubs[0], owners, user) then Some(pubs[0])
    else
      var rest := FindPublication(pubs[1..], owners, user, id);
      assert forall i :: 1 <= i < |pubs| ==> pubs[i] == pubs[1..][i - 1];
      assert Accessible(pubs[1..], owners, user, id) ==> Accessible(pubs, owners, user, id);
      rest
  }

  /** A row of the family `id = ? OR parent_id = ?`. */
  predicate InFamily(p: Publication, id: nat)
  {
    p.id == id || p.parentId == Some(id)
  }

  /** `SELECT MAX(creative_version) ... WHERE id = ? OR parent_id = ?`: NULL
      when no row matches. */
  function MaxVersion(pubs: seq<Publication>, id: nat): (m: Option<int>)
    ensures m.None? <==> forall i :: 0 <= i < |pubs| ==> !InFamily(pubs[i], id)
    ensures m.Some? ==> forall i :: 0 <= i < |pubs| && InFamily(pubs[i], id) ==> pubs[i].creativeVersion <= m.value
    ensures m.Some? ==> exists i :: 0 <= i < |pubs| && InFamily(pubs[i], id) && pubs[i].creativeVersion == m.value
  {
    if pubs == [] then None
    else
      var rest := MaxVersion(pubs[1..], id);
      assert forall i :: 1 <= i < |pubs| ==> pubs[i] == pubs[1..][i - 1];
      if !InFamily(pubs[0], id) then rest
      else if rest.Some? && rest.value > pubs[0].creativeVersion then rest
      else Some(pubs[0].creativeVersion)
  }

  /** `(max || 1) + 1`: a NULL or zero maximum counts as 1. */
  function VersionAfter(m: Option<int>): (v: int)
    ensures m.Some? ==> v > m.value
    ensures v >= 2 || (m.Some? && m.value < 0)
  {
    (if m.None? || m.value == 0 then 1 else m.value) + 1
  }

  /** The lineage a new version joins: `original.parent_id || id`. */
  function LineageRoot(original: Publication): nat
  {
    original.parentId.GetOr(original.id)
  }

  /** The version number as the source computes it: from the family of the
      publication being copied, which is not the lineage the copy joins. */
  function NextVersionAsWritten(pubs: seq<Publication>, original: Publication): int
  {
    VersionAfter(MaxVersion(pubs, original.id))
  }

  /** Copying version 2 twice gives two rows numbered 3 in the same lineage:
      the family of version 2 never includes the versions copied from it,
      because those name the root as their parent. */
  lemma AsWrittenVersionRepeats()
    ensures var root := Publication(1, 1, None, "Ad", "paused", "meta", "video", None, None, "ventas", 100.0,
                                    None, None, 1, None, 0, 0);
      var v2 := root.(id := 2, creativeVersion := 2, parentId := Some(1), name := "Ad - v2");
      var v3 := root.(id := 3, creativeVersion := 3, parentId := Some(1), name := "Ad - v3", status := "active");
      var pubs := [root, v2.(status := "paused"), v3];
      LineageRoot(v2) == 1 && InFamily(v3, LineageRoot(v2))
      && NextVersionAsWritten(pubs, v2) == v3.creativeVersion
  {
    var root := Publication(1, 1, None, "Ad", "paused", "meta", "video", None, None, "ventas", 100.0,
                            None, None, 1, None, 0, 0);
    var v2 := root.(id := 2, creativeVersion := 2, parentId := Some(1), name := "Ad - v2");
    var v3 := root.(id := 3, creativeVersion := 3, parentId := Some(1), name := "Ad - v3", status := "active");
    var pubs := [root, v2.(status := "paused"), v3];
    assert MaxVersion(pubs[2..], 2) == None;
    assert pubs[1..][1..] == pubs[2..];
    assert MaxVersion(pubs[1..], 2) == Some(2);
    assert MaxVersion(pubs, 2) == Some(2);
  }

  /** The corrected version number: from the whole lineage the new row
      joins. */
  function NextVersion(pubs: seq<Publication>, original: Publication): (v: int)
    requires original in pubs
    ensures forall i :: 0 <= i < |pubs| && InFamily(pubs[i], LineageRoot(original)) ==> pubs[i].creativeVersion < v
    ensures v >= 2 || original.creativeVersion < 0
  {
    var root := LineageRoot(original);
    var i :| 0 <= i < |pubs| && pubs[i] == original;
    assert InFamily(pubs[i], root);
    VersionAfter(MaxVersion(pubs, root))
  }

  /** The copy of the original that becomes version `version` of its lineage. */
  function NewVersion(id: nat, original: Publication, version: int, now: int): (p: Publication)
    ensures p.parentId == Some(LineageRoot(original)) && InFamily(p, LineageRoot(original))
    ensures p.status == "active" && p.creativeVersion == version
    ensures Strings.StartsWith(p.name, original.name + " - v")
  {
    var name := original.name + " - v" + Strings.IntToString(version);
    assert name[..|original.name + " - v"|] == original.name + " - v";
    original.(id := id, name := name, status := "active", startDate := Some(now), creativeVersion := version,
              parentId := Some(LineageRoot(original)), createdAt := now, updatedAt := now)
  }

  /** `UPDATE publications SET status = 'paused', updated_at = ? WHERE id = ?`. */
  function Pause(pubs: seq<Publication>, id: nat, now: int): (r: seq<Publication>)
    ensures |r| == |pubs|
    ensures forall i :: 0 <= i < |pubs| ==>
      if pubs[i].id == id then r[i] == pubs[i].(status := "paused", updatedAt := now) else r[i] == pubs[i]
  {
    seq(|pubs|, i requires 0 <= i < |pubs| =>
      if pubs[i].id == id then pubs[i].(status := "paused", updatedAt := now) else pubs[i])
  }

  datatype VersionResult = VersionNotFound | VersionCreated(publication: Publication)

  /** createCreativeVersion as written: for a publication of the user's, a
      copy numbered from the family of the copied row is added, active, and
      the original is paused. */
  method CreateCreativeVersion(db: Db, owners: CampaignOwners, user: nat, id: nat, now: int) returns (res: VersionResult)
    requires db.Valid()
    modifies db
    ensures db.Valid()
    ensures res.VersionNotFound? <==> !Accessible(old(db.publications), owners, user, id)
    ensures res.VersionNotFound? ==> db.publications == old(db.publications) && db.nextId == old(db.nextId)
    ensures res.VersionCreated? ==>
      var original := FindPublication(old(db.publications), owners, user, id).value;
      res.publication == NewVersion(old(db.nextId), original, NextVersionAsWritten(old(db.publications), original), now)
      && db.publications == Pause(old(db.publications), id, now) + [res.publication]
      && db.nextId == old(db.nextId) + 1
    ensures db.rules == old(db.rules) && db.metrics == old(db.metrics) && db.recommendations == old(db.recommendations)
  {
    var found := FindPublication(db.publications, owners, user, id);
    if found.None? {
      return VersionNotFound;
    }
    var original := found.value;
    var p := AddVersion(db, original, NextVersionAsWritten(db.publications, original), now);
    res := VersionCreated(p);
  }

  /** createCreativeVersion with the corrected numbering: the copy is
      numbered above every version of the lineage it joins. */
  method CreateCreativeVersionFixed(db: Db, owners: CampaignOwners, user: nat, id: nat, now: int)
    returns (res: VersionResult)
    requires db.Valid()
    modifies db
    ensures db.Valid()
    ensures res.VersionNotFound? <==> !Accessible(old(db.publications), owners, user, id)
    ensures res.VersionNotFound? ==> db.publications == old(db.publications) && db.nextId == old(db.nextId)
    ensures res.VersionCreated? ==>
      var original := FindPublication(old(db.publications), owners, user, id).value;
      res.publication == NewVersion(old(db.nextId), original, NextVersion(old(db.publications), original), now)
      && db.publications == Pause(old(db.publications), id, now) + [res.publication]
      && db.nextId == old(db.nextId) + 1
    ensures res.VersionCreated? ==>
      var original := FindPublication(old(db.publications), owners, user, id).value;
      forall i :: 0 <= i < |old(db.publications)| && InFamily(old(db.publications)[i], LineageRoot(original))
        ==> old(db.publications)[i].creativeVersion != res.publication.creativeVersion
    ensures db.rules == old(db.rules) && db.metrics == old(db.metrics) && db.recommendations == old(db.recommendations)
  {
    var found := FindPublication(db.publications, owners, user, id);
    if found.None? {
      return VersionNotFound;
    }
    var original := found.value;
    NewVersionIsFresh(db.publications, original, db.nextId, now);
    var p := AddVersion(db, original, NextVersion(db.publications, original), now);
    res := VersionCreated(p);
  }

  /** The insert and the pause of both numberings: the copy, with the next
      id, is appended and the original is paused. */
  method AddVersion(db: Db, original: Publication, version: int, now: int) returns (p: Publication)
    requires db.Valid() && original in db.publications
    modifies db
    ensures db.Valid()
    ensures p == NewVersion(old(db.nextId), original, version, now)
    ensures db.publications == Pause(old(db.publications), original.id, now) + [p] && db.nextId == old(db.nextId) + 1
    ensures db.rules == old(db.rules) && db.metrics == old(db.metrics) && db.recommendations == old(db.recommendations)
  {
    p := NewVersion(db.nextId, original, version, now);
    PauseAppend(db.publications, p, original.id, now, db.nextId + 1);
    var paused := Pause(db.publications + [p], original.id, now);
    db.publications, db.nextId := paused, db.nextId + 1;
  }

  /** Pausing after the new row is inserted pauses only old rows, and keeps
      every row's id. */
  lemma PauseAppend(pubs: seq<Publication>, p: Publication, id: nat, now: int, bound: nat)
    requires p.id != id
    requires p.id < bound && forall i :: 0 <= i < |pubs| ==> pubs[i].id < bound
    ensures Pause(pubs + [p], id, now) == Pause(pubs, id, now) + [p]
    ensures var r := Pause(pubs + [p], id, now); forall i :: 0 <= i < |r| ==> r[i].id < bound
  {
    var r, q := Pause(pubs + [p], id, now), Pause(pubs, id, now) + [p];
    assert forall i :: 0 <= i < |pubs| ==> (pubs + [p])[i] == pubs[i];
    assert forall i :: 0 <= i < |r| ==> r[i] == q[i];
  }

  /** The new row's number is above every version already in the lineage it
      joins, so the lineage never holds the same number twice through this
      operation. */
  lemma NewVersionIsFresh(pubs: seq<Publication>, original: Publication, id: nat, now: int)
    requires original in pubs
    ensures var p := NewVersion(id, original, NextVersion(pubs, original), now);
      forall i :: 0 <= i < |pubs| && InFamily(pubs[i], LineageRoot(original)) ==> pubs[i].creativeVersion != p.creativeVersion
  {
  }
}
