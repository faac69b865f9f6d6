/** The performance dashboard of a campaign: the stat cards fed by the
    recommendation statistics, the campaign averages of the latest snapshots,
    the severity-ordered panel of active recommendations, and the choice
    between the flow view and the tree view. */
module PerformanceDashboard {
  import opened Wrappers
  import opened Tables
  import Sorting
  import Strings
  import DecisionEngine
  import PublicationFlow

  type Snapshot = PublicationFlow.Snapshot

  /** A publication as the dashboard loads it: its snapshots, newest first,
      and its recommendations (an absent list is the empty one). */
  datatype CampaignPublication = CampaignPublication(
    id: nat,
    metrics: seq<Snapshot>,
    recommendations: seq<Recommendation>)

  datatype Campaign = Campaign(name: string, publications: seq<CampaignPublication>)

  // ---------------------------------------------------------------------
  // Stat cards
  // ---------------------------------------------------------------------

  /** `value || 0`: a NULL sum is shown as 0. */
  function Shown(v: Option<nat>): (n: nat)
    ensures v.None? ==> n == 0
    ensures v.Some? ==> n == v.value
  {
    if v.Some? then v.value else 0
  }

  /** The three alert cards: the counts shown and whether the critical and
      high cards are highlighted (`stats.critical > 0`, which is false for
      NULL). */
  datatype StatCards = StatCards(critical: nat, high: nat, active: nat, criticalAlert: bool, highAlert: bool)

  function StatCardsOf(stats: DecisionEngine.Stats): (c: StatCards)
    ensures c.criticalAlert <==> c.critical > 0
    ensures c.highAlert <==> c.high > 0
  {
    var critical := Shown(stats.critical);
    var high := Shown(stats.high);
    StatCards(critical, high, Shown(stats.active), critical > 0, high > 0)
  }

  /** With the statistics the engine computes, the two alert cards never
      show more than the active card, and a campaign without
      recommendations shows zero everywhere and highlights nothing. */
  lemma StatCardsConsistent(recs: seq<Recommendation>, pubs: seq<Publication>, campaign: nat)
    ensures var c := StatCardsOf(DecisionEngine.GetRecommendationStats(recs, pubs, campaign));
      c.critical + c.high <= c.active
      && (DecisionEngine.CampaignRows(recs, pubs, campaign) == [] ==>
            c.critical == 0 && c.high == 0 && c.active == 0 && !c.criticalAlert && !c.highAlert)
  {
  }

  // ---------------------------------------------------------------------
  // Quick metrics
  // ---------------------------------------------------------------------

  /** The latest snapshot of each publication that has one, in order. */
  function LatestSnapshots(pubs: seq<CampaignPublication>): (r: seq<Snapshot>)
    ensures |r| <= |pubs|
  {
    if pubs == [] then []
    else (if pubs[0].metrics != [] then [pubs[0].metrics[0]] else []) + LatestSnapshots(pubs[1..])
  }

  /** Each latest snapshot taken belongs to a publication of the campaign. */
  lemma {:induction false} LatestSnapshotsFrom(pubs: seq<CampaignPublication>, i: nat)
    requires i < |LatestSnapshots(pubs)|
    ensures exists j :: 0 <= j < |pubs| && pubs[j].metrics != [] && pubs[j].metrics[0] == LatestSnapshots(pubs)[i]
  {
    var head := if pubs[0].metrics != [] then [pubs[0].metrics[0]] else [];
    if i < |head| {
      assert pubs[0].metrics[0] == LatestSnapshots(pubs)[i];
    } else {
      LatestSnapshotsFrom(pubs[1..], i - |head|);
      var j :| 0 <= j < |pubs[1..]| && pubs[1..][j].metrics != [] && pubs[1..][j].metrics[0] == LatestSnapshots(pubs[1..])[i - |head|];
      assert pubs[j + 1].metrics[0] == LatestSnapshots(pubs)[i];
    }
  }

  datatype Metric = Vtr | Ctr | Cpa | Roas

  function Column(snaps: seq<Snapshot>, m: Metric): (r: seq<real>)
    ensures |r| == |snaps|
    ensures forall i :: 0 <= i < |r| ==> r[i] == Read(snaps[i], m)
  {
    if snaps == [] then [] else [Read(snaps[0], m)] + Column(snaps[1..], m)
  }

  function Read(s: Snapshot, m: Metric): real
  {
    match m
    case Vtr => s.vtr
    case Ctr => s.ctr
    case Cpa => s.cpa
    case Roas => s.roas
  }

  datatype Averages = Averages(vtr: real, ctr: real, cpa: real, roas: real)

  /** `renderQuickMetrics`: no averages (the empty state) when no publication
      has metrics, otherwise the mean of each metric over the latest
      snapshots. */
  function QuickMetrics(pubs: seq<CampaignPublication>): (r: Option<Averages>)
    ensures r.None? <==> LatestSnapshots(pubs) == []
  {
    var snaps := LatestSnapshots(pubs);
    if snaps == [] then None
    else Some(Averages(
      PublicationFlow.Mean(Column(snaps, Vtr)),
      PublicationFlow.Mean(Column(snaps, Ctr)),
      PublicationFlow.Mean(Column(snaps, Cpa)),
      PublicationFlow.Mean(Column(snaps, Roas))))
  }

  /** The class of an average: bad strictly below the low bound, good
      strictly above the high one, and none in between, bounds included. */
  function QuickClass(avg: real, bad: real, good: real): (c: string)
    requires bad <= good
    ensures c == "metric-bad" <==> avg < bad
    ensures c == "metric-good" <==> avg > good
    ensures c == "" <==> bad <= avg <= good
  {
    if avg < bad then "metric-bad" else if avg > good then "metric-good" else ""
  }

  /** The bounds of the three classed averages; the CPA average has none. */
  function QuickBounds(m: Metric): Option<(real, real)>
  {
    match m
    case Vtr => Some((10.0, 25.0))
    case Ctr => Some((1.0, 3.0))
    case Roas => Some((2.0, 5.0))
    case Cpa => None
  }

  /** A VTR average of exactly 25 gets no class here, while the publication
      flow calls the same value good. */
  lemma VtrBoundaryDiffers()
    ensures QuickClass(25.0, 10.0, 25.0) == ""
    ensures PublicationFlow.MetricClass(25.0, "vtr") == "metric-good"
  {
  }

  /** When every latest snapshot is below a metric's low bound the average is
      marked bad, and when none is, it is not. */
  lemma UniformSnapshotsClass(pubs: seq<CampaignPublication>, m: Metric)
    requires QuickBounds(m).Some? && LatestSnapshots(pubs) != []
    ensures var (bad, good) := QuickBounds(m).value;
      var snaps := LatestSnapshots(pubs);
      ((forall i :: 0 <= i < |snaps| ==> Read(snaps[i], m) < bad) ==>
         QuickClass(PublicationFlow.Mean(Column(snaps, m)), bad, good) == "metric-bad")
      && ((forall i :: 0 <= i < |snaps| ==> bad <= Read(snaps[i], m)) ==>
         QuickClass(PublicationFlow.Mean(Column(snaps, m)), bad, good) != "metric-bad")
  {
    var (bad, good) := QuickBounds(m).value;
    var xs := Column(LatestSnapshots(pubs), m);
    if forall i :: 0 <= i < |xs| ==> xs[i] < bad {
      PublicationFlow.MeanBelow(xs, bad);
    }
    if forall i :: 0 <= i < |xs| ==> bad <= xs[i] {
      PublicationFlow.MeanAtLeast(xs, bad);
    }
  }

  // ---------------------------------------------------------------------
  // Active recommendations
  // ---------------------------------------------------------------------

  const ShownLimit: nat := 10

  /** `flatMap(pub => pub.recommendations || [])`. */
  function AllRecommendations(pubs: seq<CampaignPublication>): seq<Recommendation>
  {
    if pubs == [] then []
    else pubs[0].recommendations + AllRecommendations(pubs[1..])
  }

  /** Every recommendation of every publication is in the combined list. */
  lemma {:induction false} AllRecommendationsCollects(pubs: seq<CampaignPublication>, p: CampaignPublication)
    requires p in pubs
    ensures multiset(p.recommendations) <= multiset(AllRecommendations(pubs))
  {
    if pubs[0] != p {
      AllRecommendationsCollects(pubs[1..], p);
    }
  }

  /** The comparator `severityOrder[a.severity] - severityOrder[b.severity]`,
      as an ascending key. */
  function SeverityKey(r: Recommendation): Sorting.Key
  {
    (DecisionEngine.Rank(r.severity) as real, 0.0)
  }

  function BySeverity(pubs: seq<CampaignPublication>): seq<Recommendation>
  {
    Sorting.SortBy(AllRecommendations(pubs), SeverityKey)
  }

  datatype RecommendationsPanel =
    | AllClear
    | Panel(count: nat, shown: seq<Recommendation>, more: Option<nat>)

  /** `renderActiveRecommendations`: the all-clear card without
      recommendations; otherwise the count, the first ten in severity order,
      and the number of the rest when there are more than ten. */
  function ActiveRecommendations(pubs: seq<CampaignPublication>): (panel: RecommendationsPanel)
    ensures panel.AllClear? <==> AllRecommendations(pubs) == []
    ensures panel.Panel? ==>
      panel.count == |AllRecommendations(pubs)|
      && |panel.shown| == (if panel.count <= ShownLimit then panel.count else ShownLimit)
      && (panel.more.Some? <==> panel.count > ShownLimit)
      && (panel.more.Some? ==> panel.more.value == panel.count - ShownLimit && |panel.shown| + panel.more.value == panel.count)
  {
    var sorted := BySeverity(pubs);
    if sorted == [] then AllClear
    else
      var shown := if |sorted| <= ShownLimit then sorted else sorted[..ShownLimit];
      Panel(|sorted|, shown, if |sorted| > ShownLimit then Some(|sorted| - ShownLimit) else None)
  }

  /** The shown recommendations come from the campaign's publications, in
      severity order, and every recommendation left out is no more severe
      than any shown one. With ten or fewer, all of them are shown. */
  lemma PanelShowsMostSevere(pubs: seq<CampaignPublication>)
    requires ActiveRecommendations(pubs).Panel?
    ensures multiset(ActiveRecommendations(pubs).shown) <= multiset(AllRecommendations(pubs))
    ensures var shown := ActiveRecommendations(pubs).shown;
      forall i, j :: 0 <= i < j < |shown| ==>
        DecisionEngine.Rank(shown[i].severity) <= DecisionEngine.Rank(shown[j].severity)
    ensures var shown := ActiveRecommendations(pubs).shown;
      forall r, i :: r in multiset(AllRecommendations(pubs)) - multiset(shown) && 0 <= i < |shown| ==>
        DecisionEngine.Rank(shown[i].severity) <= DecisionEngine.Rank(r.severity)
    ensures ActiveRecommendations(pubs).count <= ShownLimit ==>
      multiset(ActiveRecommendations(pubs).shown) == multiset(AllRecommendations(pubs))
  {
    var sorted := BySeverity(pubs);
    PanelPrefix(pubs);
    ShownPrefix(AllRecommendations(pubs), sorted, ActiveRecommendations(pubs).shown);
  }

  /** The shown recommendations are the first ones of the sorted list, all of
      them when the count is within the limit. */
  lemma PanelPrefix(pubs: seq<CampaignPublication>)
    requires ActiveRecommendations(pubs).Panel?
    ensures var shown := ActiveRecommendations(pubs).shown;
      |shown| <= |BySeverity(pubs)| && shown == BySeverity(pubs)[..|shown|]
    ensures ActiveRecommendations(pubs).count <= ShownLimit ==> |ActiveRecommendations(pubs).shown| == |BySeverity(pubs)|
  {
    var sorted := BySeverity(pubs);
    assert sorted[..|sorted|] == sorted;
  }

  /** The panel facts for any prefix of a severity-sorted permutation. */
  lemma ShownPrefix(all: seq<Recommendation>, sorted: seq<Recommendation>, shown: seq<Recommendation>)
    requires multiset(sorted) == multiset(all) && Sorting.SortedBy(sorted, SeverityKey)
    requires |shown| <= |sorted| && shown == sorted[..|shown|]
    ensures multiset(shown) <= multiset(all)
    ensures forall i, j :: 0 <= i < j < |shown| ==>
      DecisionEngine.Rank(shown[i].severity) <= DecisionEngine.Rank(shown[j].severity)
    ensures forall r, i :: r in multiset(all) - multiset(shown) && 0 <= i < |shown| ==>
      DecisionEngine.Rank(shown[i].severity) <= DecisionEngine.Rank(r.severity)
    ensures |shown| == |sorted| ==> multiset(shown) == multiset(all)
  {
    SortedPrefix(sorted, |shown|);
    if |shown| == |sorted| {
      assert shown == sorted;
    }
  }

  /** The first `k` of a list sorted by severity are in severity order, and
      none of the rest is more severe than any of them. */
  lemma SortedPrefix(sorted: seq<Recommendation>, k: nat)
    requires Sorting.SortedBy(sorted, SeverityKey) && k <= |sorted|
    ensures multiset(sorted) == multiset(sorted[..k]) + multiset(sorted[k..])
    ensures forall i, j :: 0 <= i < j < k ==>
      DecisionEngine.Rank(sorted[i].severity) <= DecisionEngine.Rank(sorted[j].severity)
    ensures forall r, i :: r in multiset(sorted) - multiset(sorted[..k]) && 0 <= i < k ==>
      DecisionEngine.Rank(sorted[i].severity) <= DecisionEngine.Rank(r.severity)
  {
    assert sorted == sorted[..k] + sorted[k..];
    forall i, j | 0 <= i < j < k
      ensures DecisionEngine.Rank(sorted[i].severity) <= DecisionEngine.Rank(sorted[j].severity)
    {
      assert Sorting.KeyLe(SeverityKey(sorted[i]), SeverityKey(sorted[j]));
    }
    forall r, i | r in multiset(sorted) - multiset(sorted[..k]) && 0 <= i < k
      ensures DecisionEngine.Rank(sorted[i].severity) <= DecisionEngine.Rank(r.severity)
    {
      assert r in sorted[k..];
      var l :| 0 <= l < |sorted[k..]| && sorted[k..][l] == r;
      assert Sorting.KeyLe(SeverityKey(sorted[i]), SeverityKey(sorted[k + l]));
    }
  }

  /** Recommendations of equal severity keep the order of the publications
      and of each publication's list. */
  lemma PanelKeepsLoadOrder(pubs: seq<CampaignPublication>, s: Severity)
    ensures Sorting.WithKey(BySeverity(pubs), SeverityKey, (DecisionEngine.Rank(s) as real, 0.0))
         == Sorting.WithKey(AllRecommendations(pubs), SeverityKey, (DecisionEngine.Rank(s) as real, 0.0))
  {
    Sorting.SortByStable(AllRecommendations(pubs), SeverityKey, (DecisionEngine.Rank(s) as real, 0.0));
  }

  /** The "new version" button is offered when the action text mentions the
      creative. */
  predicate OffersNewVersion(r: Recommendation)
  {
    Strings.Contains(r.actionRequired, "creativo")
  }

  /** An action without an entry in the description table gets the fallback
      text, which never offers a new version. */
  lemma FallbackActionOffersNoNewVersion(fmt: DecisionEngine.Rendering, action: string)
    requires action !in fmt.actions
    ensures !Strings.Contains(DecisionEngine.ActionDescription(fmt, action), "creativo")
  {
    assert "creativo"[0] == 'c';
    Strings.MissingCharNotContained(DecisionEngine.DefaultAction, "creativo", 'c');
  }

  /** `getSeverityIcon`; an unknown severity gets the white circle. */
  function SeverityIcon(severity: string): (icon: string)
    ensures severity !in {"critical", "high", "medium", "low"} ==> icon == "\U{26AA}"
  {
    if severity == "critical" then "\U{1F534}"
    else if severity == "high" then "\U{1F7E0}"
    else if severity == "medium" then "\U{1F7E1}"
    else if severity == "low" then "\U{1F535}"
    else "\U{26AA}"
  }

  /** The severity as the engine writes it into the row. */
  function SeverityName(s: Severity): string
  {
    match s
    case Critical => "critical"
    case High => "high"
    case Medium => "medium"
    case Low => "low"
  }

  /** Every severity the engine produces has its own icon, and none gets the
      fallback. */
  lemma EngineSeveritiesHaveIcons(a: Severity, b: Severity)
    ensures SeverityIcon(SeverityName(a)) != "\U{26AA}"
    ensures a != b ==> SeverityIcon(SeverityName(a)) != SeverityIcon(SeverityName(b))
  {
  }

  // ---------------------------------------------------------------------
  // The view
  // ---------------------------------------------------------------------

  datatype Page =
    | MissingCampaignId
    | LoadError
    | FlowPage(stats: StatCards)
    | TreePage(stats: StatCards, quick: Option<Averages>, panel: RecommendationsPanel)

  class Dashboard {
    var campaignId: Option<nat>
    var campaign: Option<Campaign>
    var currentView: string

    constructor (campaignId: Option<nat>)
      ensures this.campaignId == campaignId && campaign == None && currentView == "flow"
    {
      this.campaignId := campaignId;
      campaign := None;
      currentView := "flow";
    }

    /** `render()`, with the campaign request and the statistics request as
        parameters (None when the request throws). The loaded campaign is
        kept even when the statistics request fails afterwards; the flow view
        shows no averages and no panel. */
    method Render(loaded: Option<Campaign>, stats: Option<DecisionEngine.Stats>) returns (page: Page)
      modifies this
      ensures campaignId == old(campaignId) && currentView == old(currentView)
      ensures campaignId.None? ==> page == MissingCampaignId && campaign == old(campaign)
      ensures campaignId.Some? && loaded.None? ==> page == LoadError && campaign == old(campaign)
      ensures campaignId.Some? && loaded.Some? ==> campaign == loaded
      ensures campaignId.Some? && loaded.Some? && stats.None? ==> page == LoadError
      ensures campaignId.Some? && loaded.Some? && stats.Some? ==>
        page == if currentView == "flow" then FlowPage(StatCardsOf(stats.value))
                else TreePage(StatCardsOf(stats.value), QuickMetrics(loaded.value.publications),
                              ActiveRecommendations(loaded.value.publications))
    {
      if campaignId.None? {
        return MissingCampaignId;
      }
      if loaded.None? {
        return LoadError;
      }
      campaign := loaded;
      if stats.None? {
        return LoadError;
      }
      var cards := StatCardsOf(stats.value);
      if currentView == "flow" {
        page := FlowPage(cards);
      } else {
        var pubs := loaded.value.publications;
        page := TreePage(cards, QuickMetrics(pubs), ActiveRecommendations(pubs));
      }
    }

    /** `switchView(view)`; the re-render that follows is `Render`. */
    method SwitchView(view: string)
      modifies this
      ensures currentView == view && campaignId == old(campaignId) && campaign == old(campaign)
    {
      currentView := view;
    }
  }
}
