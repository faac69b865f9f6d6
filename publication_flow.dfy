/** The publication flow view of a campaign: the metric getters with their
    defaults, the filter and sort selectors, the four performance lanes of the
    pipeline, the VTR/CPA correlation summary and the CSS class of a metric. */
module PublicationFlow {
  import opened Wrappers
  import Sorting

  /** The fields of a metrics snapshot the view reads. */
  datatype Snapshot = Snapshot(vtr: real, ctr: real, cpa: real, roas: real)

  /** A publication as the view receives it; `metrics` is newest first and an
      absent list is the empty one. */
  datatype Publication = Publication(id: nat, createdAt: int, metrics: seq<Snapshot>)

  const NoCpa: real := 999999.0

  /** `getVTR`: the latest VTR, or 0 without metrics. */
  function VTR(p: Publication): (v: real)
    ensures p.metrics == [] ==> v == 0.0
    ensures p.metrics != [] ==> v == p.metrics[0].vtr
  {
    if p.metrics != [] then p.metrics[0].vtr else 0.0
  }

  /** `getCPA`: the latest CPA, or 999999 without metrics, so that such a
      publication sorts last by cost. */
  function CPA(p: Publication): (c: real)
    ensures p.metrics == [] ==> c == NoCpa
    ensures p.metrics != [] ==> c == p.metrics[0].cpa
  {
    if p.metrics != [] then p.metrics[0].cpa else NoCpa
  }

  /** `getCPL`: there is no CPL in the snapshot, so it is the CPA. */
  function CPL(p: Publication): (c: real)
    ensures c == CPA(p)
  {
    CPA(p)
  }

  /** `getROAS`: the latest ROAS, or 0 without metrics. */
  function ROAS(p: Publication): (r: real)
    ensures p.metrics == [] ==> r == 0.0
    ensures p.metrics != [] ==> r == p.metrics[0].roas
  {
    if p.metrics != [] then p.metrics[0].roas else 0.0
  }

  predicate HasMetrics(p: Publication)
  {
    p.metrics != []
  }

  // ---------------------------------------------------------------------
  // Filters and lanes
  // ---------------------------------------------------------------------

  datatype Filter = All | Excellent | Warning | Critical | WithMetrics | WithoutMetrics

  /** The `filterBy` value as the switch reads it; any other value shows
      everything. */
  function ParseFilter(s: string): (f: Filter)
    ensures f == All <==> s !in {"excellent", "warning", "critical", "has-metrics", "no-metrics"}
  {
    if s == "excellent" then Excellent
    else if s == "warning" then Warning
    else if s == "critical" then Critical
    else if s == "has-metrics" then WithMetrics
    else if s == "no-metrics" then WithoutMetrics
    else All
  }

  /** The condition of each filter; the three performance filters are also the
      conditions of the pipeline lanes of the same name. */
  predicate Passes(f: Filter, p: Publication)
  {
    match f
    case All => true
    case Excellent => VTR(p) >= 25.0
    case Warning => 10.0 <= VTR(p) < 25.0
    case Critical => 0.0 < VTR(p) < 10.0
    case WithMetrics => HasMetrics(p)
    case WithoutMetrics => !HasMetrics(p)
  }

  /** `publications.filter(...)`: the publications passing `f`, in order. */
  function Keep(pubs: seq<Publication>, f: Filter): (r: seq<Publication>)
    ensures |r| <= |pubs|
  {
    if pubs == [] then []
    else (if Passes(f, pubs[0]) then [pubs[0]] else []) + Keep(pubs[1..], f)
  }

  /** A publication is kept exactly when it is in the list and passes the
      filter. */
  lemma {:induction false} KeepMembers(pubs: seq<Publication>, f: Filter, p: Publication)
    ensures p in Keep(pubs, f) <==> p in pubs && Passes(f, p)
  {
    if pubs != [] {
      KeepMembers(pubs[1..], f, p);
      assert pubs == [pubs[0]] + pubs[1..];
    }
  }

  lemma KeepCons(p: Publication, t: seq<Publication>, f: Filter)
    ensures Keep([p] + t, f) == (if Passes(f, p) then [p] else []) + Keep(t, f)
  {
    assert ([p] + t)[1..] == t;
  }

  lemma AppendAssoc(x: seq<Publication>, y: seq<Publication>, z: seq<Publication>)
    ensures x + (y + z) == (x + y) + z
  {
  }

  /** Filtering is done piece by piece, so the relative order of the kept
      publications is the input order. */
  lemma {:induction false} KeepAppend(a: seq<Publication>, b: seq<Publication>, f: Filter)
    ensures Keep(a + b, f) == Keep(a, f) + Keep(b, f)
  {
    if a != [] {
      var head: seq<Publication> := if Passes(f, a[0]) then [a[0]] else [];
      assert a == [a[0]] + a[1..];
      assert a + b == [a[0]] + (a[1..] + b);
      KeepCons(a[0], a[1..] + b, f);
      KeepCons(a[0], a[1..], f);
      KeepAppend(a[1..], b, f);
      AppendAssoc(head, Keep(a[1..], f), Keep(b, f));
    } else {
      assert a + b == b;
    }
  }

  /** The unknown filter and `all` keep the list as it is. */
  lemma {:induction false} KeepAll(pubs: seq<Publication>)
    ensures Keep(pubs, All) == pubs
  {
    if pubs != [] {
      KeepAll(pubs[1..]);
      assert pubs == [pubs[0]] + pubs[1..];
    }
  }

  /** `has-metrics` and `no-metrics` split the list: every publication is in
      exactly one of the two, and nothing is lost or duplicated. */
  lemma {:induction false} MetricsFiltersPartition(pubs: seq<Publication>)
    ensures multiset(Keep(pubs, WithMetrics)) + multiset(Keep(pubs, WithoutMetrics)) == multiset(pubs)
    ensures |Keep(pubs, WithMetrics)| + |Keep(pubs, WithoutMetrics)| == |pubs|
  {
    if pubs != [] {
      MetricsFiltersPartition(pubs[1..]);
      var head := [pubs[0]];
      assert pubs == head + pubs[1..];
      assert multiset(pubs) == multiset(head) + multiset(pubs[1..]);
      if HasMetrics(pubs[0]) {
        assert Keep(pubs, WithMetrics) == head + Keep(pubs[1..], WithMetrics);
        assert Keep(pubs, WithoutMetrics) == Keep(pubs[1..], WithoutMetrics);
      } else {
        assert Keep(pubs, WithMetrics) == Keep(pubs[1..], WithMetrics);
        assert Keep(pubs, WithoutMetrics) == head + Keep(pubs[1..], WithoutMetrics);
      }
    }
  }

  /** A kept sub-list of a sorted list is sorted. */
  lemma {:induction false} KeepSorted(pubs: seq<Publication>, f: Filter, key: Publication -> Sorting.Key)
    requires Sorting.SortedBy(pubs, key)
    ensures Sorting.SortedBy(Keep(pubs, f), key)
  {
    if pubs != [] {
      assert Sorting.SortedBy(pubs[1..], key);
      KeepSorted(pubs[1..], f, key);
      var rest := Keep(pubs[1..], f);
      if Passes(f, pubs[0]) {
        forall j | 0 <= j < |rest|
          ensures Sorting.KeyLe(key(pubs[0]), key(rest[j]))
        {
          KeepMembers(pubs[1..], f, rest[j]);
          var k :| 0 <= k < |pubs[1..]| && pubs[1..][k] == rest[j];
          assert pubs[k + 1] == rest[j];
        }
        Sorting.SortedCons(pubs[0], rest, key);
      }
    }
  }

  /** The four lanes of `renderFlowPipeline`, each drawn from the sorted list. */
  datatype Lanes = Lanes(
    excellent: seq<Publication>,
    warning: seq<Publication>,
    critical: seq<Publication>,
    noMetrics: seq<Publication>)

  function LanesOf(sorted: seq<Publication>): Lanes
  {
    Lanes(Keep(sorted, Excellent), Keep(sorted, Warning), Keep(sorted, Critical), Keep(sorted, WithoutMetrics))
  }

  /** The lane conditions exclude one another, and a publication lands in a
      lane exactly when it has no metrics or a positive VTR: one with metrics
      and a VTR of 0 or below is shown in no lane. */
  lemma LaneConditions(p: Publication)
    ensures !(Passes(Excellent, p) && Passes(Warning, p))
    ensures !(Passes(Excellent, p) && Passes(Critical, p))
    ensures !(Passes(Excellent, p) && Passes(WithoutMetrics, p))
    ensures !(Passes(Warning, p) && Passes(Critical, p))
    ensures !(Passes(Warning, p) && Passes(WithoutMetrics, p))
    ensures !(Passes(Critical, p) && Passes(WithoutMetrics, p))
    ensures (Passes(Excellent, p) || Passes(Warning, p) || Passes(Critical, p) || Passes(WithoutMetrics, p))
        <==> !HasMetrics(p) || VTR(p) > 0.0
  {
  }

  /** The lanes share no publication, and every publication of the list with
      no metrics or a positive VTR is in one of them. */
  lemma LanesPartition(sorted: seq<Publication>, p: Publication)
    ensures var l := LanesOf(sorted);
      (p in l.excellent ==> p !in l.warning && p !in l.critical && p !in l.noMetrics)
      && (p in l.warning ==> p !in l.critical && p !in l.noMetrics)
      && (p in l.critical ==> p !in l.noMetrics)
    ensures var l := LanesOf(sorted);
      p in sorted && (!HasMetrics(p) || VTR(p) > 0.0) ==>
        p in l.excellent || p in l.warning || p in l.critical || p in l.noMetrics
    ensures var l := LanesOf(sorted);
      HasMetrics(p) && VTR(p) <= 0.0 ==>
        p !in l.excellent && p !in l.warning && p !in l.critical && p !in l.noMetrics
  {
    LaneConditions(p);
    KeepMembers(sorted, Excellent, p);
    KeepMembers(sorted, Warning, p);
    KeepMembers(sorted, Critical, p);
    KeepMembers(sorted, WithoutMetrics, p);
  }

  // ---------------------------------------------------------------------
  // Sorting
  // ---------------------------------------------------------------------

  datatype SortField = ByVtr | ByCpa | ByCpl | ByRoas | ByRecent | Unsorted

  /** The `sortBy` value as the switch reads it; any other value leaves the
      copy unsorted. */
  function ParseSort(s: string): (order: SortField)
    ensures order == Unsorted <==> s !in {"vtr", "cpa", "cpl", "roas", "recent"}
  {
    if s == "vtr" then ByVtr
    else if s == "cpa" then ByCpa
    else if s == "cpl" then ByCpl
    else if s == "roas" then ByRoas
    else if s == "recent" then ByRecent
    else Unsorted
  }

  /** The comparator as an ascending key: VTR, ROAS and creation time are
      sorted descending, so their key is the negated value. */
  function SortKey(order: SortField, p: Publication): Sorting.Key
  {
    match order
    case ByVtr => (-VTR(p), 0.0)
    case ByCpa => (CPA(p), 0.0)
    case ByCpl => (CPL(p), 0.0)
    case ByRoas => (-ROAS(p), 0.0)
    case ByRecent => (-(p.createdAt as real), 0.0)
    case Unsorted => (0.0, 0.0)
  }

  function KeyOf(order: SortField): Publication -> Sorting.Key
  {
    p => SortKey(order, p)
  }

  /** Sorted by the key means: VTR and ROAS never increase along the list,
      CPA never decreases, and the newest publication comes first. */
  lemma SortedMeaning(s: seq<Publication>, order: SortField, i: nat, j: nat)
    requires Sorting.SortedBy(s, KeyOf(order)) && i < j < |s|
    ensures order == ByVtr ==> VTR(s[i]) >= VTR(s[j])
    ensures order == ByCpa || order == ByCpl ==> CPA(s[i]) <= CPA(s[j])
    ensures order == ByRoas ==> ROAS(s[i]) >= ROAS(s[j])
    ensures order == ByRecent ==> s[i].createdAt >= s[j].createdAt
  {
    assert Sorting.KeyLe(KeyOf(order)(s[i]), KeyOf(order)(s[j]));
  }

  /** `Array.prototype.sort` on the copy, as an insertion sort by swaps. */
  method InsertionSort(a: array<Publication>, order: SortField)
    modifies a
    ensures Sorting.SortedBy(a[..], KeyOf(order))
    ensures multiset(a[..]) == multiset(old(a[..]))
  {
    var key := KeyOf(order);
    for i := 0 to a.Length
      invariant forall k, l :: 0 <= k < l < i ==> Sorting.KeyLe(key(a[k]), key(a[l]))
      invariant multiset(a[..]) == multiset(old(a[..]))
    {
      Sift(a, i, key);
    }
    assert forall k, l :: 0 <= k < l < a.Length ==> Sorting.KeyLe(key(a[..][k]), key(a[..][l]));
  }

  /** One insertion step: moves `a[i]` down past every element with a larger
      key, so that `a[..i+1]` is sorted. */
  method Sift(a: array<Publication>, i: nat, key: Publication -> Sorting.Key)
    requires i < a.Length
    requires forall k, l :: 0 <= k < l < i ==> Sorting.KeyLe(key(a[k]), key(a[l]))
    modifies a
    ensures forall k, l :: 0 <= k < l <= i ==> Sorting.KeyLe(key(a[k]), key(a[l]))
    ensures multiset(a[..]) == multiset(old(a[..]))
  {
    var j := i;
    while j > 0 && !Sorting.KeyLe(key(a[j - 1]), key(a[j]))
      invariant 0 <= j <= i
      invariant forall k, l :: 0 <= k < l <= i && k != j && l != j ==> Sorting.KeyLe(key(a[k]), key(a[l]))
      invariant forall l :: j < l <= i ==> Sorting.KeyLe(key(a[j]), key(a[l]))
      invariant multiset(a[..]) == multiset(old(a[..]))
    {
      Swap(a, j - 1, j);
      j := j - 1;
    }
  }

  /** Exchanges two adjacent elements, leaving the rest of the array and its
      multiset of elements as they were. */
  method Swap(a: array<Publication>, i: nat, j: nat)
    requires i < j < a.Length
    modifies a
    ensures a[i] == old(a[j]) && a[j] == old(a[i])
    ensures forall k :: 0 <= k < a.Length && k != i && k != j ==> a[k] == old(a[k])
    ensures multiset(a[..]) == multiset(old(a[..]))
  {
    a[i], a[j] := a[j], a[i];
    assert a[..] == old(a[..])[i := old(a[j])][j := old(a[i])];
  }

  // ---------------------------------------------------------------------
  // Correlation summary
  // ---------------------------------------------------------------------

  datatype Band = High | Medium | Low

  /** The VTR segments of `calculateCorrelationStats`; unlike the lanes, the
      low segment also holds a VTR of 0 or below. */
  predicate InBand(b: Band, p: Publication)
  {
    match b
    case High => VTR(p) >= 25.0
    case Medium => 10.0 <= VTR(p) < 25.0
    case Low => VTR(p) < 10.0
  }

  function Segment(ws: seq<Publication>, b: Band): (r: seq<Publication>)
    ensures forall i :: 0 <= i < |r| ==> InBand(b, r[i])
  {
    if ws == [] then []
    else (if InBand(b, ws[0]) then [ws[0]] else []) + Segment(ws[1..], b)
  }

  lemma SegmentCons(p: Publication, t: seq<Publication>, b: Band)
    ensures Segment([p] + t, b) == (if InBand(b, p) then [p] else []) + Segment(t, b)
  {
    assert ([p] + t)[1..] == t;
  }

  /** Each publication falls in exactly one segment, so the segment sizes add
      up to the number of publications. */
  lemma SegmentsPartition(ws: seq<Publication>)
    ensures |Segment(ws, High)| + |Segment(ws, Medium)| + |Segment(ws, Low)| == |ws|
    ensures multiset(Segment(ws, High)) + multiset(Segment(ws, Medium)) + multiset(Segment(ws, Low)) == multiset(ws)
  {
    SegmentsMultiset(ws);
    assert |multiset(Segment(ws, High)) + multiset(Segment(ws, Medium)) + multiset(Segment(ws, Low))| == |multiset(ws)|;
  }

  lemma {:induction false} SegmentsMultiset(ws: seq<Publication>)
    ensures multiset(Segment(ws, High)) + multiset(Segment(ws, Medium)) + multiset(Segment(ws, Low)) == multiset(ws)
  {
    if ws != [] {
      var p, t := ws[0], ws[1..];
      assert ws == [p] + t;
      SegmentsMultiset(t);
      SegmentCons(p, t, High);
      SegmentCons(p, t, Medium);
      SegmentCons(p, t, Low);
      var one := multiset{p};
      var h, m, l := multiset(Segment(t, High)), multiset(Segment(t, Medium)), multiset(Segment(t, Low));
      var h', m', l' := multiset(Segment(ws, High)), multiset(Segment(ws, Medium)), multiset(Segment(ws, Low));
      assert multiset(ws) == one + multiset(t);
      if VTR(p) >= 25.0 {
        assert InBand(High, p) && !InBand(Medium, p) && !InBand(Low, p);
        assert h' == one + h && m' == m && l' == l;
      } else if VTR(p) >= 10.0 {
        assert !InBand(High, p) && InBand(Medium, p) && !InBand(Low, p);
        assert h' == h && m' == one + m && l' == l;
      } else {
        assert !InBand(High, p) && !InBand(Medium, p) && InBand(Low, p);
        assert h' == h && m' == m && l' == one + l;
      }
      AddOne(one, h, m, l, h', m', l');
    }
  }

  /** Adding one element to any one of three multisets adds it to their
      sum. */
  lemma AddOne<T>(one: multiset<T>, h: multiset<T>, m: multiset<T>, l: multiset<T>,
                  h': multiset<T>, m': multiset<T>, l': multiset<T>)
    requires (h' == one + h && m' == m && l' == l) || (h' == h && m' == one + m && l' == l)
      || (h' == h && m' == m && l' == one + l)
    ensures h' + m' + l' == one + (h + m + l)
  {
  }

  datatype Field = VtrField | CpaField

  function Value(p: Publication, field: Field): real
  {
    match field
    case VtrField => VTR(p)
    case CpaField => CPA(p)
  }

  /** `arr.map(p => p.metrics[0][metric])`, read through the getters. */
  function Values(arr: seq<Publication>, field: Field): (r: seq<real>)
    ensures |r| == |arr|
    ensures forall i :: 0 <= i < |r| ==> r[i] == Value(arr[i], field)
  {
    if arr == [] then [] else [Value(arr[0], field)] + Values(arr[1..], field)
  }

  /** `avg(arr, metric)`: the mean of the reduce sum, or 0 for an empty
      segment. */
  function Avg(arr: seq<Publication>, field: Field): (m: real)
    ensures arr == [] ==> m == 0.0
  {
    Mean(Values(arr, field))
  }

  /** `xs.reduce((sum, x) => sum + x, 0) / xs.length`, 0 for no values. */
  function Mean(xs: seq<real>): (m: real)
    ensures xs == [] ==> m == 0.0
  {
    if |xs| > 0 then Sum(xs) / (|xs| as real) else 0.0
  }

  /** A sum of values all below a bound is below the bound times the count. */
  lemma {:induction false} SumBelow(xs: seq<real>, hi: real)
    requires forall i :: 0 <= i < |xs| ==> xs[i] < hi
    ensures xs != [] ==> Sum(xs) < hi * (|xs| as real)
  {
    if xs != [] {
      SumBelow(xs[1..], hi);
      assert hi * (|xs| as real) == hi + hi * (|xs[1..]| as real);
    }
  }

  /** A sum of values all at least a bound is at least the bound times the
      count. */
  lemma {:induction false} SumAtLeast(xs: seq<real>, lo: real)
    requires forall i :: 0 <= i < |xs| ==> lo <= xs[i]
    ensures lo * (|xs| as real) <= Sum(xs)
  {
    if xs != [] {
      SumAtLeast(xs[1..], lo);
      assert lo * (|xs| as real) == lo + lo * (|xs[1..]| as real);
    }
  }

  /** The mean of values all at least a bound is at least the bound. */
  lemma MeanAtLeast(xs: seq<real>, lo: real)
    requires xs != []
    requires forall i :: 0 <= i < |xs| ==> lo <= xs[i]
    ensures lo <= Mean(xs)
  {
    SumAtLeast(xs, lo);
    var n := |xs| as real;
    assert lo * n <= Sum(xs);
    assert Mean(xs) == Sum(xs) / n;
  }

  /** The mean of values all below a bound is below the bound. */
  lemma MeanBelow(xs: seq<real>, hi: real)
    requires xs != []
    requires forall i :: 0 <= i < |xs| ==> xs[i] < hi
    ensures Mean(xs) < hi
  {
    SumBelow(xs, hi);
    var n := |xs| as real;
    assert Sum(xs) < hi * n;
    assert Mean(xs) == Sum(xs) / n;
  }

  /** `pearsonCorrelation`, with the square root a parameter: 0 when the
      lengths differ, when there are no values or when the denominator is 0. */
  function Pearson(x: seq<real>, y: seq<real>, sqrt: real -> real): (r: real)
    ensures |x| != |y| || |x| == 0 ==> r == 0.0
  {
    if |x| != |y| || |x| == 0 then 0.0
    else
      var den := sqrt(Spread(x) * Spread(y));
      if den == 0.0 then 0.0 else Covariance(x, y) / den
  }

  function Sum(x: seq<real>): real
  {
    if x == [] then 0.0 else x[0] + Sum(x[1..])
  }

  /** `sumXY`, over the common prefix. */
  function Dot(x: seq<real>, y: seq<real>): real
  {
    if x == [] || y == [] then 0.0 else x[0] * y[0] + Dot(x[1..], y[1..])
  }

  /** The numerator `n * sumXY - sumX * sumY`. */
  function Covariance(x: seq<real>, y: seq<real>): real
  {
    (|x| as real) * Dot(x, y) - Sum(x) * Sum(y)
  }

  /** `n * sumX2 - sumX * sumX`. */
  function Spread(x: seq<real>): real
  {
    (|x| as real) * Dot(x, x) - Sum(x) * Sum(x)
  }

  lemma {:induction false} DotSymmetric(x: seq<real>, y: seq<real>)
    ensures Dot(x, y) == Dot(y, x)
  {
    if x != [] && y != [] {
      DotSymmetric(x[1..], y[1..]);
    }
  }

  lemma CovarianceSymmetric(x: seq<real>, y: seq<real>)
    requires |x| == |y|
    ensures Covariance(x, y) == Covariance(y, x)
  {
    DotSymmetric(x, y);
    var sx, sy := Sum(x), Sum(y);
    assert sx * sy == sy * sx;
  }

  /** The coefficient does not depend on which series comes first. */
  lemma PearsonSymmetric(x: seq<real>, y: seq<real>, sqrt: real -> real)
    ensures Pearson(x, y, sqrt) == Pearson(y, x, sqrt)
  {
    if |x| == |y| && |x| != 0 {
      CovarianceSymmetric(x, y);
      var a, b := Spread(x), Spread(y);
      assert a * b == b * a;
    }
  }

  datatype CorrelationStats = CorrelationStats(
    sampleSize: nat,
    vtrCpaCorrelation: real,
    highVTRAvgCPA: real,
    mediumVTRAvgCPA: real,
    lowVTRAvgCPA: real,
    highVTRAvgVTR: real,
    mediumVTRAvgVTR: real,
    lowVTRAvgVTR: real,
    highVTRCount: nat,
    mediumVTRCount: nat,
    lowVTRCount: nat)

  const ZeroStats := CorrelationStats(0, 0.0, 0.0, 0.0, 0.0, 0.0, 0.0, 0.0, 0, 0, 0)

  /** `calculateCorrelationStats` over the publications with metrics, read at
      their latest snapshot. */
  function CorrelationStatsOf(pubs: seq<Publication>, sqrt: real -> real): CorrelationStats
  {
    var ws := Keep(pubs, WithMetrics);
    if ws == [] then ZeroStats
    else
      var high := Segment(ws, High);
      var medium := Segment(ws, Medium);
      var low := Segment(ws, Low);
      CorrelationStats(|ws|, Pearson(Values(ws, VtrField), Values(ws, CpaField), sqrt),
        Avg(high, CpaField), Avg(medium, CpaField), Avg(low, CpaField),
        Avg(high, VtrField), Avg(medium, VtrField), Avg(low, VtrField),
        |high|, |medium|, |low|)
  }

  /** The summary counts the publications with metrics, the three segment
      counts add up to that number, an empty segment averages 0, and without
      any metrics every figure is 0. */
  lemma CorrelationCounts(pubs: seq<Publication>, sqrt: real -> real)
    ensures var st := CorrelationStatsOf(pubs, sqrt);
      st.sampleSize == |Keep(pubs, WithMetrics)|
      && st.highVTRCount + st.mediumVTRCount + st.lowVTRCount == st.sampleSize
      && (st.highVTRCount == 0 ==> st.highVTRAvgCPA == 0.0 && st.highVTRAvgVTR == 0.0)
      && (st.mediumVTRCount == 0 ==> st.mediumVTRAvgCPA == 0.0 && st.mediumVTRAvgVTR == 0.0)
      && (st.lowVTRCount == 0 ==> st.lowVTRAvgCPA == 0.0 && st.lowVTRAvgVTR == 0.0)
      && (st.sampleSize == 0 <==> st == ZeroStats)
  {
    SegmentsPartition(Keep(pubs, WithMetrics));
  }

  /** The mean VTR of a non-empty segment lies in that segment's range. */
  lemma SegmentAverage(ws: seq<Publication>, b: Band)
    ensures var seg := Segment(ws, b);
      seg != [] ==>
        match b
        case High => Avg(seg, VtrField) >= 25.0
        case Medium => 10.0 <= Avg(seg, VtrField) < 25.0
        case Low => Avg(seg, VtrField) < 10.0
  {
    var seg := Segment(ws, b);
    if seg != [] {
      var xs := Values(seg, VtrField);
      match b
      case High =>
        MeanAtLeast(xs, 25.0);
      case Medium =>
        MeanAtLeast(xs, 10.0);
        MeanBelow(xs, 25.0);
      case Low =>
        MeanBelow(xs, 10.0);
    }
  }

  /** The mean VTR of each non-empty segment of the summary lies in that
      segment's range. */
  lemma CorrelationBandAverages(pubs: seq<Publication>, sqrt: real -> real)
    ensures var st := CorrelationStatsOf(pubs, sqrt);
      (st.highVTRCount > 0 ==> st.highVTRAvgVTR >= 25.0)
      && (st.mediumVTRCount > 0 ==> 10.0 <= st.mediumVTRAvgVTR < 25.0)
      && (st.lowVTRCount > 0 ==> st.lowVTRAvgVTR < 10.0)
  {
    var ws := Keep(pubs, WithMetrics);
    SegmentAverage(ws, High);
    SegmentAverage(ws, Medium);
    SegmentAverage(ws, Low);
  }

  // ---------------------------------------------------------------------
  // Indicators
  // ---------------------------------------------------------------------

  /** `calculateVTRtoCPARatio`, with `toFixed(2)` a parameter. */
  function VtrToCpaRatio(m: Snapshot, fixed2: real -> string): (r: string)
    ensures m.cpa == 0.0 ==> r == "\U{221E}"
    ensures m.cpa != 0.0 ==> r == fixed2(m.vtr / m.cpa)
  {
    if m.cpa == 0.0 then "\U{221E}" else fixed2(m.vtr / m.cpa)
  }

  /** When the formatter never prints the infinity sign, the sign shows
      exactly the zero-cost snapshots. */
  lemma InfinityOnlyForZeroCost(m: Snapshot, fixed2: real -> string)
    requires forall x :: fixed2(x) != "\U{221E}"
    ensures VtrToCpaRatio(m, fixed2) == "\U{221E}" <==> m.cpa == 0.0
  {
  }

  /** The good and warning thresholds of a metric, for the three metrics the
      switch knows. */
  function Thresholds(metric: string): Option<(real, real)>
  {
    if metric == "vtr" then Some((25.0, 10.0))
    else if metric == "ctr" then Some((3.0, 1.0))
    else if metric == "roas" then Some((5.0, 2.0))
    else None
  }

  /** `getMetricClass`. */
  function MetricClass(value: real, metric: string): (c: string)
    ensures Thresholds(metric).None? ==> c == ""
    ensures Thresholds(metric).Some? ==>
      var (good, warn) := Thresholds(metric).value;
      (c == "metric-good" <==> value >= good)
      && (c == "metric-warning" <==> warn <= value < good)
      && (c == "metric-bad" <==> value < warn)
  {
    match Thresholds(metric)
    case None => ""
    case Some((good, warn)) =>
      if value >= good then "metric-good"
      else if value >= warn then "metric-warning"
      else "metric-bad"
  }

  function ClassRank(c: string): nat
  {
    if c == "metric-good" then 2 else if c == "metric-warning" then 1 else 0
  }

  /** A larger value never gets a worse class. */
  lemma MetricClassMonotone(v1: real, v2: real, metric: string)
    requires v1 <= v2
    ensures ClassRank(MetricClass(v1, metric)) <= ClassRank(MetricClass(v2, metric))
  {
  }

  // ---------------------------------------------------------------------
  // The component
  // ---------------------------------------------------------------------

  /** The component's state: the campaign's publications and the two
      selector values, which the `change` listeners overwrite. */
  class Flow {
    var publications: seq<Publication>
    var sortBy: string
    var filterBy: string

    constructor ()
      ensures publications == [] && sortBy == "vtr" && filterBy == "all"
    {
      publications := [];
      sortBy := "vtr";
      filterBy := "all";
    }

    /** `render(campaignData)` keeps the publications (an absent list is the
        empty one). */
    method Render(pubs: seq<Publication>)
      modifies this
      ensures publications == pubs && sortBy == old(sortBy) && filterBy == old(filterBy)
    {
      publications := pubs;
    }

    /** The sort selector's listener. */
    method ChangeSort(value: string)
      modifies this
      ensures sortBy == value && publications == old(publications) && filterBy == old(filterBy)
    {
      sortBy := value;
    }

    /** The filter selector's listener. */
    method ChangeFilter(value: string)
      modifies this
      ensures filterBy == value && publications == old(publications) && sortBy == old(sortBy)
    {
      filterBy := value;
    }

    /** `getFilteredPublications`. */
    function Filtered(): seq<Publication>
      reads this
    {
      Keep(publications, ParseFilter(filterBy))
    }

    /** `getSortedPublications`: sorts a fresh copy; with an unknown `sortBy`
        the copy is returned in the input order. */
    method Sorted(pubs: seq<Publication>) returns (sorted: seq<Publication>)
      ensures ParseSort(sortBy) == Unsorted ==> sorted == pubs
      ensures Sorting.SortedBy(sorted, KeyOf(ParseSort(sortBy)))
      ensures multiset(sorted) == multiset(pubs)
    {
      var a := new Publication[|pubs|](i requires 0 <= i < |pubs| => pubs[i]);
      assert a[..] == pubs;
      var order := ParseSort(sortBy);
      if order != Unsorted {
        InsertionSort(a, order);
      }
      sorted := a[..];
    }

    /** `renderFlowPipeline`: filter, sort, then split into the lanes. */
    method Pipeline() returns (sorted: seq<Publication>, lanes: Lanes)
      ensures multiset(sorted) == multiset(Filtered())
      ensures Sorting.SortedBy(sorted, KeyOf(ParseSort(sortBy)))
      ensures lanes == LanesOf(sorted)
      ensures Sorting.SortedBy(lanes.excellent, KeyOf(ParseSort(sortBy)))
      ensures Sorting.SortedBy(lanes.warning, KeyOf(ParseSort(sortBy)))
      ensures Sorting.SortedBy(lanes.critical, KeyOf(ParseSort(sortBy)))
      ensures Sorting.SortedBy(lanes.noMetrics, KeyOf(ParseSort(sortBy)))
    {
      var filtered := Filtered();
      sorted := Sorted(filtered);
      lanes := LanesOf(sorted);
      KeepSorted(sorted, Excellent, KeyOf(ParseSort(sortBy)));
      KeepSorted(sorted, Warning, KeyOf(ParseSort(sortBy)));
      KeepSorted(sorted, Critical, KeyOf(ParseSort(sortBy)));
      KeepSorted(sorted, WithoutMetrics, KeyOf(ParseSort(sortBy)));
    }

    /** `calculateCorrelationStats`. */
    function Stats(sqrt: real -> real): CorrelationStats
      reads this
    {
      CorrelationStatsOf(publications, sqrt)
    }
  }

  /** An unknown filter value shows every publication. */
  lemma UnknownFilterShowsAll(pubs: seq<Publication>, filterBy: string)
    requires filterBy !in {"excellent", "warning", "critical", "has-metrics", "no-metrics"}
    ensures Keep(pubs, ParseFilter(filterBy)) == pubs
  {
    KeepAll(pubs);
  }

  /** The getters' defaults for a publication without metrics, and the CPL
      that is always the CPA. */
  lemma GetterDefaults(p: Publication)
    requires !HasMetrics(p)
    ensures VTR(p) == 0.0 && ROAS(p) == 0.0 && CPA(p) == NoCpa && CPL(p) == CPA(p)
  {
  }
}
