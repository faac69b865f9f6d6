/** The E³ ecosystem generator: a marketing budget is split over the four
    stages see, think, do and care by objective, each stage's content types
    receive a share of their stage budget, and every share is cut into pieces
    of at least 500. The random choices of `Math.random` are the draws
    `rnd(0)`, `rnd(1)`, ... of a stream of reals in [0, 1), consumed in the
    order the generator makes them. */
module EcosystemGenerator {
  import opened Wrappers

  datatype Stage = See | Think | Do | Care

  /** The key each stage has in the templates, the distributions and the
      generated `pieces` object. */
  function StageKey(s: Stage): string
  {
    match s
    case See => "see"
    case Think => "think"
    case Do => "do"
    case Care => "care"
  }

  const Stages: seq<Stage> := [See, Think, Do, Care]

  /** The content types the stage templates list, with the description and
      KPI each carries. */
  datatype Kind =
    | HeroVideo | ProblemAgitation | CategoryEducation | TrendJacking
    | SocialProof | ProductDemo | ComparisonContent | AuthorityContent | CommunityBuilding
    | LimitedOffer | RiskReversal | BundleDeal | AbandonmentRecovery
    | OnboardingSequence | SuccessContent | VipProgram | ReferralCampaign | CoCreation
  {
    /** The `type` string of the content type. */
    function Name(): string
    {
      match this
      case HeroVideo => "Hero Video"
      case ProblemAgitation => "Problem Agitation"
      case CategoryEducation => "Category Education"
      case TrendJacking => "Trend Jacking"
      case SocialProof => "Social Proof"
      case ProductDemo => "Product Demo"
      case ComparisonContent => "Comparison Content"
      case AuthorityContent => "Authority Content"
      case CommunityBuilding => "Community Building"
      case LimitedOffer => "Limited Offer"
      case RiskReversal => "Risk Reversal"
      case BundleDeal => "Bundle Deal"
      case AbandonmentRecovery => "Abandonment Recovery"
      case OnboardingSequence => "Onboarding Sequence"
      case SuccessContent => "Success Content"
      case VipProgram => "VIP Program"
      case ReferralCampaign => "Referral Campaign"
      case CoCreation => "Co-creation"
    }

    function Description(): string
    {
      match this
      case HeroVideo => "Video emocional de marca que conecta con el problema"
      case ProblemAgitation => "Contenido que evidencia el pain point principal"
      case CategoryEducation => "Contenido educativo sobre la categoría"
      case TrendJacking => "Contenido que aprovecha tendencias actuales"
      case SocialProof => "Testimonios y casos de éxito de clientes similares"
      case ProductDemo => "Demostración detallada de características clave"
      case ComparisonContent => "Comparativas vs competencia y alternativas"
      case AuthorityContent => "Whitepapers y estudios que posicionan expertise"
      case CommunityBuilding => "Contenido que construye sentido de tribu"
      case LimitedOffer => "Ofertas con urgencia temporal o de inventario"
      case RiskReversal => "Garantías y pruebas gratuitas"
      case BundleDeal => "Paquetes de valor agregado"
      case AbandonmentRecovery => "Secuencias de recuperación de carritos"
      case OnboardingSequence => "Serie de contenidos para maximizar adopción"
      case SuccessContent => "Contenido para ayudar a alcanzar objetivos"
      case VipProgram => "Beneficios exclusivos para mejores clientes"
      case ReferralCampaign => "Programa de referidos con incentivos"
      case CoCreation => "Contenido creado con la comunidad"
    }

    function Kpi(): string
    {
      match this
      case HeroVideo => "Views + Reach"
      case ProblemAgitation => "Engagement Rate"
      case CategoryEducation => "Time Spent"
      case TrendJacking => "Shares"
      case SocialProof => "Trust Score"
      case ProductDemo => "Demo Requests"
      case ComparisonContent => "Consideration Rate"
      case AuthorityContent => "Download Rate"
      case CommunityBuilding => "Community Join"
      case LimitedOffer => "Conversion Rate"
      case RiskReversal => "Trial Starts"
      case BundleDeal => "AOV Increase"
      case AbandonmentRecovery => "Recovery Rate"
      case OnboardingSequence => "Activation Rate"
      case SuccessContent => "Product Usage"
      case VipProgram => "LTV Increase"
      case ReferralCampaign => "Referral Rate"
      case CoCreation => "Advocacy Score"
    }
  }

  /** A content type of a stage template and its percentage of the stage
      budget. */
  datatype ContentType = ContentType(kind: Kind, budgetPercent: nat)

  /** The part of a stage template that generation reads: the channels and
      formats pieces are drawn from, and the content types. */
  datatype StageTemplate = StageTemplate(
    channels: seq<string>,
    formats: seq<string>,
    contentTypes: seq<ContentType>)

  const SeeTemplate: StageTemplate := StageTemplate(
    ["Meta Ads", "Google Display", "TikTok", "YouTube"],
    ["Video 15s", "Carousel", "Single Image", "Stories"],
    [ContentType(HeroVideo, 15), ContentType(ProblemAgitation, 10),
     ContentType(CategoryEducation, 8), ContentType(TrendJacking, 7)])

  const ThinkTemplate: StageTemplate := StageTemplate(
    ["Google Search", "Meta Retargeting", "LinkedIn", "Email"],
    ["Blog Post", "Webinar", "Case Study", "Comparison Chart"],
    [ContentType(SocialProof, 12), ContentType(ProductDemo, 15), ContentType(ComparisonContent, 10),
     ContentType(AuthorityContent, 8), ContentType(CommunityBuilding, 10)])

  const DoTemplate: StageTemplate := StageTemplate(
    ["Google Shopping", "Meta DPA", "Email Automation", "SMS"],
    ["Landing Page", "Offer Email", "Retargeting Ad", "Cart Recovery"],
    [ContentType(LimitedOffer, 20), ContentType(RiskReversal, 15),
     ContentType(BundleDeal, 12), ContentType(AbandonmentRecovery, 10)])

  const CareTemplate: StageTemplate := StageTemplate(
    ["Email", "In-App", "Community", "WhatsApp"],
    ["Newsletter", "Tutorial", "Exclusive Content", "Loyalty Program"],
    [ContentType(OnboardingSequence, 10), ContentType(SuccessContent, 8), ContentType(VipProgram, 12),
     ContentType(ReferralCampaign, 15), ContentType(CoCreation, 5)])

  /** `E3_TEMPLATES[stage]`: four channels and four formats per stage, and
      four or five content types. */
  function Template(s: Stage): (t: StageTemplate)
    ensures |t.channels| == 4 && |t.formats| == 4
    ensures |t.contentTypes| == if s == Think || s == Care then 5 else 4
  {
    match s
    case See => SeeTemplate
    case Think => ThinkTemplate
    case Do => DoTemplate
    case Care => CareTemplate
  }

  /** A budget split over the four stages. */
  datatype Distribution = Distribution(see: real, think: real, do: real, care: real)
  {
    function Share(s: Stage): real
    {
      match s
      case See => see
      case Think => think
      case Do => do
      case Care => care
    }

    function Total(): real
    {
      see + think + do + care
    }
  }

  /** `BUDGET_DISTRIBUTIONS`, by objective. */
  const Distributions: map<string, Distribution> := map[
    "lanzamiento" := Distribution(0.35, 0.30, 0.25, 0.10),
    "awareness" := Distribution(0.45, 0.30, 0.15, 0.10),
    "leads" := Distribution(0.20, 0.40, 0.30, 0.10),
    "ventas" := Distribution(0.15, 0.25, 0.45, 0.15),
    "retencion" := Distribution(0.10, 0.15, 0.25, 0.50),
    "advocacy" := Distribution(0.05, 0.15, 0.20, 0.60)
  ]

  /** The distribution for an objective; an objective without one gets the
      launch distribution. Either way the shares are positive and add up to
      the whole budget. */
  function DistributionFor(objective: string): (d: Distribution)
    ensures objective !in Distributions ==> d == Distributions["lanzamiento"]
    ensures d.Total() == 1.0
    ensures d.see > 0.0 && d.think > 0.0 && d.do > 0.0 && d.care > 0.0
  {
    if objective in Distributions then Distributions[objective] else Distributions["lanzamiento"]
  }

  /** The campaign brief the generator receives. An absent text field is the
      empty string, which JavaScript treats as falsy like `undefined`. */
  datatype Brief = Brief(
    objective: string,
    budget: real,
    product: string,
    market: string,
    audience: string,
    valueProp: string,
    pains: seq<string>,
    gains: seq<string>)

  /** `a || b` on strings. */
  function OrElse(a: string, b: string): (r: string)
    ensures a != "" ==> r == a
    ensures a == "" ==> r == b
  {
    if a != "" then a else b
  }

  /** The content types that have a title template. */
  const TitledKinds: set<string> := {
    "Hero Video", "Problem Agitation", "Social Proof", "Product Demo", "Limited Offer",
    "Onboarding Sequence", "VIP Program", "Referral Campaign", "Category Education",
    "Comparison Content", "Authority Content", "Community Building", "Risk Reversal",
    "Bundle Deal", "Abandonment Recovery", "Success Content", "Co-creation", "Trend Jacking"
  }

  /** The title template of a content type, when it has one. Every template
      produces a non-empty title, so the `||` fallback of the source applies
      only to content types without a template. */
  function TitleTemplate(kind: string, b: Brief): (r: Option<string>)
    ensures r.Some? <==> kind in TitledKinds
    ensures r.Some? ==> |r.value| > 0
  {
    if kind == "Hero Video" then Some(b.product + ": La revolución que esperabas")
    else if kind == "Problem Agitation" then
      Some("¿Cansado de " + OrElse(if b.pains == [] then "" else b.pains[0], "los problemas actuales") + "?")
    else if kind == "Social Proof" then
      Some("Cómo " + OrElse(b.market, "empresas") + " están transformando su " + b.product)
    else if kind == "Product Demo" then Some(b.product + " en acción: Tutorial completo")
    else if kind == "Limited Offer" then Some("48 horas: " + OrElse(b.valueProp, b.product))
    else if kind == "Onboarding Sequence" then Some("Bienvenido a " + b.product + ": Primeros pasos")
    else if kind == "VIP Program" then Some("Club exclusivo " + b.product + ": Beneficios premium")
    else if kind == "Referral Campaign" then Some("Comparte " + b.product + " y gana")
    else if kind == "Category Education" then Some("Guía definitiva de " + b.product)
    else if kind == "Comparison Content" then Some(b.product + " vs. La competencia")
    else if kind == "Authority Content" then Some("Estudio: El futuro de " + OrElse(b.market, "tu industria"))
    else if kind == "Community Building" then Some("Únete a la comunidad " + b.product)
    else if kind == "Risk Reversal" then Some("Prueba " + b.product + " sin riesgo por 30 días")
    else if kind == "Bundle Deal" then Some("Pack completo " + b.product + ": Ahorra 40%")
    else if kind == "Abandonment Recovery" then Some("Tu " + b.product + " te está esperando")
    else if kind == "Success Content" then Some("Maximiza tu ROI con " + b.product)
    else if kind == "Co-creation" then Some("Creado con nuestra comunidad")
    else if kind == "Trend Jacking" then Some(b.product + " x Tendencia del momento")
    else None
  }

  /** `generateTitle`: the content type's template, or "<type>: <product>"
      for a type without one. */
  function GenerateTitle(kind: string, b: Brief): (r: string)
    ensures TitleTemplate(kind, b).None? ==> r == kind + ": " + b.product
    ensures TitleTemplate(kind, b).Some? ==> r == TitleTemplate(kind, b).value
  {
    match TitleTemplate(kind, b)
    case Some(t) => t
    case None => kind + ": " + b.product
  }

  /** Every content type has a title template, so no generated piece
      carries the generic fallback title. */
  lemma EveryContentTypeTitled(b: Brief)
    ensures forall k: Kind :: TitleTemplate(k.Name(), b).Some?
  {
    forall k: Kind ensures k.Name() in TitledKinds {
      match k
      case HeroVideo =>
      case ProblemAgitation =>
      case CategoryEducation =>
      case TrendJacking =>
      case SocialProof =>
      case ProductDemo =>
      case ComparisonContent =>
      case AuthorityContent =>
      case CommunityBuilding =>
      case LimitedOffer =>
      case RiskReversal =>
      case BundleDeal =>
      case AbandonmentRecovery =>
      case OnboardingSequence =>
      case SuccessContent =>
      case VipProgram =>
      case ReferralCampaign =>
      case CoCreation =>
    }
  }

  /** The budget of a content type: its percentage of the stage budget. */
  function PieceBudget(stageBudget: real, ct: ContentType): real
  {
    stageBudget * (ct.budgetPercent as real) / 100.0
  }

  /** One piece per full 500 of budget, and at least one. */
  function NumPieces(pieceBudget: real): (n: nat)
    ensures n >= 1
    ensures n == 1 || (n * 500) as real <= pieceBudget < ((n + 1) * 500) as real
    ensures pieceBudget >= 1000.0 ==> n >= 2
  {
    var q := (pieceBudget / 500.0).Floor;
    if q < 1 then 1 else q
  }

  /** The budget of each piece: the content type's budget divided evenly and
      rounded down. */
  function PieceShare(pieceBudget: real): int
  {
    (pieceBudget / NumPieces(pieceBudget) as real).Floor
  }

  /** The pieces of a content type together never exceed its budget, and
      fall short of it by less than one unit per piece. */
  lemma ShareFits(pieceBudget: real)
    ensures (NumPieces(pieceBudget) * PieceShare(pieceBudget)) as real <= pieceBudget
    ensures pieceBudget < (NumPieces(pieceBudget) * (PieceShare(pieceBudget) + 1)) as real
  {
    FloorShareBounds(pieceBudget, NumPieces(pieceBudget), PieceShare(pieceBudget));
  }

  /** `f` times `n` is at most `p`, and `f + 1` times `n` exceeds it, when `f`
      is `p / n` rounded down. */
  lemma FloorShareBounds(p: real, n: int, f: int)
    requires n >= 1 && f == (p / n as real).Floor
    ensures (n * f) as real <= p < (n * (f + 1)) as real
  {
    var q := p / n as real;
    DivMul(p, n as real);
    QuotientBounds(p, n as real, q, f as real);
    CastProduct(n, f);
  }

  /** Multiplying bounds on a quotient `q` of `p` by the positive divisor. */
  lemma QuotientBounds(p: real, d: real, q: real, lo: real)
    requires d > 0.0 && q * d == p && lo <= q < lo + 1.0
    ensures lo * d <= p < (lo + 1.0) * d
  {
    ScaledAbove(p, d, q, lo);
    ScaledBelow(p, d, q, lo + 1.0);
  }

  lemma ScaledAbove(p: real, d: real, q: real, lo: real)
    requires d > 0.0 && q * d == p && lo <= q
    ensures lo * d <= p
  {
    MulMono(lo, q, d);
  }

  lemma ScaledBelow(p: real, d: real, q: real, hi: real)
    requires d > 0.0 && q * d == p && q < hi
    ensures p < hi * d
  {
    MulStrict(q, hi, d);
  }

  lemma DivMul(p: real, d: real)
    requires d != 0.0
    ensures (p / d) * d == p
  {
  }

  lemma CastProduct(a: int, b: int)
    ensures (a * b) as real == b as real * a as real
    ensures (a * (b + 1)) as real == (b as real + 1.0) * a as real
  {
  }

  lemma MulMono(a: real, b: real, c: real)
    requires a <= b && c >= 0.0
    ensures a * c <= b * c
  {
  }

  lemma MulStrict(a: real, b: real, c: real)
    requires a < b && c > 0.0
    ensures a * c < b * c
  {
  }

  /** `Math.floor(Math.random() * n)`: an index into a list of length `n`. */
  function Pick(r: real, n: nat): (i: nat)
    requires 0.0 <= r < 1.0 && n > 0
    ensures i < n
  {
    var x := r * n as real;
    MulMono(0.0, r, n as real);
    MulStrict(r, 1.0, n as real);
    assert 0.0 <= x < n as real;
    var i := x.Floor;
    assert i as real <= x;
    i
  }

  /** A generated content piece. */
  datatype Piece = Piece(
    kind: string,
    title: string,
    description: string,
    kpi: string,
    budget: int,
    channel: string,
    format: string,
    score: int,
    pain: Option<string>,
    gain: Option<string>)

  /** A random pain or gain: none when the list is empty. */
  predicate PicksFrom(x: Option<string>, xs: seq<string>)
  {
    (x.None? <==> xs == []) && (x.Some? ==> x.value in xs)
  }

  /** What every piece of content type `ct` in `stage` is: the content type's
      own texts and title, an equal share of its budget, a channel and a
      format from the stage template, a score in [70, 94], and a pain and a
      gain from the brief when it has any. */
  predicate PieceFits(p: Piece, t: StageTemplate, stageBudget: real, ct: ContentType, b: Brief)
  {
    p.kind == ct.kind.Name() && p.title == GenerateTitle(ct.kind.Name(), b)
    && p.description == ct.kind.Description() && p.kpi == ct.kind.Kpi()
    && p.budget == PieceShare(PieceBudget(stageBudget, ct))
    && p.channel in t.channels && p.format in t.formats
    && 70 <= p.score <= 94
    && PicksFrom(p.pain, b.pains) && PicksFrom(p.gain, b.gains)
  }

  function Repeat(ct: ContentType, n: nat): (r: seq<ContentType>)
    ensures |r| == n && forall i :: 0 <= i < n ==> r[i] == ct
  {
    if n == 0 then [] else Repeat(ct, n - 1) + [ct]
  }

  /** The content type each generated piece comes from, in generation order:
      every content type in turn, as many times as it has pieces. */
  function Slots(stageBudget: real, cts: seq<ContentType>): (r: seq<ContentType>)
    ensures |r| >= |cts|
  {
    if cts == [] then []
    else
      var last := cts[|cts| - 1];
      Slots(stageBudget, cts[..|cts| - 1]) + Repeat(last, NumPieces(PieceBudget(stageBudget, last)))
  }

  /** The generated pieces of a stage line up with its slots. */
  ghost predicate StagePiecesFit(pieces: seq<Piece>, t: StageTemplate, stageBudget: real, b: Brief)
  {
    var slots := Slots(stageBudget, t.contentTypes);
    |pieces| == |slots|
    && forall i :: 0 <= i < |pieces| ==> PieceFits(pieces[i], t, stageBudget, slots[i], b)
  }

  /** A draw of `Math.random` for a list: one draw when the list is
      non-empty, none otherwise. */
  method PickFrom(xs: seq<string>, rnd: nat -> real, k: nat) returns (x: Option<string>, k': nat)
    requires forall j :: 0.0 <= rnd(j) < 1.0
    ensures PicksFrom(x, xs)
    ensures k' == if xs == [] then k else k + 1
  {
    if xs == [] {
      return None, k;
    }
    x := Some(xs[Pick(rnd(k), |xs|)]);
    k' := k + 1;
  }

  /** `generateStagePieces`: the pieces of the stage's template, drawing
      from `rnd` from index `k0` on. */
  method GenerateStagePieces(s: Stage, stageBudget: real, b: Brief, rnd: nat -> real, k0: nat)
    returns (pieces: seq<Piece>, k: nat)
    requires forall j :: 0.0 <= rnd(j) < 1.0
    ensures StagePiecesFit(pieces, Template(s), stageBudget, b)
    ensures k >= k0
  {
    pieces, k := TemplatePieces(Template(s), stageBudget, b, rnd, k0);
  }

  /** The loop of `generateStagePieces` over a stage template: for every
      content type in turn, `NumPieces` pieces. */
  method TemplatePieces(template: StageTemplate, stageBudget: real, b: Brief, rnd: nat -> real, k0: nat)
    returns (pieces: seq<Piece>, k: nat)
    requires forall j :: 0.0 <= rnd(j) < 1.0
    requires |template.channels| > 0 && |template.formats| > 0
    ensures StagePiecesFit(pieces, template, stageBudget, b)
    ensures k >= k0
  {
    var cts := template.contentTypes;
    pieces := [];
    k := k0;
    for j := 0 to |cts|
      invariant k >= k0
      invariant |pieces| == |Slots(stageBudget, cts[..j])|
      invariant forall i :: 0 <= i < |pieces| ==> PieceFits(pieces[i], template, stageBudget, Slots(stageBudget, cts[..j])[i], b)
    {
      var ct := cts[j];
      ghost var before := Slots(stageBudget, cts[..j]);
      ghost var old_pieces := pieces;
      var more;
      more, k := ContentTypePieces(template, stageBudget, b, rnd, ct, k);
      pieces := pieces + more;
      assert cts[..j + 1][..j] == cts[..j];
      ghost var after := before + Repeat(ct, |more|);
      assert Slots(stageBudget, cts[..j + 1]) == after;
      forall i | 0 <= i < |pieces|
        ensures PieceFits(pieces[i], template, stageBudget, after[i], b)
      {
        if i < |before| {
          assert pieces[i] == old_pieces[i] && after[i] == before[i];
        } else {
          assert pieces[i] == more[i - |before|] && after[i] == ct;
        }
      }
    }
    assert cts[..|cts|] == cts;
  }

  /** The inner loop of `generateStagePieces`: the pieces of one content
      type, each drawing its pain, gain, channel, format and score. */
  method ContentTypePieces(template: StageTemplate, stageBudget: real, b: Brief, rnd: nat -> real, ct: ContentType, k0: nat)
    returns (more: seq<Piece>, k: nat)
    requires forall j :: 0.0 <= rnd(j) < 1.0
    requires |template.channels| > 0 && |template.formats| > 0
    ensures |more| == NumPieces(PieceBudget(stageBudget, ct))
    ensures forall m :: 0 <= m < |more| ==> PieceFits(more[m], template, stageBudget, ct, b)
    ensures k >= k0
  {
    var pieceBudget := PieceBudget(stageBudget, ct);
    var numPieces := NumPieces(pieceBudget);
    more := [];
    k := k0;
    for i := 0 to numPieces
      invariant k >= k0
      invariant |more| == i
      invariant forall m :: 0 <= m < i ==> PieceFits(more[m], template, stageBudget, ct, b)
    {
      var pain, gain;
      pain, k := PickFrom(b.pains, rnd, k);
      gain, k := PickFrom(b.gains, rnd, k);
      var channel := template.channels[Pick(rnd(k), |template.channels|)];
      var format := template.formats[Pick(rnd(k + 1), |template.formats|)];
      var score := 70 + Pick(rnd(k + 2), 25);
      k := k + 3;
      more := more + [Piece(ct.kind.Name(), GenerateTitle(ct.kind.Name(), b), ct.kind.Description(), ct.kind.Kpi(),
                            PieceShare(pieceBudget), channel, format, score, pain, gain)];
    }
  }

  /** Every stage yields at least one piece per content type of its
      template. */
  lemma StageHasPieces(pieces: seq<Piece>, t: StageTemplate, stageBudget: real, b: Brief)
    requires StagePiecesFit(pieces, t, stageBudget, b)
    ensures |pieces| >= |t.contentTypes|
  {
  }

  const BaseRoas: map<string, real> := map[
    "lanzamiento" := 2.5, "awareness" := 1.8, "leads" := 3.2,
    "ventas" := 4.5, "retencion" := 5.2, "advocacy" := 6.0
  ]

  /** The economies-of-scale factor: grows with the budget, 1 at a budget of
      0, and capped at 1.5, which it reaches at a budget of 50000. */
  function RoasMultiplier(budget: real): (m: real)
    ensures m <= 1.5
    ensures m == 1.5 <==> budget >= 50000.0
    ensures budget < 50000.0 ==> m == 1.0 + budget / 100000.0
  {
    var scaled := 1.0 + (budget / 50000.0) * 0.5;
    if scaled < 1.5 then scaled else 1.5
  }

  /** `calculateROAS`: the objective's base ROAS, 3.0 for an unknown
      objective, scaled by the budget multiplier. */
  function CalculateRoas(objective: string, budget: real): (r: real)
    ensures objective !in BaseRoas ==> r == 3.0 * RoasMultiplier(budget)
    ensures objective in BaseRoas ==> r == BaseRoas[objective] * RoasMultiplier(budget)
  {
    (if objective in BaseRoas then BaseRoas[objective] else 3.0) * RoasMultiplier(budget)
  }

  /** A larger budget never lowers the projected ROAS. */
  lemma RoasMonotone(objective: string, b1: real, b2: real)
    requires b1 <= b2
    ensures CalculateRoas(objective, b1) <= CalculateRoas(objective, b2)
  {
    var base := if objective in BaseRoas then BaseRoas[objective] else 3.0;
    assert base > 0.0;
    MulMono(RoasMultiplier(b1), RoasMultiplier(b2), base);
    assert base * RoasMultiplier(b1) == RoasMultiplier(b1) * base;
    assert base * RoasMultiplier(b2) == RoasMultiplier(b2) * base;
  }

  datatype Timeframe = Days30 | Days60 | Days90
  {
    function Label(): string
    {
      match this
      case Days30 => "30 días"
      case Days60 => "60 días"
      case Days90 => "90 días"
    }
  }

  /** `calculateTimeframe`: three budget bands; the objective is ignored. */
  function CalculateTimeframe(objective: string, budget: real): (t: Timeframe)
    ensures t == Days30 <==> budget < 5000.0
    ensures t == Days60 <==> 5000.0 <= budget < 20000.0
    ensures t == Days90 <==> budget >= 20000.0
  {
    if budget < 5000.0 then Days30 else if budget < 20000.0 then Days60 else Days90
  }

  /** Only the budget decides the timeframe. */
  lemma TimeframeIgnoresObjective(o1: string, o2: string, budget: real)
    ensures CalculateTimeframe(o1, budget) == CalculateTimeframe(o2, budget)
  {
  }

  /** The generated ecosystem. `projectedRoas` is the ROAS after the
      one-decimal rounding the caller supplies. */
  datatype Ecosystem = Ecosystem(
    distribution: Distribution,
    see: seq<Piece>,
    think: seq<Piece>,
    do: seq<Piece>,
    care: seq<Piece>,
    totalPieces: nat,
    projectedRoas: real,
    timeframe: Timeframe,
    channels: nat)
  {
    function StagePieces(s: Stage): seq<Piece>
    {
      match s
      case See => see
      case Think => think
      case Do => do
      case Care => care
    }

    function AllPieces(): seq<Piece>
    {
      see + think + do + care
    }
  }

  /** The distinct channels of a list of pieces. */
  function ChannelSet(pieces: seq<Piece>): set<string>
  {
    set i | 0 <= i < |pieces| :: pieces[i].channel
  }

  /** There are never more distinct channels than pieces, and at least one
      when there is a piece. */
  lemma {:induction false} ChannelCountBounds(pieces: seq<Piece>)
    ensures |ChannelSet(pieces)| <= |pieces|
    ensures pieces != [] ==> |ChannelSet(pieces)| >= 1
  {
    if pieces != [] {
      var init := pieces[..|pieces| - 1];
      ChannelCountBounds(init);
      assert ChannelSet(pieces) == ChannelSet(init) + {pieces[|pieces| - 1].channel} by {
        forall c | c in ChannelSet(pieces) ensures c in ChannelSet(init) + {pieces[|pieces| - 1].channel} {
          var i :| 0 <= i < |pieces| && pieces[i].channel == c;
          if i < |pieces| - 1 { assert init[i] == pieces[i]; }
        }
        forall c | c in ChannelSet(init) ensures c in ChannelSet(pieces) {
          var i :| 0 <= i < |init| && init[i].channel == c;
          assert pieces[i] == init[i];
        }
      }
      assert pieces[|pieces| - 1].channel in ChannelSet(pieces);
    }
  }

  /** The budget of a stage: the objective's share of the total budget. */
  function StageBudget(b: Brief, s: Stage): real
  {
    b.budget * DistributionFor(b.objective).Share(s)
  }

  /** What `generateEcosystem` yields for a brief: the objective's
      distribution, four stages of pieces that fit their budgets, their
      total count, the projected ROAS, the timeframe and the number of
      distinct channels. */
  ghost predicate GeneratedFrom(eco: Ecosystem, b: Brief, round1: real -> real)
  {
    eco.distribution == DistributionFor(b.objective)
    && StagePiecesFit(eco.see, Template(See), StageBudget(b, See), b)
    && StagePiecesFit(eco.think, Template(Think), StageBudget(b, Think), b)
    && StagePiecesFit(eco.do, Template(Do), StageBudget(b, Do), b)
    && StagePiecesFit(eco.care, Template(Care), StageBudget(b, Care), b)
    && eco.totalPieces == |eco.AllPieces()| >= 18
    && eco.projectedRoas == round1(CalculateRoas(b.objective, b.budget))
    && eco.timeframe == CalculateTimeframe(b.objective, b.budget)
    && eco.channels == |ChannelSet(eco.AllPieces())|
    && 1 <= eco.channels <= eco.totalPieces
  }

  /** `generateEcosystem`: the objective's distribution, the pieces of the
      four stages generated in the order see, think, do, care, their total
      count, the projected ROAS, the timeframe and the number of distinct
      channels. `round1` is the one-decimal rounding of `toFixed(1)`. */
  method GenerateEcosystem(b: Brief, rnd: nat -> real, round1: real -> real) returns (eco: Ecosystem)
    requires forall j :: 0.0 <= rnd(j) < 1.0
    ensures eco.distribution == DistributionFor(b.objective)
    ensures StagePiecesFit(eco.see, Template(See), StageBudget(b, See), b)
    ensures StagePiecesFit(eco.think, Template(Think), StageBudget(b, Think), b)
    ensures StagePiecesFit(eco.do, Template(Do), StageBudget(b, Do), b)
    ensures StagePiecesFit(eco.care, Template(Care), StageBudget(b, Care), b)
    ensures eco.totalPieces == |eco.AllPieces()| >= 18
    ensures eco.projectedRoas == round1(CalculateRoas(b.objective, b.budget))
    ensures eco.timeframe == CalculateTimeframe(b.objective, b.budget)
    ensures eco.channels == |ChannelSet(eco.AllPieces())|
    ensures 1 <= eco.channels <= eco.totalPieces
  {
    var d := DistributionFor(b.objective);
    var see, k1 := GenerateStagePieces(See, StageBudget(b, See), b, rnd, 0);
    var think, k2 := GenerateStagePieces(Think, StageBudget(b, Think), b, rnd, k1);
    var do, k3 := GenerateStagePieces(Do, StageBudget(b, Do), b, rnd, k2);
    var care, k4 := GenerateStagePieces(Care, StageBudget(b, Care), b, rnd, k3);
    StageHasPieces(see, Template(See), StageBudget(b, See), b);
    StageHasPieces(think, Template(Think), StageBudget(b, Think), b);
    StageHasPieces(do, Template(Do), StageBudget(b, Do), b);
    StageHasPieces(care, Template(Care), StageBudget(b, Care), b);
    var all := see + think + do + care;
    assert |all| >= 18;
    ChannelCountBounds(all);
    eco := Ecosystem(d, see, think, do, care, |see| + |think| + |do| + |care|,
                     round1(CalculateRoas(b.objective, b.budget)),
                     CalculateTimeframe(b.objective, b.budget), |ChannelSet(all)|);
  }
}
