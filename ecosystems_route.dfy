/** The ecosystems route of the server: the newline codec the `pains` and
    `gains` lists are stored with, the grouping of an ecosystem's content
    pieces by stage, the validation of a creation request, and the
    transaction that stores a generated ecosystem and its pieces. */
module EcosystemsRoute {
  import opened Wrappers
  import opened Strings
  import opened EcosystemGenerator

  /** `(list || []).join('\n')`: the text column a list is stored in. */
  function EncodeList(xs: seq<string>): string
  {
    Join(xs, "\n")
  }

  /** `column ? column.split('\n') : []`: the empty column reads back as the
      empty list. */
  function DecodeList(column: string): (xs: seq<string>)
    ensures column == "" ==> xs == []
    ensures forall i :: 0 <= i < |xs| ==> '\n' !in xs[i]
  {
    if column == "" then [] else Split(column, '\n')
  }

  /** Reading a list back returns what was stored, when no item holds a
      newline and the list is not the single empty item. */
  lemma DecodeEncode(xs: seq<string>)
    requires forall i :: 0 <= i < |xs| ==> '\n' !in xs[i]
    requires xs != [""]
    ensures DecodeList(EncodeList(xs)) == xs
  {
    if xs != [] {
      if |xs| == 1 {
        assert EncodeList(xs) == xs[0] != "";
      } else {
        assert EncodeList(xs) == xs[0] + "\n" + Join(xs[1..], "\n");
      }
      SplitJoin(xs, '\n');
    }
  }

  /** The list of one empty item is stored as the empty column and reads back
      as the empty list. */
  lemma SingleEmptyItemIsLost()
    ensures EncodeList([""]) == ""
    ensures DecodeList(EncodeList([""])) == []
  {
  }

  /** Storing what was read back reproduces the column. */
  lemma EncodeDecode(column: string)
    ensures EncodeList(DecodeList(column)) == column
  {
  }

  /** The lists the generator form submits: the lines of a text area that are
      not blank. */
  function FormLines(text: string): (xs: seq<string>)
    ensures forall i :: 0 <= i < |xs| ==> '\n' !in xs[i] && Trim(xs[i]) != ""
  {
    NonBlank(Split(text, '\n'))
  }

  function NonBlank(lines: seq<string>): (xs: seq<string>)
    ensures forall i :: 0 <= i < |xs| ==> xs[i] in lines && Trim(xs[i]) != ""
    ensures |xs| <= |lines|
  {
    if lines == [] then []
    else
      var rest := NonBlank(lines[1..]);
      if Trim(lines[0]) != "" then [lines[0]] + rest else rest
  }

  /** Whatever the form submits is read back unchanged. */
  lemma FormListsRoundTrip(text: string)
    ensures DecodeList(EncodeList(FormLines(text))) == FormLines(text)
  {
    var xs := FormLines(text);
    assert Trim("") == "";
    if |xs| == 1 {
      assert Trim(xs[0]) != "";
    }
    DecodeEncode(xs);
  }

  /** A stored content piece. */
  datatype PieceRow = PieceRow(
    id: nat,
    ecosystemId: nat,
    stage: StageColumn,
    kind: string,
    title: string,
    description: string,
    kpi: string,
    budget: int,
    channel: string,
    format: string,
    score: int,
    pain: Option<string>,
    gain: Option<string>,
    createdAt: int)

  /** The text of a row's stage column: one of the four stage keys, or
      `Other` for a text that is none of them (a column holding a key is
      always written `Key`). */
  datatype StageColumn = Key(stage: Stage) | Other(text: string)

  /** `pieces.filter(p => p.stage === key)`. */
  function OfStage(rows: seq<PieceRow>, key: Stage): (r: seq<PieceRow>)
    ensures |r| <= |rows|
    ensures forall i :: 0 <= i < |r| ==> r[i].stage == Key(key) && r[i] in rows
  {
    if rows == [] then []
    else
      var init := OfStage(rows[..|rows| - 1], key);
      var last := rows[|rows| - 1];
      if last.stage == Key(key) then init + [last] else init
  }

  /** Filtering keeps every row of the stage, in order: the result is the
      rows of that stage with the others left out. */
  lemma {:induction false} OfStageKeepsOrder(rows: seq<PieceRow>, key: Stage, i: nat, j: nat)
    requires i < j < |rows| && rows[i].stage == Key(key) && rows[j].stage == Key(key)
    ensures exists a, b :: 0 <= a < b < |OfStage(rows, key)| && OfStage(rows, key)[a] == rows[i] && OfStage(rows, key)[b] == rows[j]
  {
    var init := rows[..|rows| - 1];
    if j < |rows| - 1 {
      OfStageKeepsOrder(init, key, i, j);
      var a, b :| 0 <= a < b < |OfStage(init, key)| && OfStage(init, key)[a] == init[i] && OfStage(init, key)[b] == init[j];
      assert OfStage(rows, key)[a] == rows[i] && OfStage(rows, key)[b] == rows[j];
    } else {
      OfStageMember(init, key, i);
      var a :| 0 <= a < |OfStage(init, key)| && OfStage(init, key)[a] == init[i];
      var b := |OfStage(init, key)|;
      assert OfStage(rows, key)[a] == rows[i] && OfStage(rows, key)[b] == rows[j];
    }
  }

  /** Every row of the stage is kept. */
  lemma {:induction false} OfStageMember(rows: seq<PieceRow>, key: Stage, i: nat)
    requires i < |rows| && rows[i].stage == Key(key)
    ensures exists a :: 0 <= a < |OfStage(rows, key)| && OfStage(rows, key)[a] == rows[i]
  {
    var init := rows[..|rows| - 1];
    if i < |rows| - 1 {
      OfStageMember(init, key, i);
      var a :| 0 <= a < |OfStage(init, key)| && OfStage(init, key)[a] == init[i];
      assert OfStage(rows, key)[a] == rows[i];
    } else {
      assert OfStage(rows, key)[|OfStage(init, key)|] == rows[i];
    }
  }

  /** `piecesByStage`. */
  datatype StageGroups = StageGroups(see: seq<PieceRow>, think: seq<PieceRow>, do: seq<PieceRow>, care: seq<PieceRow>)

  function PiecesByStage(rows: seq<PieceRow>): (g: StageGroups)
    ensures g.see == OfStage(rows, See) && g.think == OfStage(rows, Think)
    ensures g.do == OfStage(rows, Do) && g.care == OfStage(rows, Care)
  {
    StageGroups(OfStage(rows, See), OfStage(rows, Think), OfStage(rows, Do), OfStage(rows, Care))
  }

  /** A row whose stage column holds none of the four keys lands in no
      group. */
  lemma OtherStagesDropped(rows: seq<PieceRow>, r: PieceRow)
    requires r.stage.Other?
    ensures var g := PiecesByStage(rows); r !in g.see && r !in g.think && r !in g.do && r !in g.care
  {
  }

  /** The rows whose stage column holds none of the four keys. */
  function Ungrouped(rows: seq<PieceRow>): (r: seq<PieceRow>)
    ensures forall i :: 0 <= i < |r| ==> r[i].stage.Other? && r[i] in rows
  {
    if rows == [] then []
    else
      var init := Ungrouped(rows[..|rows| - 1]);
      var last := rows[|rows| - 1];
      if last.stage.Other? then init + [last] else init
  }

  /** Every row is in exactly one of the four groups or ungrouped: the sizes
      add up to the number of rows. */
  lemma {:induction false} GroupSizes(rows: seq<PieceRow>)
    ensures var g := PiecesByStage(rows);
      |g.see| + |g.think| + |g.do| + |g.care| + |Ungrouped(rows)| == |rows|
  {
    if rows != [] {
      var init, last := rows[..|rows| - 1], rows[|rows| - 1];
      GroupSizes(init);
      assert |OfStage(rows, See)| == |OfStage(init, See)| + if last.stage == Key(See) then 1 else 0;
      assert |OfStage(rows, Think)| == |OfStage(init, Think)| + if last.stage == Key(Think) then 1 else 0;
      assert |OfStage(rows, Do)| == |OfStage(init, Do)| + if last.stage == Key(Do) then 1 else 0;
      assert |OfStage(rows, Care)| == |OfStage(init, Care)| + if last.stage == Key(Care) then 1 else 0;
      assert |Ungrouped(rows)| == |Ungrouped(init)| + if last.stage.Other? then 1 else 0;
      if last.stage.Key? {
        assert last.stage == Key(last.stage.stage);
        assert last.stage.stage == See || last.stage.stage == Think || last.stage.stage == Do || last.stage.stage == Care;
      }
    }
  }

  /** The values of the list fields of a request body: absent, an array, or
      something else. */
  datatype ListField = Absent | List(items: seq<string>) | NotAList

  /** The body of `POST /api/ecosystems`. A text field that is absent is the
      empty string; a budget that does not read as a number is `None`. The
      handler sees the body after the `trim()` sanitisers of the validation
      chain rewrote it (see `Sanitize`). */
  datatype CreateRequest = CreateRequest(
    projectId: string,
    objective: string,
    budget: Option<real>,
    product: string,
    market: string,
    audience: string,
    valueProp: string,
    pains: ListField,
    gains: ListField)

  const Objectives: seq<string> := ["lanzamiento", "awareness", "leads", "ventas", "retencion", "advocacy"]

  predicate IsHexDigit(c: char)
  {
    ('0' <= c <= '9') || ('a' <= c <= 'f') || ('A' <= c <= 'F')
  }

  /** `isUUID()`: 32 hexadecimal digits in groups of 8, 4, 4, 4 and 12
      separated by dashes. */
  predicate IsUuid(s: string)
  {
    |s| == 36
    && forall i :: 0 <= i < 36 ==>
      if i == 8 || i == 13 || i == 18 || i == 23 then s[i] == '-' else IsHexDigit(s[i])
  }

  /** The validation chain of the route: every condition must hold, or the
      request is answered with 400. */
  predicate Accepts(req: CreateRequest)
  {
    IsUuid(req.projectId)
    && req.objective in Objectives
    && req.budget.Some? && req.budget.value >= 100.0
    && 1 <= |req.product| <= 500
    && !req.pains.NotAList? && !req.gains.NotAList?
  }

  /** The `trim()` sanitisers of the validation chain: `product`, `market`,
      `audience` and `valueProp` lose their surrounding white space before
      the length check and before the handler reads them. */
  function Sanitize(raw: CreateRequest): (req: CreateRequest)
    ensures req.projectId == raw.projectId && req.objective == raw.objective && req.budget == raw.budget
    ensures req.pains == raw.pains && req.gains == raw.gains
    ensures |req.product| <= |raw.product|
  {
    raw.(product := Trim(raw.product), market := Trim(raw.market), audience := Trim(raw.audience),
         valueProp := Trim(raw.valueProp))
  }

  /** Sanitising twice changes nothing more. */
  lemma SanitizeIdempotent(raw: CreateRequest)
    ensures Sanitize(Sanitize(raw)) == Sanitize(raw)
  {
    TrimIdempotent(raw.product);
    TrimIdempotent(raw.market);
    TrimIdempotent(raw.audience);
    TrimIdempotent(raw.valueProp);
  }

  /** A product of white space only is refused, however long. */
  lemma BlankProductRefused(raw: CreateRequest)
    requires forall i :: 0 <= i < |raw.product| ==> IsWhiteSpace(raw.product[i])
    ensures !Accepts(Sanitize(raw))
  {
    BlankTrimsToEmpty(raw.product);
  }

  /** The list a list field holds, `[]` when absent. */
  function Items(f: ListField): seq<string>
  {
    if f.List? then f.items else []
  }

  /** `x || null` on a text. */
  function NullIfEmpty(s: string): (r: Option<string>)
    ensures r.None? <==> s == ""
  {
    if s == "" then None else Some(s)
  }

  /** The brief the generator receives: the sanitised (trimmed) texts of the
      request. */
  function BriefOf(req: CreateRequest): Brief
    requires req.budget.Some?
  {
    Brief(req.objective, req.budget.value, req.product, req.market, req.audience,
          req.valueProp, Items(req.pains), Items(req.gains))
  }

  datatype Project = Project(id: string, userId: nat)

  /** A stored ecosystem. */
  datatype EcosystemRow = EcosystemRow(
    id: nat,
    projectId: string,
    objective: string,
    budget: real,
    product: string,
    market: Option<string>,
    audience: Option<string>,
    valueProposition: Option<string>,
    pains: string,
    gains: string,
    distribution: Distribution,
    totalPieces: nat,
    projectedRoas: real,
    timeframe: string,
    createdAt: int,
    updatedAt: int)

  /** The row stored for a generated ecosystem. */
  function EcosystemRowOf(id: nat, req: CreateRequest, eco: Ecosystem, now: int): EcosystemRow
    requires req.budget.Some?
  {
    var b := BriefOf(req);
    EcosystemRow(id, req.projectId, req.objective, req.budget.value, b.product,
                 NullIfEmpty(b.market), NullIfEmpty(b.audience), NullIfEmpty(b.valueProp),
                 EncodeList(Items(req.pains)), EncodeList(Items(req.gains)),
                 eco.distribution, eco.totalPieces, eco.projectedRoas, eco.timeframe.Label(), now, now)
  }

  /** The row stored for one generated piece. */
  function PieceRowOf(id: nat, ecosystemId: nat, key: Stage, p: Piece, now: int): PieceRow
  {
    PieceRow(id, ecosystemId, Key(key), p.kind, p.title, p.description, p.kpi, p.budget, p.channel,
             p.format, p.score, if p.pain.Some? then NullIfEmpty(p.pain.value) else None,
             if p.gain.Some? then NullIfEmpty(p.gain.value) else None, now)
  }

  /** The rows of one stage, with consecutive ids from `first`. */
  function StageRows(ecosystemId: nat, key: Stage, ps: seq<Piece>, first: nat, now: int): (r: seq<PieceRow>)
    ensures |r| == |ps|
  {
    if ps == [] then []
    else
      StageRows(ecosystemId, key, ps[..|ps| - 1], first, now)
      + [PieceRowOf(first + |ps| - 1, ecosystemId, key, ps[|ps| - 1], now)]
  }

  /** Row `i` of a stage is the row of piece `i`, with id `first + i`. */
  lemma {:induction false} StageRowAt(ecosystemId: nat, key: Stage, ps: seq<Piece>, first: nat, now: int, i: nat)
    requires i < |ps|
    ensures StageRows(ecosystemId, key, ps, first, now)[i] == PieceRowOf(first + i, ecosystemId, key, ps[i], now)
  {
    if i < |ps| - 1 {
      StageRowAt(ecosystemId, key, ps[..|ps| - 1], first, now, i);
    }
  }

  /** Every row of a stage carries the stage's key. */
  lemma {:induction false} StageRowsKey(ecosystemId: nat, key: Stage, ps: seq<Piece>, first: nat, now: int)
    ensures forall i :: 0 <= i < |ps| ==> StageRows(ecosystemId, key, ps, first, now)[i].stage == Key(key)
  {
    if ps != [] {
      StageRowsKey(ecosystemId, key, ps[..|ps| - 1], first, now);
    }
  }

  /** The id of the first piece of stage `s`: the pieces of an ecosystem take
      the ids after the ecosystem's own, stage after stage. */
  function FirstId(ecosystemId: nat, eco: Ecosystem, s: Stage): nat
  {
    match s
    case See => ecosystemId + 1
    case Think => ecosystemId + 1 + |eco.see|
    case Do => ecosystemId + 1 + |eco.see| + |eco.think|
    case Care => ecosystemId + 1 + |eco.see| + |eco.think| + |eco.do|
  }

  /** The rows stored for the pieces of stage `s`. */
  function StageRowsOf(ecosystemId: nat, eco: Ecosystem, s: Stage, now: int): seq<PieceRow>
  {
    StageRows(ecosystemId, s, eco.StagePieces(s), FirstId(ecosystemId, eco, s), now)
  }

  /** The rows of the first `k` stages in the order see, think, do, care. */
  function RowsUpTo(ecosystemId: nat, eco: Ecosystem, k: nat, now: int): (r: seq<PieceRow>)
    requires k <= 4
  {
    if k == 0 then []
    else RowsUpTo(ecosystemId, eco, k - 1, now) + StageRowsOf(ecosystemId, eco, Stages[k - 1], now)
  }

  /** All piece rows stored with ecosystem `ecosystemId`. */
  function PieceRowsOf(ecosystemId: nat, eco: Ecosystem, now: int): seq<PieceRow>
  {
    RowsUpTo(ecosystemId, eco, 4, now)
  }

  /** The ids of stage `k` follow those of the stages before it. */
  lemma {:induction false} FirstIdAfter(ecosystemId: nat, eco: Ecosystem, k: nat, now: int)
    requires k < 4
    ensures FirstId(ecosystemId, eco, Stages[k]) == ecosystemId + 1 + |RowsUpTo(ecosystemId, eco, k, now)|
  {
    if k > 0 {
      FirstIdAfter(ecosystemId, eco, k - 1, now);
    }
  }

  /** One stored row per generated piece, the see rows first, then the think,
      do and care rows. */
  lemma InsertedRows(ecosystemId: nat, eco: Ecosystem, now: int)
    ensures PieceRowsOf(ecosystemId, eco, now)
      == StageRowsOf(ecosystemId, eco, See, now) + StageRowsOf(ecosystemId, eco, Think, now)
       + StageRowsOf(ecosystemId, eco, Do, now) + StageRowsOf(ecosystemId, eco, Care, now)
    ensures |PieceRowsOf(ecosystemId, eco, now)| == |eco.AllPieces()|
  {
    assert Stages[0] == See && Stages[1] == Think && Stages[2] == Do && Stages[3] == Care;
    assert RowsUpTo(ecosystemId, eco, 1, now) == StageRowsOf(ecosystemId, eco, See, now) by {
      assert RowsUpTo(ecosystemId, eco, 0, now) == [];
    }
    assert RowsUpTo(ecosystemId, eco, 2, now) == RowsUpTo(ecosystemId, eco, 1, now) + StageRowsOf(ecosystemId, eco, Think, now);
    assert RowsUpTo(ecosystemId, eco, 3, now) == RowsUpTo(ecosystemId, eco, 2, now) + StageRowsOf(ecosystemId, eco, Do, now);
    assert RowsUpTo(ecosystemId, eco, 4, now) == RowsUpTo(ecosystemId, eco, 3, now) + StageRowsOf(ecosystemId, eco, Care, now);
  }

  /** Grouping the stored pieces by stage gives back each stage's rows,
      complete and in order. */
  lemma GroupingRestoresStages(ecosystemId: nat, eco: Ecosystem, now: int)
    ensures PiecesByStage(PieceRowsOf(ecosystemId, eco, now))
      == StageGroups(StageRowsOf(ecosystemId, eco, See, now), StageRowsOf(ecosystemId, eco, Think, now),
                     StageRowsOf(ecosystemId, eco, Do, now), StageRowsOf(ecosystemId, eco, Care, now))
  {
    InsertedRows(ecosystemId, eco, now);
    forall s: Stage
      ensures forall i :: 0 <= i < |StageRowsOf(ecosystemId, eco, s, now)| ==> StageRowsOf(ecosystemId, eco, s, now)[i].stage == Key(s)
    {
      StageRowsKey(ecosystemId, s, eco.StagePieces(s), FirstId(ecosystemId, eco, s), now);
    }
    GroupFour(StageRowsOf(ecosystemId, eco, See, now), StageRowsOf(ecosystemId, eco, Think, now),
              StageRowsOf(ecosystemId, eco, Do, now), StageRowsOf(ecosystemId, eco, Care, now));
  }

  /** Grouping four runs of rows, each of one stage in the order see, think,
      do, care, gives back the four runs. */
  lemma GroupFour(s1: seq<PieceRow>, s2: seq<PieceRow>, s3: seq<PieceRow>, s4: seq<PieceRow>)
    requires forall i :: 0 <= i < |s1| ==> s1[i].stage == Key(See)
    requires forall i :: 0 <= i < |s2| ==> s2[i].stage == Key(Think)
    requires forall i :: 0 <= i < |s3| ==> s3[i].stage == Key(Do)
    requires forall i :: 0 <= i < |s4| ==> s4[i].stage == Key(Care)
    ensures PiecesByStage(s1 + s2 + s3 + s4) == StageGroups(s1, s2, s3, s4)
  {
    forall key: Stage
      ensures OfStage(s1 + s2 + s3 + s4, key)
        == (if key == See then s1 else []) + (if key == Think then s2 else [])
         + (if key == Do then s3 else []) + (if key == Care then s4 else [])
    {
      OfStageAppend(s1 + s2 + s3, s4, key);
      OfStageAppend(s1 + s2, s3, key);
      OfStageAppend(s1, s2, key);
      OfStageUniform(s1, See, key);
      OfStageUniform(s2, Think, key);
      OfStageUniform(s3, Do, key);
      OfStageUniform(s4, Care, key);
    }
    assert s1 + [] + [] + [] == s1;
    assert [] + s2 + [] + [] == s2;
    assert [] + [] + s3 + [] == s3;
    assert [] + [] + [] + s4 == s4;
  }

  lemma {:induction false} OfStageAppend(a: seq<PieceRow>, b: seq<PieceRow>, key: Stage)
    ensures OfStage(a + b, key) == OfStage(a, key) + OfStage(b, key)
  {
    if b != [] {
      assert (a + b)[..|a + b| - 1] == a + b[..|b| - 1];
      OfStageAppend(a, b[..|b| - 1], key);
    } else {
      assert a + b == a;
    }
  }

  /** Filtering rows that all carry one stage keeps all or none of them. */
  lemma {:induction false} OfStageUniform(rows: seq<PieceRow>, stage: Stage, key: Stage)
    requires forall i :: 0 <= i < |rows| ==> rows[i].stage == Key(stage)
    ensures OfStage(rows, key) == if stage == key then rows else []
  {
    if rows != [] {
      OfStageUniform(rows[..|rows| - 1], stage, key);
      assert rows[..|rows| - 1] + [rows[|rows| - 1]] == rows;
    }
  }

  /** The rows the route keeps, held in memory. Ids are serial numbers from
      `nextId`, standing for the UUIDs of the server. */
  class EcosystemStore {
    var projects: seq<Project>
    var ecosystems: seq<EcosystemRow>
    var pieces: seq<PieceRow>
    var nextId: nat

    constructor (projects: seq<Project>)
      ensures this.projects == projects && ecosystems == [] && pieces == [] && nextId == 0
    {
      this.projects := projects;
      ecosystems := [];
      pieces := [];
      nextId := 0;
    }
  }

  predicate OwnsProject(projects: seq<Project>, projectId: string, userId: nat)
  {
    exists i :: 0 <= i < |projects| && projects[i].id == projectId && projects[i].userId == userId
  }

  datatype CreateResult =
    | BadRequest
    | ProjectNotFound
    | Created(ecosystem: EcosystemRow, pieces: seq<PieceRow>)

  /** `POST /api/ecosystems`: validate, check the project belongs to the user,
      generate the ecosystem, then store its row and one row per piece. The
      ghost `eco` is the generated ecosystem. */
  method CreateEcosystem(store: EcosystemStore, userId: nat, req: CreateRequest,
                         rnd: nat -> real, round1: real -> real, now: int)
    returns (res: CreateResult, ghost eco: Ecosystem)
    requires forall j :: 0.0 <= rnd(j) < 1.0
    modifies store
    ensures res.BadRequest? <==> !Accepts(req)
    ensures res.ProjectNotFound? <==> Accepts(req) && !OwnsProject(store.projects, req.projectId, userId)
    ensures !res.Created? ==> unchanged(store)
    ensures res.Created? ==> req.budget.Some? && GeneratedFrom(eco, BriefOf(req), round1)
    ensures res.Created? ==> res.ecosystem.id == old(store.nextId)
    ensures res.Created? ==> res.ecosystem == EcosystemRowOf(res.ecosystem.id, req, eco, now)
    ensures res.Created? ==> res.pieces == PieceRowsOf(res.ecosystem.id, eco, now)
    ensures res.Created? ==>
      store.projects == old(store.projects)
      && store.ecosystems == old(store.ecosystems) + [res.ecosystem]
      && store.pieces == old(store.pieces) + res.pieces
      && store.nextId == old(store.nextId) + 1 + |res.pieces|
  {
    eco := Ecosystem(Distribution(0.0, 0.0, 0.0, 0.0), [], [], [], [], 0, 0.0, Days30, 0);
    if !Accepts(req) {
      return BadRequest, eco;
    }
    if !OwnsProject(store.projects, req.projectId, userId) {
      return ProjectNotFound, eco;
    }
    var id := store.nextId;
    var generated := GenerateEcosystem(BriefOf(req), rnd, round1);
    assert GeneratedFrom(generated, BriefOf(req), round1);
    eco := generated;
    var row, rows := InsertEcosystem(store, id, req, generated, now);
    res := Created(row, rows);
  }

  /** The transaction: the ecosystem row, then the piece rows. */
  method InsertEcosystem(store: EcosystemStore, ecosystemId: nat, req: CreateRequest, eco: Ecosystem, now: int)
    returns (row: EcosystemRow, rows: seq<PieceRow>)
    requires req.budget.Some? && store.nextId == ecosystemId
    modifies store
    ensures row == EcosystemRowOf(ecosystemId, req, eco, now)
    ensures rows == PieceRowsOf(ecosystemId, eco, now)
    ensures store.projects == old(store.projects)
    ensures store.ecosystems == old(store.ecosystems) + [row]
    ensures store.pieces == old(store.pieces) + rows
    ensures store.nextId == ecosystemId + 1 + |rows|
  {
    row := EcosystemRowOf(ecosystemId, req, eco, now);
    store.ecosystems := store.ecosystems + [row];
    store.nextId := store.nextId + 1;
    rows := InsertPieces(store, ecosystemId, eco, now);
  }

  /** The insert loop over the four stages, in the order see, think, do,
      care. */
  method InsertPieces(store: EcosystemStore, ecosystemId: nat, eco: Ecosystem, now: int)
    returns (rows: seq<PieceRow>)
    requires store.nextId == ecosystemId + 1
    modifies store
    ensures rows == PieceRowsOf(ecosystemId, eco, now)
    ensures store.pieces == old(store.pieces) + rows
    ensures store.nextId == ecosystemId + 1 + |rows|
    ensures store.projects == old(store.projects) && store.ecosystems == old(store.ecosystems)
  {
    rows := [];
    for k := 0 to 4
      invariant rows == RowsUpTo(ecosystemId, eco, k, now)
      invariant store.pieces == old(store.pieces) + rows
      invariant store.nextId == ecosystemId + 1 + |rows|
      invariant store.projects == old(store.projects) && store.ecosystems == old(store.ecosystems)
    {
      var more := InsertStageAt(store, ecosystemId, eco, k, now);
      assert store.pieces == old(store.pieces) + (rows + more);
      rows := rows + more;
    }
  }

  /** One pass of that loop: the pieces of the `k`-th stage. */
  method InsertStageAt(store: EcosystemStore, ecosystemId: nat, eco: Ecosystem, k: nat, now: int)
    returns (more: seq<PieceRow>)
    requires k < 4
    requires store.nextId == ecosystemId + 1 + |RowsUpTo(ecosystemId, eco, k, now)|
    modifies store
    ensures RowsUpTo(ecosystemId, eco, k + 1, now) == RowsUpTo(ecosystemId, eco, k, now) + more
    ensures store.pieces == old(store.pieces) + more
    ensures store.nextId == old(store.nextId) + |more|
    ensures store.projects == old(store.projects) && store.ecosystems == old(store.ecosystems)
  {
    FirstIdAfter(ecosystemId, eco, k, now);
    var s := Stages[k];
    more := InsertStage(store, ecosystemId, FirstId(ecosystemId, eco, s), s, eco.StagePieces(s), now);
  }

  /** The insert loop over the pieces of one stage: one row per piece, with
      the next serial id. */
  method InsertStage(store: EcosystemStore, ecosystemId: nat, first: nat, key: Stage, ps: seq<Piece>, now: int)
    returns (rows: seq<PieceRow>)
    requires store.nextId == first
    modifies store
    ensures rows == StageRows(ecosystemId, key, ps, first, now)
    ensures store.pieces == old(store.pieces) + rows
    ensures store.nextId == first + |rows|
    ensures store.projects == old(store.projects) && store.ecosystems == old(store.ecosystems)
  {
    rows := [];
    for j := 0 to |ps|
      invariant rows == StageRows(ecosystemId, key, ps[..j], first, now)
      invariant store.pieces == old(store.pieces) + rows
      invariant store.nextId == first + j
      invariant store.projects == old(store.projects) && store.ecosystems == old(store.ecosystems)
    {
      var r := PieceRowOf(store.nextId, ecosystemId, key, ps[j], now);
      assert ps[..j + 1][..j] == ps[..j];
      store.pieces := store.pieces + [r];
      rows := rows + [r];
      store.nextId := store.nextId + 1;
    }
    assert ps[..|ps|] == ps;
  }
}
