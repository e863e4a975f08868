/**
 * The request handlers of the backend's occurrence controller: each checks
 * the query-string parameters it needs, answers 400/404 when they are
 * missing or invalid, and otherwise builds a parameterised SQL statement
 * whose WHERE predicates carry `$k` placeholders bound, in order, to a list
 * of values. Running the statement is the database's business: a handler's
 * result is the statement and its values, and the shaping of the rows that
 * come back is a separate function over those rows.
 */
module OcorrenciaController {
  import opened Wrappers
  import opened Strings

  // ---------------------------------------------------------------------------
  // Requests and responses

  /** A query-string parameter: absent (`undefined`) or a string. */
  type Param = Option<string>

  /** JavaScript truthiness of a parameter: present and not empty. */
  predicate Given(p: Param) {
    p.Some? && p.value != ""
  }

  /** The query string of a request, one field per parameter a handler reads. */
  datatype Request = Request(
    estado: Param,
    bioma: Param,
    data: Param,
    inicio: Param,
    fim: Param,
    local: Param,
    estadoId: Param,
    biomaId: Param,
    tipo: Param)

  /** A bound SQL parameter: the query-string text itself, or `Number(text)`. */
  datatype Value = Raw(text: string) | Numeric(text: string)

  /** The comparison of a one-placeholder predicate: `=`, `>=` or `<=`. */
  datatype Op = Eq | Ge | Le

  /** One WHERE predicate, with the placeholder numbers it uses. */
  datatype Pred =
    | Compare(column: string, op: Op, slot: nat)
    | Between(column: string, low: nat, high: nat)

  /** A statement: the text before the WHERE clause, its predicates, and the text after. */
  datatype Sql = Sql(select: string, filters: seq<Pred>, rest: string)

  datatype Response =
    | BadRequest(erro: string)                        // status 400
    | NotFound(erro: string)                          // status 404
    | SendFile(name: string, root: string)            // res.sendFile
    | Query(sql: Sql, values: seq<Value>)             // query(sql, values)
    | AvailableDates(min: string, max: string, datas: seq<string>)

  // ---------------------------------------------------------------------------
  // SQL text

  function OpText(op: Op): string {
    match op
    case Eq => " = "
    case Ge => " >= "
    case Le => " <= "
  }

  function PredText(p: Pred): string {
    match p
    case Compare(c, op, k) => c + OpText(op) + "$" + NatToString(k)
    case Between(c, lo, hi) => c + " BETWEEN $" + NatToString(lo) + " AND $" + NatToString(hi)
  }

  function PredTexts(fs: seq<Pred>): (ts: seq<string>)
    ensures |ts| == |fs|
  {
    if fs == [] then [] else [PredText(fs[0])] + PredTexts(fs[1..])
  }

  /** `filtros.length ? \`WHERE ${filtros.join(' AND ')}\` : ''`. */
  function WhereClause(fs: seq<Pred>): (w: string)
    ensures w == "" <==> fs == []
  {
    if |fs| > 0 then "WHERE " + Join(PredTexts(fs), " AND ") else ""
  }

  /**
   * The statement text sent to the database (up to layout whitespace), for
   * every handler but `GraficoAreaQueimadaComoEscrito`, whose source sends
   * its optional predicates after the closing `GROUP BY …;` rather than
   * inside the WHERE clause; there `filters` serves only the numbering.
   */
  function SqlText(q: Sql): string {
    q.select + " " + WhereClause(q.filters) + " " + q.rest
  }

  // ---------------------------------------------------------------------------
  // Placeholder numbering

  /** The placeholder numbers one predicate uses, left to right. */
  function PredSlots(p: Pred): seq<nat> {
    match p
    case Compare(_, _, k) => [k]
    case Between(_, lo, hi) => [lo, hi]
  }

  /** The placeholder numbers of a list of predicates, in text order. */
  function Slots(fs: seq<Pred>): seq<nat> {
    if fs == [] then [] else Slots(fs[..|fs| - 1]) + PredSlots(fs[|fs| - 1])
  }

  /** `[1, 2, ..., n]`. */
  function Numbering(n: nat): seq<nat> {
    if n == 0 then [] else Numbering(n - 1) + [n]
  }

  lemma {:induction false} NumberingAt(n: nat)
    ensures |Numbering(n)| == n
    ensures forall i :: 0 <= i < n ==> Numbering(n)[i] == i + 1
  {
    if n > 0 {
      NumberingAt(n - 1);
    }
  }

  /** The placeholders of two lists of predicates are those of the first, then those of the second. */
  lemma {:induction false} SlotsAppend(a: seq<Pred>, b: seq<Pred>)
    ensures Slots(a + b) == Slots(a) + Slots(b)
    decreases |b|
  {
    if b != [] {
      var init, last := b[..|b| - 1], b[|b| - 1];
      assert (a + b)[..|a + b| - 1] == a + init;
      assert (a + b)[|a + b| - 1] == last;
      SlotsAppend(a, init);
      calc {
        Slots(a + b);
        Slots(a + init) + PredSlots(last);
        Slots(a) + Slots(init) + PredSlots(last);
        Slots(a) + Slots(b);
      }
    } else {
      assert a + b == a;
    }
  }

  /** Placeholders read `$1 .. $n` in text order, where `n` is the number of bound values. */
  predicate WellNumbered(fs: seq<Pred>, values: seq<Value>) {
    Slots(fs) == Numbering(|values|)
  }

  /**
   * What the numbering buys: every placeholder names a bound value, every
   * bound value is named by a placeholder, and no two placeholders name the
   * same value.
   */
  lemma WellNumberedBindsEachValueOnce(fs: seq<Pred>, values: seq<Value>)
    requires WellNumbered(fs, values)
    ensures forall k :: k in Slots(fs) <==> 1 <= k <= |values|
    ensures forall i, j :: 0 <= i < j < |Slots(fs)| ==> Slots(fs)[i] != Slots(fs)[j]
  {
    NumberingAt(|values|);
    var s := Slots(fs);
    forall k | 1 <= k <= |values| ensures k in s {
      assert s[k - 1] == k;
    }
  }

  /** What a predicate tests, without its placeholder numbers: a comparison with one value, or a range. */
  datatype Test = Cmp(column: string, op: Op) | Range(column: string)

  function TestOf(p: Pred): Test {
    match p
    case Compare(c, op, _) => Cmp(c, op)
    case Between(c, _, _) => Range(c)
  }

  /** The tests of the predicates, in order. */
  function Tests(fs: seq<Pred>): (ts: seq<Test>)
    ensures |ts| == |fs|
  {
    if fs == [] then [] else Tests(fs[..|fs| - 1]) + [TestOf(fs[|fs| - 1])]
  }

  /**
   * The tests and the placeholder numbers together fix the predicates: two
   * lists with the same tests and the same numbering are the same list. So
   * a contract stating `Tests` of a well-numbered list states the list.
   */
  lemma {:induction false} TestsDetermine(fs: seq<Pred>, gs: seq<Pred>)
    requires Tests(fs) == Tests(gs) && Slots(fs) == Slots(gs)
    ensures fs == gs
    decreases |fs|
  {
    if fs != [] {
      var n := |fs|;
      UltimoIgual(fs, gs);
      TestsDetermine(fs[..n - 1], gs[..n - 1]);
      assert fs == fs[..n - 1] + [fs[n - 1]];
      assert gs == gs[..n - 1] + [gs[n - 1]];
    }
  }

  /** Equal tests and numbering give an equal last predicate and equal tests and numbering before it. */
  lemma UltimoIgual(fs: seq<Pred>, gs: seq<Pred>)
    requires fs != [] && Tests(fs) == Tests(gs) && Slots(fs) == Slots(gs)
    ensures |fs| == |gs| && fs[|fs| - 1] == gs[|gs| - 1]
    ensures Tests(fs[..|fs| - 1]) == Tests(gs[..|gs| - 1]) && Slots(fs[..|fs| - 1]) == Slots(gs[..|gs| - 1])
  {
    var n := |fs|;
    var fi, f, gi, g := fs[..n - 1], fs[n - 1], gs[..n - 1], gs[n - 1];
    UltimoPredicado(fs);
    UltimoPredicado(gs);
    SplitEqual(Tests(fi), [TestOf(f)], Tests(gi), [TestOf(g)]);
    assert TestOf(f) == [TestOf(f)][0] == [TestOf(g)][0] == TestOf(g);
    SameTestSameArity(f, g);
    SplitEqual(Slots(fi), PredSlots(f), Slots(gi), PredSlots(g));
  }

  /** A non-empty list's tests and placeholders are those of all but its last predicate, then the last one's. */
  lemma UltimoPredicado(fs: seq<Pred>)
    requires fs != []
    ensures Tests(fs) == Tests(fs[..|fs| - 1]) + [TestOf(fs[|fs| - 1])]
    ensures Slots(fs) == Slots(fs[..|fs| - 1]) + PredSlots(fs[|fs| - 1])
  {
  }

  /** Equal concatenations whose second parts have the same length have equal parts. */
  lemma SplitEqual<T>(a: seq<T>, b: seq<T>, c: seq<T>, d: seq<T>)
    requires a + b == c + d && |b| == |d|
    ensures a == c && b == d
  {
    assert a == (a + b)[..|a|] && c == (c + d)[..|c|];
    assert b == (a + b)[|a|..] && d == (c + d)[|c|..];
  }

  /** Predicates with the same test use as many placeholders; with the same numbers too, they are equal. */
  lemma SameTestSameArity(f: Pred, g: Pred)
    requires TestOf(f) == TestOf(g)
    ensures |PredSlots(f)| == |PredSlots(g)|
    ensures PredSlots(f) == PredSlots(g) ==> f == g
  {
    if PredSlots(f) == PredSlots(g) && f.Between? {
      assert f.low == PredSlots(f)[0] == PredSlots(g)[0] == g.low;
    }
  }

  /** `[x]` when `b` holds, `[]` otherwise. */
  function When<T>(b: bool, x: T): seq<T> {
    if b then [x] else []
  }

  /**
   * The builder every handler uses: the predicate list `filtros` and the
   * value list `valores`, grown in lock-step with `push`.
   */
  class Filtros {
    var filtros: seq<Pred>
    var valores: seq<Value>

    predicate Valid()
      reads this
    {
      WellNumbered(filtros, valores)
    }

    constructor ()
      ensures Valid() && filtros == [] && valores == []
    {
      filtros, valores := [], [];
    }

    /** `filtros.push(\`${column} = $${valores.length + 1}\`); valores.push(v)`, or `>=`, `<=`. */
    method AddCompare(column: string, op: Op, v: Value)
      requires Valid()
      modifies this
      ensures Valid()
      ensures filtros == old(filtros) + [Compare(column, op, |old(valores)| + 1)]
      ensures valores == old(valores) + [v]
    {
      filtros := filtros + [Compare(column, op, |valores| + 1)];
      valores := valores + [v];
      assert filtros[..|filtros| - 1] == old(filtros);
    }

    /** `filtros.push(\`${column} BETWEEN $${n + 1} AND $${n + 2}\`); valores.push(lo, hi)`. */
    method AddBetween(column: string, lo: Value, hi: Value)
      requires Valid()
      modifies this
      ensures Valid()
      ensures filtros == old(filtros) + [Between(column, |old(valores)| + 1, |old(valores)| + 2)]
      ensures valores == old(valores) + [lo, hi]
    {
      filtros := filtros + [Between(column, |valores| + 1, |valores| + 2)];
      valores := valores + [lo, hi];
      assert filtros[..|filtros| - 1] == old(filtros);
    }
  }

  // ---------------------------------------------------------------------------
  // Grouping and row shaping

  /** `local === 'bioma' ? 'bioma_id' : 'estado_id'`. */
  function Agrupamento(local: Param): (g: string)
    ensures g == "bioma_id" <==> local == Some("bioma")
    ensures g == "estado_id" <==> local != Some("bioma")
  {
    if local == Some("bioma") then "bioma_id" else "estado_id"
  }

  /** One row of the grouped risk query; `None` is SQL NULL. */
  datatype LinhaRisco = LinhaRisco(agrupamento: Option<int>, mediaRisco: Option<real>, totalPontos: Option<int>)

  /** One object of the grouped risk response; `None` is `undefined`. */
  datatype ResumoRisco = ResumoRisco(estado: Option<int>, bioma: Option<int>, media: real, total: int)

  /** `Number(x)` of a nullable integer column: `Number(null)` is 0. */
  function NumberOrZero(x: Option<int>): int {
    x.GetOr(0)
  }

  /** The response object for one row of the grouped risk query. */
  function ResumirLinha(agrupamento: string, row: LinhaRisco): (r: ResumoRisco)
    requires agrupamento == "estado_id" || agrupamento == "bioma_id"
    ensures r.estado.Some? <==> agrupamento == "estado_id"
    ensures r.bioma.Some? <==> agrupamento == "bioma_id"
    ensures r.estado.Some? ==> r.estado.value == NumberOrZero(row.agrupamento)
    ensures r.bioma.Some? ==> r.bioma.value == NumberOrZero(row.agrupamento)
    ensures row.mediaRisco.None? ==> r.media == 0.0
    ensures row.mediaRisco.Some? ==> r.media == row.mediaRisco.value
    ensures row.totalPontos.None? || row.totalPontos == Some(0) ==> r.total == 0
    ensures row.totalPontos.Some? ==> r.total == row.totalPontos.value
  {
    ResumoRisco(
      if agrupamento == "estado_id" then Some(NumberOrZero(row.agrupamento)) else None,
      if agrupamento == "bioma_id" then Some(NumberOrZero(row.agrupamento)) else None,
      if row.mediaRisco.Some? then row.mediaRisco.value else 0.0,
      if row.totalPontos.Some? && row.totalPontos.value != 0 then row.totalPontos.value else 0)
  }

  /** `resultado.map(...)`: one response object per row, in row order. */
  function ResumirRisco(agrupamento: string, rows: seq<LinhaRisco>): (r: seq<ResumoRisco>)
    requires agrupamento == "estado_id" || agrupamento == "bioma_id"
    ensures |r| == |rows|
    ensures forall i :: 0 <= i < |rows| ==> r[i] == ResumirLinha(agrupamento, rows[i])
  {
    seq(|rows|, i requires 0 <= i < |rows| => ResumirLinha(agrupamento, rows[i]))
  }

  // ---------------------------------------------------------------------------
  // Handlers

  const RiscoSemData := "Informe a data no formato YYYY-MM-DD"
  const IntervaloAusente := "Informe o intervalo de datas (início e fim)"
  const IntervaloAusenteFocoCalor := "Informe o intervalo de datas (início e fim)."
  const IntervaloLongo := "O intervalo máximo permitido é de 60 dias."
  const IntervaloAusenteGrafico := "Informe o intervalo de datas (inicio e fim) no formato YYYY-MM-DD"
  const TipoInvalido := "Tipo inválido. Use risco, foco_calor ou area_queimada."
  const SemDatas := "Nenhuma data disponível."

  /** The estado/bioma predicates every range handler starts with. */
  method AddLocalFilters(b: Filtros, estado: Param, bioma: Param)
    requires b.Valid() && b.filtros == [] && b.valores == []
    modifies b
    ensures b.Valid()
    ensures Tests(b.filtros) == When(Given(estado), Cmp("estado_id", Eq)) + When(Given(bioma), Cmp("bioma_id", Eq))
    ensures b.valores == When(Given(estado), Raw(estado.GetOr(""))) + When(Given(bioma), Raw(bioma.GetOr("")))
  {
    if Given(estado) {
      b.AddCompare("estado_id", Eq, Raw(estado.value));
    }
    if Given(bioma) {
      b.AddCompare("bioma_id", Eq, Raw(bioma.value));
    }
  }

  /** GET /api/risco: mean risk per state or biome on one day. */
  method FiltrarRisco(req: Request) returns (resp: Response)
    ensures !Given(req.data) <==> resp.BadRequest?
    ensures !Given(req.data) ==> resp == BadRequest(RiscoSemData)
    ensures Given(req.data) ==> resp.Query? && WellNumbered(resp.sql.filters, resp.values)
    ensures Given(req.data) ==>
      Tests(resp.sql.filters) == When(Given(req.estado), Cmp("estado_id", Eq)) + When(Given(req.bioma), Cmp("bioma_id", Eq))
        + [Cmp("data", Eq)]
    ensures Given(req.data) ==>
      resp.values == When(Given(req.estado), Raw(req.estado.GetOr(""))) + When(Given(req.bioma), Raw(req.bioma.GetOr("")))
        + [Raw(req.data.value)]
    ensures Given(req.data) ==> WhereClause(resp.sql.filters) != ""
    ensures Given(req.data) ==> resp.sql.rest == "GROUP BY " + Agrupamento(req.local)
  {
    if !Given(req.data) {
      return BadRequest(RiscoSemData);
    }
    var b := new Filtros();
    AddLocalFilters(b, req.estado, req.bioma);
    b.AddCompare("data", Eq, Raw(req.data.value));
    var g := Agrupamento(req.local);
    resp := Query(
      Sql(SelectRisco(g), b.filtros, "GROUP BY " + g),
      b.valores);
  }

  function SelectRisco(g: string): string {
    "SELECT " + g + " AS agrupamento, AVG(risco_fogo) AS media_risco, COUNT(*) AS total_pontos FROM risco"
  }

  /** The estado/bioma filters, then `column BETWEEN inicio AND fim`. */
  method RangeFilters(req: Request, column: string) returns (b: Filtros)
    requires Given(req.inicio) && Given(req.fim)
    ensures fresh(b) && b.Valid()
    ensures Tests(b.filtros) == When(Given(req.estado), Cmp("estado_id", Eq)) + When(Given(req.bioma), Cmp("bioma_id", Eq))
      + [Range(column)]
    ensures b.filtros[|b.filtros| - 1] == Between(column, |b.valores| - 1, |b.valores|)
    ensures b.valores == When(Given(req.estado), Raw(req.estado.GetOr(""))) + When(Given(req.bioma), Raw(req.bioma.GetOr("")))
      + [Raw(req.inicio.value), Raw(req.fim.value)]
  {
    b := new Filtros();
    AddLocalFilters(b, req.estado, req.bioma);
    b.AddBetween(column, Raw(req.inicio.value), Raw(req.fim.value));
  }

  /**
   * `Filtrar_Foco` (map points of heat sources in a date range). The
   * routes register no path for it: `/foco_calor` is `FiltrarFocoCalor`.
   */
  method FiltrarFoco(req: Request) returns (resp: Response)
    ensures !(Given(req.inicio) && Given(req.fim)) <==> resp.BadRequest?
    ensures !(Given(req.inicio) && Given(req.fim)) ==> resp == BadRequest(IntervaloAusente)
    ensures Given(req.inicio) && Given(req.fim) ==> resp.Query? && WellNumbered(resp.sql.filters, resp.values)
    ensures Given(req.inicio) && Given(req.fim) ==>
      Tests(resp.sql.filters) == When(Given(req.estado), Cmp("estado_id", Eq)) + When(Given(req.bioma), Cmp("bioma_id", Eq))
        + [Range("data")]
    ensures Given(req.inicio) && Given(req.fim) ==>
      resp.values == When(Given(req.estado), Raw(req.estado.GetOr(""))) + When(Given(req.bioma), Raw(req.bioma.GetOr("")))
        + [Raw(req.inicio.value), Raw(req.fim.value)]
    ensures Given(req.inicio) && Given(req.fim) ==>
      resp.sql.filters[|resp.sql.filters| - 1] == Between("data", |resp.values| - 1, |resp.values|)
  {
    if !Given(req.inicio) || !Given(req.fim) {
      return BadRequest(IntervaloAusente);
    }
    var b := RangeFilters(req, "data");
    resp := Query(
      Sql(SelectFoco, b.filtros, ""),
      b.valores);
  }

  const SelectFoco: string :=
    "SELECT ST_Y(geometria) AS latitude, ST_X(geometria) AS longitude, estado_id, bioma_id, risco_fogo, data, "
    + "dia_sem_chuva, precipitacao, frp FROM foco_calor"

  /**
   * `Filtrar_AreaQueimada`, which the routes do not register (`/area_queimada`
   * is `FiltrarAreaQueimadaPorIds`): `inicio` without `fim` serves the
   * month's ready-made GeoJSON file; otherwise both dates are required.
   */
  method FiltrarAreaQueimada(req: Request) returns (resp: Response)
    ensures Given(req.inicio) && !Given(req.fim) <==> resp.SendFile?
    ensures Given(req.inicio) && !Given(req.fim) ==>
      resp == SendFile("area_queimada_" + req.inicio.value + ".geojson", "public/geojson/area_queimada")
    ensures !Given(req.inicio) <==> resp.BadRequest?
    ensures !Given(req.inicio) ==> resp == BadRequest(IntervaloAusente)
    ensures resp.Query? <==> Given(req.inicio) && Given(req.fim)
    ensures resp.Query? ==> WellNumbered(resp.sql.filters, resp.values)
    ensures resp.Query? ==>
      Tests(resp.sql.filters) == When(Given(req.estado), Cmp("estado_id", Eq)) + When(Given(req.bioma), Cmp("bioma_id", Eq))
        + [Range("data_pas")]
    ensures resp.Query? ==>
      resp.sql.filters[|resp.sql.filters| - 1] == Between("data_pas", |resp.values| - 1, |resp.values|)
    ensures resp.Query? ==>
      resp.values == When(Given(req.estado), Raw(req.estado.GetOr(""))) + When(Given(req.bioma), Raw(req.bioma.GetOr("")))
        + [Raw(req.inicio.GetOr("")), Raw(req.fim.GetOr(""))]
  {
    if Given(req.inicio) && !Given(req.fim) {
      return SendFile("area_queimada_" + req.inicio.value + ".geojson", "public/geojson/area_queimada");
    }
    if !Given(req.inicio) || !Given(req.fim) {
      return BadRequest(IntervaloAusente);
    }
    var b := RangeFilters(req, "data_pas");
    resp := Query(
      Sql(SelectAreaQueimada, b.filtros, ""),
      b.valores);
  }

  const SelectAreaQueimada: string :=
    "SELECT ST_Y(geom) AS latitude, ST_X(geom) AS longitude, estado_id, bioma_id, risco AS risco_fogo, "
    + "data_pas AS data FROM area_queimada"

  /**
   * GET /api/area_queimada: risk points filtered by `estado_id` and
   * `bioma_id`, both optional; no parameter is required.
   */
  method FiltrarAreaQueimadaPorIds(req: Request) returns (resp: Response)
    ensures resp.Query? && WellNumbered(resp.sql.filters, resp.values)
    ensures Tests(resp.sql.filters) == When(Given(req.estadoId), Cmp("estado_id", Eq)) + When(Given(req.biomaId), Cmp("bioma_id", Eq))
    ensures resp.values == When(Given(req.estadoId), Raw(req.estadoId.GetOr("")))
      + When(Given(req.biomaId), Raw(req.biomaId.GetOr("")))
    ensures WhereClause(resp.sql.filters) == "" <==> !Given(req.estadoId) && !Given(req.biomaId)
  {
    var b := new Filtros();
    AddLocalFilters(b, req.estadoId, req.biomaId);
    resp := Query(
      Sql(SelectAreaQueimadaPorIds, b.filtros, ";"),
      b.valores);
  }
  const SelectAreaQueimadaPorIds: string :=
    "SELECT id, risco_fogo, estado_id, bioma_id, data, ST_X(geometria) AS longitude, "
    + "ST_Y(geometria) AS latitude FROM risco"


  /** The fixed date range at `$1, $2`, then estado and bioma as numbers. */
  method FocoCalorFiltros(req: Request) returns (b: Filtros)
    requires Given(req.inicio) && Given(req.fim)
    ensures fresh(b) && b.Valid()
    ensures |b.filtros| > 0 && b.filtros[0] == Between("f.data", 1, 2)
    ensures Tests(b.filtros) == [Range("f.data")] + When(Given(req.estado), Cmp("f.estado_id", Eq))
      + When(Given(req.bioma), Cmp("f.bioma_id", Eq))
    ensures b.valores == [Raw(req.inicio.value), Raw(req.fim.value)]
      + When(Given(req.estado), Numeric(req.estado.GetOr(""))) + When(Given(req.bioma), Numeric(req.bioma.GetOr("")))
  {
    b := new Filtros();
    b.AddBetween("f.data", Raw(req.inicio.value), Raw(req.fim.value));
    assert b.filtros == [Between("f.data", 1, 2)];
    assert Tests(b.filtros) == [Range("f.data")];
    ghost var before := b.filtros;
    if Given(req.estado) {
      b.AddCompare("f.estado_id", Eq, Numeric(req.estado.value));
      assert b.filtros[..|b.filtros| - 1] == before;
    }
    assert Tests(b.filtros) == [Range("f.data")] + When(Given(req.estado), Cmp("f.estado_id", Eq));
    assert b.filtros[0] == Between("f.data", 1, 2);
    before := b.filtros;
    if Given(req.bioma) {
      b.AddCompare("f.bioma_id", Eq, Numeric(req.bioma.value));
      assert b.filtros[..|b.filtros| - 1] == before;
    }
    assert b.filtros[0] == Between("f.data", 1, 2);
  }

  /**
   * GET /api/foco_calor: heat sources with state and biome names. The date
   * range is fixed at `$1, $2`; estado, then bioma, are appended as numbers.
   * `diffDias` is the number of days from `inicio` to `fim`.
   */
  method FiltrarFocoCalor(req: Request, diffDias: (string, string) -> real) returns (resp: Response)
    ensures !(Given(req.inicio) && Given(req.fim)) ==> resp == BadRequest(IntervaloAusenteFocoCalor)
    ensures Given(req.inicio) && Given(req.fim) && diffDias(req.inicio.value, req.fim.value) > 100.0 ==>
      resp == BadRequest(IntervaloLongo)
    ensures resp.Query? <==> Given(req.inicio) && Given(req.fim) && diffDias(req.inicio.value, req.fim.value) <= 100.0
    ensures resp.Query? ==> WellNumbered(resp.sql.filters, resp.values)
    ensures resp.Query? ==> |resp.sql.filters| > 0 && resp.sql.filters[0] == Between("f.data", 1, 2)
    ensures resp.Query? ==>
      Tests(resp.sql.filters) == [Range("f.data")] + When(Given(req.estado), Cmp("f.estado_id", Eq))
        + When(Given(req.bioma), Cmp("f.bioma_id", Eq))
    ensures resp.Query? ==>
      resp.values == [Raw(req.inicio.GetOr("")), Raw(req.fim.GetOr(""))]
        + When(Given(req.estado), Numeric(req.estado.GetOr(""))) + When(Given(req.bioma), Numeric(req.bioma.GetOr("")))
    ensures resp.Query? ==> resp.sql.rest == "LIMIT 10000"
  {
    if !Given(req.inicio) || !Given(req.fim) {
      return BadRequest(IntervaloAusenteFocoCalor);
    }
    if diffDias(req.inicio.value, req.fim.value) > 100.0 {
      return BadRequest(IntervaloLongo);
    }
    var b := FocoCalorFiltros(req);
    resp := Query(Sql(SelectFocoCalor, b.filtros, "LIMIT 10000"), b.valores);
  }

  const SelectFocoCalor: string :=
    "SELECT ST_Y(f.geometria) AS latitude, ST_X(f.geometria) AS longitude, e.estado, b.bioma, "
    + "f.risco_fogo AS risco_fogo, f.data AS data, f.dia_sem_chuva AS dia_sem_chuva, f.precipitacao, f.frp "
    + "FROM Foco_Calor f JOIN Estados e ON f.estado_id = e.id_estado JOIN Bioma b ON f.bioma_id = b.id"

  function SelectGraficoRisco(g: string): string {
    "SELECT " + g + " AS local, ROUND(AVG(risco_fogo)::numeric, 2) AS media, COUNT(*) AS total FROM risco"
  }

  /** GET /api/grafico/risco: mean risk per state or biome over a date range. */
  method GraficoRiscoFogo(req: Request) returns (resp: Response)
    ensures !(Given(req.inicio) && Given(req.fim)) <==> resp.BadRequest?
    ensures Given(req.inicio) && Given(req.fim) ==> resp.Query?
    ensures resp.BadRequest? ==> resp.erro == IntervaloAusenteGrafico
    ensures resp.Query? ==> WellNumbered(resp.sql.filters, resp.values)
    ensures resp.Query? ==> resp.sql.filters == [Between("data", 1, 2)]
    ensures resp.Query? ==> resp.values == [Raw(req.inicio.GetOr("")), Raw(req.fim.GetOr(""))]
    ensures resp.Query? ==> resp.sql.rest == "GROUP BY " + Agrupamento(req.local)
  {
    if !Given(req.inicio) || !Given(req.fim) {
      return BadRequest(IntervaloAusenteGrafico);
    }
    var b := new Filtros();
    b.AddBetween("data", Raw(req.inicio.value), Raw(req.fim.value));
    var g := Agrupamento(req.local);
    resp := Query(
      Sql(SelectGraficoRisco(g), b.filtros, "GROUP BY " + g),
      b.valores);
  }

  /** GET /api/grafico/foco_calor: heat-source count per state or biome over a date range. */
  method GraficoFocoCalor(req: Request) returns (resp: Response)
    ensures !(Given(req.inicio) && Given(req.fim)) <==> resp.BadRequest?
    ensures Given(req.inicio) && Given(req.fim) ==> resp.Query?
    ensures resp.BadRequest? ==> resp.erro == IntervaloAusenteGrafico
    ensures resp.Query? ==> WellNumbered(resp.sql.filters, resp.values)
    ensures resp.Query? ==> resp.sql.filters == [Between("data", 1, 2)]
    ensures resp.Query? ==> resp.values == [Raw(req.inicio.GetOr("")), Raw(req.fim.GetOr(""))]
    ensures resp.Query? ==> resp.sql.rest == "GROUP BY " + Agrupamento(req.local) + " ORDER BY total DESC"
  {
    if !Given(req.inicio) || !Given(req.fim) {
      return BadRequest(IntervaloAusenteGrafico);
    }
    var b := new Filtros();
    b.AddBetween("data", Raw(req.inicio.value), Raw(req.fim.value));
    var g := Agrupamento(req.local);
    resp := Query(
      Sql("SELECT " + g + " AS local, COUNT(*) AS total FROM foco_calor", b.filtros,
          "GROUP BY " + g + " ORDER BY total DESC"),
      b.valores);
  }

  /**
   * The optional predicates of the burned-area chart, each numbered after
   * the values bound so far: estado and bioma as numbers, then `inicio` as
   * a lower and `fim` as an upper bound of `data_pas`. `alias` is the table
   * prefix the columns are written with.
   */
  method AreaQueimadaFiltros(req: Request, alias: string) returns (b: Filtros)
    ensures fresh(b) && b.Valid()
    ensures Tests(b.filtros) == When(Given(req.estado), Cmp(alias + "estado_id", Eq)) + When(Given(req.bioma), Cmp(alias + "bioma_id", Eq))
      + When(Given(req.inicio), Cmp(alias + "data_pas", Ge)) + When(Given(req.fim), Cmp(alias + "data_pas", Le))
    ensures b.valores == When(Given(req.estado), Numeric(req.estado.GetOr(""))) + When(Given(req.bioma), Numeric(req.bioma.GetOr("")))
      + When(Given(req.inicio), Raw(req.inicio.GetOr(""))) + When(Given(req.fim), Raw(req.fim.GetOr("")))
  {
    var estado, bioma, data := alias + "estado_id", alias + "bioma_id", alias + "data_pas";
    var e, bi, i, f := Numeric(req.estado.GetOr("")), Numeric(req.bioma.GetOr("")), Raw(req.inicio.GetOr("")), Raw(req.fim.GetOr(""));
    b := new Filtros();
    AddIfGiven(b, req.estado, estado, Eq, e);
    AddIfGiven(b, req.bioma, bioma, Eq, bi);
    ghost var locais, valoresLocais := Tests(b.filtros), b.valores;
    assert locais == When(Given(req.estado), Cmp(estado, Eq)) + When(Given(req.bioma), Cmp(bioma, Eq));
    assert valoresLocais == When(Given(req.estado), e) + When(Given(req.bioma), bi);
    AddIfGiven(b, req.inicio, data, Ge, i);
    AddIfGiven(b, req.fim, data, Le, f);
    assert Tests(b.filtros) == locais + When(Given(req.inicio), Cmp(data, Ge)) + When(Given(req.fim), Cmp(data, Le));
    assert b.valores == valoresLocais + When(Given(req.inicio), i) + When(Given(req.fim), f);
  }

  /** `if (p) { queryStr += … $${values.length + 1}; values.push(v) }`. */
  method AddIfGiven(b: Filtros, p: Param, column: string, op: Op, v: Value)
    requires b.Valid()
    modifies b
    ensures b.Valid()
    ensures Tests(b.filtros) == old(Tests(b.filtros)) + When(Given(p), Cmp(column, op))
    ensures b.valores == old(b.valores) + When(Given(p), v)
  {
    if Given(p) {
      ghost var before := b.filtros;
      b.AddCompare(column, op, v);
      assert b.filtros[..|b.filtros| - 1] == before;
    }
  }

  function SelectGraficoAreaQueimada(g: string): string {
    "SELECT " + g + " AS local, COUNT(*) AS total_pontos FROM area_queimada"
  }

  /**
   * GET /api/grafico/area_queimada as the handler writes it. The text
   * already holds `data_pas BETWEEN $1 AND $2`, but the value list starts
   * empty, and the optional predicates are numbered from that empty list
   * (and appended after the `GROUP BY …;` that closes the statement, with a
   * table prefix `a.` the statement never declares). `filters` lists the
   * predicates in the order their placeholders appear in the text.
   */
  method GraficoAreaQueimadaComoEscrito(req: Request) returns (resp: Response)
    ensures resp.Query?
    ensures |resp.sql.filters| > 0 && resp.sql.filters[0] == Between("data_pas", 1, 2)
    ensures resp.values == When(Given(req.estado), Numeric(req.estado.GetOr(""))) + When(Given(req.bioma), Numeric(req.bioma.GetOr("")))
      + When(Given(req.inicio), Raw(req.inicio.GetOr(""))) + When(Given(req.fim), Raw(req.fim.GetOr("")))
    ensures !WellNumbered(resp.sql.filters, resp.values)
  {
    var g := Agrupamento(req.local);
    var b := AreaQueimadaFiltros(req, "a.");
    var fs := [Between("data_pas", 1, 2)] + b.filtros;
    SlotsAhead(b.filtros, b.valores);
    resp := Query(Sql(SelectGraficoAreaQueimada(g), fs, "GROUP BY " + g + "; GROUP BY categoria ORDER BY total DESC"), b.valores);
  }

  /**
   * Putting the fixed range in front of well-numbered predicates leaves two
   * placeholders more than there are values, so the numbering never holds.
   */
  lemma SlotsAhead(fs: seq<Pred>, values: seq<Value>)
    requires WellNumbered(fs, values)
    ensures !WellNumbered([Between("data_pas", 1, 2)] + fs, values)
  {
    SlotsAppend([Between("data_pas", 1, 2)], fs);
    assert Slots([Between("data_pas", 1, 2)]) == [1, 2];
    NumberingAt(|values|);
  }

  /**
   * GET /api/grafico/area_queimada as evidently intended: the same optional
   * predicates, numbered from `$1` after the values bound so far, in the
   * WHERE clause, on the columns of `area_queimada` itself, and the count
   * grouped by state or biome, largest first.
   */
  method GraficoAreaQueimada(req: Request) returns (resp: Response)
    ensures resp.Query? && WellNumbered(resp.sql.filters, resp.values)
    ensures Tests(resp.sql.filters) == When(Given(req.estado), Cmp("estado_id", Eq)) + When(Given(req.bioma), Cmp("bioma_id", Eq))
      + When(Given(req.inicio), Cmp("data_pas", Ge)) + When(Given(req.fim), Cmp("data_pas", Le))
    ensures resp.values == When(Given(req.estado), Numeric(req.estado.GetOr(""))) + When(Given(req.bioma), Numeric(req.bioma.GetOr("")))
      + When(Given(req.inicio), Raw(req.inicio.GetOr(""))) + When(Given(req.fim), Raw(req.fim.GetOr("")))
    ensures resp.sql.rest == "GROUP BY " + Agrupamento(req.local) + " ORDER BY total_pontos DESC"
  {
    var g := Agrupamento(req.local);
    var b := AreaQueimadaFiltros(req, "");
    assert "" + "estado_id" == "estado_id" && "" + "bioma_id" == "bioma_id" && "" + "data_pas" == "data_pas";
    resp := Query(Sql(SelectGraficoAreaQueimada(g), b.filtros, "GROUP BY " + g + " ORDER BY total_pontos DESC"), b.valores);
  }

  // ---------------------------------------------------------------------------
  // Available dates

  datatype Config = Config(tabela: string, coluna: string)

  /** `String(tipo)`: an absent parameter reads as `"undefined"`. */
  function ParamString(p: Param): string {
    p.GetOr("undefined")
  }

  const Configs: map<string, Config> := map[
    "risco" := Config("Risco", "data"),
    "foco_calor" := Config("Foco_calor", "data"),
    "area_queimada" := Config("Area_Queimada", "data_pas")]

  /** `config[String(tipo)]`: the table and date column of a data kind. */
  function ConfigDoTipo(tipo: Param): (c: Option<Config>)
    ensures c.Some? <==> tipo in {Some("risco"), Some("foco_calor"), Some("area_queimada")}
    ensures tipo == Some("risco") ==> c == Some(Config("Risco", "data"))
    ensures tipo == Some("foco_calor") ==> c == Some(Config("Foco_calor", "data"))
    ensures tipo == Some("area_queimada") ==> c == Some(Config("Area_Queimada", "data_pas"))
  {
    var k := ParamString(tipo);
    assert k == "undefined" ==> k !in Configs;
    if k in Configs then Some(Configs[k]) else None
  }

  /**
   * The statement that lists the available dates of a kind: distinct
   * two-digit months for burned areas, distinct ISO days otherwise.
   */
  function ConsultaDatas(tipo: Param): (r: Response)
    ensures r.BadRequest? <==> ConfigDoTipo(tipo).None?
    ensures r.BadRequest? ==> r.erro == TipoInvalido
    ensures ConfigDoTipo(tipo).Some? ==> r.Query?
    ensures r.Query? ==> r.values == [] && r.sql.filters == []
  {
    match ConfigDoTipo(tipo)
    case None => BadRequest(TipoInvalido)
    case Some(c) =>
      if tipo == Some("area_queimada") then
        Query(Sql("SELECT DISTINCT TO_CHAR(" + c.coluna + ", 'MM') AS mes_str, CAST(TO_CHAR(" + c.coluna
                  + ", 'MM') AS INTEGER) AS mes_num FROM " + c.tabela + " WHERE " + c.coluna + " IS NOT NULL",
                  [], "ORDER BY mes_num"), [])
      else
        Query(Sql("SELECT DISTINCT TO_CHAR(" + c.coluna + ", 'YYYY-MM-DD') AS data FROM " + c.tabela
                  + " WHERE " + c.coluna + " IS NOT NULL", [], "ORDER BY data"), [])
  }

  /** `.filter(d => d !== null)`. */
  function NonNull(rows: seq<Option<string>>): (ds: seq<string>)
    ensures |ds| <= |rows|
    ensures forall d :: d in ds <==> Some(d) in rows
    ensures rows == [] ==> ds == []
    ensures |rows| == 1 ==> ds == (if rows[0].Some? then [rows[0].value] else [])
  {
    if rows == [] then []
    else (if rows[0].Some? then [rows[0].value] else []) + NonNull(rows[1..])
  }

  /** The filter keeps the order and the repetitions of the rows: it distributes over concatenation. */
  lemma {:induction false} NonNullAppend(a: seq<Option<string>>, b: seq<Option<string>>)
    ensures NonNull(a + b) == NonNull(a) + NonNull(b)
    decreases |a|
  {
    if a == [] {
      assert a + b == b;
    } else {
      assert (a + b)[1..] == a[1..] + b;
      NonNullAppend(a[1..], b);
    }
  }

  /**
   * The first date kept is the first non-null row, and the last one the
   * last non-null row: the `ORDER BY` of the statement carries over to
   * `min` and `max`.
   */
  lemma {:induction false} NonNullEnds(rows: seq<Option<string>>, i: nat)
    requires i < |rows| && rows[i].Some?
    ensures |NonNull(rows)| > 0
    ensures (forall j :: 0 <= j < i ==> rows[j].None?) ==> NonNull(rows)[0] == rows[i].value
    ensures (forall j :: i < j < |rows| ==> rows[j].None?) ==> NonNull(rows)[|NonNull(rows)| - 1] == rows[i].value
  {
    var antes, depois := rows[..i], rows[i + 1..];
    NonNullAround(rows, i);
    if forall j :: 0 <= j < i ==> rows[j].None? {
      assert forall j :: 0 <= j < |antes| ==> antes[j] == rows[j];
      NonNullNone(antes);
    }
    if forall j :: i < j < |rows| ==> rows[j].None? {
      assert forall j :: 0 <= j < |depois| ==> depois[j] == rows[i + 1 + j];
      NonNullNone(depois);
    }
  }

  /** The dates kept around a non-null row: those before it, the row's date, and those after it. */
  lemma NonNullAround(rows: seq<Option<string>>, i: nat)
    requires i < |rows| && rows[i].Some?
    ensures NonNull(rows) == NonNull(rows[..i]) + [rows[i].value] + NonNull(rows[i + 1..])
  {
    var antes, meio, depois := rows[..i], [rows[i]], rows[i + 1..];
    assert rows == antes + meio + depois;
    NonNullAppend(antes + meio, depois);
    NonNullAppend(antes, meio);
  }

  /** Rows that are all null leave nothing. */
  lemma NonNullNone(rows: seq<Option<string>>)
    requires forall j :: 0 <= j < |rows| ==> rows[j].None?
    ensures NonNull(rows) == []
  {
  }

  /** `.map(d => new Date(d).toISOString().split('T')[0])`, the day normalisation given as `isoDay`. */
  function MapDays(ds: seq<string>, isoDay: string -> string): (r: seq<string>)
    ensures |r| == |ds|
    ensures forall i :: 0 <= i < |ds| ==> r[i] == isoDay(ds[i])
  {
    seq(|ds|, i requires 0 <= i < |ds| => isoDay(ds[i]))
  }

  /**
   * GET /api/datas_disponiveis: `rows` is what the statement of
   * `ConsultaDatas` returned (the month or day column, `None` for NULL).
   */
  function DatasDisponiveis(tipo: Param, rows: seq<Option<string>>, isoDay: string -> string): (r: Response)
    ensures r.BadRequest? <==> ConfigDoTipo(tipo).None?
    ensures r.BadRequest? ==> r.erro == TipoInvalido
    ensures ConfigDoTipo(tipo).Some? ==> (r.NotFound? <==> forall i :: 0 <= i < |rows| ==> rows[i].None?)
    ensures ConfigDoTipo(tipo).Some? && (exists i :: 0 <= i < |rows| && rows[i].Some?) ==> r.AvailableDates?
    ensures r.NotFound? ==> r.erro == SemDatas
    ensures r.AvailableDates? ==>
      |r.datas| > 0 && r.min == r.datas[0] && r.max == r.datas[|r.datas| - 1]
    ensures r.AvailableDates? && tipo == Some("area_queimada") ==> r.datas == NonNull(rows)
    ensures r.AvailableDates? && tipo != Some("area_queimada") ==> r.datas == MapDays(NonNull(rows), isoDay)
  {
    match ConfigDoTipo(tipo)
    case None => BadRequest(TipoInvalido)
    case Some(_) =>
      var datas := if tipo == Some("area_queimada") then NonNull(rows) else MapDays(NonNull(rows), isoDay);
      assert forall i :: 0 <= i < |rows| && rows[i].Some? ==> |datas| > 0 by {
        forall i | 0 <= i < |rows| && rows[i].Some? ensures |datas| > 0 {
          assert rows[i].value in NonNull(rows);
        }
      }
      if |datas| == 0 then NotFound(SemDatas)
      else
        assert NonNull(rows)[0] in NonNull(rows);
        AvailableDates(datas[0], datas[|datas| - 1], datas)
  }
}
