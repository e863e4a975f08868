/**
 * The bar chart: it asks the backend for the chart rows of the applied
 * filters, names each bar after its biome or state code, colours it from
 * green to red by its value, and chooses between the chart and a message.
 */
module Grafico {
  import opened Wrappers
  import opened Strings
  import opened Entidades
  import opened Url
  import MapComponent

  // ---------------------------------------------------------------------------
  // Category names

  /** `local` of a chart row: the backend sends a code, as a number or as text. */
  datatype Local = Texto(s: string) | Numero(n: int)

  /** `String(local)`. */
  function Chave(local: Local): string {
    match local
    case Texto(s) => s
    case Numero(n) => IntToString(n)
  }

  /** Biome codes to names. */
  const Biomas: map<string, string> := map[
    "1" := "Amazônia", "2" := "Caatinga", "3" := "Cerrado",
    "4" := "Mata Atlântica", "5" := "Pampa", "6" := "Pantanal"
  ]

  /** State codes to their two-letter abbreviations. */
  const Ufs: map<string, string> := map[
    "11" := "RO", "12" := "AC", "13" := "AM", "14" := "RR", "15" := "PA", "16" := "AP",
    "17" := "TO", "21" := "MA", "22" := "PI", "23" := "CE", "24" := "RN", "25" := "PB",
    "26" := "PE", "27" := "AL", "28" := "SE", "29" := "BA", "31" := "MG", "32" := "ES",
    "33" := "RJ", "35" := "SP", "41" := "PR", "42" := "SC", "43" := "RS", "50" := "MS",
    "51" := "MT", "52" := "GO", "53" := "DF"
  ]

  /** The one table of `getNomeCategoria`: biome codes have one digit, state codes two, so they do not clash. */
  const Mapeamento: map<string, string> := Biomas + Ufs

  /** `mapeamento[String(local)] || String(local)`: no name in the table is empty, so a known code gives its name. */
  function GetNomeCategoria(local: Local): (nome: string)
    ensures Chave(local) in Mapeamento ==> nome == Mapeamento[Chave(local)]
    ensures Chave(local) !in Mapeamento ==> nome == Chave(local)
  {
    var chave := Chave(local);
    if chave in Mapeamento && Mapeamento[chave] != "" then Mapeamento[chave] else chave
  }

  /** The chart names biomes as the map's biome outline does. */
  lemma BiomasComoNoMapa(k: int)
    requires 1 <= k <= 6
    ensures k in MapComponent.BiomaIdToNome
    ensures GetNomeCategoria(Numero(k)) == MapComponent.BiomaIdToNome[k]
  {
    var chave := Chave(Numero(k));
    assert chave == [DigitChar(k)];
    if chave in Ufs {
      ChaveDeUf(chave);
    }
    BiomaPorDigito(k);
  }

  /** The one-digit code of biome `k` names it as the map does. */
  lemma BiomaPorDigito(k: int)
    requires 1 <= k <= 6
    ensures [DigitChar(k)] in Biomas && k in MapComponent.BiomaIdToNome
    ensures Biomas[[DigitChar(k)]] == MapComponent.BiomaIdToNome[k]
  {
    if k == 1 { assert [DigitChar(k)] == "1"; }
    else if k == 2 { assert [DigitChar(k)] == "2"; }
    else if k == 3 { assert [DigitChar(k)] == "3"; }
    else if k == 4 { assert [DigitChar(k)] == "4"; }
    else if k == 5 { assert [DigitChar(k)] == "5"; }
    else { assert [DigitChar(k)] == "6"; }
  }

  /** A state code is named by its two-letter abbreviation. */
  lemma UfComoSigla(local: Local)
    requires Chave(local) in Ufs
    ensures GetNomeCategoria(local) == Ufs[Chave(local)] && |GetNomeCategoria(local)| == 2
  {
    ChaveDeUf(Chave(local));
  }

  /** State codes have two digits, so a biome code is never one. */
  lemma ChaveDeUf(chave: string)
    requires chave in Ufs
    ensures |chave| == 2 && |Ufs[chave]| == 2
  {
  }

  // ---------------------------------------------------------------------------
  // Bar colour

  /** `Math.round`: the nearest integer, halves rounded up. */
  function Arredondar(x: real): (n: int)
    ensures n as real - 0.5 <= x < n as real + 0.5
  {
    (x + 0.5).Floor
  }

  /** The value that gets the reddest colour: 1 for risk, 130 for counts. */
  function Maximo(tipo: Tipo): real {
    if tipo == Risco then 1.0 else 130.0
  }

  /** `Math.min(Math.max((valor - min) / (max - min), 0), 1)`. */
  function Razao(valor: real, tipo: Tipo): (ratio: real)
    ensures 0.0 <= ratio <= 1.0
    ensures valor <= 0.0 ==> ratio == 0.0
    ensures valor >= Maximo(tipo) ==> ratio == 1.0
    ensures 0.0 <= valor <= Maximo(tipo) ==> ratio * Maximo(tipo) == valor
  {
    var x := (valor - 0.0) / (Maximo(tipo) - 0.0);
    var limitado := if x > 0.0 then x else 0.0;
    if limitado < 1.0 then limitado else 1.0
  }

  datatype Rgb = Rgb(r: int, g: int, b: int)

  /** The three channels, each moved from green (46,139,87) towards red (255,69,0) by the ratio, and rounded. */
  function Componentes(valor: real, tipo: Tipo): (c: Rgb)
    ensures 46 <= c.r <= 255 && 69 <= c.g <= 139 && 0 <= c.b <= 87
    ensures valor <= 0.0 ==> c == Rgb(46, 139, 87)
    ensures valor >= Maximo(tipo) ==> c == Rgb(255, 69, 0)
  {
    var ratio := Razao(valor, tipo);
    Rgb(Arredondar(46.0 + ratio * (255.0 - 46.0)),
        Arredondar(139.0 + ratio * (69.0 - 139.0)),
        Arredondar(87.0 + ratio * (0.0 - 87.0)))
  }

  /** A larger value is never greener: red rises, green and blue fall. */
  lemma ComponentesMonotone(v: real, w: real, tipo: Tipo)
    requires v <= w
    ensures Componentes(v, tipo).r <= Componentes(w, tipo).r
    ensures Componentes(v, tipo).g >= Componentes(w, tipo).g
    ensures Componentes(v, tipo).b >= Componentes(w, tipo).b
  {
    var p, q := Razao(v, tipo), Razao(w, tipo);
    assert p <= q by {
      var m := Maximo(tipo);
      assert (v - 0.0) / (m - 0.0) <= (w - 0.0) / (m - 0.0);
    }
    ArredondarMonotone(46.0 + p * 209.0, 46.0 + q * 209.0);
    ArredondarMonotone(139.0 + q * (-70.0), 139.0 + p * (-70.0));
    ArredondarMonotone(87.0 + q * (-87.0), 87.0 + p * (-87.0));
  }

  lemma ArredondarMonotone(x: real, y: real)
    requires x <= y
    ensures Arredondar(x) <= Arredondar(y)
  {
  }

  /** `` `rgb(${r},${g},${b})` ``. */
  function Css(c: Rgb): string {
    "rgb(" + IntToString(c.r) + "," + IntToString(c.g) + "," + IntToString(c.b) + ")"
  }

  /** The colours at both ends of the scale, written out. */
  lemma CssDosExtremos()
    ensures Css(Rgb(46, 139, 87)) == "rgb(46,139,87)"
    ensures Css(Rgb(255, 69, 0)) == "rgb(255,69,0)"
  {
    assert IntToString(46) == "46" && IntToString(139) == "139" && IntToString(87) == "87";
    assert IntToString(255) == "255" && IntToString(69) == "69" && IntToString(0) == "0";
  }

  /** `calcularCor`; a value that is not a number (None) gives `NaN` in every channel. */
  function CalcularCor(valor: Option<real>, tipo: Tipo): (cor: string)
    ensures valor.None? ==> cor == "rgb(NaN,NaN,NaN)"
    ensures valor.Some? && valor.value <= 0.0 ==> cor == "rgb(46,139,87)"
    ensures valor.Some? && valor.value >= Maximo(tipo) ==> cor == "rgb(255,69,0)"
  {
    match valor
    case None => "rgb(NaN,NaN,NaN)"
    case Some(v) =>
      CssDosExtremos();
      Css(Componentes(v, tipo))
  }

  // ---------------------------------------------------------------------------
  // Chart rows

  /** A JSON field: absent, `null`, or a number. */
  datatype Campo = Ausente | Nulo | Num(x: real)

  /** `Number(campo)`: None for `NaN`; `null` is 0. */
  function NumberDe(campo: Campo): (r: Option<real>)
    ensures campo.Ausente? <==> r.None?
  {
    match campo
    case Ausente => None
    case Nulo => Some(0.0)
    case Num(x) => Some(x)
  }

  /** A row of `/api/grafico/<tipo>`. */
  datatype Dado = Dado(local: Local, media: Campo, total: Campo)

  /** A row of the chart table: the header, or a bar's name, value and style. */
  datatype Linha = Cabecalho(categoria: string, serie: string) | Barra(nome: string, valor: Option<real>, estilo: string)

  /** The value a bar shows: the mean for risk, the total otherwise. */
  function ValorDe(tipo: Tipo, d: Dado): Option<real> {
    if tipo == Risco then NumberDe(d.media) else NumberDe(d.total)
  }

  /** `chartData`: the header, then one bar per row, in the rows' order. */
  function ChartData(tipo: Tipo, dados: seq<Dado>): (linhas: seq<Linha>)
    ensures |linhas| == 1 + |dados|
    ensures linhas[0] == Cabecalho("Categoria", if tipo == Risco then "Média" else "Total")
    ensures forall i :: 0 <= i < |dados| ==>
      && linhas[i + 1].Barra?
      && linhas[i + 1].nome == GetNomeCategoria(dados[i].local)
      && linhas[i + 1].valor == ValorDe(tipo, dados[i])
      && linhas[i + 1].estilo == CalcularCor(ValorDe(tipo, dados[i]), tipo)
  {
    [Cabecalho("Categoria", if tipo == Risco then "Média" else "Total")]
      + seq(|dados|, i requires 0 <= i < |dados| =>
          Barra(GetNomeCategoria(dados[i].local), ValorDe(tipo, dados[i]), CalcularCor(ValorDe(tipo, dados[i]), tipo)))
  }

  // ---------------------------------------------------------------------------
  // Fetching and rendering

  /** The query of the chart request: `local`, `inicio`, and `fim` when set. */
  function ParesGrafico(filtros: FiltrosGrafico): (ps: seq<Pair>)
    ensures |ps| >= 2 && ps[0] == Pair("local", filtros.local.Nome()) && ps[1] == Pair("inicio", filtros.inicio)
    ensures |ps| == 3 <==> filtros.fim != ""
    ensures |ps| == 3 ==> ps[2] == Pair("fim", filtros.fim)
  {
    [Pair("local", filtros.local.Nome()), Pair("inicio", filtros.inicio)]
      + if filtros.fim != "" then [Pair("fim", filtros.fim)] else []
  }

  /** Builds the chart request's query string in a fresh `URLSearchParams`. */
  method ConsultaGrafico(filtros: FiltrosGrafico) returns (query: string)
    ensures query == Serialize(ParesGrafico(filtros))
  {
    var params := new SearchParams();
    params.Append("local", filtros.local.Nome());
    params.Append("inicio", filtros.inicio);
    if filtros.fim != "" {
      params.Append("fim", filtros.fim);
    }
    assert params.entries == ParesGrafico(filtros);
    query := params.ToString();
  }

  datatype Acao = LimparDados | Buscar(url: string)

  /** The fetch guard: without both dates no request is made and the rows are emptied. */
  function PlanoGrafico(filtros: FiltrosGrafico): (a: Acao)
    ensures a.LimparDados? <==> filtros.inicio == "" || filtros.fim == ""
    ensures a.Buscar? ==>
      a.url == "/api/grafico/" + filtros.tipo.Nome() + "?" + Serialize(ParesGrafico(filtros))
      && |ParesGrafico(filtros)| == 3
  {
    if filtros.inicio != "" && filtros.fim != "" then
      Buscar("/api/grafico/" + filtros.tipo.Nome() + "?" + Serialize(ParesGrafico(filtros)))
    else LimparDados
  }

  /** How the chart request ended: an error, an array, or some other JSON value. */
  datatype Resposta = Falha | Lista(itens: seq<Dado>) | NaoLista

  /** What the component shows. */
  datatype Exibicao = AvisoDatas | SemDados | Desenhar(linhas: seq<Linha>)

  /** The render branch: the date warning, the no-data message, or the chart. */
  function Exibir(filtros: FiltrosGrafico, linhas: seq<Linha>): (e: Exibicao)
    ensures e == AvisoDatas <==> filtros.inicio == "" || filtros.fim == ""
    ensures e == SemDados <==> filtros.inicio != "" && filtros.fim != "" && |linhas| <= 1
    ensures e.Desenhar? ==> e.linhas == linhas && |linhas| > 1
  {
    if filtros.inicio == "" || filtros.fim == "" then AvisoDatas
    else if |linhas| <= 1 then SemDados
    else Desenhar(linhas)
  }

  /** With both dates set, the no-data message shows exactly when the backend sent no rows. */
  lemma SemDadosSeVazio(filtros: FiltrosGrafico, dados: seq<Dado>)
    requires filtros.inicio != "" && filtros.fim != ""
    ensures Exibir(filtros, ChartData(filtros.tipo, dados)) == SemDados <==> dados == []
  {
  }

  /** The chart component's state: the rows of the last answer. */
  class Componente {
    var dados: seq<Dado>

    constructor ()
      ensures dados == []
    {
      dados := [];
    }

    /** The effect on `filtros`; `buscar` stands for the network. */
    method Efeito(filtros: FiltrosGrafico, buscar: string -> Resposta)
      modifies this
      ensures PlanoGrafico(filtros) == LimparDados ==> dados == []
      ensures PlanoGrafico(filtros).Buscar? ==>
        dados == match buscar(PlanoGrafico(filtros).url)
          case Lista(itens) => itens
          case _ => []
    {
      if !(filtros.inicio != "" && filtros.fim != "") {
        dados := [];
        return;
      }
      var query := ConsultaGrafico(filtros);
      var url := "/api/grafico/" + filtros.tipo.Nome() + "?" + query;
      match buscar(url) {
        case Lista(itens) => dados := itens;
        case _ => dados := [];
      }
    }
  }
}
