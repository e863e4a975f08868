/**
 * The chart's filter form: the kind and grouping selects, the start date (a
 * month for burned areas) chosen among the dates the backend has, the 30
 * days offered as end dates, and the Apply and Clear buttons.
 */
module FiltroGrafico {
  import opened Wrappers
  import opened Strings
  import opened Entidades
  import FiltroMapa

  // ---------------------------------------------------------------------------
  // Labels

  /** `nomesMeses`: the two-digit month and its name. */
  const NomesMeses: map<string, string> := map[
    "01" := "Janeiro", "02" := "Fevereiro", "03" := "Março", "04" := "Abril",
    "05" := "Maio", "06" := "Junho", "07" := "Julho", "08" := "Agosto",
    "09" := "Setembro", "10" := "Outubro", "11" := "Novembro", "12" := "Dezembro"
  ]

  /** `nomesMeses[data] || \`Mês ${data}\``: every name in the table is non-empty, so only a missing key falls back. */
  function RotuloMes(data: string): (rotulo: string)
    ensures data in NomesMeses ==> rotulo == NomesMeses[data]
    ensures data !in NomesMeses ==> rotulo == "Mês " + data
  {
    if data in NomesMeses && NomesMeses[data] != "" then NomesMeses[data] else "Mês " + data
  }

  /** A month number written with two digits, as `TO_CHAR(…, 'MM')` or `padStart(2, '0')` give it. */
  function DoisDigitos(mes: nat): (s: string)
    requires 1 <= mes <= 12
  {
    PadStart(NatToString(mes), 2, '0')
  }

  /** Every month of the year has a name in the table, so no month option falls back to `Mês`. */
  lemma MesesTemNome(mes: nat)
    requires 1 <= mes <= 12
    ensures DoisDigitos(mes) in NomesMeses
  {
    var d := NatToString(mes);
    if mes < 10 {
      assert d == [DigitChar(mes)];
      assert DoisDigitos(mes) == ['0', DigitChar(mes)];
    } else {
      assert d == NatToString(1) + [DigitChar(mes - 10)];
      assert DoisDigitos(mes) == ['1', DigitChar(mes - 10)];
    }
  }

  /** The text of a start-date option: a month name for burned areas, `dia/mes/aa` otherwise. */
  function RotuloInicio(tipo: Tipo, data: string): (rotulo: string)
    ensures tipo == AreaQueimada ==> rotulo == RotuloMes(data)
    ensures tipo != AreaQueimada ==> rotulo == FiltroMapa.FormatarParaDiaMesAno(data)
  {
    if tipo == AreaQueimada then RotuloMes(data) else FiltroMapa.FormatarParaDiaMesAno(data)
  }

  // ---------------------------------------------------------------------------
  // End dates

  /**
   * `datasFimDisponiveis`: the 30 days from `inicio` on, or none without a
   * start date or for burned areas. `diaDe` stands for `new Date(inicio)`
   * as a day number, `isoDe` for writing a day number as `YYYY-MM-DD`.
   */
  method DatasFimDisponiveis(inicio: string, tipo: Tipo, diaDe: string -> int, isoDe: int -> string)
    returns (datas: seq<string>)
    ensures inicio == "" || tipo == AreaQueimada ==> datas == []
    ensures inicio != "" && tipo != AreaQueimada ==>
      |datas| == 30 && forall i :: 0 <= i < 30 ==> datas[i] == isoDe(diaDe(inicio) + i)
  {
    if inicio == "" || tipo == AreaQueimada {
      return [];
    }
    var inicioDia := diaDe(inicio);
    datas := [];
    var i := 0;
    while i < 30
      invariant 0 <= i <= 30
      invariant |datas| == i
      invariant forall k :: 0 <= k < i ==> datas[k] == isoDe(inicioDia + k)
    {
      datas := datas + [isoDe(inicioDia + i)];
      i := i + 1;
    }
  }

  // ---------------------------------------------------------------------------
  // The form

  /** `m` is `f` of some non-null entry of the answer. */
  predicate DeEntrada(ds: seq<Option<string>>, f: string -> string, m: string) {
    exists i :: 0 <= i < |ds| && ds[i].Some? && m == f(ds[i].value)
  }

  /** `.filter(d => d !== null).map(f)`. */
  function Mapeados(ds: seq<Option<string>>, f: string -> string): (r: seq<string>)
    ensures |r| <= |ds|
    ensures forall i :: 0 <= i < |ds| && ds[i].Some? ==> f(ds[i].value) in r
    ensures forall k :: 0 <= k < |r| ==> DeEntrada(ds, f, r[k])
  {
    if ds == [] then []
    else
      var rest := Mapeados(ds[1..], f);
      assert forall i :: 1 <= i < |ds| ==> ds[i] == ds[1..][i - 1];
      MapeadosOrigem(ds, f, rest);
      (if ds[0].Some? then [f(ds[0].value)] else []) + rest
  }

  /** An element taken from the entries after the first is taken from the whole answer. */
  lemma MapeadosOrigem(ds: seq<Option<string>>, f: string -> string, rest: seq<string>)
    requires |ds| > 0
    requires forall k :: 0 <= k < |rest| ==> DeEntrada(ds[1..], f, rest[k])
    ensures forall k :: 0 <= k < |rest| ==> DeEntrada(ds, f, rest[k])
  {
    forall k | 0 <= k < |rest|
      ensures DeEntrada(ds, f, rest[k])
    {
      var j :| 0 <= j < |ds[1..]| && ds[1..][j].Some? && rest[k] == f(ds[1..][j].value);
      assert ds[j + 1] == ds[1..][j];
    }
  }

  /** The two-character month of a burned-area answer. */
  function Mes(s: string): string {
    PadStart(s, 2, '0')
  }

  /**
   * The dates of a burned-area answer: null entries dropped, each padded to
   * two characters; every month listed is the padded month of a non-null
   * entry, and every non-null entry's padded month is listed.
   */
  function Meses(ds: seq<Option<string>>): (r: seq<string>)
    ensures |r| <= |ds|
    ensures forall k :: 0 <= k < |r| ==> |r[k]| >= 2
    ensures forall i :: 0 <= i < |ds| && ds[i].Some? ==> PadStart(ds[i].value, 2, '0') in r
    ensures forall k :: 0 <= k < |r| ==> exists i :: 0 <= i < |ds| && ds[i].Some? && r[k] == PadStart(ds[i].value, 2, '0')
  {
    var r := Mapeados(ds, Mes);
    forall k | 0 <= k < |r|
      ensures |r[k]| >= 2
      ensures exists i :: 0 <= i < |ds| && ds[i].Some? && r[k] == PadStart(ds[i].value, 2, '0')
    {
      assert DeEntrada(ds, Mes, r[k]);
      var i :| 0 <= i < |ds| && ds[i].Some? && r[k] == Mes(ds[i].value);
    }
    r
  }

  /** `d` is the ISO day of some non-null entry of the answer. */
  predicate DiaDeEntrada(ds: seq<Option<string>>, dia: string -> Option<string>, d: string) {
    exists i :: 0 <= i < |ds| && ds[i].Some? && dia(ds[i].value) == Some(d)
  }

  /** The dates of any other answer: null entries dropped, each written as `YYYY-MM-DD`; None if one is invalid. */
  function Dias(ds: seq<Option<string>>, dia: string -> Option<string>): (r: Option<seq<string>>)
    ensures r.Some? <==> forall i :: 0 <= i < |ds| && ds[i].Some? ==> dia(ds[i].value).Some?
    ensures r.Some? ==> |r.value| <= |ds|
    ensures r.Some? ==> forall i :: 0 <= i < |ds| && ds[i].Some? ==> dia(ds[i].value).value in r.value
    ensures r.Some? ==> forall k :: 0 <= k < |r.value| ==> DiaDeEntrada(ds, dia, r.value[k])
  {
    if ds == [] then Some([])
    else
      var rest := Dias(ds[1..], dia);
      assert forall i :: 1 <= i < |ds| ==> ds[i] == ds[1..][i - 1];
      if ds[0].None? then
        if rest.Some? then DiasOrigem(ds, rest.value, dia); rest else rest
      else match (dia(ds[0].value), rest)
        case (Some(d), Some(tail)) =>
          DiasOrigem(ds, tail, dia);
          Some([d] + tail)
        case _ => None
  }

  /** A day taken from the entries after the first is taken from the whole answer. */
  lemma DiasOrigem(ds: seq<Option<string>>, tail: seq<string>, dia: string -> Option<string>)
    requires |ds| > 0
    requires forall k :: 0 <= k < |tail| ==> DiaDeEntrada(ds[1..], dia, tail[k])
    ensures forall k :: 0 <= k < |tail| ==> DiaDeEntrada(ds, dia, tail[k])
  {
    forall k | 0 <= k < |tail|
      ensures DiaDeEntrada(ds, dia, tail[k])
    {
      var j :| 0 <= j < |ds[1..]| && ds[1..][j].Some? && dia(ds[1..][j].value) == Some(tail[k]);
      assert ds[j + 1] == ds[1..][j];
    }
  }

  /** Apply is enabled with both dates set, or with a start month alone for burned areas. */
  function PodeAplicar(tipo: Tipo, inicio: string, fim: string): bool {
    if tipo != AreaQueimada then inicio != "" && fim != "" else inicio != ""
  }

  /** The warning under the dates. */
  function MostraAviso(tipo: Tipo, inicio: string, fim: string): bool {
    (tipo != AreaQueimada && (inicio == "" || fim == "")) || (tipo == AreaQueimada && inicio == "")
  }

  /** The warning shows exactly when Apply is disabled. */
  lemma AvisoSeNaoPodeAplicar(tipo: Tipo, inicio: string, fim: string)
    ensures MostraAviso(tipo, inicio, fim) <==> !PodeAplicar(tipo, inicio, fim)
  {
  }

  /** The form's state. */
  class Formulario {
    var tipo: Tipo
    var local: LocalGrafico
    var estado: string
    var bioma: string
    var inicio: string
    var fim: string
    var datasDisponiveis: seq<string>

    /** The date list is sorted with no repeats. */
    predicate Valid()
      reads this
    {
      StrictlySorted(datasDisponiveis)
    }

    constructor ()
      ensures Valid()
      ensures tipo == Risco && local == PorEstado && estado == "" && bioma == ""
      ensures inicio == "" && fim == "" && datasDisponiveis == []
    {
      tipo, local, estado, bioma := Risco, PorEstado, "", "";
      inicio, fim, datasDisponiveis := "", "", [];
    }

    /** The kind select; a new kind clears both dates (the effect that refetches the dates). */
    method MudarTipo(t: Tipo)
      modifies this
      ensures tipo == t
      ensures t != old(tipo) ==> inicio == "" && fim == ""
      ensures t == old(tipo) ==> inicio == old(inicio) && fim == old(fim)
      ensures local == old(local) && estado == old(estado) && bioma == old(bioma)
      ensures datasDisponiveis == old(datasDisponiveis)
    {
      if t != tipo {
        inicio, fim := "", "";
      }
      tipo := t;
    }

    /** The grouping select. */
    method SelecionarLocal(l: LocalGrafico)
      modifies this
      ensures local == l
      ensures tipo == old(tipo) && estado == old(estado) && bioma == old(bioma)
      ensures inicio == old(inicio) && fim == old(fim) && datasDisponiveis == old(datasDisponiveis)
    {
      local := l;
    }

    /** The start select: a new start date clears the end date. */
    method SelecionarInicio(valor: string)
      modifies this
      ensures inicio == valor && fim == ""
      ensures tipo == old(tipo) && local == old(local) && estado == old(estado) && bioma == old(bioma)
      ensures datasDisponiveis == old(datasDisponiveis)
    {
      inicio := valor;
      fim := "";
    }

    /** The end select. */
    method SelecionarFim(valor: string)
      modifies this
      ensures fim == valor
      ensures tipo == old(tipo) && local == old(local) && estado == old(estado) && bioma == old(bioma)
      ensures inicio == old(inicio) && datasDisponiveis == old(datasDisponiveis)
    {
      fim := valor;
    }

    /**
     * The answer of `/api/datas_disponiveis` for the current kind: None when
     * the request or the JSON fails, which leaves the list as it was, and so
     * does an invalid date; otherwise the distinct dates, in order.
     */
    method ReceberDatas(resposta: Option<seq<Option<string>>>, dia: string -> Option<string>)
      requires Valid()
      modifies this
      ensures Valid()
      ensures tipo == old(tipo) && local == old(local) && estado == old(estado) && bioma == old(bioma)
      ensures inicio == old(inicio) && fim == old(fim)
      ensures resposta.None? ==> datasDisponiveis == old(datasDisponiveis)
      ensures resposta.Some? && tipo == AreaQueimada ==> datasDisponiveis == SortedUnique(Meses(resposta.value))
      ensures resposta.Some? && tipo != AreaQueimada ==>
        datasDisponiveis == match Dias(resposta.value, dia)
          case Some(ds) => SortedUnique(ds)
          case None => old(datasDisponiveis)
    {
      if resposta.None? {
        return;
      }
      if tipo == AreaQueimada {
        datasDisponiveis := SortedUnique(Meses(resposta.value));
      } else {
        var dias := Dias(resposta.value, dia);
        if dias.Some? {
          datasDisponiveis := SortedUnique(dias.value);
        }
      }
    }

    /** The Apply button is enabled. */
    predicate Habilitado()
      reads this
    {
      PodeAplicar(tipo, inicio, fim)
    }

    /** `aplicar`: goes to the chart page and hands over the form's fields as they are. */
    method Aplicar() returns (nav: Navegacao<FiltrosGrafico>)
      ensures nav.rota == "/grafico"
      ensures nav.filtros.tipo == tipo && nav.filtros.local == local
      ensures nav.filtros.estado == estado && nav.filtros.bioma == bioma
      ensures nav.filtros.inicio == inicio && nav.filtros.fim == fim
    {
      nav := Navegacao("/grafico", FiltrosGrafico(tipo, local, estado, bioma, inicio, fim));
    }

    /** `limpar`: risk by state, every other field empty, and that filter handed to the chart. */
    method Limpar() returns (filtros: FiltrosGrafico)
      modifies this
      ensures tipo == Risco && local == PorEstado && estado == "" && bioma == "" && inicio == "" && fim == ""
      ensures filtros == FiltrosGrafico(tipo, local, estado, bioma, inicio, fim)
      ensures datasDisponiveis == old(datasDisponiveis)
    {
      tipo, local, estado, bioma, inicio, fim := Risco, PorEstado, "", "", "", "";
      filtros := FiltrosGrafico(Risco, PorEstado, "", "", "", "");
    }
  }
}
