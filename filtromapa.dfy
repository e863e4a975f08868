/**
 * The map's filter form: which kind of data the route shows, the state and
 * biome selects, the start and end dates chosen among the dates the backend
 * has, and the Apply and Clear buttons that hand the filters to the map.
 */
module FiltroMapa {
  import opened Wrappers
  import opened Strings
  import opened Entidades

  // ---------------------------------------------------------------------------
  // Date labels

  /** `parts[i]`, or the text a template literal gives `undefined`. */
  function Parte(parts: seq<string>, i: nat): string {
    if i < |parts| then parts[i] else "undefined"
  }

  /** `formatarParaDiaMesAno`: splits at `-` into year, month and day and writes `dia/mes/aa`. */
  function FormatarParaDiaMesAno(dataISO: string): string {
    var parts := Split(dataISO, '-');
    Parte(parts, 2) + "/" + Parte(parts, 1) + "/" + SliceFrom(parts[0], 2)
  }

  /** A date `ano-mes-dia` is written `dia/mes/` followed by the year without its first two digits. */
  lemma FormatarDataIso(ano: string, mes: string, dia: string)
    requires '-' !in ano && '-' !in mes && '-' !in dia
    ensures FormatarParaDiaMesAno(ano + "-" + mes + "-" + dia) == dia + "/" + mes + "/" + SliceFrom(ano, 2)
    ensures |ano| == 4 ==> FormatarParaDiaMesAno(ano + "-" + mes + "-" + dia) == dia + "/" + mes + "/" + ano[2..]
  {
    assert ano + "-" + mes + "-" + dia == ano + ['-'] + (mes + ['-'] + dia);
    SplitAtSeparator(ano, '-', mes + ['-'] + dia);
    SplitAtSeparator(mes, '-', dia);
    SplitWithoutSeparator(dia, '-');
  }

  /** Text without any `-` has neither month nor day. */
  lemma FormatarSemSeparador(texto: string)
    requires '-' !in texto
    ensures FormatarParaDiaMesAno(texto) == "undefined/undefined/" + SliceFrom(texto, 2)
  {
    SplitWithoutSeparator(texto, '-');
  }

  // ---------------------------------------------------------------------------
  // Routes

  /** The kind a route shows: the first of `foco_calor`, `area_queimada`, `risco` its path contains. */
  function TipoDaRota(path: string): Tipo {
    if Contains(path, "foco_calor") then FocoCalor
    else if Contains(path, "area_queimada") then AreaQueimada
    else if Contains(path, "risco") then Risco
    else Nenhum
  }

  /** Where Apply navigates: `/` followed by the kind, or `/` alone. */
  function Rota(tipo: Tipo): (rota: string)
    ensures tipo != Nenhum ==> rota == "/" + tipo.Nome()
    ensures tipo == Nenhum ==> rota == "/"
  {
    match tipo
    case Nenhum => "/"
    case Risco => "/risco"
    case FocoCalor => "/foco_calor"
    case AreaQueimada => "/area_queimada"
  }

  /** The route Apply navigates to shows the kind that was applied. */
  lemma TipoDaRotaRota(tipo: Tipo)
    ensures TipoDaRota(Rota(tipo)) == tipo
  {
    match tipo
    case Nenhum => RotaRaiz();
    case Risco => RotaRisco();
    case FocoCalor => RotaFocoCalor();
    case AreaQueimada => RotaAreaQueimada();
  }

  lemma RotaRaiz()
    ensures TipoDaRota("/") == Nenhum
  {
    NotContainsLonger("/", "foco_calor");
    NotContainsLonger("/", "area_queimada");
    NotContainsLonger("/", "risco");
  }

  lemma RotaFocoCalor()
    ensures TipoDaRota("/foco_calor") == FocoCalor
  {
    RotaContem("foco_calor");
  }

  lemma RotaContem(nome: string)
    ensures Contains("/" + nome, nome)
  {
    ContainsInfix("/", nome, "");
    assert "/" + nome + "" == "/" + nome;
  }

  lemma RotaRisco()
    ensures TipoDaRota("/risco") == Risco
  {
    NotContainsLonger("/risco", "foco_calor");
    NotContainsLonger("/risco", "area_queimada");
    RotaContem("risco");
  }

  lemma RotaAreaQueimada()
    ensures TipoDaRota("/area_queimada") == AreaQueimada
  {
    SemLetraF();
    NotContainsWithoutChar("/area_queimada", "foco_calor", 'f');
    RotaContem("area_queimada");
  }

  lemma SemLetraF()
    ensures 'f' in "foco_calor" && 'f' !in "/area_queimada"
  {
    assert "foco_calor"[0] == 'f';
  }

  // ---------------------------------------------------------------------------
  // The form

  /** `estado !== '' ? estado.toString() : ''`. */
  function Texto(valor: Option<nat>): string {
    match valor
    case Some(n) => NatToString(n)
    case None => ""
  }

  /** The emitted text is empty exactly when nothing is selected, and reads back as the selected number. */
  lemma TextoRoundTrip(valor: Option<nat>)
    ensures Texto(valor) == "" <==> valor.None?
    ensures valor.Some? ==> ParseNat(Texto(valor)) == valor
  {
    if valor.Some? {
      ParseNatToString(valor.value);
    }
  }

  /**
   * `new Date(d).toISOString().split('T')[0]` on every date; `dia` gives
   * None where the date is invalid and `toISOString` throws.
   */
  function DiasIso(ds: seq<string>, dia: string -> Option<string>): (r: Option<seq<string>>)
    ensures r.Some? <==> forall i :: 0 <= i < |ds| ==> dia(ds[i]).Some?
    ensures r.Some? ==> |r.value| == |ds| && forall i :: 0 <= i < |ds| ==> r.value[i] == dia(ds[i]).value
  {
    if ds == [] then Some([])
    else match (dia(ds[0]), DiasIso(ds[1..], dia))
      case (Some(d), Some(rest)) => Some([d] + rest)
      case _ => None
  }

  /** The form's state. */
  class Formulario {
    var estado: Option<nat>
    var bioma: Option<nat>
    var inicio: string
    var fim: string
    var tipo: Tipo
    /** `dataMin`/`dataMax`: None where the source stores `undefined` (an empty date list). */
    var dataMin: Option<string>
    var dataMax: Option<string>
    var datasDisponiveis: seq<string>

    /** The date list is sorted with no repeats, and its ends are `dataMin` and `dataMax`. */
    predicate Valid()
      reads this
    {
      && StrictlySorted(datasDisponiveis)
      && (datasDisponiveis != [] ==>
            dataMin == Some(datasDisponiveis[0])
            && dataMax == Some(datasDisponiveis[|datasDisponiveis| - 1]))
    }

    constructor ()
      ensures Valid()
      ensures estado.None? && bioma.None? && inicio == "" && fim == "" && tipo == Nenhum
      ensures dataMin == Some("") && dataMax == Some("") && datasDisponiveis == []
    {
      estado, bioma, inicio, fim, tipo := None, None, "", "", Nenhum;
      dataMin, dataMax, datasDisponiveis := Some(""), Some(""), [];
    }

    /** The effect on the route: the kind follows the path. */
    method SincronizarRota(path: string)
      modifies this
      ensures tipo == TipoDaRota(path)
      ensures estado == old(estado) && bioma == old(bioma) && inicio == old(inicio) && fim == old(fim)
      ensures dataMin == old(dataMin) && dataMax == old(dataMax) && datasDisponiveis == old(datasDisponiveis)
    {
      tipo := TipoDaRota(path);
    }

    /** The three sliders: each selects its kind. */
    method SelecionarTipo(t: Tipo)
      requires t != Nenhum
      modifies this
      ensures tipo == t
      ensures estado == old(estado) && bioma == old(bioma) && inicio == old(inicio) && fim == old(fim)
      ensures dataMin == old(dataMin) && dataMax == old(dataMax) && datasDisponiveis == old(datasDisponiveis)
    {
      tipo := t;
    }

    /**
     * The answer of `/api/datas_disponiveis` for the current kind:
     * `resposta` is None when the request or the JSON fails. No request is
     * made without a kind; a failure or an invalid date leaves the state as
     * it was; otherwise the list becomes the distinct days in order.
     */
    method ReceberDatas(resposta: Option<seq<string>>, dia: string -> Option<string>)
      requires Valid()
      modifies this
      ensures Valid()
      ensures estado == old(estado) && bioma == old(bioma) && inicio == old(inicio) && fim == old(fim)
      ensures tipo == old(tipo)
      ensures tipo == Nenhum || resposta.None? || DiasIso(resposta.value, dia).None? ==>
        datasDisponiveis == old(datasDisponiveis) && dataMin == old(dataMin) && dataMax == old(dataMax)
      ensures tipo != Nenhum && resposta.Some? && DiasIso(resposta.value, dia).Some? ==>
        && datasDisponiveis == SortedUnique(DiasIso(resposta.value, dia).value)
        && (datasDisponiveis == [] ==> dataMin.None? && dataMax.None?)
    {
      if tipo == Nenhum || resposta.None? {
        return;
      }
      var formatadas := DiasIso(resposta.value, dia);
      if formatadas.None? {
        return;
      }
      var unicas := SortedUnique(formatadas.value);
      dataMin := if |unicas| > 0 then Some(unicas[0]) else None;
      dataMax := if |unicas| > 0 then Some(unicas[|unicas| - 1]) else None;
      datasDisponiveis := unicas;
    }

    /** `handleChangeInicio`: keeps a date the backend has, clears anything else. */
    method HandleChangeInicio(valor: string)
      modifies this
      ensures inicio == (if valor in datasDisponiveis then valor else "")
      ensures inicio == "" || inicio in datasDisponiveis
      ensures estado == old(estado) && bioma == old(bioma) && fim == old(fim) && tipo == old(tipo)
      ensures dataMin == old(dataMin) && dataMax == old(dataMax) && datasDisponiveis == old(datasDisponiveis)
    {
      if valor in datasDisponiveis {
        inicio := valor;
      } else {
        inicio := "";
      }
    }

    /** `handleChangeFim`: keeps a date the backend has, clears anything else. */
    method HandleChangeFim(valor: string)
      modifies this
      ensures fim == (if valor in datasDisponiveis then valor else "")
      ensures fim == "" || fim in datasDisponiveis
      ensures estado == old(estado) && bioma == old(bioma) && inicio == old(inicio) && tipo == old(tipo)
      ensures dataMin == old(dataMin) && dataMax == old(dataMax) && datasDisponiveis == old(datasDisponiveis)
    {
      if valor in datasDisponiveis {
        fim := valor;
      } else {
        fim := "";
      }
    }

    /** The start-date select: stores the option chosen. */
    method SelecionarInicio(valor: string)
      modifies this
      ensures inicio == valor
      ensures estado == old(estado) && bioma == old(bioma) && fim == old(fim) && tipo == old(tipo)
      ensures dataMin == old(dataMin) && dataMax == old(dataMax) && datasDisponiveis == old(datasDisponiveis)
    {
      inicio := valor;
    }

    /** The end-date select: stores the option chosen. */
    method SelecionarFim(valor: string)
      modifies this
      ensures fim == valor
      ensures estado == old(estado) && bioma == old(bioma) && inicio == old(inicio) && tipo == old(tipo)
      ensures dataMin == old(dataMin) && dataMax == old(dataMax) && datasDisponiveis == old(datasDisponiveis)
    {
      fim := valor;
    }

    /** The state select: a state code, or nothing. */
    method SelecionarEstado(valor: Option<nat>)
      modifies this
      ensures estado == valor
      ensures bioma == old(bioma) && inicio == old(inicio) && fim == old(fim) && tipo == old(tipo)
      ensures dataMin == old(dataMin) && dataMax == old(dataMax) && datasDisponiveis == old(datasDisponiveis)
    {
      estado := valor;
    }

    /** The biome select: a biome code, or nothing. */
    method SelecionarBioma(valor: Option<nat>)
      modifies this
      ensures bioma == valor
      ensures estado == old(estado) && inicio == old(inicio) && fim == old(fim) && tipo == old(tipo)
      ensures dataMin == old(dataMin) && dataMax == old(dataMax) && datasDisponiveis == old(datasDisponiveis)
    {
      bioma := valor;
    }

    /** Apply is enabled, and the warning hidden, exactly when both dates are set. */
    predicate PodeAplicar()
      reads this
    {
      inicio != "" && fim != ""
    }

    /**
     * `aplicarFiltro`: without both dates nothing happens; otherwise it
     * navigates to the kind's route and emits the filters, the codes as
     * decimal text.
     */
    method AplicarFiltro() returns (r: Option<Navegacao<FiltrosMapa>>)
      ensures r.None? <==> !PodeAplicar()
      ensures r.Some? ==>
        && r.value.rota == Rota(tipo)
        && TipoDaRota(r.value.rota) == tipo
        && r.value.filtros.tipo == tipo
        && r.value.filtros.inicio == inicio && r.value.filtros.fim == fim
        && (r.value.filtros.estado == "" <==> estado.None?)
        && (estado.Some? ==> ParseNat(r.value.filtros.estado) == estado)
        && (r.value.filtros.bioma == "" <==> bioma.None?)
        && (bioma.Some? ==> ParseNat(r.value.filtros.bioma) == bioma)
        && r.value.filtros.estado == Texto(estado)
        && r.value.filtros.bioma == Texto(bioma)
        && r.value.filtros.local == ""
    {
      if inicio == "" || fim == "" {
        return None;
      }
      var rota := if tipo != Nenhum then "/" + tipo.Nome() else "/";
      TipoDaRotaRota(tipo);
      TextoRoundTrip(estado);
      TextoRoundTrip(bioma);
      r := Some(Navegacao(rota, FiltrosMapa(tipo, Texto(estado), Texto(bioma), inicio, fim, "")));
    }

    /**
     * `limparFiltro`: back to `/`, the kind set to risk, every filter
     * cleared; the map is handed an all-empty filter with no kind.
     */
    method LimparFiltro() returns (nav: Navegacao<FiltrosMapa>)
      modifies this
      ensures nav.rota == "/" && TipoDaRota(nav.rota) == Nenhum
      ensures nav.filtros == FiltrosMapa(Nenhum, "", "", "", "", "")
      ensures tipo == Risco && estado.None? && bioma.None? && inicio == "" && fim == ""
      ensures dataMin == old(dataMin) && dataMax == old(dataMax) && datasDisponiveis == old(datasDisponiveis)
    {
      tipo, estado, bioma, inicio, fim := Risco, None, None, "", "";
      TipoDaRotaRota(Nenhum);
      nav := Navegacao("/", FiltrosMapa(Nenhum, "", "", "", "", ""));
    }
  }
}
