/**
 * The map page's data loader: it turns the selected kind and filters into a
 * query string and an endpoint, decides when not to ask the backend at all,
 * and keeps the rows the backend answered, each tagged with the kind.
 */
module Mapa {
  import opened Strings
  import opened Url
  import opened Entidades

  /** `[Pair(k, v)]` when `v` is not empty. */
  function IfSet(key: string, value: string): seq<Pair> {
    if value != "" then [Pair(key, value)] else []
  }

  /**
   * Where a key stands in the query string: estado, bioma, then the start
   * date (`data` or `inicio`), then `local` or `fim`.
   */
  function Rank(key: string): nat {
    if key == "estado" then 0
    else if key == "bioma" then 1
    else if key == "data" || key == "inicio" then 2
    else 3
  }

  /** The filter field a query-string key carries; `data` carries `inicio`. */
  function FieldFor(key: string, filtros: FiltrosMapa): string {
    if key == "estado" then filtros.estado
    else if key == "bioma" then filtros.bioma
    else if key == "data" || key == "inicio" then filtros.inicio
    else if key == "fim" then filtros.fim
    else filtros.local
  }

  /** The pairs `montarQueryParams` appends, in order: the place filters, then the dates. */
  function QueryPairs(tipo: Tipo, filtros: FiltrosMapa): seq<Pair> {
    Locais(filtros) + Datas(tipo, filtros)
  }

  function Locais(filtros: FiltrosMapa): seq<Pair> {
    IfSet("estado", filtros.estado) + IfSet("bioma", filtros.bioma)
  }

  /** Risk maps send the start date as `data`, with `local`; the others send `inicio` and `fim`. */
  function Datas(tipo: Tipo, filtros: FiltrosMapa): seq<Pair> {
    if tipo == Risco then IfSet("data", filtros.inicio) + IfSet("local", filtros.local)
    else IfSet("inicio", filtros.inicio) + IfSet("fim", filtros.fim)
  }

  /** `[k]` when `v` is not empty: the key `IfSet(k, v)` contributes. */
  function Sent(k: string, v: string): seq<string> {
    if v != "" then [k] else []
  }

  lemma InSent(x: string, k: string, v: string)
    ensures x in Sent(k, v) <==> x == k && v != ""
  {
  }

  lemma KeysIfSet(k: string, v: string)
    ensures Keys(IfSet(k, v)) == Sent(k, v)
  {
    if v != "" {
      assert Keys(IfSet(k, v))[0] == k;
    }
  }

  /** The keys sent, as a list. */
  lemma {:induction false} QueryKeys(tipo: Tipo, filtros: FiltrosMapa)
    ensures tipo == Risco ==>
      Keys(QueryPairs(tipo, filtros)) == Sent("estado", filtros.estado) + Sent("bioma", filtros.bioma)
        + Sent("data", filtros.inicio) + Sent("local", filtros.local)
    ensures tipo != Risco ==>
      Keys(QueryPairs(tipo, filtros)) == Sent("estado", filtros.estado) + Sent("bioma", filtros.bioma)
        + Sent("inicio", filtros.inicio) + Sent("fim", filtros.fim)
  {
    KeysAppend(Locais(filtros), Datas(tipo, filtros));
    KeysAppend(IfSet("estado", filtros.estado), IfSet("bioma", filtros.bioma));
    KeysAppend(IfSet("data", filtros.inicio), IfSet("local", filtros.local));
    KeysAppend(IfSet("inicio", filtros.inicio), IfSet("fim", filtros.fim));
    KeysIfSet("estado", filtros.estado);
    KeysIfSet("bioma", filtros.bioma);
    KeysIfSet("data", filtros.inicio);
    KeysIfSet("local", filtros.local);
    KeysIfSet("inicio", filtros.inicio);
    KeysIfSet("fim", filtros.fim);
  }

  /** estado and bioma are sent exactly when they are set. */
  lemma QueryPairsLocais(tipo: Tipo, filtros: FiltrosMapa)
    ensures "estado" in Keys(QueryPairs(tipo, filtros)) <==> filtros.estado != ""
    ensures "bioma" in Keys(QueryPairs(tipo, filtros)) <==> filtros.bioma != ""
  {
    QueryKeys(tipo, filtros);
    ChavesDistintas();
    var k1, k2 := if tipo == Risco then "data" else "inicio", if tipo == Risco then "local" else "fim";
    var v2 := if tipo == Risco then filtros.local else filtros.fim;
    assert Keys(QueryPairs(tipo, filtros))
      == Sent("estado", filtros.estado) + Sent("bioma", filtros.bioma) + Sent(k1, filtros.inicio) + Sent(k2, v2);
    InSent("estado", "estado", filtros.estado);
    InSent("estado", "bioma", filtros.bioma);
    InSent("estado", k1, filtros.inicio);
    InSent("estado", k2, v2);
    InSent("bioma", "estado", filtros.estado);
    InSent("bioma", "bioma", filtros.bioma);
    InSent("bioma", k1, filtros.inicio);
    InSent("bioma", k2, v2);
  }

  /** A risk map sends `inicio` as `data`, `local` when set, and never `inicio` or `fim`. */
  lemma QueryPairsRisco(filtros: FiltrosMapa)
    ensures "data" in Keys(QueryPairs(Risco, filtros)) <==> filtros.inicio != ""
    ensures "local" in Keys(QueryPairs(Risco, filtros)) <==> filtros.local != ""
    ensures "inicio" !in Keys(QueryPairs(Risco, filtros)) && "fim" !in Keys(QueryPairs(Risco, filtros))
  {
    QueryKeys(Risco, filtros);
    ChavesDistintas();
    forall x | x in {"data", "local", "inicio", "fim"}
      ensures x in Keys(QueryPairs(Risco, filtros)) <==>
        (x == "estado" && filtros.estado != "") || (x == "bioma" && filtros.bioma != "")
        || (x == "data" && filtros.inicio != "") || (x == "local" && filtros.local != "")
    {
      InSent(x, "estado", filtros.estado);
      InSent(x, "bioma", filtros.bioma);
      InSent(x, "data", filtros.inicio);
      InSent(x, "local", filtros.local);
    }
  }

  /** The other kinds send `inicio` and `fim` under their own names, and never `data` or `local`. */
  lemma QueryPairsOutros(tipo: Tipo, filtros: FiltrosMapa)
    requires tipo != Risco
    ensures "inicio" in Keys(QueryPairs(tipo, filtros)) <==> filtros.inicio != ""
    ensures "fim" in Keys(QueryPairs(tipo, filtros)) <==> filtros.fim != ""
    ensures "data" !in Keys(QueryPairs(tipo, filtros)) && "local" !in Keys(QueryPairs(tipo, filtros))
  {
    QueryKeys(tipo, filtros);
    ChavesDistintas();
    forall x | x in {"inicio", "fim", "data", "local"}
      ensures x in Keys(QueryPairs(tipo, filtros)) <==>
        (x == "estado" && filtros.estado != "") || (x == "bioma" && filtros.bioma != "")
        || (x == "inicio" && filtros.inicio != "") || (x == "fim" && filtros.fim != "")
    {
      InSent(x, "estado", filtros.estado);
      InSent(x, "bioma", filtros.bioma);
      InSent(x, "inicio", filtros.inicio);
      InSent(x, "fim", filtros.fim);
    }
  }

  /**
   * The place filters come first, then the start date, then `local` or
   * `fim`, no key twice; every value is the non-empty field its key names.
   */
  lemma QueryPairsOrdem(tipo: Tipo, filtros: FiltrosMapa)
    ensures Ordenado(QueryPairs(tipo, filtros), filtros, 4)
  {
    LocaisOrdenados(filtros);
    DatasOrdenadas(tipo, filtros, Locais(filtros));
  }

  /** estado, then bioma. */
  lemma LocaisOrdenados(filtros: FiltrosMapa)
    ensures Ordenado(Locais(filtros), filtros, 2)
  {
    RanksECampos(filtros);
    AppendOrdenado([], "estado", filtros.estado, filtros);
    assert [] + IfSet("estado", filtros.estado) == IfSet("estado", filtros.estado);
    AppendOrdenado(IfSet("estado", filtros.estado), "bioma", filtros.bioma, filtros);
  }

  /** The start date, then `local` or `fim`, after pairs ranked below 2. */
  lemma DatasOrdenadas(tipo: Tipo, filtros: FiltrosMapa, ps: seq<Pair>)
    requires Ordenado(ps, filtros, 2)
    ensures Ordenado(ps + Datas(tipo, filtros), filtros, 4)
  {
    RanksECampos(filtros);
    var k1, k2 := if tipo == Risco then "data" else "inicio", if tipo == Risco then "local" else "fim";
    AppendOrdenado(ps, k1, filtros.inicio, filtros);
    AppendOrdenado(ps + IfSet(k1, filtros.inicio), k2, FieldFor(k2, filtros), filtros);
    assert ps + Datas(tipo, filtros) == ps + IfSet(k1, filtros.inicio) + IfSet(k2, FieldFor(k2, filtros));
  }

  /** The rank and the field of each of the six keys. */
  lemma RanksECampos(filtros: FiltrosMapa)
    ensures Rank("estado") == 0 && FieldFor("estado", filtros) == filtros.estado
    ensures Rank("bioma") == 1 && FieldFor("bioma", filtros) == filtros.bioma
    ensures Rank("data") == 2 && FieldFor("data", filtros) == filtros.inicio
    ensures Rank("inicio") == 2 && FieldFor("inicio", filtros) == filtros.inicio
    ensures Rank("local") == 3 && FieldFor("local", filtros) == filtros.local
    ensures Rank("fim") == 3 && FieldFor("fim", filtros) == filtros.fim
  {
    ChavesDistintas();
  }

  /** Pairs in key order whose values are the non-empty fields their keys name, all ranked below `r`. */
  predicate Ordenado(ps: seq<Pair>, filtros: FiltrosMapa, r: nat) {
    && (forall i, j :: 0 <= i < j < |ps| ==> Rank(ps[i].key) < Rank(ps[j].key))
    && (forall i :: 0 <= i < |ps| ==> ps[i].value == FieldFor(ps[i].key, filtros) && ps[i].value != "")
    && (forall i :: 0 <= i < |ps| ==> Rank(ps[i].key) < r)
  }

  /** Appending a field under a key of a higher rank keeps the pairs in order. */
  lemma AppendOrdenado(ps: seq<Pair>, key: string, value: string, filtros: FiltrosMapa)
    requires Ordenado(ps, filtros, Rank(key))
    requires value == FieldFor(key, filtros)
    ensures Ordenado(ps + IfSet(key, value), filtros, Rank(key) + 1)
  {
  }

  /** The six query-string keys differ pairwise: each has its own first letter. */
  lemma ChavesDistintas()
    ensures "estado" != "bioma" && "estado" != "data" && "estado" != "local"
    ensures "estado" != "inicio" && "estado" != "fim" && "bioma" != "data"
    ensures "bioma" != "local" && "bioma" != "inicio" && "bioma" != "fim"
    ensures "data" != "local" && "data" != "inicio" && "data" != "fim"
    ensures "local" != "inicio" && "local" != "fim" && "inicio" != "fim"
  {
    assert "estado"[0] == 'e';
    assert "bioma"[0] == 'b';
    assert "data"[0] == 'd';
    assert "local"[0] == 'l';
    assert "inicio"[0] == 'i';
    assert "fim"[0] == 'f';
  }

  /** `if (value) params.append(key, value)`. */
  method AppendIfSet(params: SearchParams, key: string, value: string)
    modifies params
    ensures params.entries == old(params.entries) + IfSet(key, value)
  {
    if value != "" {
      params.Append(key, value);
    }
  }

  /** `montarQueryParams`: appends the pairs to a fresh `URLSearchParams` and serialises it. */
  method MontarQueryParams(tipo: Tipo, filtros: FiltrosMapa) returns (query: string)
    ensures query == Serialize(QueryPairs(tipo, filtros))
  {
    var params := new SearchParams();
    AppendIfSet(params, "estado", filtros.estado);
    AppendIfSet(params, "bioma", filtros.bioma);
    if tipo == Risco {
      AppendIfSet(params, "data", filtros.inicio);
      AppendIfSet(params, "local", filtros.local);
    } else {
      AppendIfSet(params, "inicio", filtros.inicio);
      AppendIfSet(params, "fim", filtros.fim);
    }
    assert params.entries == QueryPairs(tipo, filtros);
    query := params.ToString();
  }

  /** The API path of each kind; the empty kind has none. */
  function Endpoint(tipo: Tipo): (p: string)
    ensures tipo != Nenhum ==> p == "/api/" + tipo.Nome()
    ensures p == "" <==> tipo == Nenhum
  {
    match tipo
    case Risco => "/api/risco"
    case FocoCalor => "/api/foco_calor"
    case AreaQueimada => "/api/area_queimada"
    case Nenhum => ""
  }

  /** What the effect does: empty the data without a request, or fetch a URL. */
  datatype Acao = LimparDados | Buscar(url: string)

  /** The decision the effect takes before any request. */
  function Plano(tipo: Tipo, filtros: FiltrosMapa): (a: Acao)
    ensures tipo == Nenhum ==> a == LimparDados
    ensures tipo == AreaQueimada && filtros.inicio != "" && filtros.fim == "" ==> a == LimparDados
    ensures a.LimparDados? <==>
      tipo == Nenhum || (tipo == AreaQueimada && filtros.inicio != "" && filtros.fim == "")
    ensures a.Buscar? ==> a.url == "/api/" + tipo.Nome() + "?" + Serialize(QueryPairs(tipo, filtros))
  {
    if tipo == Nenhum then LimparDados
    else if tipo == AreaQueimada && filtros.inicio != "" && filtros.fim == "" then LimparDados
    else Buscar(Endpoint(tipo) + "?" + Serialize(QueryPairs(tipo, filtros)))
  }

  /** A JSON object, its fields rendered as strings. */
  type Objeto = map<string, string>

  /** How a request ended: a network error, an error status or a body that is not JSON all throw. */
  datatype Resposta = Falha | Json(corpo: Corpo)
  datatype Corpo = Lista(itens: seq<Objeto>) | NaoLista

  /** `{ ...item, tipo }`. */
  function ComTipo(item: Objeto, tipo: Tipo): (r: Objeto)
    ensures r.Keys == item.Keys + {"tipo"}
    ensures r["tipo"] == tipo.Nome()
    ensures forall k :: k in item && k != "tipo" ==> r[k] == item[k]
  {
    item["tipo" := tipo.Nome()]
  }

  /** The rows kept from a response: an array, each item tagged; anything else, none. */
  function DadosDaResposta(tipo: Tipo, resposta: Resposta): (dados: seq<Objeto>)
    ensures resposta.Json? && resposta.corpo.Lista? ==>
      |dados| == |resposta.corpo.itens|
      && forall i :: 0 <= i < |dados| ==> dados[i] == ComTipo(resposta.corpo.itens[i], tipo)
    ensures !(resposta.Json? && resposta.corpo.Lista?) ==> dados == []
  {
    match resposta
    case Json(Lista(itens)) => seq(|itens|, i requires 0 <= i < |itens| => ComTipo(itens[i], tipo))
    case _ => []
  }

  /** The map page's state: the rows shown on the map. */
  class Componente {
    var dados: seq<Objeto>

    constructor ()
      ensures dados == []
    {
      dados := [];
    }

    /**
     * The data-loading effect, run when `tipo` or `filtros` change;
     * `buscar` stands for the network: what fetching a URL gives back.
     */
    method Efeito(tipo: Tipo, filtros: FiltrosMapa, buscar: string -> Resposta)
      modifies this
      ensures Plano(tipo, filtros) == LimparDados ==> dados == []
      ensures Plano(tipo, filtros).Buscar? ==> dados == DadosDaResposta(tipo, buscar(Plano(tipo, filtros).url))
    {
      if tipo == Nenhum {
        dados := [];
        return;
      }
      if tipo == AreaQueimada && filtros.inicio != "" && filtros.fim == "" {
        dados := [];
        return;
      }
      var query := MontarQueryParams(tipo, filtros);
      var url := Endpoint(tipo) + "?" + query;
      var resposta := buscar(url);
      match resposta {
        case Json(Lista(itens)) =>
          dados := seq(|itens|, i requires 0 <= i < |itens| => ComTipo(itens[i], tipo));
        case _ =>
          dados := [];
      }
    }
  }
}
