/**
 * The records the frontend components pass to one another: the data kind
 * selected in a filter form (`tipo`) and the filter values the map and the
 * chart are given.
 */
module Entidades {

  /** `'' | 'risco' | 'foco_calor' | 'area_queimada'`. */
  datatype Tipo = Nenhum | Risco | FocoCalor | AreaQueimada {

    /** The string the frontend uses for the kind, also its route and API path segment. */
    function Nome(): (s: string)
      ensures s == "" <==> this == Nenhum
    {
      match this
      case Nenhum => ""
      case Risco => "risco"
      case FocoCalor => "foco_calor"
      case AreaQueimada => "area_queimada"
    }
  }

  /** Different kinds have different names. */
  lemma NomeInjective(a: Tipo, b: Tipo)
    requires a.Nome() == b.Nome()
    ensures a == b
  {
  }

  /**
   * The filters the map form hands to the map. A string field holds `''`
   * when the value is empty or not set: every use of these fields only
   * tests their truthiness or forwards them.
   */
  datatype FiltrosMapa = FiltrosMapa(
    tipo: Tipo,
    estado: string,
    bioma: string,
    inicio: string,
    fim: string,
    local: string)

  /** `'estado' | 'bioma'`: how the chart groups its bars. */
  datatype LocalGrafico = PorEstado | PorBioma {
    function Nome(): string {
      match this
      case PorEstado => "estado"
      case PorBioma => "bioma"
    }
  }

  /** The filters the chart form hands to the chart. */
  datatype FiltrosGrafico = FiltrosGrafico(
    tipo: Tipo,
    local: LocalGrafico,
    estado: string,
    bioma: string,
    inicio: string,
    fim: string)

  /** What a form does when a filter is applied: go to `rota` and hand `filtros` to its parent. */
  datatype Navegacao<F> = Navegacao(rota: string, filtros: F)
}
