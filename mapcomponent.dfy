/**
 * The map's derived data: the colour band of a risk value, the per-state
 * mean of the fire-risk points, and the two outlines drawn over the map (the
 * selected state and the selected biome), each cut out of a GeoJSON
 * feature collection.
 */
module MapComponent {
  import opened Wrappers
  import opened Strings
  import opened Entidades

  // ---------------------------------------------------------------------------
  // Colour bands

  /** The fill colour of a risk value: six bands, from the darkest red down. */
  function GetColor(valor: real): (cor: string)
    ensures cor == "#800026" <==> valor >= 0.8
    ensures cor == "#BD0026" <==> 0.6 <= valor < 0.8
    ensures cor == "#FC4E2A" <==> 0.4 <= valor < 0.6
    ensures cor == "#FD8D3C" <==> 0.2 <= valor < 0.4
    ensures cor == "#FED976" <==> 0.0 < valor < 0.2
    ensures cor == "#FFEDA0" <==> valor <= 0.0
  {
    CoresDistintas();
    if valor >= 0.8 then "#800026"
    else if valor >= 0.6 then "#BD0026"
    else if valor >= 0.4 then "#FC4E2A"
    else if valor >= 0.2 then "#FD8D3C"
    else if valor > 0.0 then "#FED976"
    else "#FFEDA0"
  }

  /** The palette, from the lowest band up. */
  const Paleta: seq<string> := ["#FFEDA0", "#FED976", "#FD8D3C", "#FC4E2A", "#BD0026", "#800026"]

  /** The six colours differ pairwise. */
  lemma CoresDistintas()
    ensures forall i, j :: 0 <= i < j < |Paleta| ==> Paleta[i] != Paleta[j]
  {
    assert Paleta[0][1] == 'F' && Paleta[0][2] == 'F';
    assert Paleta[1][1] == 'F' && Paleta[1][2] == 'E';
    assert Paleta[2][1] == 'F' && Paleta[2][2] == 'D';
    assert Paleta[3][1] == 'F' && Paleta[3][2] == 'C';
    assert Paleta[4][1] == 'B';
    assert Paleta[5][1] == '8';
  }

  /** Where a colour stands in the palette. */
  function Faixa(cor: string): int {
    if cor == Paleta[0] then 0
    else if cor == Paleta[1] then 1
    else if cor == Paleta[2] then 2
    else if cor == Paleta[3] then 3
    else if cor == Paleta[4] then 4
    else 5
  }

  /** A higher risk never gets a lighter colour. */
  lemma GetColorMonotone(v: real, w: real)
    requires v <= w
    ensures Faixa(GetColor(v)) <= Faixa(GetColor(w))
  {
    CoresDistintas();
  }

  // ---------------------------------------------------------------------------
  // Mean risk per state

  /** The fields of a risk point the aggregation reads. */
  datatype PontoRisco = PontoRisco(estado: string, riscoFogo: real)

  /** The running total and count of one state. */
  datatype Acumulado = Acumulado(total: real, count: nat)

  /** One marker: a state, its mean risk and where to draw it. */
  datatype Marcador = Marcador(estado: string, media: real, latitude: real, longitude: real)

  datatype Coordenada = Coordenada(lat: real, lon: real)

  /** Negative risk values are sentinels and are skipped. */
  predicate Conta(p: PontoRisco, estado: string) {
    p.estado == estado && p.riscoFogo >= 0.0
  }

  /** The sum of the kept risk values of `estado`. */
  function Soma(dados: seq<PontoRisco>, estado: string): real {
    if dados == [] then 0.0
    else
      var last := dados[|dados| - 1];
      Soma(dados[..|dados| - 1], estado) + if Conta(last, estado) then last.riscoFogo else 0.0
  }

  /** The number of kept risk values of `estado`. */
  function Contagem(dados: seq<PontoRisco>, estado: string): nat {
    if dados == [] then 0
    else Contagem(dados[..|dados| - 1], estado) + if Conta(dados[|dados| - 1], estado) then 1 else 0
  }

  /** A state has a kept point exactly when its count is positive. */
  lemma {:induction false} ContagemPositiva(dados: seq<PontoRisco>, estado: string)
    ensures Contagem(dados, estado) > 0 <==> exists k :: 0 <= k < |dados| && Conta(dados[k], estado)
    decreases |dados|
  {
    if dados != [] {
      var init := dados[..|dados| - 1];
      ContagemPositiva(init, estado);
      if exists k :: 0 <= k < |init| && Conta(init[k], estado) {
        var k :| 0 <= k < |init| && Conta(init[k], estado);
        assert dados[k] == init[k];
      }
      if exists k :: 0 <= k < |dados| && Conta(dados[k], estado) {
        var k :| 0 <= k < |dados| && Conta(dados[k], estado);
        if k < |init| {
          assert init[k] == dados[k];
        }
      }
    }
  }

  /** The centre of each state, by name. */
  const CentroEstados: map<string, Coordenada> := map[
    "Acre" := Coordenada(-9.02, -70.81),
    "Alagoas" := Coordenada(-9.57, -36.78),
    "Amapá" := Coordenada(1.41, -51.77),
    "Amazonas" := Coordenada(-3.47, -65.10),
    "Bahia" := Coordenada(-12.96, -41.55),
    "Ceará" := Coordenada(-5.20, -39.50),
    "Distrito Federal" := Coordenada(-15.83, -47.86),
    "Espírito Santo" := Coordenada(-19.19, -40.34),
    "Goiás" := Coordenada(-15.98, -49.86),
    "Maranhão" := Coordenada(-5.42, -45.44),
    "Mato Grosso" := Coordenada(-12.64, -55.42),
    "Mato Grosso do Sul" := Coordenada(-20.51, -54.54),
    "Minas Gerais" := Coordenada(-18.10, -44.38),
    "Pará" := Coordenada(-3.79, -52.48),
    "Paraíba" := Coordenada(-7.12, -36.72),
    "Paraná" := Coordenada(-24.89, -51.55),
    "Pernambuco" := Coordenada(-8.38, -37.86),
    "Piauí" := Coordenada(-7.72, -43.00),
    "Rio de Janeiro" := Coordenada(-22.84, -43.15),
    "Rio Grande do Norte" := Coordenada(-5.81, -36.59),
    "Rio Grande do Sul" := Coordenada(-30.01, -53.43),
    "Rondônia" := Coordenada(-10.90, -62.80),
    "Roraima" := Coordenada(2.05, -61.39),
    "Santa Catarina" := Coordenada(-27.45, -50.95),
    "São Paulo" := Coordenada(-23.55, -46.64),
    "Sergipe" := Coordenada(-10.57, -37.45),
    "Tocantins" := Coordenada(-10.25, -48.25)
  ]

  /** Where the map is centred, and where a state outside the table is drawn. */
  const CentroBrasil: Coordenada := Coordenada(-15.78, -47.92)

  function Centro(estado: string): Coordenada {
    if estado in CentroEstados then CentroEstados[estado] else CentroBrasil
  }

  /** The marker of a state whose kept points add up to `a`. */
  function Marcar(estado: string, a: Acumulado): Marcador
    requires a.count > 0
  {
    Marcador(estado, a.total / a.count as real, Centro(estado).lat, Centro(estado).lon)
  }

  /**
   * `acc` holds, for every state with a kept point in `pontos`, its total and
   * count, and nothing else; `ordem` lists those states once each.
   */
  ghost predicate Agrupado(pontos: seq<PontoRisco>, acc: map<string, Acumulado>, ordem: seq<string>) {
    && (forall e :: e in acc <==> e in ordem)
    && (forall i, j :: 0 <= i < j < |ordem| ==> ordem[i] != ordem[j])
    && (forall e :: e in acc ==>
          acc[e] == Acumulado(Soma(pontos, e), Contagem(pontos, e)) && acc[e].count > 0)
    && (forall e :: e !in acc ==> Soma(pontos, e) == 0.0 && Contagem(pontos, e) == 0)
  }

  /** The `reduce` of `dadosRiscoPorEstado`: a total and a count per state, negative values skipped. */
  method Agrupar(dados: seq<PontoRisco>) returns (acc: map<string, Acumulado>, ordem: seq<string>)
    ensures Agrupado(dados, acc, ordem)
  {
    acc, ordem := map[], [];
    var n := 0;
    while n < |dados|
      invariant 0 <= n <= |dados|
      invariant Agrupado(dados[..n], acc, ordem)
    {
      var item := dados[n];
      assert dados[..n + 1] == dados[..n] + [item];
      if item.riscoFogo >= 0.0 {
        AgrupadoSoma(dados[..n], item, acc, ordem);
        acc, ordem := Somar(acc, ordem, item);
      } else {
        AgrupadoIgnora(dados[..n], item, acc, ordem);
      }
      n := n + 1;
    }
    assert dados[..n] == dados;
  }

  /** One kept point: `acc[estado] ??= {total: 0, count: 0}`, then its risk added and counted. */
  method Somar(acc0: map<string, Acumulado>, ordem0: seq<string>, item: PontoRisco)
    returns (acc: map<string, Acumulado>, ordem: seq<string>)
    ensures var a := if item.estado in acc0 then acc0[item.estado] else Acumulado(0.0, 0);
      acc == acc0[item.estado := Acumulado(a.total + item.riscoFogo, a.count + 1)]
      && ordem == if item.estado in acc0 then ordem0 else ordem0 + [item.estado]
  {
    acc, ordem := acc0, ordem0;
    if item.estado !in acc {
      acc := acc[item.estado := Acumulado(0.0, 0)];
      ordem := ordem + [item.estado];
    }
    var a := acc[item.estado];
    acc := acc[item.estado := Acumulado(a.total + item.riscoFogo, a.count + 1)];
  }

  /** Appending one point adds its value to its own state's sum and count, and to no other. */
  lemma SomaContagemPasso(pontos: seq<PontoRisco>, item: PontoRisco, e: string)
    ensures Soma(pontos + [item], e) == Soma(pontos, e) + if Conta(item, e) then item.riscoFogo else 0.0
    ensures Contagem(pontos + [item], e) == Contagem(pontos, e) + if Conta(item, e) then 1 else 0
  {
    assert (pontos + [item])[..|pontos|] == pontos;
  }

  /** A kept point opens its state's entry if needed and adds to it. */
  lemma AgrupadoSoma(pontos: seq<PontoRisco>, item: PontoRisco, acc: map<string, Acumulado>, ordem: seq<string>)
    requires Agrupado(pontos, acc, ordem)
    requires item.riscoFogo >= 0.0
    ensures var a := if item.estado in acc then acc[item.estado] else Acumulado(0.0, 0);
      Agrupado(pontos + [item],
        acc[item.estado := Acumulado(a.total + item.riscoFogo, a.count + 1)],
        if item.estado in acc then ordem else ordem + [item.estado])
  {
    var e0 := item.estado;
    var a := if e0 in acc then acc[e0] else Acumulado(0.0, 0);
    var acc' := acc[e0 := Acumulado(a.total + item.riscoFogo, a.count + 1)];
    var ordem' := if e0 in acc then ordem else ordem + [e0];
    forall i, j | 0 <= i < j < |ordem'| ensures ordem'[i] != ordem'[j] {
      if j == |ordem| {
        assert ordem'[i] == ordem[i] && ordem[i] in ordem;
      }
    }
    forall e ensures Soma(pontos + [item], e) == Soma(pontos, e) + if Conta(item, e) then item.riscoFogo else 0.0
      ensures Contagem(pontos + [item], e) == Contagem(pontos, e) + if Conta(item, e) then 1 else 0
    {
      SomaContagemPasso(pontos, item, e);
    }
  }

  /** A negative point changes nothing. */
  lemma AgrupadoIgnora(pontos: seq<PontoRisco>, item: PontoRisco, acc: map<string, Acumulado>, ordem: seq<string>)
    requires Agrupado(pontos, acc, ordem)
    requires item.riscoFogo < 0.0
    ensures Agrupado(pontos + [item], acc, ordem)
  {
    forall e ensures Soma(pontos + [item], e) == Soma(pontos, e) && Contagem(pontos + [item], e) == Contagem(pontos, e) {
      SomaContagemPasso(pontos, item, e);
    }
  }

  /**
   * `dadosRiscoPorEstado`: folds the points into a total and a count per
   * state, skipping negative values, then turns each state into a marker
   * with its mean. Only the risk map has markers of this kind.
   */
  method DadosRiscoPorEstado(tipo: Tipo, dados: seq<PontoRisco>) returns (r: seq<Marcador>)
    ensures tipo != Risco ==> r == []
    // one marker per state, and only for states with a kept point
    ensures forall i, j :: 0 <= i < j < |r| ==> r[i].estado != r[j].estado
    ensures tipo == Risco ==>
      forall k :: 0 <= k < |dados| && dados[k].riscoFogo >= 0.0 ==>
        exists i :: 0 <= i < |r| && r[i].estado == dados[k].estado
    // each marker: the mean over at least one point, drawn at the state's centre
    ensures forall i :: 0 <= i < |r| ==>
      && Contagem(dados, r[i].estado) >= 1
      && r[i].media == Soma(dados, r[i].estado) / Contagem(dados, r[i].estado) as real
      && r[i].latitude == Centro(r[i].estado).lat
      && r[i].longitude == Centro(r[i].estado).lon
  {
    if tipo != Risco {
      return [];
    }
    var acc, ordem := Agrupar(dados);
    forall k | 0 <= k < |dados| && dados[k].riscoFogo >= 0.0
      ensures dados[k].estado in ordem
    {
      ContagemPositiva(dados, dados[k].estado);
    }
    r := seq(|ordem|, i requires 0 <= i < |ordem| && ordem[i] in acc && acc[ordem[i]].count > 0 =>
      Marcar(ordem[i], acc[ordem[i]]));
    forall k | 0 <= k < |dados| && dados[k].riscoFogo >= 0.0
      ensures exists i :: 0 <= i < |r| && r[i].estado == dados[k].estado
    {
      var i :| 0 <= i < |ordem| && ordem[i] == dados[k].estado;
      assert r[i].estado == ordem[i];
    }
  }

  // ---------------------------------------------------------------------------
  // Outlines

  /** The fields of a GeoJSON feature the outlines read: `Number(properties.id)` (None for NaN) and `properties.bioma`. */
  datatype Feature = Feature(id: Option<int>, bioma: Option<string>)

  /** A feature collection: its features and its other members, which the outlines keep. */
  datatype Colecao = Colecao(membros: map<string, string>, features: seq<Feature>)

  /** `features.filter(p)`. */
  function Filtrar(fs: seq<Feature>, p: Feature -> bool): (r: seq<Feature>)
    ensures |r| <= |fs|
    ensures forall f :: f in r <==> f in fs && p(f)
    ensures fs == [] ==> r == []
    ensures |fs| == 1 ==> r == (if p(fs[0]) then fs else [])
  {
    if fs == [] then []
    else if p(fs[0]) then [fs[0]] + Filtrar(fs[1..], p)
    else Filtrar(fs[1..], p)
  }

  /** `filter` keeps the order and the repetitions of the features: it distributes over concatenation. */
  lemma {:induction false} FiltrarAppend(a: seq<Feature>, b: seq<Feature>, p: Feature -> bool)
    ensures Filtrar(a + b, p) == Filtrar(a, p) + Filtrar(b, p)
    decreases |a|
  {
    if a == [] {
      assert a + b == b;
    } else {
      assert (a + b)[1..] == a[1..] + b;
      FiltrarAppend(a[1..], b, p);
    }
  }

  /** `Number(f.properties?.id) === Number(estado)`: NaN on either side matches nothing. */
  predicate MesmoEstado(f: Feature, estado: string) {
    f.id.Some? && ParseNat(estado).Some? && f.id.value == ParseNat(estado).value
  }

  /** The features of one state, in their original order. */
  function DoEstado(fs: seq<Feature>, estado: string): seq<Feature>
  {
    Filtrar(fs, f => MesmoEstado(f, estado))
  }

  /**
   * `contornoEstadoSelecionado`: the state outline, or null without a
   * GeoJSON, without a state filter, or when no feature has that id.
   */
  function ContornoEstadoSelecionado(geo: Option<Colecao>, estado: string): (r: Option<Colecao>)
    ensures geo.None? || estado == "" ==> r.None?
    ensures r.Some? <==>
      geo.Some? && estado != "" && exists f :: f in geo.value.features && MesmoEstado(f, estado)
    ensures r.Some? ==>
      && geo.Some?
      && r.value.membros == geo.value.membros
      && (forall f :: f in r.value.features <==> f in geo.value.features && MesmoEstado(f, estado))
      && r.value.features == DoEstado(geo.value.features, estado)
  {
    if geo.None? || estado == "" then None
    else
      var filtrado := DoEstado(geo.value.features, estado);
      if |filtrado| == 0 then None
      else
        assert filtrado[0] in filtrado;
        Some(Colecao(geo.value.membros, filtrado))
  }

  /** `biomaIdToNome`. */
  const BiomaIdToNome: map<int, string> := map[
    1 := "Amazônia", 2 := "Caatinga", 3 := "Cerrado", 4 := "Mata Atlântica", 5 := "Pampa", 6 := "Pantanal"
  ]

  /**
   * The biome name a filter value selects: `biomaIdToNome[Number(bioma)]`,
   * None when the number is not a key.
   */
  function NomeDoBioma(bioma: string): (r: Option<string>)
    ensures r.Some? <==> exists k :: 1 <= k <= 6 && ParseNat(bioma) == Some(k)
    ensures r.Some? ==> r.value != ""
    ensures r.Some? ==> ParseNat(bioma).Some? && r.value == BiomaIdToNome[ParseNat(bioma).value]
  {
    match ParseNat(bioma)
    case Some(k) => if k in BiomaIdToNome then Some(BiomaIdToNome[k]) else None
    case None => None
  }

  /** A feature of biome `nome`, compared after `normalizar` (accents removed, lower case). */
  predicate MesmoBioma(f: Feature, nome: string, normalizar: string -> string) {
    f.bioma.Some? && f.bioma.value != "" && normalizar(f.bioma.value) == normalizar(nome)
  }

  /** The features of one biome, in their original order. */
  function DoBioma(fs: seq<Feature>, nome: string, normalizar: string -> string): seq<Feature>
  {
    Filtrar(fs, f => MesmoBioma(f, nome, normalizar))
  }

  /**
   * `contornoFiltrado`: the biome outline; null without a GeoJSON, without a
   * biome filter or when the filter is not a biome id. A known id with no
   * matching feature still gives a collection, an empty one.
   */
  function ContornoFiltrado(geo: Option<Colecao>, bioma: string, normalizar: string -> string): (r: Option<Colecao>)
    ensures r.Some? <==> geo.Some? && bioma != "" && NomeDoBioma(bioma).Some?
    ensures r.Some? ==>
      && r.value.membros == geo.value.membros
      && (forall f :: f in r.value.features <==>
            f in geo.value.features && MesmoBioma(f, NomeDoBioma(bioma).value, normalizar))
      && r.value.features == DoBioma(geo.value.features, NomeDoBioma(bioma).value, normalizar)
  {
    if geo.None? || bioma == "" then None
    else match NomeDoBioma(bioma)
      case None => None
      case Some(nome) =>
        Some(Colecao(geo.value.membros, DoBioma(geo.value.features, nome, normalizar)))
  }
}
