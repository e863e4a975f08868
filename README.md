# Projeto Ignis — a Dafny model of the dashboard's logic

Projeto Ignis is a wildfire dashboard. An Express backend answers filtered queries over three PostGIS tables: fire risk (`risco`), heat sources (`foco_calor`) and burned areas (`area_queimada`). A React frontend shows the answers on a Leaflet map and on a bar chart. This project models the logic between the user's filters and the SQL statement, and between the backend's rows and what is drawn:

- **`OcorrenciaController`** (`controller.dfy`): the request handlers.
  - Each handler checks its required query parameters and answers 400 when one is missing; `DatasDisponiveis` also answers 404 when there are no dates.
  - It decides between serving a ready-made GeoJSON file and querying.
  - Otherwise it grows a list of WHERE predicates and a list of bound values in lock-step, in the builder class `Filtros`.
  - A statement is a `Sql` value (the text before WHERE, the predicates, the text after). Its placeholders are *well numbered* when they read `$1 … $n` in text order and `n` is the number of bound values; every handler's contract says so.
  - The shaping of aggregate rows and of the available-dates answer are functions over the rows the database returns.
- **`Url`** (`url.dfy`): the part of `URLSearchParams` the frontend uses, a class whose `Append` grows a list of pairs.
- **`Mapa`** (`mapa.dfy`): the map page's query string (`montarQueryParams`), its endpoint and its two no-request guards, and the tagging of the rows it receives.
- **`MapComponent`** (`mapcomponent.dfy`):
  - the six-band risk colour;
  - the per-state mean of risk points, a fold with a mutable accumulator, proved against `Soma`/`Contagem`;
  - the state and biome outlines cut out of a GeoJSON collection.
- **`FiltroMapa`** (`filtromapa.dfy`): the map's filter form as a class with the form's state fields. It covers the kind taken from the route, the membership-checked date setters, the date list (distinct, sorted, with its ends), Apply and Clear, and the `dia/mes/aa` date label.
- **`FiltroGrafico`** (`filtrografico.dfy`): the chart's filter form as a class. It covers the clear-on-change rules, the month labels, the 30 end dates (a loop), Apply gating and Clear.
- **`Grafico`** (`grafico.dfy`): the chart's category names, the green-to-red bar colour, the chart rows, the fetch guard and the render branch.
- **`Strings`**, **`Wrappers`**, **`Entidades`**: decimal text and `Number`, `split`, `includes`, `slice`, `padStart`, the default `sort` order and `Array.from(new Set(xs)).sort()`; `Option`; the records the components pass to one another.

Modelling conventions:

- A JavaScript value that may be `undefined` or `NaN` is an `Option`; "truthy" is `Some` and not empty.
- `Number(s)` on a code is `ParseNat` (digit strings only); `String(n)` is `NatToString`/`IntToString`.
- Numbers are Dafny `real`s; `Math.round(x)` is `(x + 0.5).Floor`.
- Everything outside the program is a parameter:
  - the network: `buscar`, what fetching a URL returns;
  - `Date` arithmetic: `diffDias`, `diaDe`, `isoDe`, `dia`, `isoDay`;
  - Unicode normalisation: `normalizar`;
  - the database: its rows are inputs.
- `formatarParaDiaMesAno` is written twice in the source (`FiltroMapa.tsx:26-29`, `FiltroGrafico.tsx:36-39`), with the same text. It is defined once, in `FiltroMapa`, and used by both forms.
- `Filtrar_foco_calor` rejects a range longer than 100 days, although its message speaks of 60. The model follows the test in the code (`OcorrenciaController.ts:259`) and keeps the message text as written.

## Model

| member | source | states |
|---|---|---|
| Strings.ParseNat | Projeto-Ignis/frontend/src/components/MapComponent.tsx:128 | `Number(code)` is read as a number exactly for a non-empty string of decimal digits; the callers test for an empty code first |
| Strings.ParseNatToString | Projeto-Ignis/frontend/src/components/FiltroMapa.tsx:107-108 | reading back the decimal text of a code gives the code (round trip) |
| Strings.NatToStringInjective | Projeto-Ignis/frontend/src/components/FiltroMapa.tsx:107-108 | different codes are emitted as different texts |
| Strings.SplitWithoutSeparator | Projeto-Ignis/frontend/src/components/FiltroMapa.tsx:27 | `split('-')` of a text without `-` is that text alone |
| Strings.SplitAtSeparator | Projeto-Ignis/frontend/src/components/FiltroMapa.tsx:27 | `split('-')` peels off the text before the first `-` and splits the rest |
| Strings.SliceFrom | Projeto-Ignis/frontend/src/components/FiltroMapa.tsx:28 | `slice(k)` has the characters from position k on, and is empty past the end |
| Strings.PadStart | Projeto-Ignis/frontend/src/components/FiltroGrafico.tsx:62 | `padStart(w, c)` ends with the original text, is at least w long, and the added prefix is all `c` |
| Strings.ContainsInfix | Projeto-Ignis/frontend/src/components/FiltroMapa.tsx:45-47 | `includes` finds a text wherever it occurs |
| Strings.NotContainsLonger | Projeto-Ignis/frontend/src/components/FiltroMapa.tsx:45-47 | a text never includes a longer one |
| Strings.ContainsOnlyOwnChars | Projeto-Ignis/frontend/src/components/FiltroMapa.tsx:45-47 | every character of an included text occurs in the including one |
| Strings.NotContainsWithoutChar | Projeto-Ignis/frontend/src/components/FiltroMapa.tsx:45-47 | a text lacking one of another's characters does not include it |
| Strings.LessIrreflexive | Projeto-Ignis/frontend/src/components/FiltroMapa.tsx:64 | the default `sort` order is irreflexive |
| Strings.LessTransitive | Projeto-Ignis/frontend/src/components/FiltroMapa.tsx:64 | the default `sort` order is transitive |
| Strings.LessTotal | Projeto-Ignis/frontend/src/components/FiltroMapa.tsx:64 | any two different texts are ordered one way or the other |
| Strings.StrictlySortedDistinct | Projeto-Ignis/frontend/src/components/FiltroMapa.tsx:64 | a strictly sorted list has no repeated entry |
| Strings.Insert | Projeto-Ignis/frontend/src/components/FiltroMapa.tsx:64 | adding one date to a sorted duplicate-free list keeps it sorted and duplicate-free, with exactly the old dates and the new one |
| Strings.SortedUnique | Projeto-Ignis/frontend/src/components/FiltroMapa.tsx:64 | `Array.from(new Set(xs)).sort()` is strictly sorted and holds exactly the elements of xs |
| Strings.StrictlySortedUnique | Projeto-Ignis/frontend/src/components/FiltroMapa.tsx:64 | two strictly sorted lists with the same elements are equal, so the contract above fixes the result |
| Strings.SortedUniqueCanonical | Projeto-Ignis/frontend/src/components/FiltroMapa.tsx:64 | the date list depends only on which dates arrived, not on their order or repetitions |
| Entidades.Tipo.Nome | Projeto-Ignis/frontend/src/components/Mapa.tsx:8 | the kind's name is empty exactly for the empty kind |
| Entidades.NomeInjective | Projeto-Ignis/frontend/src/components/Mapa.tsx:8 | different kinds have different names |
| Url.Keys | Projeto-Ignis/frontend/src/components/Mapa.tsx:16-29 | the keys of the appended pairs, one per pair, in order |
| Url.KeysAppend | Projeto-Ignis/frontend/src/components/Mapa.tsx:16-29 | the keys of two runs of appends are the first run's, then the second's |
| Url.SearchParams.constructor | Projeto-Ignis/frontend/src/components/Mapa.tsx:16 | a new `URLSearchParams` holds no pair |
| Url.SearchParams.Append | Projeto-Ignis/frontend/src/components/Mapa.tsx:18 | `append` adds the pair at the end and changes nothing else |
| OcorrenciaController.WhereClause | Projeto-Ignis/backend/src/controllers/OcorrenciaController.ts:52 | the WHERE clause is empty exactly when there is no predicate |
| OcorrenciaController.NumberingAt | Projeto-Ignis/backend/src/controllers/OcorrenciaController.ts:41-50 | the expected numbering `1..n` has n entries, the i-th being i+1 |
| OcorrenciaController.SlotsAppend | Projeto-Ignis/backend/src/controllers/OcorrenciaController.ts:283-291 | the placeholders of appended predicates follow those already written |
| OcorrenciaController.TestsDetermine | Projeto-Ignis/backend/src/controllers/OcorrenciaController.ts:41-50 | what each predicate tests (column and `=`, `>=`, `<=` or BETWEEN) together with the placeholder numbers fixes the predicate list, so a handler contract stating both states the exact predicates |
| OcorrenciaController.WellNumberedBindsEachValueOnce | Projeto-Ignis/backend/src/controllers/OcorrenciaController.ts:41-50 | with well-numbered placeholders, every placeholder names a bound value, every value is named, and no two placeholders name the same value |
| OcorrenciaController.Filtros.constructor | Projeto-Ignis/backend/src/controllers/OcorrenciaController.ts:38-39 | the builder starts with no predicate and no value, well numbered |
| OcorrenciaController.Filtros.AddCompare | Projeto-Ignis/backend/src/controllers/OcorrenciaController.ts:41-43 | a predicate numbered `$(n+1)` and its value are appended together, and the numbering stays well formed |
| OcorrenciaController.Filtros.AddBetween | Projeto-Ignis/backend/src/controllers/OcorrenciaController.ts:108-109 | a `BETWEEN $(n+1) AND $(n+2)` predicate and both values are appended, and the numbering stays well formed |
| OcorrenciaController.Agrupamento | Projeto-Ignis/backend/src/controllers/OcorrenciaController.ts:55 | the grouping column is `bioma_id` iff `local` is `bioma`, `estado_id` for any other or absent value |
| OcorrenciaController.ResumirLinha | Projeto-Ignis/backend/src/controllers/OcorrenciaController.ts:72-77 | exactly one of estado and bioma is set, per the grouping, to `Number(agrupamento)`; a null mean gives 0; a null or zero total gives 0 |
| OcorrenciaController.ResumirRisco | Projeto-Ignis/backend/src/controllers/OcorrenciaController.ts:72-77 | one response object per row, in row order |
| OcorrenciaController.AddLocalFilters | Projeto-Ignis/backend/src/controllers/OcorrenciaController.ts:41-48 | `estado_id = $n`, then `bioma_id = $n`, each only when given, with the query text as value |
| OcorrenciaController.FiltrarRisco | Projeto-Ignis/backend/src/controllers/OcorrenciaController.ts:29-65 | 400 exactly when `data` is missing; otherwise well-numbered `estado_id = `?, `bioma_id = `?, `data = ` predicates with their values, non-empty WHERE, grouped per `Agrupamento` |
| OcorrenciaController.RangeFilters | Projeto-Ignis/backend/src/controllers/OcorrenciaController.ts:99-109 | `estado_id = `?, `bioma_id = `?, then `column BETWEEN` bound to inicio and fim, last |
| OcorrenciaController.FiltrarFoco | Projeto-Ignis/backend/src/controllers/OcorrenciaController.ts:87-126 | 400 exactly when inicio or fim is missing; otherwise well-numbered `estado_id = `?, `bioma_id = `?, then `data BETWEEN` on the last two values |
| OcorrenciaController.FiltrarAreaQueimada | Projeto-Ignis/backend/src/controllers/OcorrenciaController.ts:150-192 | inicio without fim serves `area_queimada_<inicio>.geojson`; no inicio gives 400; a query exactly when both are given: well-numbered `estado_id = `?, `bioma_id = `?, then `data_pas BETWEEN` on the last two values |
| OcorrenciaController.FiltrarAreaQueimadaPorIds | Projeto-Ignis/backend/src/controllers/OcorrenciaController.ts:213-238 | always a well-numbered query on `estado_id = `?, `bioma_id = `?; the WHERE clause is empty exactly when neither is given |
| OcorrenciaController.FocoCalorFiltros | Projeto-Ignis/backend/src/controllers/OcorrenciaController.ts:278-291 | `f.data BETWEEN $1 AND $2`, then `f.estado_id = ` and `f.bioma_id = ` with the numbers at the next placeholders |
| OcorrenciaController.FiltrarFocoCalor | Projeto-Ignis/backend/src/controllers/OcorrenciaController.ts:250-295 | 400 without both dates or for a range over 100 days; otherwise a well-numbered query, `f.data BETWEEN $1 AND $2` first, then `f.estado_id = `?, `f.bioma_id = `?, and `LIMIT 10000` after the WHERE clause |
| OcorrenciaController.AddIfGiven | Projeto-Ignis/backend/src/controllers/OcorrenciaController.ts:389-392 | a predicate with the given column and comparison, and its value, are appended exactly when the parameter is given |
| OcorrenciaController.AreaQueimadaFiltros | Projeto-Ignis/backend/src/controllers/OcorrenciaController.ts:389-407 | `estado_id = ` and `bioma_id = ` with numbers, `data_pas >= inicio` and `data_pas <= fim`, each only when given, well numbered from the values bound so far |
| OcorrenciaController.GraficoAreaQueimadaComoEscrito | Projeto-Ignis/backend/src/controllers/OcorrenciaController.ts:372-411 | the handler as written: the range at `$1, $2`, the values only those of the appended predicates, and the numbering never well formed |
| OcorrenciaController.SlotsAhead | Projeto-Ignis/backend/src/controllers/OcorrenciaController.ts:378-407 | a fixed `$1, $2` in front of well-numbered predicates always breaks the numbering |
| OcorrenciaController.GraficoAreaQueimada | Projeto-Ignis/backend/src/controllers/OcorrenciaController.ts:372-411 | the corrected handler: always a well-numbered query on `estado_id = `?, `bioma_id = `?, `data_pas >= inicio`?, `data_pas <= fim`?, grouped per `Agrupamento`, largest count first |
| OcorrenciaController.GraficoRiscoFogo | Projeto-Ignis/backend/src/controllers/OcorrenciaController.ts:419-440 | 400 exactly when a date is missing; with both dates always a query, `data BETWEEN $1 AND $2` bound to inicio and fim, grouped per `Agrupamento` |
| OcorrenciaController.GraficoFocoCalor | Projeto-Ignis/backend/src/controllers/OcorrenciaController.ts:450-472 | 400 exactly when a date is missing; with both dates always a query, `data BETWEEN $1 AND $2` bound to inicio and fim, grouped per `Agrupamento`, ordered by total descending |
| OcorrenciaController.ConfigDoTipo | Projeto-Ignis/backend/src/controllers/OcorrenciaController.ts:487-493 | a table and column exactly for `risco`, `foco_calor`, `area_queimada`, each the configured pair |
| OcorrenciaController.ConsultaDatas | Projeto-Ignis/backend/src/controllers/OcorrenciaController.ts:493-518 | 400 with its message exactly for an unknown kind; a known kind always gives a statement, without placeholders or values |
| OcorrenciaController.NonNull | Projeto-Ignis/backend/src/controllers/OcorrenciaController.ts:525-527 | the non-null entries and no others; nothing from no rows, and one row kept exactly when non-null |
| OcorrenciaController.NonNullAppend | Projeto-Ignis/backend/src/controllers/OcorrenciaController.ts:525-527 | the filter distributes over concatenation, so it keeps the rows' order and repetitions |
| OcorrenciaController.NonNullEnds | Projeto-Ignis/backend/src/controllers/OcorrenciaController.ts:525-544 | the first and last dates kept are the first and last non-null rows, so `min`/`max` follow the statement's `ORDER BY` |
| OcorrenciaController.MapDays | Projeto-Ignis/backend/src/controllers/OcorrenciaController.ts:529-532 | each date normalised to its ISO day, in order |
| OcorrenciaController.DatasDisponiveis | Projeto-Ignis/backend/src/controllers/OcorrenciaController.ts:482-544 | 400 for an unknown kind; 404 exactly when every row is null; a known kind with a non-null row always gives the dates, min the first and max the last, months for burned areas and ISO days otherwise |
| Mapa.QueryKeys | Projeto-Ignis/frontend/src/components/Mapa.tsx:15-30 | the keys sent, as an explicit list for risk and for the other kinds |
| Mapa.QueryPairsLocais | Projeto-Ignis/frontend/src/components/Mapa.tsx:18-19 | estado and bioma are sent exactly when they are set |
| Mapa.QueryPairsRisco | Projeto-Ignis/frontend/src/components/Mapa.tsx:21-23 | for risk, `data` is sent iff inicio is set, `local` iff set, and never `inicio` or `fim` |
| Mapa.QueryPairsOutros | Projeto-Ignis/frontend/src/components/Mapa.tsx:24-27 | for the other kinds, `inicio` and `fim` are sent iff set, and never `data` or `local` |
| Mapa.QueryPairsOrdem | Projeto-Ignis/frontend/src/components/Mapa.tsx:15-30 | estado before bioma before the start date before `local`/`fim`, no key twice, every value the non-empty field its key names |
| Mapa.AppendIfSet | Projeto-Ignis/frontend/src/components/Mapa.tsx:18 | `if (v) params.append(k, v)` adds the pair exactly when v is not empty |
| Mapa.MontarQueryParams | Projeto-Ignis/frontend/src/components/Mapa.tsx:15-30 | the query string is the serialisation of the pairs the lemmas above describe |
| Mapa.Endpoint | Projeto-Ignis/frontend/src/components/Mapa.tsx:47-51 | `/api/<kind>` for each kind, empty exactly for the empty kind |
| Mapa.Plano | Projeto-Ignis/frontend/src/components/Mapa.tsx:33-51 | no request exactly for the empty kind or for burned areas with inicio and no fim; otherwise the kind's endpoint with the query string |
| Mapa.ComTipo | Projeto-Ignis/frontend/src/components/Mapa.tsx:69-72 | `{...item, tipo}` has the item's keys plus `tipo`, the kind's name there, and every other field unchanged |
| Mapa.DadosDaResposta | Projeto-Ignis/frontend/src/components/Mapa.tsx:66-77 | an array gives one tagged row per item, in order; anything else gives no rows |
| Mapa.Componente.constructor | Projeto-Ignis/frontend/src/components/Mapa.tsx:13 | the map starts with no rows |
| Mapa.Componente.Efeito | Projeto-Ignis/frontend/src/components/Mapa.tsx:32-85 | without a request the rows are emptied; otherwise they are the rows of the answer to the planned URL |
| MapComponent.GetColor | Projeto-Ignis/frontend/src/components/MapComponent.tsx:35-42 | each of the six colours is given exactly on its band, so the bands are disjoint and cover every value |
| MapComponent.GetColorMonotone | Projeto-Ignis/frontend/src/components/MapComponent.tsx:35-42 | a higher risk never gets a lighter colour |
| MapComponent.ContagemPositiva | Projeto-Ignis/frontend/src/components/MapComponent.tsx:147-153 | a state's count is positive exactly when it has a kept (non-negative) point |
| MapComponent.Somar | Projeto-Ignis/frontend/src/components/MapComponent.tsx:149-151 | a kept point's state is opened at zero if new, listed once, and gets the point's risk and one more count; no other state changes |
| MapComponent.Agrupar | Projeto-Ignis/frontend/src/components/MapComponent.tsx:147-153 | the accumulator holds, for exactly the states with a kept point, their sum and count, each state listed once |
| MapComponent.DadosRiscoPorEstado | Projeto-Ignis/frontend/src/components/MapComponent.tsx:145-160 | empty unless risk; one marker per state with a kept point; its mean is sum/count over at least one point; drawn at the state's centre or at (-15.78, -47.92) |
| MapComponent.Filtrar | Projeto-Ignis/frontend/src/components/MapComponent.tsx:129 | `filter` keeps exactly the features that satisfy the test; nothing from no features, one feature kept exactly when it passes |
| MapComponent.FiltrarAppend | Projeto-Ignis/frontend/src/components/MapComponent.tsx:129 | `filter` distributes over concatenation, so it keeps the features' order and repetitions |
| MapComponent.ContornoEstadoSelecionado | Projeto-Ignis/frontend/src/components/MapComponent.tsx:126-132 | null exactly without a GeoJSON, without a state or without a matching feature; otherwise exactly the features whose id is the state's number, in their original order |
| MapComponent.NomeDoBioma | Projeto-Ignis/frontend/src/components/MapComponent.tsx:136-137 | a biome name, never empty, exactly for the codes 1 to 6, and it is `biomaIdToNome` at that code |
| MapComponent.ContornoFiltrado | Projeto-Ignis/frontend/src/components/MapComponent.tsx:134-143 | null exactly without a GeoJSON, without a biome or for a code outside 1..6; otherwise exactly the features of that biome, in their original order |
| FiltroMapa.FormatarDataIso | Projeto-Ignis/frontend/src/components/FiltroMapa.tsx:26-29 | `AAAA-MM-DD` is written `DD/MM/` and the last two digits of the year |
| FiltroMapa.FormatarSemSeparador | Projeto-Ignis/frontend/src/components/FiltroMapa.tsx:26-29 | a text without `-` gives `undefined/undefined/` and its slice from 2 |
| FiltroMapa.Rota | Projeto-Ignis/frontend/src/components/FiltroMapa.tsx:103 | Apply goes to `/` and the kind's name, or to `/` for the empty kind |
| FiltroMapa.TipoDaRotaRota | Projeto-Ignis/frontend/src/components/FiltroMapa.tsx:44-49 | the route Apply navigates to is read back as the kind that was applied |
| FiltroMapa.RotaRaiz | Projeto-Ignis/frontend/src/components/FiltroMapa.tsx:48 | `/` shows no kind |
| FiltroMapa.RotaFocoCalor | Projeto-Ignis/frontend/src/components/FiltroMapa.tsx:45 | `/foco_calor` shows heat sources |
| FiltroMapa.RotaAreaQueimada | Projeto-Ignis/frontend/src/components/FiltroMapa.tsx:46 | `/area_queimada` shows burned areas |
| FiltroMapa.RotaRisco | Projeto-Ignis/frontend/src/components/FiltroMapa.tsx:47 | `/risco` shows fire risk |
| FiltroMapa.TextoRoundTrip | Projeto-Ignis/frontend/src/components/FiltroMapa.tsx:107-108 | the emitted code is empty exactly when nothing is selected, and reads back as the selected number |
| FiltroMapa.DiasIso | Projeto-Ignis/frontend/src/components/FiltroMapa.tsx:59-61 | the ISO day of every date, in order, or nothing when one date is invalid |
| FiltroMapa.Formulario.constructor | Projeto-Ignis/frontend/src/components/FiltroMapa.tsx:34-42 | every field starts empty |
| FiltroMapa.Formulario.SincronizarRota | Projeto-Ignis/frontend/src/components/FiltroMapa.tsx:44-49 | the kind follows the route; nothing else changes |
| FiltroMapa.Formulario.SelecionarTipo | Projeto-Ignis/frontend/src/components/FiltroMapa.tsx:135-149 | a slider selects its kind; nothing else changes |
| FiltroMapa.Formulario.ReceberDatas | Projeto-Ignis/frontend/src/components/FiltroMapa.tsx:51-75 | no kind, a failure or an invalid date leaves the state; otherwise the list is the distinct days sorted, with `dataMin`/`dataMax` its ends |
| FiltroMapa.Formulario.HandleChangeInicio | Projeto-Ignis/frontend/src/components/FiltroMapa.tsx:79-86 | the start date is kept only when it is an available date, and cleared otherwise |
| FiltroMapa.Formulario.HandleChangeFim | Projeto-Ignis/frontend/src/components/FiltroMapa.tsx:88-95 | the end date is kept only when it is an available date, and cleared otherwise |
| FiltroMapa.Formulario.SelecionarInicio | Projeto-Ignis/frontend/src/components/FiltroMapa.tsx:199 | the start select stores its option; nothing else changes |
| FiltroMapa.Formulario.SelecionarFim | Projeto-Ignis/frontend/src/components/FiltroMapa.tsx:209 | the end select stores its option; nothing else changes |
| FiltroMapa.Formulario.SelecionarEstado | Projeto-Ignis/frontend/src/components/FiltroMapa.tsx:155 | the state select stores a code or nothing; nothing else changes |
| FiltroMapa.Formulario.SelecionarBioma | Projeto-Ignis/frontend/src/components/FiltroMapa.tsx:187 | the biome select stores a code or nothing; nothing else changes |
| FiltroMapa.Formulario.AplicarFiltro | Projeto-Ignis/frontend/src/components/FiltroMapa.tsx:97-112 | nothing happens exactly when a date is missing; otherwise it goes to the kind's route and emits the fields, the codes as their canonical decimal text (`String(n)`), which reads back |
| FiltroMapa.Formulario.LimparFiltro | Projeto-Ignis/frontend/src/components/FiltroMapa.tsx:114-128 | back to `/`, kind set to risk, other fields cleared, and an all-empty filter with no kind emitted |
| FiltroGrafico.RotuloMes | Projeto-Ignis/frontend/src/components/FiltroGrafico.tsx:144 | a month in the table gets its name, anything else `Mês <text>` |
| FiltroGrafico.MesesTemNome | Projeto-Ignis/frontend/src/components/FiltroGrafico.tsx:21-34 | every month 1..12, written with two digits, has a name |
| FiltroGrafico.RotuloInicio | Projeto-Ignis/frontend/src/components/FiltroGrafico.tsx:143-145 | the month name for burned areas, `dia/mes/aa` otherwise |
| FiltroGrafico.DatasFimDisponiveis | Projeto-Ignis/frontend/src/components/FiltroGrafico.tsx:78-91 | empty without a start or for burned areas; otherwise exactly 30 consecutive days from the start |
| FiltroGrafico.Mapeados | Projeto-Ignis/frontend/src/components/FiltroGrafico.tsx:58-62 | dropping the nulls and mapping the rest lists the image of every non-null entry, and nothing that is not one |
| FiltroGrafico.Meses | Projeto-Ignis/frontend/src/components/FiltroGrafico.tsx:58-62 | every padded non-null month present, and every entry a padded non-null month (nulls dropped), each at least two characters |
| FiltroGrafico.Dias | Projeto-Ignis/frontend/src/components/FiltroGrafico.tsx:58-63 | the ISO day of every non-null date present, and every entry the ISO day of a non-null date (nulls dropped), or nothing exactly when one is invalid |
| FiltroGrafico.AvisoSeNaoPodeAplicar | Projeto-Ignis/frontend/src/components/FiltroGrafico.tsx:165-174 | the warning shows exactly when Apply is disabled: both dates needed, only the start for burned areas |
| FiltroGrafico.Formulario.constructor | Projeto-Ignis/frontend/src/components/FiltroGrafico.tsx:44-50 | risk, by state, every other field empty |
| FiltroGrafico.Formulario.MudarTipo | Projeto-Ignis/frontend/src/components/FiltroGrafico.tsx:73-76 | a different kind clears both dates; the same kind keeps them |
| FiltroGrafico.Formulario.SelecionarLocal | Projeto-Ignis/frontend/src/components/FiltroGrafico.tsx:132 | the grouping select stores its option; nothing else changes |
| FiltroGrafico.Formulario.SelecionarInicio | Projeto-Ignis/frontend/src/components/FiltroGrafico.tsx:139 | a new start date clears the end date |
| FiltroGrafico.Formulario.SelecionarFim | Projeto-Ignis/frontend/src/components/FiltroGrafico.tsx:153 | the end select stores its option; nothing else changes |
| FiltroGrafico.Formulario.ReceberDatas | Projeto-Ignis/frontend/src/components/FiltroGrafico.tsx:52-71 | a failure leaves the list; otherwise the list is the padded months or ISO days, distinct and sorted |
| FiltroGrafico.Formulario.Aplicar | Projeto-Ignis/frontend/src/components/FiltroGrafico.tsx:93-103 | goes to `/grafico` and hands over the fields as they are |
| FiltroGrafico.Formulario.Limpar | Projeto-Ignis/frontend/src/components/FiltroGrafico.tsx:105-120 | risk, by state, every other field empty, and exactly that filter handed over |
| Grafico.GetNomeCategoria | Projeto-Ignis/frontend/src/components/Grafico.tsx:50-66 | a code in the table gets its name; any other code is returned as text |
| Grafico.BiomasComoNoMapa | Projeto-Ignis/frontend/src/components/Grafico.tsx:52-57 | the codes 1..6 name the same biomes on the chart as on the map |
| Grafico.UfComoSigla | Projeto-Ignis/frontend/src/components/Grafico.tsx:59-63 | a state code gets its two-letter abbreviation |
| Grafico.Arredondar | Projeto-Ignis/frontend/src/components/Grafico.tsx:73-75 | `Math.round` is the integer within half of the value, halves rounded up |
| Grafico.Razao | Projeto-Ignis/frontend/src/components/Grafico.tsx:69-71 | the ratio lies in [0, 1], is 0 at or below 0, 1 at or above the maximum, and value/maximum in between |
| Grafico.Componentes | Projeto-Ignis/frontend/src/components/Grafico.tsx:73-75 | r in [46, 255], g in [69, 139], b in [0, 87]; green at or below 0, red at or above the maximum |
| Grafico.ComponentesMonotone | Projeto-Ignis/frontend/src/components/Grafico.tsx:68-75 | a larger value is never greener: red rises, green and blue fall |
| Grafico.CssDosExtremos | Projeto-Ignis/frontend/src/components/Grafico.tsx:77 | the two end colours are written `rgb(46,139,87)` and `rgb(255,69,0)` |
| Grafico.CalcularCor | Projeto-Ignis/frontend/src/components/Grafico.tsx:68-78 | NaN in every channel for NaN; the green end at or below 0; the red end at or above the maximum |
| Grafico.NumberDe | Projeto-Ignis/frontend/src/components/Grafico.tsx:84 | `Number` is NaN exactly for an absent field (null is 0) |
| Grafico.ChartData | Projeto-Ignis/frontend/src/components/Grafico.tsx:80-91 | the header (`Média` for risk, `Total` otherwise) and one bar per row, in order, with its name, value and colour |
| Grafico.ParesGrafico | Projeto-Ignis/frontend/src/components/Grafico.tsx:21-26 | `local` and `inicio` always, `fim` exactly when set |
| Grafico.ConsultaGrafico | Projeto-Ignis/frontend/src/components/Grafico.tsx:21-28 | the query string is the serialisation of those pairs |
| Grafico.PlanoGrafico | Projeto-Ignis/frontend/src/components/Grafico.tsx:43-47 | no request exactly when a date is missing; otherwise `/api/grafico/<kind>` with all three pairs |
| Grafico.Exibir | Projeto-Ignis/frontend/src/components/Grafico.tsx:114-126 | the date warning exactly when a date is missing; the no-data message exactly when at most the header is left; otherwise the chart |
| Grafico.SemDadosSeVazio | Projeto-Ignis/frontend/src/components/Grafico.tsx:114-118 | with both dates, the no-data message shows exactly when the backend sent no rows |
| Grafico.Componente.constructor | Projeto-Ignis/frontend/src/components/Grafico.tsx:17 | the chart starts with no rows |
| Grafico.Componente.Efeito | Projeto-Ignis/frontend/src/components/Grafico.tsx:19-48 | without both dates the rows are emptied; otherwise they are the array answered, or none |

## Findings

| source | as written | input that shows it | evidently intended | confidence | as-written member | corrected member |
|---|---|---|---|---|---|---|
| Projeto-Ignis/backend/src/controllers/OcorrenciaController.ts:378-407 | The text already uses `$1` and `$2` for the date range, but `values` starts empty. Each optional predicate is numbered from that empty list, written with an undeclared prefix `a.`, and appended after the `GROUP BY …;` that ends the statement. The text then closes with `GROUP BY categoria ORDER BY total DESC`, and neither name exists in the statement. | Any request. With `estado=12` alone, one value is bound while `$1` appears twice and `$2` names nothing. With no parameter, `$1` and `$2` are bound to nothing. | The optional predicates in the WHERE clause, on the table's own columns, numbered `$1 … $n` over the values actually bound; the count grouped by state or biome. | high; not executed | OcorrenciaController.GraficoAreaQueimadaComoEscrito | OcorrenciaController.GraficoAreaQueimada |

`OcorrenciaController.SlotsAhead` proves why the as-written numbering fails for every request: it has two placeholders more than values. No frontend component requests this chart: the chart form offers only risk and heat sources.

## Left out

- Database access, `res.status/json/sendFile`, logging and the 500 answers of every handler's `catch`. Handlers return the statement and its values; row shaping is a function of the rows.
- `InserirFocoCalor` and `GerarRelatorioFocos` are not part of this model: they only forward their parameters to stored procedures.
- `fetch`, `res.ok` and `res.json()` are one parameter, `buscar`, giving the outcome of a request. The effects' asynchrony, and a later answer overtaking an earlier one, are not modelled.
- `Date` arithmetic and formatting are parameters: `diffDias` (a real number of days), `new Date(d).toISOString().split('T')[0]`, and the day arithmetic of `datasFimDisponiveis`. An invalid `new Date(inicio)` makes `toISOString` throw in the source; the model's `isoDe` is total.
- `normalizar` (NFD normalisation, diacritics removed, lower case) is a parameter, because there is no Unicode normalisation to model it with.
- URL percent-encoding: `URLSearchParams.toString` is modelled as `k=v` joined by `&`, with no escaping.
- ParseNat: `Number(s)` is modelled on non-empty decimal digit strings only. The empty string (0 in JavaScript), decimals such as `1.5`, signs, blanks, exponents and hexadecimal, which `Number` also reads, are treated as NaN. The callers test for an empty code before converting, and a fraction or a negative number never equals an id.
- Floating-point rounding: values are Dafny reals, so `(valor - min) / (max - min)` and `total / count` are exact.
- MapComponent.DadosRiscoPorEstado: markers come out in the order each state first appears. `Object.entries` lists integer-like keys first, in ascending numeric order. The keys the backend actually sends are such codes (next line), so the source orders those markers by code.
- MapComponent.DadosRiscoPorEstado: the fold takes points in the shape `MapComponent` declares, with `estado` and `risco_fogo`. That is not what the map receives. The map never sends `local`, so `/api/risco` groups by `estado_id` (OcorrenciaController.ts:29-77). Each of its rows has `estado: Number(agrupamento)`, `media` and `total`, and no `risco_fogo`. In the source, `undefined < 0` is false, so every row is kept and `total += undefined` makes the sum NaN. The result is one marker per numeric state code, with a NaN mean, at the fallback position (-15.78, -47.92), because `centroEstados` is keyed by state name. The model's points carry a real risk and a state name, so this NaN path is not modelled.
- Routing: `OcorrenciaRoutes.ts` registers no path for `Filtrar_Foco` or `Filtrar_AreaQueimada`. They are modelled as written. `/area_queimada` is `Filtrar_area_queimada` (`FiltrarAreaQueimadaPorIds`), which reads only `estado_id` and `bioma_id`, so the `estado`, `bioma`, `inicio` and `fim` the map sends there have no effect.
- The field renaming of `Filtrar_Foco` and `Filtrar_AreaQueimada` (`estado_id` → `estado`, …) is a row-by-row copy and is not modelled. Only the statement and the values are.
- `config[String(tipo)]` also finds inherited members such as `toString` for those exact strings. The model's table has the three kinds only.
- The default `sort` compares UTF-16 code units; the model compares characters. This differs only for characters outside the Basic Multilingual Plane, which dates do not contain.
- SQL layout whitespace and the text of each SELECT list are carried as written but no property is stated about them.
- FiltroMapa.Formulario.HandleChangeInicio: the form's selects call `setInicio`/`setFim` directly, so these checked setters are modelled but not used by the selects. `SelecionarInicio`/`SelecionarFim` model what the selects do.
- FiltroMapa.Formulario.LimparFiltro: sets the kind to risk while navigating to `/`. The route effect then recomputes the kind from the new path; that later step is `SincronizarRota`.
- FiltroMapa.Formulario.ReceberDatas: `dataMin`/`dataMax` are kept in the state, but nothing in the form renders them.
- FiltroGrafico.Formulario: `estado` and `bioma` have no setter in the form, so they stay empty until handed over.
- React rendering, Leaflet layers, Google Charts options and styled components are not modelled beyond the render branch and the chart rows.
