# FIAP Farm: a verified model of its calculators, record stores and reports

FIAP Farm (FarmTech Solutions) is a farm-management demonstration with two front ends. The
browser version (`script.js`) offers these pieces:

- an area calculator;
- an input calculator for correctives, fertilisers and pesticides, driven by the
  `insumosConfig` table;
- an in-memory record store `dadosSimulados`, with create, update and delete;
- reports grouped by crop and by input type;
- a loop demonstration and descriptive statistics;
- a simulated weather panel.

The console version (`fiap_farm.py`) has its own calculators (`CalculadoraArea`,
`CalculadoraInsumos`), a list-based record manager (`GerenciadorDados`), and a general summary.
`r_simulator.py` computes the statistics and the weather lookup that would come from R.

This project models that computational core in Dafny and proves what the code promises.

The modules are:

- **Wrappers.** `Option`/`Result` wrappers, plus `Positive`, the `!x || x <= 0` check the
  browser forms use.
- **Numbers.** Left-to-right sums and the ascending sorted copy, with the proof that it is the
  only ascending arrangement of its elements. Also `min`/`max`.
- **Grouping.** The group-by that both reports and the console summary perform, with the groups
  in order of first appearance. It covers the counts, the summed amounts, and the percentage
  shares. That is the order a Python dict keeps; a JavaScript object lists integer-like keys
  first (see "## Left out").
- **IdRule.** The `length + 1` id rule both stores use. It includes the proof that a delete
  followed by an add repeats an id.
- **Geometry, Dosage, Insumos.** The area and input calculators of both front ends.
- **Records.** The browser store as a class whose methods update its two collections in place.
- **Reports.** `generateReport`. Its `forEach` grouping loops are methods proved against
  `Grouping`.
- **Loops, Stats, Weather.** `processLoops`, `processStats` with `calcular_estatisticas`, the
  sample-series selection, the weather lookup, and `getAnaliseAgricola`.
- **Gerenciador, Menu, Resumo.** The console's record manager as a class over lists of mutable
  dictionaries, the menu steps that validate, compute and store, and `gerar_resumo_geral`.

Numbers are `real`, so there is no floating-point rounding. A form field that does not parse
(`NaN` in the browser, `ValueError` in the console) is `None`. Square roots are a function
parameter. Timestamps are a string parameter.

## Model

| member | source | states |
|---|---|---|
| IdRule.AppendId | script.js:264-274 | Adding a record extends the ids by exactly one id, `length + 1`, and leaves every earlier id in place |
| IdRule.RemoveIdAt | script.js:792 | Deleting slot `i` keeps the ids before `i` and shifts the ids after it down by one position |
| IdRule.AppendKeepsConsecutive | fiap_farm.py:122-130 | A list that has only been appended to has ids 1..n, and one more add gives 1..n+1 |
| IdRule.AppendUniqueIff | script.js:264-274 | Adding keeps the ids unique if and only if they were unique and `length + 1` was not already taken |
| IdRule.DeleteThenAppend | fiap_farm.py:122-153 | From ids 1..n, deleting position `i` and then adding leaves the ids unique if and only if `i` was the last position |
| Numbers.TotalNonNegative | script.js:804 | The `reduce` sum (`Total`) of non-negative amounts is non-negative |
| Numbers.TotalAppend | script.js:804 | The `reduce` sum of a concatenation is the sum of the two parts |
| Numbers.Insert | script.js:1110 | Inserting into an ascending sequence gives an ascending sequence one longer, headed by the smaller of `x` and the old head |
| Numbers.InsertAddsOne | script.js:1110 | Inserting adds exactly the inserted value to the multiset of elements |
| Numbers.SortedCopy | script.js:1110 | The copy `[...values].sort((a, b) => a - b)` is ascending and a permutation of its argument |
| Numbers.SortedUnique | script.js:1110 | Two ascending sequences with the same elements are equal, so the sorted copy is determined by the multiset of the values |
| Numbers.SortedCopyOfSorted | script.js:1110 | Sorting an ascending sequence gives it back unchanged |
| Numbers.Min | r_simulator.py:39 | `min` returns an element of the list that is at most every element |
| Numbers.Max | r_simulator.py:40 | `max` returns an element of the list that is at least every element |
| Numbers.SortedEnds | script.js:1110-1112 | The first and last elements of any ascending arrangement of the values are their minimum and maximum |
| Grouping.CountBy | fiap_farm.py:778-783 | The groups the counting loop has built after seeing the keys left to right; there are never more groups than keys |
| Grouping.AmountBy | script.js:808-815 | The per-key amount totals the accumulating loop has built; there are never more totals than records |
| Grouping.CountByGroups | script.js:808-815 | The groups are the distinct keys, each listed once in order of first appearance, and each has a count (the order in which the browser lists them is under "## Left out") |
| Grouping.CountIsOccurrences | fiap_farm.py:778-783 | Each group's count is the number of records with that key |
| Grouping.AmountByIsPerKeyTotal | script.js:808-815 | Each group's accumulated area (or cost) is the sum of exactly the amounts of the records with that key |
| Grouping.CountsConserved | script.js:808-815 | The group counts add up to the number of records |
| Grouping.AmountsConserved | script.js:856-863 | The group amounts add up to the overall `reduce` total |
| Grouping.Percent | script.js:819 | A share is `part / total * 100` when the total is positive, and 0 otherwise |
| Grouping.PercentagesSumTo100 | script.js:818-819 | When the total is positive, the shares of all groups add up to 100 |
| Grouping.GroupCountIsDistinctKeys | script.js:944 | The number of groups equals the number of distinct crops, the size of `new Set(...)` |
| Geometry.Hectares | script.js:235 | Hectares times 10 000 give back the square metres, and a positive area stays positive |
| Geometry.CalcularArea | script.js:207-235 | There is a result if and only if the side is positive and, for a non-square, the height is too. A bad side is reported first. The result records the dimensions, a positive perimeter, and hectares = m²/10 000 |
| Geometry.AreaFromDimensoes | script.js:221-231 | A square's area is `lado*lado` with perimeter `4*lado`. A rectangle's is `lado*altura`, positive, with perimeter `2*(lado+altura)` |
| Geometry.SquareIsEqualSidedRectangle | script.js:221-231 | A square of side l and an l-by-l rectangle get the same area, perimeter and hectares |
| Geometry.CalcularQuadrado | fiap_farm.py:35-37 | `lado ** 2` is the area of the rectangle with equal sides |
| Geometry.CalcularRetangulo | fiap_farm.py:40-42 | `largura * altura` is positive for positive sides |
| Geometry.ConsoleAgreesWithBrowser | fiap_farm.py:35-42 | On every input the browser accepts, the console calculators give the same square metres |
| Dosage.Lookup | script.js:49-62 | A product is found if and only if its type and key are in `insumosConfig`, and every entry has rising positive doses, a positive price and at least one application |
| Dosage.Calcular | script.js:310-318 | `quantidade = dosagem[intensidade] * area` and `custo = quantidade * preco`, both positive. There is a per-application split if and only if the product has applications; the split times the number of applications gives back the quantity |
| Dosage.CalcularInsumo | script.js:298-318 | The result is Ok if and only if the area is positive and the product is in the table. A bad area is rejected first. An accepted input gives the product's calculation |
| Dosage.IntensityMonotone | script.js:311-314 | Minimum, medium and maximum intensity give rising quantities and rising costs |
| Dosage.AdditiveInArea | script.js:313-314 | The quantity and cost for two plots together equal the sums for each plot |
| Dosage.SampleInsumosMatchCalculator | script.js:26-45 | The two sample input records are the calculator's medium-intensity results for lime on 2.5 ha and phosphorus on 1.8 ha |
| Insumos.Valor | fiap_farm.py:69-74 | "minima" picks the minimum, "maxima" the maximum, and any other string the mean, which lies between the two |
| Insumos.LevelsOrdered | fiap_farm.py:69-74 | The minimum, medium and maximum levels are ordered, and an unknown level behaves as the medium one |
| Insumos.PorHectare | fiap_farm.py:68-76 | The loop gives exactly one key per table entry, with value `valor * hectares` |
| Insumos.CalcularCorretivos | fiap_farm.py:64-78 | Keys `calcario` and `gesso`, each the selected per-hectare value times the area |
| Insumos.CalcularFertilizantes | fiap_farm.py:80-94 | Keys `fosforo` and `potassio`, each the selected per-hectare value times the area |
| Insumos.CalcularDefensivos | fiap_farm.py:96-113 | Sprayings per year are the selected spray count, which lies between 4 and 8. The total mixture is the selected litres per spraying times the sprayings times the area, and is positive for a positive area |
| Insumos.DefensivosPerHectare | fiap_farm.py:96-113 | `calda * pulv * hectares` is 600, 1200 and 2000 litres per hectare at the three levels |
| Insumos.ObterHectaresEQuantidade | fiap_farm.py:345-369 | There is an answer if and only if the area is positive and the option is "1"–"3". The options map to "minima", "media" and "maxima" |
| Insumos.ConsoleVersusBrowserTables | fiap_farm.py:49-62 | The console and browser doses agree at every level except medium lime (2.25 against 2.0 t/ha). The console's sprayings equal the browser's insecticide applications |
| Records.FindIndex | script.js:715 | `findIndex` returns -1 if and only if the id is absent; otherwise it returns the first position holding it |
| Records.Valido | script.js:483-510 | A planting form is accepted if and only if its area parsed and is positive. An input form is accepted if and only if it names a product and its quantity and cost parsed and are positive |
| Records.Novo | script.js:488-520 | A created record carries the given id, the creation time, no update time and the form's fields. For a planting these are the farm, crop, parsed area (positive) and area type, with no dimensions. For an input they are the farm, input type, product (non-empty), and the parsed quantity and cost (both positive) |
| Records.Mesclar | script.js:733-740 | The merge keeps id, creation time and dimensions, overwrites the edited fields, and sets the update time |
| Records.RemoveAt | script.js:792 | `splice(index, 1)` removes exactly that record: the ids are those of `RemoveIdAt`, and the multiset loses exactly that element |
| Records.IdsAppend | script.js:264-274 | Appending a record numbered `length + 1` follows the id rule |
| Records.IdsReplace | script.js:733 | Replacing a slot by a record with the same id leaves the ids unchanged |
| Records.DadosSimulados.constructor | script.js:5-46 | The store starts with the two sample plantings and the two sample inputs |
| Records.DadosSimulados.SalvarCalculoArea | script.js:263-276 | Pushes exactly one planting record numbered `length + 1` and changes nothing else |
| Records.DadosSimulados.SalvarCalculoInsumo | script.js:366-379 | Pushes exactly one input record numbered `length + 1` and changes nothing else |
| Records.DadosSimulados.CreateRecord | script.js:474-527 | An invalid form changes nothing. A valid one appends exactly the new record to its collection, numbered `length + 1`, and leaves the other collection alone |
| Records.DadosSimulados.UpdateRecord | script.js:713-766 | An unknown id gives not-found and an invalid form gives invalid; neither changes anything. Otherwise only the first record with the id is replaced by its merge, and the length and ids are unchanged |
| Records.DadosSimulados.DeleteRecord | script.js:779-795 | Without confirmation, or for an unknown id, nothing changes. Otherwise exactly the first record with the id is removed and the rest keep their order |
| Records.SamplePlantioIds | script.js:5-25 | The sample plantings are numbered 1 and 2, with id 1 first |
| Records.DeleteThenCreateRepeatsId | script.js:483-498 | From plantings numbered 1 and 2, deleting record 1 and creating one gives ids [2, 2], which are not unique |
| Reports.Media | script.js:805 | The average times the count gives back the total, and an empty collection averages 0 |
| Reports.Razao | script.js:906 | The cost per hectare times the area gives back the cost, and it is 0 when the area is not positive |
| Reports.SomarPlantio | script.js:809-815 | One callback is one counting step and one area-accumulating step for the record's crop |
| Reports.AgruparPorCultura | script.js:808-815 | The grouping loop builds exactly `CountBy` of the crops and `AmountBy` of their areas |
| Reports.SomarInsumo | script.js:856-863 | One callback is one counting step and one cost and quantity step for the record's input type |
| Reports.AgruparPorTipo | script.js:855-863 | The grouping loop builds exactly `CountBy` of the input types and `AmountBy` of their costs and quantities |
| Reports.EficienciaDeCusto | script.js:936 | Excellent below 500, good from 500 to below 1000, and "could improve" from 1000 (each if and only if) |
| Reports.TamanhoMedio | script.js:940 | Small below 1 ha, medium from 1 to below 3 ha, and large from 3 ha (each if and only if) |
| Reports.BandsMonotone | script.js:936-940 | A higher cost per hectare never earns a better band, and a larger average never a smaller one |
| Reports.Diversificacao | script.js:944 | The size of the set of crops is the number of crop groups |
| Reports.GeneralReport | script.js:897-944 | Record counts, `reduce` totals, cost per hectare and average with their 0 fallbacks, the two bands, and a diversity equal to the number of crop groups |
| Loops.LoopInput | script.js:1039-1041 | `parseInt(...) \|\| default`: a field that does not parse, or parses to 0, falls back to the default |
| Loops.Arith | script.js:1053 | The values visited are empty if and only if the start is above the end, and each lies between the start and the end |
| Loops.Evens | script.js:1057-1058 | A value is in the even list if and only if it is in the sequence and even |
| Loops.Odds | script.js:1059-1060 | A value is in the odd list if and only if it is in the sequence and odd |
| Loops.SumInts | script.js:1055 | The running sum is non-negative when every value is, and non-positive when every value is |
| Loops.FiltersAppend | script.js:1057-1061 | The even and odd filters distribute over concatenation, so each keeps the order of the sequence |
| Loops.EvensOddsPartition | script.js:1057-1061 | The even and odd lists together are a rearrangement of the sequence |
| Loops.ArithElements | script.js:1053 | For `step > 0`, the k-th value is `start + k*step` and no value exceeds the end |
| Loops.ArithIsMaximal | script.js:1053 | The sequence starts at `start` and stops at the last value not above the end; one more step would pass it |
| Loops.SumSplits | script.js:1055-1061 | The sums of the even and odd lists add up to the sum of the sequence |
| Loops.Registrar | script.js:1054-1061 | The loop body pushes the value, keeps the even and odd lists equal to the filters of the sequence, and keeps the running sum equal to its sum |
| Loops.ProcessLoops | script.js:1047-1062 | For a terminating loop, the sequence is `start, start+step, ...` up to the end. The even and odd lists are its filters, and the sum is its sum |
| Stats.SumSquares | script.js:1106 | The sum of squared deviations is non-negative |
| Stats.MedianOfSorted | script.js:1113-1115 | For an ascending sequence the median lies between its two middle elements, for an odd length it is the middle element, and for an even length it is the mean of the two middle elements |
| Stats.MedianBetween | script.js:1113-1115 | The median of an ascending sequence lies between its first and last elements |
| Stats.OrdemDe | script.js:1110-1115 | Read off the sorted copy, min and max are the minimum and maximum of the values, and the median is `MedianOfSorted` of the sorted copy, with min ≤ median ≤ max |
| Stats.Mean | script.js:1102-1103 | The mean times n gives back the sum |
| Stats.PopulationVariance | script.js:1106 | The variance times n is the sum of squared deviations, and it is non-negative |
| Stats.SampleVariance | r_simulator.py:37 | The variance times (n − 1) is the sum of squared deviations, and it is non-negative |
| Stats.CoefVariacao | script.js:1118 | 0 when the mean is 0; otherwise the coefficient times the mean is `stdDev * 100` |
| Stats.ValoresValidos | script.js:1085-1090 | Exactly the fields that parse to a number are kept, and no more values than fields |
| Stats.ValoresValidosAppend | script.js:1085-1090 | The values read from consecutive fields are read in order |
| Stats.LerValores | script.js:1085-1090 | The `forEach` loop collects exactly `ValoresValidos` of the fields |
| Stats.Descrever | script.js:1101-1118 | n, the mean, the population variance (≥ 0) and its root, min and max, the median as `MedianOfSorted` of the ascending copy (min ≤ median ≤ max), range = max − min ≥ 0, and the coefficient with its 0 fallback |
| Stats.ProcessStats | script.js:1094-1098 | No statistics if and only if there are no values |
| Stats.OrderDoesNotMatter | script.js:1110 | Two arrangements of the same values have the same count, median, minimum and maximum, because sorting works on a copy |
| Stats.CalcularEstatisticas | r_simulator.py:29-52 | `None` if and only if the list is empty. The sample variance and its root for n > 1, and 0 for both at n = 1. Min, max, the median as `MedianOfSorted` of the ascending copy (min ≤ median ≤ max), amplitude ≥ 0, and the coefficient with its 0 fallback |
| Stats.SingleValueHasNoSpread | r_simulator.py:36-37 | A single value is its own mean, and its population variance is 0 |
| Stats.VarianceDivisors | r_simulator.py:37 | Population variance × n = sample variance × (n − 1), so the population variance is never larger |
| Stats.BrowserVersusConsole | r_simulator.py:29-52 | Browser and console agree on n, mean, median, min, max and range. For n > 1 the browser's variance is the smaller one (/n against /(n − 1)); for n = 1 both are 0 |
| Stats.OrdemFromArrangement | r_simulator.py:38-40 | Any ascending arrangement of the values gives the same minimum, median and maximum |
| Stats.SerieExemplo | r_simulator.py:65 | `dados_exemplo.get(tipo, [])` is non-empty if and only if the category is one of the four samples |
| Stats.SeriesParaAnalise | r_simulator.py:63-68 | With no category all four sample series are taken; with one, only that series |
| Stats.NaoVazias | r_simulator.py:70-72 | Skipping empty series keeps exactly the non-empty ones, in order |
| Stats.GerarRelatorioEstatistico | r_simulator.py:70-88 | One entry per analysed series, in order, with its category. Each entry's statistics are exactly `calcular_estatisticas` of that series, with a positive n |
| Stats.AllSeriesWithoutCategory | r_simulator.py:66-68 | With no category, all four sample series are analysed in the dictionary's order |
| Stats.OneCategory | r_simulator.py:63-72 | A known category gives exactly its own series; an unknown one gives an empty list, which is skipped |
| Weather.ObterDadosMeteorologicos | r_simulator.py:96-129 | A listed city gets its own entry; any other name gets São Paulo's |
| Weather.DefaultCity | r_simulator.py:129 | The default city and every unlisted name both give São Paulo's data |
| Weather.BrowserAndConsoleAgree | script.js:1159-1200 | Every city the console knows appears in the browser's table with the same readings, and Salvador falls back to São Paulo in the console |
| Weather.GetAnaliseAgricola | script.js:1231-1257 | Temperature is low below 15, high above 35, otherwise adequate. Humidity is low below 40, high above 80. Wind above 25 is strong. Each remark holds if and only if its condition does |
| Weather.AnaliseMonotone | script.js:1231-1257 | A rising reading never moves from high back to adequate or low |
| Weather.SimulatedCitiesAreAdequate | script.js:1159-1200 | Every simulated city reads adequate temperature and humidity with normal wind |
| Gerenciador.GerenciadorDados.constructor | fiap_farm.py:118-120 | Both lists start empty |
| Gerenciador.GerenciadorDados.AdicionarPlantio | fiap_farm.py:122-125 | Writes `length + 1` into the caller's dictionary and appends it. The inputs list is unchanged, and the ids follow the id rule |
| Gerenciador.GerenciadorDados.AdicionarInsumos | fiap_farm.py:127-130 | Writes `length + 1` into the caller's dictionary and appends it. The plantings list is unchanged, and the ids follow the id rule |
| Gerenciador.GerenciadorDados.AtualizarPlantio | fiap_farm.py:132-138 | True if and only if `0 <= indice < len`. Then exactly that slot becomes the new dictionary, carrying the old id. Otherwise nothing changes |
| Gerenciador.GerenciadorDados.AtualizarInsumos | fiap_farm.py:140-146 | True if and only if `0 <= indice < len`. Then exactly that slot becomes the new dictionary, carrying the old id. Otherwise nothing changes |
| Gerenciador.GerenciadorDados.DeletarPlantio | fiap_farm.py:148-153 | True if and only if the index is in range. Then exactly that slot is removed and the rest keep their order and ids. Otherwise nothing changes |
| Gerenciador.GerenciadorDados.DeletarInsumos | fiap_farm.py:155-160 | True if and only if the index is in range. Then exactly that slot is removed and the rest keep their order and ids. Otherwise nothing changes |
| Menu.CamposQuadrado | fiap_farm.py:261-282 | A record exists if and only if the side parsed and is positive. It holds the side, `lado ** 2`, and the area in hectares (positive) |
| Menu.CamposRetangulo | fiap_farm.py:289-311 | A record exists if and only if both numbers parsed and are positive. It holds both sides, their product, and the hectares |
| Menu.SquareSavesAsEqualRectangle | fiap_farm.py:261-311 | A square and the equal-sided rectangle save the same area in m² and in hectares |
| Menu.CamposCorretivos | fiap_farm.py:371-391 | A record exists if and only if the area and level are valid. It holds the lime and gypsum amounts for that area and level |
| Menu.CamposFertilizantes | fiap_farm.py:395-414 | A record exists if and only if the area and level are valid. It holds the phosphorus and potassium amounts |
| Menu.CamposDefensivos | fiap_farm.py:419-438 | A record exists if and only if the area and level are valid. It holds the sprayings and a positive mixture total `calda * pulv * hectares` |
| Menu.CamposCompleto | fiap_farm.py:443-472 | A record exists if and only if the area and level are valid. It holds the three calculations for that area and level: lime and gypsum, phosphorus and potassium, each the selected value times the area, and the spraying figures |
| Menu.FiapFarmSystem.constructor | fiap_farm.py:173-177 | The system starts with an empty record manager |
| Menu.FiapFarmSystem.SalvarPlantio | fiap_farm.py:275-283 | Saves if and only if there is a record: exactly one new dictionary with those fields and id `length + 1`, with the earlier records unchanged |
| Menu.FiapFarmSystem.SalvarInsumo | fiap_farm.py:384-392 | Saves if and only if there is a record: exactly one new dictionary with those fields and id `length + 1`, with the earlier records unchanged |
| Menu.FiapFarmSystem.CalcularAreaQuadrada | fiap_farm.py:261-287 | Stores the square's record if and only if the side is valid; otherwise nothing is stored |
| Menu.FiapFarmSystem.CalcularAreaRetangular | fiap_farm.py:289-318 | Stores the rectangle's record if and only if both sides are valid; otherwise nothing is stored |
| Menu.FiapFarmSystem.CalcularCorretivos | fiap_farm.py:371-393 | Stores a record if and only if the area and level are valid. The record holds lime and gypsum, each the selected value times the area |
| Menu.FiapFarmSystem.CalcularFertilizantes | fiap_farm.py:395-417 | Stores a record if and only if the area and level are valid. The record holds phosphorus and potassium, each the selected value times the area |
| Menu.FiapFarmSystem.CalcularDefensivos | fiap_farm.py:419-441 | Stores the spraying record if and only if the area and level are valid |
| Menu.FiapFarmSystem.CalcularTodosInsumos | fiap_farm.py:443-475 | Stores one complete record if and only if the area and level are valid. The record holds the four amounts, each the selected value times the area, and the spraying figures |
| Resumo.DoTipo | fiap_farm.py:760-761 | The filtered list is no longer than the plantings, and every record in it is a planting of that `tipo` |
| Resumo.DoTipoMembers | fiap_farm.py:760-761 | The filtered list holds exactly the records of that `tipo` |
| Resumo.SquaresAndRectanglesCount | fiap_farm.py:760-761 | The square and rectangle sublists partition the plantings by count |
| Resumo.SquaresAndRectanglesArea | fiap_farm.py:755-768 | The areas of squares and rectangles add up to the total `area_ha` |
| Resumo.ResumoDePlantio | fiap_farm.py:754-770 | There is no planting summary if and only if there are no plantings. The count and total area are those of all plantings. The squares' count and area are those of the `quadrado` records, and the rectangles' those of the `retangulo` records. The two shapes add up to the whole |
| Resumo.ContarTipos | fiap_farm.py:778-783 | The loop builds `CountBy` of the types. Each count is that type's number of records, and the counts add up to the number of records |

## Left out

- DOM and UI work is not modelled: `innerHTML` templates, element reads, tabs, cards,
  `showMessage` and CSS. Form values are parameters, and an unparsable number is `None`.
- The `confirm()` dialog of `deleteRecord` is the boolean parameter `confirmado`.
- Export, clipboard and file output (`exportReport`, `copyCode`, `exportar_dados`) are I/O and are
  not modelled.
- The console menus, `input()` and all printing are not modelled. This includes the update and
  delete dialogues (`atualizar_dados_*`, `deletar_dados_*`), which call `GerenciadorDados` with a
  typed index, and `listar_dados_*`.
- `listar_plantio` and `listar_insumos` return the manager's own list object. Callers can
  mutate it through that alias, and the model does not capture this aliasing.
- The `tipo == "completo"` branch of the console update dialogue uses an unbound name and would
  raise. It is not modelled.
- Timestamps (`toLocaleString`, `datetime.now`) are an opaque string parameter.
- Floating point is not modelled. Numbers are exact reals, so IEEE rounding, `toFixed`, `round`
  and the `%` of non-integers are absent.
- Stats.CalcularEstatisticas: returns the figures before the `round(..., 4)` and `round(..., 2)`
  of the result dictionary.
- Stats.Descrever: the standard deviation is `sqrt(variance)` for a `sqrt` passed in. Nothing is
  assumed about that function, so no property of the standard deviation beyond this equation is
  stated.
- Stats.CalcularEstatisticas: the same applies to `statistics.stdev`, which is `sqrt` of the
  sample variance here.
- Loops.ProcessLoops: requires that the loop terminates (`start > end` or `step > 0`). With a
  start at or below the end and `step <= 0`, the browser loop never ends, and that hang is not
  reproduced.
- Dosage.CalcularInsumo: a type or product missing from `insumosConfig` makes the browser
  throw. The model returns `Err(ProdutoDesconhecido)` instead.
- Dosage.CalcularInsumo: the intensity is one of the three values the selector offers. An
  arbitrary string, which would give an `undefined` dose, is not modelled.
- Records.DadosSimulados.UpdateRecord: requires the form to be of the collection's kind,
  because the handler reads the planting fields for "plantio" and the input fields otherwise.
- Reports.AgruparPorCultura: keys are looked up as a map. The JavaScript object's inherited
  prototype keys (a crop named `constructor`, for example) are not modelled.
- Reports.AgruparPorTipo: the same applies to input types that clash with prototype keys.
- Reports.AgruparPorCultura: the groups are listed in order of first appearance. The browser's
  `Object.entries` lists integer-like keys first, in ascending numeric order, and only then the
  other keys in insertion order. That display order is not modelled: for crops "Soja" then
  "2024", the browser shows "2024" first.
- Reports.AgruparPorTipo: the same display order applies to integer-like input types.
- `processWeather` is not modelled beyond its table (`Weather.WeatherData`) and
  `getAnaliseAgricola`. A city key missing from the table makes the browser throw. The
  remark texts of `getAnaliseAgricola` are represented by the `Nivel` values.
- Weather.ObterDadosMeteorologicos: the display strings (the condition) are copied as data. Only
  the choice of entry is specified.
- Gerenciador.GerenciadorDados.AtualizarPlantio: the ids are stated unchanged only when the new
  dictionary is not also stored in another slot. If it is, Python writes the id into that
  shared object too.
- Gerenciador.GerenciadorDados.AtualizarInsumos: the same aliasing condition applies.
- `gerar_relatorio_estatistico` takes `None` for "no category". The model uses the empty string,
  which Python also treats as false.
- demo_r_functions.py is not part of this model. It only sequences printing and pauses.
- The static farm descriptions (`fazendas`, `FazendaData`) are not modelled, because no
  computation reads them.
