/**
 * The console's input calculator, `CalculadoraInsumos` (fiap_farm.py): each table
 * entry has a minimum and a maximum per hectare, and the requested level picks the
 * minimum, the maximum, or (for anything else) their mean.
 */
module Insumos {
  import opened Wrappers
  import Dosage

  datatype MinMax = MinMax(min: real, max: real)

  /** The corrective table, in the order the dictionary lists it. */
  const Corretivos: seq<(string, MinMax)> := [("calcario", MinMax(1.5, 3.0)), ("gesso", MinMax(1.0, 2.0))]

  /** The fertiliser table, in the order the dictionary lists it. */
  const Fertilizantes: seq<(string, MinMax)> := [("fosforo", MinMax(80.0, 150.0)), ("potassio", MinMax(150.0, 250.0))]

  /** Sprayings per year. */
  const Pulverizacoes: MinMax := MinMax(4.0, 8.0)

  /** Litres of spray mixture per hectare per spraying. */
  const Calda: MinMax := MinMax(150.0, 250.0)

  /**
   * The per-hectare value for a requested level: "minima" and "maxima" pick an end,
   * every other string (including "media") takes the mean of the two.
   */
  function Valor(faixa: MinMax, quantidade: string): (v: real)
    ensures quantidade == "minima" ==> v == faixa.min
    ensures quantidade == "maxima" ==> v == faixa.max
    ensures quantidade != "minima" && quantidade != "maxima" ==> v + v == faixa.min + faixa.max
    ensures faixa.min <= faixa.max ==> faixa.min <= v <= faixa.max
  {
    if quantidade == "minima" then faixa.min
    else if quantidade == "maxima" then faixa.max
    else (faixa.min + faixa.max) / 2.0
  }

  /** The levels are ordered, and an unknown level behaves as the medium one. */
  lemma LevelsOrdered(faixa: MinMax, outro: string)
    requires faixa.min <= faixa.max
    requires outro != "minima" && outro != "maxima"
    ensures Valor(faixa, "minima") <= Valor(faixa, "media") <= Valor(faixa, "maxima")
    ensures Valor(faixa, outro) == Valor(faixa, "media")
  {
  }

  ghost predicate DistinctNames(tabela: seq<(string, MinMax)>)
  {
    forall i, j :: 0 <= i < j < |tabela| ==> tabela[i].0 != tabela[j].0
  }

  /**
   * The loop shared by `calcular_corretivos` and `calcular_fertilizantes`: one entry
   * per table row, holding the selected per-hectare value times the area.
   */
  method PorHectare(tabela: seq<(string, MinMax)>, hectares: real, quantidade: string) returns (resultado: map<string, real>)
    requires DistinctNames(tabela)
    ensures resultado.Keys == set i | 0 <= i < |tabela| :: tabela[i].0
    ensures forall i :: 0 <= i < |tabela| ==> resultado[tabela[i].0] == Valor(tabela[i].1, quantidade) * hectares
  {
    resultado := map[];
    var k := 0;
    while k < |tabela|
      invariant 0 <= k <= |tabela|
      invariant resultado.Keys == set i | 0 <= i < k :: tabela[i].0
      invariant forall i :: 0 <= i < k ==> resultado[tabela[i].0] == Valor(tabela[i].1, quantidade) * hectares
    {
      var (nome, dados) := tabela[k];
      var valor := Valor(dados, quantidade);
      resultado := resultado[nome := valor * hectares];
      k := k + 1;
    }
  }

  /** `calcular_corretivos`; the soil type argument is accepted and not used. */
  method CalcularCorretivos(hectares: real, tipo: string, quantidade: string) returns (resultado: map<string, real>)
    ensures resultado.Keys == {"calcario", "gesso"}
    ensures resultado["calcario"] == Valor(MinMax(1.5, 3.0), quantidade) * hectares
    ensures resultado["gesso"] == Valor(MinMax(1.0, 2.0), quantidade) * hectares
  {
    resultado := PorHectare(Corretivos, hectares, quantidade);
    assert Corretivos[0].0 == "calcario" && Corretivos[1].0 == "gesso";
    assert (set i | 0 <= i < |Corretivos| :: Corretivos[i].0) == {"calcario", "gesso"};
  }

  /** `calcular_fertilizantes`. */
  method CalcularFertilizantes(hectares: real, quantidade: string) returns (resultado: map<string, real>)
    ensures resultado.Keys == {"fosforo", "potassio"}
    ensures resultado["fosforo"] == Valor(MinMax(80.0, 150.0), quantidade) * hectares
    ensures resultado["potassio"] == Valor(MinMax(150.0, 250.0), quantidade) * hectares
  {
    resultado := PorHectare(Fertilizantes, hectares, quantidade);
    assert Fertilizantes[0].0 == "fosforo" && Fertilizantes[1].0 == "potassio";
    assert (set i | 0 <= i < |Fertilizantes| :: Fertilizantes[i].0) == {"fosforo", "potassio"};
  }

  datatype Defensivos = Defensivos(pulverizacoesAno: real, caldaTotalLitros: real)

  /** `calcular_defensivos`: sprayings per year, and total mixture as litres per spraying times sprayings times area. */
  function CalcularDefensivos(hectares: real, quantidade: string): (r: Defensivos)
    ensures r.pulverizacoesAno == Valor(Pulverizacoes, quantidade)
    ensures r.caldaTotalLitros == Valor(Calda, quantidade) * r.pulverizacoesAno * hectares
    ensures Pulverizacoes.min <= r.pulverizacoesAno <= Pulverizacoes.max
    ensures hectares > 0.0 ==> r.caldaTotalLitros > 0.0
  {
    var pulv := Valor(Pulverizacoes, quantidade);
    var calda := Valor(Calda, quantidade);
    Dosage.PositiveProduct(calda, pulv);
    if hectares > 0.0 then Dosage.PositiveProduct(calda * pulv, hectares); Defensivos(pulv, calda * pulv * hectares)
    else Defensivos(pulv, calda * pulv * hectares)
  }

  /** The mixture total at each level, written out: 600, 1200 and 2000 litres per hectare. */
  lemma DefensivosPerHectare(hectares: real)
    ensures CalcularDefensivos(hectares, "minima") == Defensivos(4.0, 600.0 * hectares)
    ensures CalcularDefensivos(hectares, "media") == Defensivos(6.0, 1200.0 * hectares)
    ensures CalcularDefensivos(hectares, "maxima") == Defensivos(8.0, 2000.0 * hectares)
  {
  }

  /** The two answers of `obter_hectares_e_quantidade`: a validated area and level, or `(None, None)`. */
  function ObterHectaresEQuantidade(hectares: Option<real>, opcao: string): (r: Option<(real, string)>)
    ensures r.Some? <==> Positive(hectares) && opcao in {"1", "2", "3"}
    ensures r.Some? ==> r.value.0 == hectares.value && r.value.1 in {"minima", "media", "maxima"}
    ensures r.Some? && opcao == "1" ==> r.value.1 == "minima"
    ensures r.Some? && opcao == "2" ==> r.value.1 == "media"
    ensures r.Some? && opcao == "3" ==> r.value.1 == "maxima"
  {
    var tipoMap := map["1" := "minima", "2" := "media", "3" := "maxima"];
    if hectares.None? || hectares.value <= 0.0 then None
    else if opcao !in tipoMap then None
    else Some((hectares.value, tipoMap[opcao]))
  }

  function AsIntensidade(quantidade: string): Dosage.Intensidade
  {
    if quantidade == "minima" then Dosage.Minima
    else if quantidade == "maxima" then Dosage.Maxima
    else Dosage.Media
  }

  /**
   * The console and browser tables agree per hectare at every level for gypsum,
   * phosphorus and potassium, and at the two ends for lime; at the medium level
   * the console asks for 2.25 t/ha of lime (the mean) where the browser asks for 2.0.
   */
  lemma ConsoleVersusBrowserTables(quantidade: string)
    requires quantidade in {"minima", "media", "maxima"}
    ensures Valor(MinMax(1.0, 2.0), quantidade) == Dosage.InsumosConfig["corretivo"]["gesso"].dosagem.At(AsIntensidade(quantidade))
    ensures Valor(MinMax(80.0, 150.0), quantidade) == Dosage.InsumosConfig["fertilizante"]["fosforo"].dosagem.At(AsIntensidade(quantidade))
    ensures Valor(MinMax(150.0, 250.0), quantidade) == Dosage.InsumosConfig["fertilizante"]["potassio"].dosagem.At(AsIntensidade(quantidade))
    ensures Valor(MinMax(1.5, 3.0), quantidade) == Dosage.InsumosConfig["corretivo"]["calcario"].dosagem.At(AsIntensidade(quantidade))
      <==> quantidade != "media"
    ensures Valor(Pulverizacoes, quantidade) == Dosage.InsumosConfig["defensivo"]["inseticida"].aplicacoes.value.At(AsIntensidade(quantidade)) as real
  {
  }
}
