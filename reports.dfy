/**
 * The browser's reports, `generateReport` (script.js): totals and averages over
 * each collection, grouping of planting records by crop and of input records by
 * input type, and the general report's cost-per-hectare, size and diversity.
 */
module Reports {
  import opened Numbers
  import opened Grouping
  import opened Records

  function Culturas(s: seq<Registro>): (r: seq<string>)
    requires SoPlantio(s)
    ensures |r| == |s| && forall i :: 0 <= i < |s| ==> r[i] == s[i].cultura
  {
    seq(|s|, i requires 0 <= i < |s| => s[i].cultura)
  }

  function Areas(s: seq<Registro>): (r: seq<real>)
    requires SoPlantio(s)
    ensures |r| == |s| && forall i :: 0 <= i < |s| ==> r[i] == s[i].areaHectares
  {
    seq(|s|, i requires 0 <= i < |s| => s[i].areaHectares)
  }

  function TiposInsumo(s: seq<Registro>): (r: seq<string>)
    requires SoInsumos(s)
    ensures |r| == |s| && forall i :: 0 <= i < |s| ==> r[i] == s[i].tipoInsumo
  {
    seq(|s|, i requires 0 <= i < |s| => s[i].tipoInsumo)
  }

  function Custos(s: seq<Registro>): (r: seq<real>)
    requires SoInsumos(s)
    ensures |r| == |s| && forall i :: 0 <= i < |s| ==> r[i] == s[i].custo
  {
    seq(|s|, i requires 0 <= i < |s| => s[i].custo)
  }

  function Quantidades(s: seq<Registro>): (r: seq<real>)
    requires SoInsumos(s)
    ensures |r| == |s| && forall i :: 0 <= i < |s| ==> r[i] == s[i].quantidade
  {
    seq(|s|, i requires 0 <= i < |s| => s[i].quantidade)
  }

  /** `n > 0 ? total / n : 0`: the average, or 0 for an empty collection. */
  function Media(total: real, n: nat): (m: real)
    ensures n > 0 ==> m * (n as real) == total
    ensures n == 0 ==> m == 0.0
  {
    if n > 0 then total / (n as real) else 0.0
  }

  /** `a > 0 ? b / a : 0`: a ratio that is 0 when the denominator is not positive. */
  function Razao(numerador: real, denominador: real): (r: real)
    ensures denominador > 0.0 ==> r * denominador == numerador
    ensures denominador <= 0.0 ==> r == 0.0
  {
    if denominador > 0.0 then numerador / denominador else 0.0
  }

  /**
   * The callback of the planting report's `forEach`: a crop seen for the first
   * time gets a group `{registros: 0, area: 0}`, then the record is counted and
   * its area added. It is one step of counting and one of accumulating.
   */
  method SomarPlantio(ordem: seq<string>, registros: map<string, nat>, area: map<string, real>, item: Registro)
    returns (novaOrdem: seq<string>, novosRegistros: map<string, nat>, novaArea: map<string, real>)
    requires item.Plantio? && area.Keys == registros.Keys
    ensures Counted(novaOrdem, novosRegistros) == CountStep(Counted(ordem, registros), item.cultura)
    ensures novaArea == AddStep(area, item.cultura, item.areaHectares)
  {
    novaOrdem, novosRegistros, novaArea := ordem, registros, area;
    if item.cultura !in novosRegistros {
      novaOrdem := novaOrdem + [item.cultura];
      novosRegistros := novosRegistros[item.cultura := 0];
      novaArea := novaArea[item.cultura := 0.0];
    }
    novosRegistros := novosRegistros[item.cultura := novosRegistros[item.cultura] + 1];
    novaArea := novaArea[item.cultura := novaArea[item.cultura] + item.areaHectares];
  }

  /**
   * The `forEach` of the planting report: one group per crop in order of first
   * appearance, with its number of records and its summed area.
   */
  method AgruparPorCultura(dados: seq<Registro>) returns (ordem: seq<string>, registros: map<string, nat>, area: map<string, real>)
    requires SoPlantio(dados)
    ensures Counted(ordem, registros) == CountBy(Culturas(dados))
    ensures area == AmountBy(Culturas(dados), Areas(dados))
  {
    var keys, xs := Culturas(dados), Areas(dados);
    ordem, registros, area := [], map[], map[];
    var k := 0;
    while k < |dados|
      invariant 0 <= k <= |dados|
      invariant Counted(ordem, registros) == CountBy(keys[..k])
      invariant area == AmountBy(keys[..k], xs[..k])
    {
      SameGroups(keys[..k], xs[..k]);
      CountByPrefixStep(keys, k);
      AmountByPrefixStep(keys, xs, k);
      ordem, registros, area := SomarPlantio(ordem, registros, area, dados[k]);
      k := k + 1;
    }
    assert keys[..k] == keys && xs[..k] == xs;
  }

  /**
   * The callback of the inputs report's `forEach`: an input type seen for the
   * first time gets a group `{registros: 0, custo: 0, quantidade: 0}`, then the
   * record is counted and its cost and quantity added.
   */
  method SomarInsumo(ordem: seq<string>, registros: map<string, nat>, custo: map<string, real>, quantidade: map<string, real>, item: Registro)
    returns (novaOrdem: seq<string>, novosRegistros: map<string, nat>, novoCusto: map<string, real>, novaQuantidade: map<string, real>)
    requires item.Insumo? && custo.Keys == registros.Keys && quantidade.Keys == registros.Keys
    ensures Counted(novaOrdem, novosRegistros) == CountStep(Counted(ordem, registros), item.tipoInsumo)
    ensures novoCusto == AddStep(custo, item.tipoInsumo, item.custo)
    ensures novaQuantidade == AddStep(quantidade, item.tipoInsumo, item.quantidade)
  {
    novaOrdem, novosRegistros, novoCusto, novaQuantidade := ordem, registros, custo, quantidade;
    var tipo := item.tipoInsumo;
    if tipo !in novosRegistros {
      novaOrdem := novaOrdem + [tipo];
      novosRegistros := novosRegistros[tipo := 0];
      novoCusto := novoCusto[tipo := 0.0];
      novaQuantidade := novaQuantidade[tipo := 0.0];
    }
    novosRegistros := novosRegistros[tipo := novosRegistros[tipo] + 1];
    novoCusto := novoCusto[tipo := novoCusto[tipo] + item.custo];
    novaQuantidade := novaQuantidade[tipo := novaQuantidade[tipo] + item.quantidade];
  }

  /**
   * The `forEach` of the inputs report: one group per input type in order of first
   * appearance, with its number of records, summed cost and summed quantity.
   */
  method AgruparPorTipo(dados: seq<Registro>) returns (ordem: seq<string>, registros: map<string, nat>, custo: map<string, real>, quantidade: map<string, real>)
    requires SoInsumos(dados)
    ensures Counted(ordem, registros) == CountBy(TiposInsumo(dados))
    ensures custo == AmountBy(TiposInsumo(dados), Custos(dados))
    ensures quantidade == AmountBy(TiposInsumo(dados), Quantidades(dados))
  {
    var keys, cs, qs := TiposInsumo(dados), Custos(dados), Quantidades(dados);
    ordem, registros, custo, quantidade := [], map[], map[], map[];
    var k := 0;
    while k < |dados|
      invariant 0 <= k <= |dados|
      invariant Counted(ordem, registros) == CountBy(keys[..k])
      invariant custo == AmountBy(keys[..k], cs[..k])
      invariant quantidade == AmountBy(keys[..k], qs[..k])
    {
      SameGroups(keys[..k], cs[..k]);
      SameGroups(keys[..k], qs[..k]);
      CountByPrefixStep(keys, k);
      AmountByPrefixStep(keys, cs, k);
      AmountByPrefixStep(keys, qs, k);
      ordem, registros, custo, quantidade := SomarInsumo(ordem, registros, custo, quantidade, dados[k]);
      k := k + 1;
    }
    assert keys[..k] == keys && cs[..k] == cs && qs[..k] == qs;
  }

  datatype Eficiencia = Excelente | Boa | PodeMelhorar

  datatype Porte = Pequeno | MedioPorte | Grande

  /** Cost efficiency bands: below 500 per hectare, below 1000, or more. */
  function EficienciaDeCusto(custoPorHectare: real): (e: Eficiencia)
    ensures e == Excelente <==> custoPorHectare < 500.0
    ensures e == Boa <==> 500.0 <= custoPorHectare < 1000.0
    ensures e == PodeMelhorar <==> 1000.0 <= custoPorHectare
  {
    if custoPorHectare < 500.0 then Excelente
    else if custoPorHectare < 1000.0 then Boa
    else PodeMelhorar
  }

  /** Average plot size bands: below 1 ha, below 3 ha, or more. */
  function TamanhoMedio(areaMedia: real): (p: Porte)
    ensures p == Pequeno <==> areaMedia < 1.0
    ensures p == MedioPorte <==> 1.0 <= areaMedia < 3.0
    ensures p == Grande <==> 3.0 <= areaMedia
  {
    if areaMedia < 1.0 then Pequeno
    else if areaMedia < 3.0 then MedioPorte
    else Grande
  }

  function RankEficiencia(e: Eficiencia): nat
  {
    match e
    case Excelente => 0
    case Boa => 1
    case PodeMelhorar => 2
  }

  function RankPorte(p: Porte): nat
  {
    match p
    case Pequeno => 0
    case MedioPorte => 1
    case Grande => 2
  }

  /** A higher cost per hectare never earns a better efficiency band, and a larger average plot never a smaller size band. */
  lemma BandsMonotone(c1: real, c2: real, a1: real, a2: real)
    requires c1 <= c2 && a1 <= a2
    ensures RankEficiencia(EficienciaDeCusto(c1)) <= RankEficiencia(EficienciaDeCusto(c2))
    ensures RankPorte(TamanhoMedio(a1)) <= RankPorte(TamanhoMedio(a2))
  {
  }

  datatype RelatorioGeral = RelatorioGeral(
    totalPlantio: nat,
    totalInsumos: nat,
    areaTotal: real,
    custoTotal: real,
    custoPorHectare: real,
    areaMedia: real,
    eficiencia: Eficiencia,
    porte: Porte,
    /** `new Set(plantio.map(p => p.cultura)).size` */
    diversificacao: nat)

  /** `new Set(dados.map(item => item.cultura)).size`: one per crop group of the report. */
  function Diversificacao(culturas: seq<string>): (d: nat)
    ensures d == |CountBy(culturas).order|
  {
    GroupCountIsDistinctKeys(culturas);
    |set c | c in culturas|
  }

  /** The general report over both collections. */
  function GeneralReport(plantio: seq<Registro>, insumos: seq<Registro>): (r: RelatorioGeral)
    requires SoPlantio(plantio) && SoInsumos(insumos)
    ensures r.totalPlantio == |plantio| && r.totalInsumos == |insumos|
    ensures r.areaTotal == Total(Areas(plantio)) && r.custoTotal == Total(Custos(insumos))
    ensures r.areaTotal > 0.0 ==> r.custoPorHectare * r.areaTotal == r.custoTotal
    ensures r.areaTotal <= 0.0 ==> r.custoPorHectare == 0.0
    ensures r.totalPlantio > 0 ==> r.areaMedia * (r.totalPlantio as real) == r.areaTotal
    ensures r.totalPlantio == 0 ==> r.areaMedia == 0.0
    ensures r.eficiencia == EficienciaDeCusto(r.custoPorHectare) && r.porte == TamanhoMedio(r.areaMedia)
    ensures r.diversificacao == |CountBy(Culturas(plantio)).order|
  {
    var areaTotal := Total(Areas(plantio));
    var custoTotal := Total(Custos(insumos));
    var custoPorHectare := Razao(custoTotal, areaTotal);
    var areaMedia := Media(areaTotal, |plantio|);
    RelatorioGeral(|plantio|, |insumos|, areaTotal, custoTotal, custoPorHectare, areaMedia,
                   EficienciaDeCusto(custoPorHectare), TamanhoMedio(areaMedia),
                   Diversificacao(Culturas(plantio)))
  }
}
