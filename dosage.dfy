/**
 * The browser's input calculator: the `insumosConfig` table and `calcularInsumo`
 * (script.js). A product's dose per hectare depends on the chosen intensity;
 * the total quantity is dose times area and the cost is quantity times unit price.
 */
module Dosage {
  import opened Wrappers

  datatype Intensidade = Minima | Media | Maxima

  /** A value for each intensity: the `{minima, media, maxima}` objects of the table. */
  datatype Faixa<T> = Faixa(minima: T, media: T, maxima: T)
  {
    function At(i: Intensidade): T
    {
      match i
      case Minima => minima
      case Media => media
      case Maxima => maxima
    }
  }

  /** One product of the table; only pesticides carry a number of applications. */
  datatype Produto = Produto(nome: string, unidade: string, dosagem: Faixa<real>, aplicacoes: Option<Faixa<nat>>, preco: real)

  const InsumosConfig: map<string, map<string, Produto>> := map[
    "corretivo" := map[
      "calcario" := Produto("Calcário", "t/ha", Faixa(1.5, 2.0, 3.0), None, 120.0),
      "gesso" := Produto("Gesso Agrícola", "t/ha", Faixa(1.0, 1.5, 2.0), None, 180.0)],
    "fertilizante" := map[
      "fosforo" := Produto("Fósforo (P2O5)", "kg/ha", Faixa(80.0, 115.0, 150.0), None, 4.50),
      "potassio" := Produto("Potássio (K2O)", "kg/ha", Faixa(150.0, 200.0, 250.0), None, 3.20)],
    "defensivo" := map[
      "inseticida" := Produto("Inseticida", "L/ha", Faixa(1.5, 2.0, 2.5), Some(Faixa(4, 6, 8)), 85.0),
      "fungicida" := Produto("Fungicida", "L/ha", Faixa(1.0, 1.5, 2.0), Some(Faixa(3, 5, 7)), 95.0)]
  ]

  /** Bands rise from minimum through medium to maximum, doses and prices are positive, and applications are at least one. */
  ghost predicate ProdutoValido(p: Produto)
  {
    && 0.0 < p.dosagem.minima <= p.dosagem.media <= p.dosagem.maxima
    && p.preco > 0.0
    && (p.aplicacoes.Some? ==> 0 < p.aplicacoes.value.minima <= p.aplicacoes.value.media <= p.aplicacoes.value.maxima)
  }

  function Lookup(tipo: string, produto: string): (p: Option<Produto>)
    ensures p.Some? <==> tipo in InsumosConfig && produto in InsumosConfig[tipo]
    ensures p.Some? ==> ProdutoValido(p.value)
  {
    if tipo in InsumosConfig && produto in InsumosConfig[tipo] then Some(InsumosConfig[tipo][produto]) else None
  }

  /** What the calculator shows and offers to save. */
  datatype Calculo = Calculo(
    nome: string,
    unidade: string,
    dosagem: real,
    quantidade: real,
    custo: real,
    /** Number of applications and quantity per application, for pesticides. */
    aplicacoes: Option<(nat, real)>)

  datatype InsumoError = AreaInvalida | ProdutoDesconhecido

  /**
   * The arithmetic of `calcularInsumo` for one product of the table: the dose of
   * the intensity times the area, the quantity times the unit price, and for a
   * pesticide the quantity split over the number of applications.
   */
  function Calcular(p: Produto, area: real, intensidade: Intensidade): (c: Calculo)
    requires ProdutoValido(p) && area > 0.0
    ensures c.nome == p.nome && c.unidade == p.unidade && c.dosagem == p.dosagem.At(intensidade)
    ensures c.quantidade == c.dosagem * area && c.custo == c.quantidade * p.preco
    ensures c.quantidade > 0.0 && c.custo > 0.0
    ensures c.aplicacoes.Some? <==> p.aplicacoes.Some?
    ensures c.aplicacoes.Some? ==>
      c.aplicacoes.value.0 == p.aplicacoes.value.At(intensidade) > 0 &&
      c.aplicacoes.value.1 * (c.aplicacoes.value.0 as real) == c.quantidade
  {
    var dosagem := p.dosagem.At(intensidade);
    var quantidade := dosagem * area;
    PositiveProduct(dosagem, area);
    var custo := quantidade * p.preco;
    PositiveProduct(quantidade, p.preco);
    var aplicacoes :=
      match p.aplicacoes
      case None => None
      case Some(n) =>
        var num := n.At(intensidade);
        Some((num, quantidade / (num as real)));
    Calculo(p.nome, p.unidade, dosagem, quantidade, custo, aplicacoes)
  }

  /**
   * `calcularInsumo`: the area is checked first; a product missing from the table
   * (a crash in the browser) is reported as an error here.
   */
  function CalcularInsumo(tipo: string, produto: string, area: Option<real>, intensidade: Intensidade): (r: Result<Calculo, InsumoError>)
    ensures r.Ok? <==> Positive(area) && Lookup(tipo, produto).Some?
    ensures !Positive(area) ==> r == Err(AreaInvalida)
    ensures Positive(area) && Lookup(tipo, produto).None? ==> r == Err(ProdutoDesconhecido)
    ensures r.Ok? ==> r.value == Calcular(Lookup(tipo, produto).value, area.value, intensidade)
  {
    if !Positive(area) then Err(AreaInvalida)
    else match Lookup(tipo, produto)
      case None => Err(ProdutoDesconhecido)
      case Some(config) => Ok(Calcular(config, area.value, intensidade))
  }

  /** The product of two positive reals is positive. */
  lemma PositiveProduct(a: real, b: real)
    requires a > 0.0 && b > 0.0
    ensures a * b > 0.0
  {
  }

  /** Multiplying by a positive factor keeps the order. */
  lemma ScaleMonotone(a: real, b: real, k: real)
    requires a <= b && k > 0.0
    ensures a * k <= b * k
  {
  }

  /** Rising doses give rising quantities and rising costs on the same area at the same price. */
  lemma ScaleChain(d1: real, d2: real, d3: real, area: real, preco: real)
    requires d1 <= d2 <= d3 && area > 0.0 && preco > 0.0
    ensures d1 * area <= d2 * area <= d3 * area
    ensures d1 * area * preco <= d2 * area * preco <= d3 * area * preco
  {
    ScaleMonotone(d1, d2, area);
    ScaleMonotone(d2, d3, area);
    ScaleMonotone(d1 * area, d2 * area, preco);
    ScaleMonotone(d2 * area, d3 * area, preco);
  }

  /** A stronger intensity never asks for less product or costs less. */
  lemma IntensityMonotone(p: Produto, area: real)
    requires ProdutoValido(p) && area > 0.0
    ensures var lo, md, hi := Calcular(p, area, Minima), Calcular(p, area, Media), Calcular(p, area, Maxima);
            lo.quantidade <= md.quantidade <= hi.quantidade && lo.custo <= md.custo <= hi.custo
  {
    var lo, md, hi := Calcular(p, area, Minima), Calcular(p, area, Media), Calcular(p, area, Maxima);
    var d1, d2, d3 := p.dosagem.At(Minima), p.dosagem.At(Media), p.dosagem.At(Maxima);
    assert d1 <= d2 <= d3;
    ScaleChain(d1, d2, d3, area, p.preco);
  }

  /** Quantities and costs add up over areas: treating two plots together equals treating them apart. */
  lemma AdditiveInArea(p: Produto, a1: real, a2: real, i: Intensidade)
    requires ProdutoValido(p) && a1 > 0.0 && a2 > 0.0
    ensures var c1, c2, c := Calcular(p, a1, i), Calcular(p, a2, i), Calcular(p, a1 + a2, i);
            c.quantidade == c1.quantidade + c2.quantidade && c.custo == c1.custo + c2.custo
  {
    var d := p.dosagem.At(i);
    assert d * (a1 + a2) == d * a1 + d * a2;
    assert (d * a1 + d * a2) * p.preco == d * a1 * p.preco + d * a2 * p.preco;
  }

  /**
   * The two sample input records agree with the calculator at medium intensity:
   * lime on the 2.5 ha plot and phosphorus on the 1.8 ha plot.
   */
  lemma SampleInsumosMatchCalculator()
    ensures var c := CalcularInsumo("corretivo", "calcario", Some(2.5), Media);
            c.Ok? && c.value.nome == "Calcário" && c.value.quantidade == 5.0 && c.value.custo == 600.0
    ensures var c := CalcularInsumo("fertilizante", "fosforo", Some(1.8), Media);
            c.Ok? && c.value.nome == "Fósforo (P2O5)" && c.value.quantidade == 207.0 && c.value.custo == 931.5
  {
  }
}
