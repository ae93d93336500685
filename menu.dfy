/**
 * The console's menu steps that validate what was typed, compute, and store a
 * record (fiap_farm.py `FiapFarmSystem`): the two area calculators and the four
 * input calculators. Typed text is given already parsed: `None` stands for a
 * `float(...)` that raised `ValueError`.
 */
module Menu {
  import opened Wrappers
  import opened IdRule
  import opened Geometry
  import opened Gerenciador
  import Insumos

  /**
   * `calcular_area_quadrada` up to the save: a side that did not parse or is not
   * positive stores nothing; otherwise the record holds the side, the square's
   * area and that area in hectares.
   */
  function CamposQuadrado(lado: Option<real>): (r: Option<CamposPlantio>)
    ensures r.Some? <==> Positive(lado)
    ensures r.Some? ==>
      && r.value.Quadrado? && r.value.lado == lado.value
      && r.value.areaM2 == CalcularQuadrado(lado.value)
      && r.value.areaHa * M2PorHectare == r.value.areaM2
      && r.value.areaHa > 0.0
  {
    if lado.None? || lado.value <= 0.0 then None
    else
      var m2 := CalcularQuadrado(lado.value);
      Some(Quadrado(lado.value, m2, Hectares(m2)))
  }

  /**
   * `calcular_area_retangular` up to the save: both numbers are read before either
   * is checked, and a width or height that did not parse or is not positive stores
   * nothing.
   */
  function CamposRetangulo(largura: Option<real>, altura: Option<real>): (r: Option<CamposPlantio>)
    ensures r.Some? <==> Positive(largura) && Positive(altura)
    ensures r.Some? ==>
      && r.value.Retangulo? && r.value.largura == largura.value && r.value.altura == altura.value
      && r.value.areaM2 == CalcularRetangulo(largura.value, altura.value)
      && r.value.areaHa * M2PorHectare == r.value.areaM2
      && r.value.areaHa > 0.0
  {
    if largura.None? || altura.None? then None
    else if largura.value <= 0.0 || altura.value <= 0.0 then None
    else
      var m2 := CalcularRetangulo(largura.value, altura.value);
      Some(Retangulo(largura.value, altura.value, m2, Hectares(m2)))
  }

  /** The same field on a square and on the rectangle with equal sides: the saved areas agree. */
  lemma SquareSavesAsEqualRectangle(lado: Option<real>)
    requires Positive(lado)
    ensures CamposQuadrado(lado).value.areaM2 == CamposRetangulo(lado, lado).value.areaM2
    ensures CamposQuadrado(lado).value.areaHa == CamposRetangulo(lado, lado).value.areaHa
  {
  }

  /** `calcular_corretivos` up to the save: lime and gypsum for the validated area and level. */
  method CamposCorretivos(hectares: Option<real>, opcao: string) returns (r: Option<CamposInsumo>)
    ensures r.Some? <==> Insumos.ObterHectaresEQuantidade(hectares, opcao).Some?
    ensures r.Some? ==>
      var (ha, q) := Insumos.ObterHectaresEQuantidade(hectares, opcao).value;
      r.value == Corretivos(ha, q, Insumos.Valor(Insumos.MinMax(1.5, 3.0), q) * ha, Insumos.Valor(Insumos.MinMax(1.0, 2.0), q) * ha)
  {
    var entrada := Insumos.ObterHectaresEQuantidade(hectares, opcao);
    if entrada.None? {
      return None;
    }
    var (ha, q) := entrada.value;
    var resultado := Insumos.CalcularCorretivos(ha, "solo", q);
    r := Some(Corretivos(ha, q, resultado["calcario"], resultado["gesso"]));
  }

  /** `calcular_fertilizantes` up to the save: phosphorus and potassium for the validated area and level. */
  method CamposFertilizantes(hectares: Option<real>, opcao: string) returns (r: Option<CamposInsumo>)
    ensures r.Some? <==> Insumos.ObterHectaresEQuantidade(hectares, opcao).Some?
    ensures r.Some? ==>
      var (ha, q) := Insumos.ObterHectaresEQuantidade(hectares, opcao).value;
      r.value == Fertilizantes(ha, q, Insumos.Valor(Insumos.MinMax(80.0, 150.0), q) * ha, Insumos.Valor(Insumos.MinMax(150.0, 250.0), q) * ha)
  {
    var entrada := Insumos.ObterHectaresEQuantidade(hectares, opcao);
    if entrada.None? {
      return None;
    }
    var (ha, q) := entrada.value;
    var resultado := Insumos.CalcularFertilizantes(ha, q);
    r := Some(Fertilizantes(ha, q, resultado["fosforo"], resultado["potassio"]));
  }

  /** `calcular_defensivos` up to the save: sprayings per year and total mixture, with positive mixture. */
  function CamposDefensivos(hectares: Option<real>, opcao: string): (r: Option<CamposInsumo>)
    ensures r.Some? <==> Insumos.ObterHectaresEQuantidade(hectares, opcao).Some?
    ensures r.Some? ==>
      var (ha, q) := Insumos.ObterHectaresEQuantidade(hectares, opcao).value;
      && r.value.Defensivos? && r.value.hectares == ha && r.value.quantidade == q
      && r.value.pulverizacoes == Insumos.Valor(Insumos.Pulverizacoes, q)
      && r.value.caldaLitros == Insumos.Valor(Insumos.Calda, q) * Insumos.Valor(Insumos.Pulverizacoes, q) * ha
      && r.value.caldaLitros > 0.0
  {
    match Insumos.ObterHectaresEQuantidade(hectares, opcao)
    case None => None
    case Some((ha, q)) =>
      var resultado := Insumos.CalcularDefensivos(ha, q);
      Some(Defensivos(ha, q, resultado.pulverizacoesAno, resultado.caldaTotalLitros))
  }

  /** `calcular_todos_insumos` up to the save: the three calculations for one validated area and level. */
  method CamposCompleto(hectares: Option<real>, opcao: string) returns (r: Option<CamposInsumo>)
    ensures r.Some? <==> Insumos.ObterHectaresEQuantidade(hectares, opcao).Some?
    ensures r.Some? ==>
      var (ha, q) := Insumos.ObterHectaresEQuantidade(hectares, opcao).value;
      && r.value.Completo? && r.value.hectares == ha && r.value.quantidade == q
      && r.value.corretivos.Keys == {"calcario", "gesso"}
      && r.value.fertilizantes.Keys == {"fosforo", "potassio"}
      && r.value.corretivos["calcario"] == Insumos.Valor(Insumos.MinMax(1.5, 3.0), q) * ha
      && r.value.corretivos["gesso"] == Insumos.Valor(Insumos.MinMax(1.0, 2.0), q) * ha
      && r.value.fertilizantes["fosforo"] == Insumos.Valor(Insumos.MinMax(80.0, 150.0), q) * ha
      && r.value.fertilizantes["potassio"] == Insumos.Valor(Insumos.MinMax(150.0, 250.0), q) * ha
      && r.value.defensivos == Insumos.CalcularDefensivos(ha, q)
  {
    var entrada := Insumos.ObterHectaresEQuantidade(hectares, opcao);
    if entrada.None? {
      return None;
    }
    var (ha, q) := entrada.value;
    var corretivos := Insumos.CalcularCorretivos(ha, "solo", q);
    var fertilizantes := Insumos.CalcularFertilizantes(ha, q);
    r := Some(Completo(ha, q, corretivos, fertilizantes, Insumos.CalcularDefensivos(ha, q)));
  }

  /** The console program: its record manager. */
  class FiapFarmSystem {
    const gerenciador: GerenciadorDados

    constructor ()
      ensures fresh(gerenciador)
      ensures gerenciador.dadosPlantio == [] && gerenciador.dadosInsumos == []
    {
      gerenciador := new GerenciadorDados();
    }

    /** Stores a planting record when there is one, as the two area steps do after their checks. */
    method SalvarPlantio(campos: Option<CamposPlantio>) returns (salvo: bool)
      modifies gerenciador
      ensures salvo <==> campos.Some?
      ensures salvo ==> |gerenciador.dadosPlantio| == old(|gerenciador.dadosPlantio|) + 1
      ensures salvo ==> gerenciador.dadosPlantio[..old(|gerenciador.dadosPlantio|)] == old(gerenciador.dadosPlantio)
      ensures salvo ==> var novo := gerenciador.dadosPlantio[old(|gerenciador.dadosPlantio|)];
        fresh(novo) && novo.campos == campos.value && novo.id == old(|gerenciador.dadosPlantio|) + 1
      ensures salvo ==> Ids(gerenciador.dadosPlantio) == AppendId(old(Ids(gerenciador.dadosPlantio)))
      ensures !salvo ==> gerenciador.dadosPlantio == old(gerenciador.dadosPlantio)
      ensures gerenciador.dadosInsumos == old(gerenciador.dadosInsumos)
    {
      if campos.None? {
        return false;
      }
      var dados := new Dados(campos.value);
      gerenciador.AdicionarPlantio(dados);
      return true;
    }

    /** Stores an input record when there is one, as the four input steps do after their checks. */
    method SalvarInsumo(campos: Option<CamposInsumo>) returns (salvo: bool)
      modifies gerenciador
      ensures salvo <==> campos.Some?
      ensures salvo ==> |gerenciador.dadosInsumos| == old(|gerenciador.dadosInsumos|) + 1
      ensures salvo ==> gerenciador.dadosInsumos[..old(|gerenciador.dadosInsumos|)] == old(gerenciador.dadosInsumos)
      ensures salvo ==> var novo := gerenciador.dadosInsumos[old(|gerenciador.dadosInsumos|)];
        fresh(novo) && novo.campos == campos.value && novo.id == old(|gerenciador.dadosInsumos|) + 1
      ensures salvo ==> Ids(gerenciador.dadosInsumos) == AppendId(old(Ids(gerenciador.dadosInsumos)))
      ensures !salvo ==> gerenciador.dadosInsumos == old(gerenciador.dadosInsumos)
      ensures gerenciador.dadosPlantio == old(gerenciador.dadosPlantio)
    {
      if campos.None? {
        return false;
      }
      var dados := new Dados(campos.value);
      gerenciador.AdicionarInsumos(dados);
      return true;
    }

    /** `calcular_area_quadrada`: validates, computes, and stores the square's record. */
    method CalcularAreaQuadrada(lado: Option<real>) returns (salvo: bool)
      modifies gerenciador
      ensures salvo <==> Positive(lado)
      ensures salvo ==> |gerenciador.dadosPlantio| == old(|gerenciador.dadosPlantio|) + 1
      ensures salvo ==> gerenciador.dadosPlantio[..old(|gerenciador.dadosPlantio|)] == old(gerenciador.dadosPlantio)
      ensures salvo ==> Ids(gerenciador.dadosPlantio) == AppendId(old(Ids(gerenciador.dadosPlantio)))
      ensures salvo ==> gerenciador.dadosPlantio[old(|gerenciador.dadosPlantio|)].campos == CamposQuadrado(lado).value
      ensures !salvo ==> gerenciador.dadosPlantio == old(gerenciador.dadosPlantio)
      ensures gerenciador.dadosInsumos == old(gerenciador.dadosInsumos)
    {
      salvo := SalvarPlantio(CamposQuadrado(lado));
    }

    /** `calcular_area_retangular`: validates, computes, and stores the rectangle's record. */
    method CalcularAreaRetangular(largura: Option<real>, altura: Option<real>) returns (salvo: bool)
      modifies gerenciador
      ensures salvo <==> Positive(largura) && Positive(altura)
      ensures salvo ==> |gerenciador.dadosPlantio| == old(|gerenciador.dadosPlantio|) + 1
      ensures salvo ==> gerenciador.dadosPlantio[..old(|gerenciador.dadosPlantio|)] == old(gerenciador.dadosPlantio)
      ensures salvo ==> Ids(gerenciador.dadosPlantio) == AppendId(old(Ids(gerenciador.dadosPlantio)))
      ensures salvo ==> gerenciador.dadosPlantio[old(|gerenciador.dadosPlantio|)].campos == CamposRetangulo(largura, altura).value
      ensures !salvo ==> gerenciador.dadosPlantio == old(gerenciador.dadosPlantio)
      ensures gerenciador.dadosInsumos == old(gerenciador.dadosInsumos)
    {
      salvo := SalvarPlantio(CamposRetangulo(largura, altura));
    }

    /** `calcular_corretivos`: stores the lime and gypsum record when the area and level are valid. */
    method CalcularCorretivos(hectares: Option<real>, opcao: string) returns (salvo: bool)
      modifies gerenciador
      ensures salvo <==> Insumos.ObterHectaresEQuantidade(hectares, opcao).Some?
      ensures salvo ==> |gerenciador.dadosInsumos| == old(|gerenciador.dadosInsumos|) + 1
      ensures salvo ==> gerenciador.dadosInsumos[..old(|gerenciador.dadosInsumos|)] == old(gerenciador.dadosInsumos)
      ensures salvo ==> Ids(gerenciador.dadosInsumos) == AppendId(old(Ids(gerenciador.dadosInsumos)))
      ensures salvo ==>
        var (ha, q) := Insumos.ObterHectaresEQuantidade(hectares, opcao).value;
        gerenciador.dadosInsumos[old(|gerenciador.dadosInsumos|)].campos == Corretivos(ha, q, Insumos.Valor(Insumos.MinMax(1.5, 3.0), q) * ha, Insumos.Valor(Insumos.MinMax(1.0, 2.0), q) * ha)
      ensures !salvo ==> gerenciador.dadosInsumos == old(gerenciador.dadosInsumos)
      ensures gerenciador.dadosPlantio == old(gerenciador.dadosPlantio)
    {
      var campos := CamposCorretivos(hectares, opcao);
      salvo := SalvarInsumo(campos);
    }

    /** `calcular_fertilizantes`: stores the phosphorus and potassium record when the area and level are valid. */
    method CalcularFertilizantes(hectares: Option<real>, opcao: string) returns (salvo: bool)
      modifies gerenciador
      ensures salvo <==> Insumos.ObterHectaresEQuantidade(hectares, opcao).Some?
      ensures salvo ==> |gerenciador.dadosInsumos| == old(|gerenciador.dadosInsumos|) + 1
      ensures salvo ==> gerenciador.dadosInsumos[..old(|gerenciador.dadosInsumos|)] == old(gerenciador.dadosInsumos)
      ensures salvo ==> Ids(gerenciador.dadosInsumos) == AppendId(old(Ids(gerenciador.dadosInsumos)))
      ensures salvo ==>
        var (ha, q) := Insumos.ObterHectaresEQuantidade(hectares, opcao).value;
        gerenciador.dadosInsumos[old(|gerenciador.dadosInsumos|)].campos == Fertilizantes(ha, q, Insumos.Valor(Insumos.MinMax(80.0, 150.0), q) * ha, Insumos.Valor(Insumos.MinMax(150.0, 250.0), q) * ha)
      ensures !salvo ==> gerenciador.dadosInsumos == old(gerenciador.dadosInsumos)
      ensures gerenciador.dadosPlantio == old(gerenciador.dadosPlantio)
    {
      var campos := CamposFertilizantes(hectares, opcao);
      salvo := SalvarInsumo(campos);
    }

    /** `calcular_defensivos`: stores the spraying record when the area and level are valid. */
    method CalcularDefensivos(hectares: Option<real>, opcao: string) returns (salvo: bool)
      modifies gerenciador
      ensures salvo <==> Insumos.ObterHectaresEQuantidade(hectares, opcao).Some?
      ensures salvo ==> |gerenciador.dadosInsumos| == old(|gerenciador.dadosInsumos|) + 1
      ensures salvo ==> gerenciador.dadosInsumos[..old(|gerenciador.dadosInsumos|)] == old(gerenciador.dadosInsumos)
      ensures salvo ==> Ids(gerenciador.dadosInsumos) == AppendId(old(Ids(gerenciador.dadosInsumos)))
      ensures salvo ==> gerenciador.dadosInsumos[old(|gerenciador.dadosInsumos|)].campos == CamposDefensivos(hectares, opcao).value
      ensures !salvo ==> gerenciador.dadosInsumos == old(gerenciador.dadosInsumos)
      ensures gerenciador.dadosPlantio == old(gerenciador.dadosPlantio)
    {
      salvo := SalvarInsumo(CamposDefensivos(hectares, opcao));
    }

    /** `calcular_todos_insumos`: stores one record holding all three calculations. */
    method CalcularTodosInsumos(hectares: Option<real>, opcao: string) returns (salvo: bool)
      modifies gerenciador
      ensures salvo <==> Insumos.ObterHectaresEQuantidade(hectares, opcao).Some?
      ensures salvo ==> |gerenciador.dadosInsumos| == old(|gerenciador.dadosInsumos|) + 1
      ensures salvo ==> gerenciador.dadosInsumos[..old(|gerenciador.dadosInsumos|)] == old(gerenciador.dadosInsumos)
      ensures salvo ==> Ids(gerenciador.dadosInsumos) == AppendId(old(Ids(gerenciador.dadosInsumos)))
      ensures salvo ==>
        var (ha, q) := Insumos.ObterHectaresEQuantidade(hectares, opcao).value;
        var c := gerenciador.dadosInsumos[old(|gerenciador.dadosInsumos|)].campos;
        && c.Completo? && c.hectares == ha && c.quantidade == q
        && c.corretivos.Keys == {"calcario", "gesso"} && c.fertilizantes.Keys == {"fosforo", "potassio"}
        && c.corretivos["calcario"] == Insumos.Valor(Insumos.MinMax(1.5, 3.0), q) * ha
        && c.corretivos["gesso"] == Insumos.Valor(Insumos.MinMax(1.0, 2.0), q) * ha
        && c.fertilizantes["fosforo"] == Insumos.Valor(Insumos.MinMax(80.0, 150.0), q) * ha
        && c.fertilizantes["potassio"] == Insumos.Valor(Insumos.MinMax(150.0, 250.0), q) * ha
        && c.defensivos == Insumos.CalcularDefensivos(ha, q)
      ensures !salvo ==> gerenciador.dadosInsumos == old(gerenciador.dadosInsumos)
      ensures gerenciador.dadosPlantio == old(gerenciador.dadosPlantio)
    {
      var campos := CamposCompleto(hectares, opcao);
      salvo := SalvarInsumo(campos);
    }
  }
}
