/**
 * The console's general summary, `gerar_resumo_geral` (fiap_farm.py): the number
 * of planting records and their total area in hectares, split into squares and
 * rectangles, and the number of input records per type in order of first
 * appearance. Only the stored fields other than `id` are read, and those never change.
 */
module Resumo {
  import opened Wrappers
  import opened Numbers
  import opened Grouping
  import opened Gerenciador

  /** The `tipo` key of a planting record. */
  function TipoPlantio(c: CamposPlantio): string
  {
    match c
    case Quadrado(_, _, _) => "quadrado"
    case Retangulo(_, _, _, _) => "retangulo"
  }

  /** The `tipo` key of an input record. */
  function TipoInsumo(c: CamposInsumo): string
  {
    match c
    case Corretivos(_, _, _, _) => "corretivos"
    case Fertilizantes(_, _, _, _) => "fertilizantes"
    case Defensivos(_, _, _, _) => "defensivos"
    case Completo(_, _, _, _, _) => "completo"
  }

  /** `item['area_ha'] for item in plantio`. */
  function AreasHa(plantio: seq<Dados<CamposPlantio>>): (r: seq<real>)
    ensures |r| == |plantio|
    ensures forall i :: 0 <= i < |plantio| ==> r[i] == plantio[i].campos.areaHa
  {
    seq(|plantio|, i requires 0 <= i < |plantio| => plantio[i].campos.areaHa)
  }

  /** `[item for item in plantio if item['tipo'] == tipo]`. */
  function DoTipo(plantio: seq<Dados<CamposPlantio>>, tipo: string): (r: seq<Dados<CamposPlantio>>)
    ensures |r| <= |plantio|
    ensures forall d :: d in r ==> d in plantio && TipoPlantio(d.campos) == tipo
    decreases |plantio|
  {
    if plantio == [] then []
    else
      var init, last := plantio[..|plantio| - 1], plantio[|plantio| - 1];
      if TipoPlantio(last.campos) == tipo then DoTipo(init, tipo) + [last] else DoTipo(init, tipo)
  }

  /** The filtered list holds exactly the records of that `tipo`. */
  lemma {:induction false} DoTipoMembers(plantio: seq<Dados<CamposPlantio>>, tipo: string)
    ensures forall i :: 0 <= i < |DoTipo(plantio, tipo)| ==>
      DoTipo(plantio, tipo)[i] in plantio && TipoPlantio(DoTipo(plantio, tipo)[i].campos) == tipo
    ensures forall i :: 0 <= i < |plantio| && TipoPlantio(plantio[i].campos) == tipo ==> plantio[i] in DoTipo(plantio, tipo)
    decreases |plantio|
  {
    if plantio != [] {
      var init, last := plantio[..|plantio| - 1], plantio[|plantio| - 1];
      DoTipoMembers(init, tipo);
      assert plantio == init + [last];
      assert forall i :: 0 <= i < |init| ==> init[i] == plantio[i];
    }
  }

  /** Squares and rectangles split the plantings: their counts add up to the number of records. */
  lemma {:induction false} SquaresAndRectanglesCount(plantio: seq<Dados<CamposPlantio>>)
    ensures |DoTipo(plantio, "quadrado")| + |DoTipo(plantio, "retangulo")| == |plantio|
    decreases |plantio|
  {
    if plantio != [] {
      SquaresAndRectanglesCount(plantio[..|plantio| - 1]);
    }
  }

  /** Appending a record adds its `area_ha` to the summed area. */
  lemma TotalAreaSnoc(s: seq<Dados<CamposPlantio>>, d: Dados<CamposPlantio>)
    ensures Total(AreasHa(s + [d])) == Total(AreasHa(s)) + d.campos.areaHa
  {
    var xs := AreasHa(s + [d]);
    assert xs[..|xs| - 1] == AreasHa(s);
  }

  /** The summed area is the area of all records but the last, plus the last one's. */
  lemma TotalAreaLast(s: seq<Dados<CamposPlantio>>)
    requires |s| > 0
    ensures Total(AreasHa(s)) == Total(AreasHa(s[..|s| - 1])) + s[|s| - 1].campos.areaHa
  {
    var xs := AreasHa(s);
    assert xs[..|xs| - 1] == AreasHa(s[..|s| - 1]);
  }

  /** Squares and rectangles split the plantings: their areas add up to the total area. */
  lemma {:induction false} SquaresAndRectanglesArea(plantio: seq<Dados<CamposPlantio>>)
    ensures Total(AreasHa(DoTipo(plantio, "quadrado"))) + Total(AreasHa(DoTipo(plantio, "retangulo")))
      == Total(AreasHa(plantio))
    decreases |plantio|
  {
    if plantio != [] {
      var init, last := plantio[..|plantio| - 1], plantio[|plantio| - 1];
      SquaresAndRectanglesArea(init);
      TotalAreaLast(plantio);
      if last.campos.Quadrado? {
        assert DoTipo(plantio, "quadrado") == DoTipo(init, "quadrado") + [last];
        assert DoTipo(plantio, "retangulo") == DoTipo(init, "retangulo");
        TotalAreaSnoc(DoTipo(init, "quadrado"), last);
      } else {
        assert DoTipo(plantio, "quadrado") == DoTipo(init, "quadrado");
        assert DoTipo(plantio, "retangulo") == DoTipo(init, "retangulo") + [last];
        TotalAreaSnoc(DoTipo(init, "retangulo"), last);
      }
    }
  }

  /** The planting half of the summary. */
  datatype ResumoPlantio = ResumoPlantio(
    registros: nat, areaTotal: real,
    quadrados: nat, areaQuadrados: real,
    retangulos: nat, areaRetangulos: real)

  /**
   * The planting half of `gerar_resumo_geral`: nothing for an empty list, otherwise
   * the record count, the summed `area_ha`, and the same two figures per shape. The
   * shapes add up to the whole.
   */
  function ResumoDePlantio(plantio: seq<Dados<CamposPlantio>>): (r: Option<ResumoPlantio>)
    ensures r.None? <==> plantio == []
    ensures r.Some? ==>
      && r.value.registros == |plantio|
      && r.value.areaTotal == Total(AreasHa(plantio))
      && r.value.registros == r.value.quadrados + r.value.retangulos
      && r.value.areaTotal == r.value.areaQuadrados + r.value.areaRetangulos
    ensures r.Some? ==>
      && r.value.quadrados == |DoTipo(plantio, "quadrado")|
      && r.value.areaQuadrados == Total(AreasHa(DoTipo(plantio, "quadrado")))
      && r.value.retangulos == |DoTipo(plantio, "retangulo")|
      && r.value.areaRetangulos == Total(AreasHa(DoTipo(plantio, "retangulo")))
  {
    if plantio == [] then None
    else
      var quadrados, retangulos := DoTipo(plantio, "quadrado"), DoTipo(plantio, "retangulo");
      SquaresAndRectanglesCount(plantio);
      SquaresAndRectanglesArea(plantio);
      Some(ResumoPlantio(
        |plantio|, Total(AreasHa(plantio)),
        |quadrados|, Total(AreasHa(quadrados)),
        |retangulos|, Total(AreasHa(retangulos))))
  }

  /** The `tipo` of each input record, in list order. */
  function TiposInsumo(insumos: seq<Dados<CamposInsumo>>): (r: seq<string>)
    ensures |r| == |insumos|
    ensures forall i :: 0 <= i < |insumos| ==> r[i] == TipoInsumo(insumos[i].campos)
  {
    seq(|insumos|, i requires 0 <= i < |insumos| => TipoInsumo(insumos[i].campos))
  }

  /**
   * The counting loop of `gerar_resumo_geral`: one entry per input type in order of
   * first appearance; each count is the number of records of that type, and the
   * counts add up to the number of records.
   */
  method ContarTipos(insumos: seq<Dados<CamposInsumo>>) returns (ordem: seq<string>, tipos: map<string, nat>)
    ensures Counted(ordem, tipos) == CountBy(TiposInsumo(insumos))
    ensures SumCounts(ordem, tipos) == |insumos|
    ensures forall t :: t in tipos ==> tipos[t] == multiset(TiposInsumo(insumos))[t]
  {
    var keys := TiposInsumo(insumos);
    ordem, tipos := [], map[];
    var k := 0;
    while k < |insumos|
      invariant 0 <= k <= |insumos|
      invariant Counted(ordem, tipos) == CountBy(keys[..k])
    {
      var tipo := TipoInsumo(insumos[k].campos);
      CountLoopStep(keys, k, ordem, tipos, tipo);
      if tipo !in tipos {
        ordem := ordem + [tipo];
        tipos := tipos[tipo := 0];
      }
      tipos := tipos[tipo := tipos[tipo] + 1];
      k := k + 1;
    }
    assert keys[..k] == keys;
    CountsConserved(keys);
    forall t | t in tipos
      ensures tipos[t] == multiset(keys)[t]
    {
      CountIsOccurrences(keys, t);
    }
  }
}
