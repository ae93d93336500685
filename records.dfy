/**
 * The browser's record store, `dadosSimulados` (script.js): planting and input
 * records kept in two arrays, created from the calculators or the CRUD forms,
 * updated by id and deleted by id.
 */
module Records {
  import opened Wrappers
  import opened Geometry
  import opened IdRule

  /** A stored record; the two collections share the id, the farm and the timestamps. */
  datatype Registro =
    | Plantio(id: int, fazenda: string, cultura: string, areaHectares: real, tipoArea: string,
              dimensoes: Dimensoes, dataCriacao: string, dataAtualizacao: Option<string>)
    | Insumo(id: int, fazenda: string, tipoInsumo: string, produto: string, quantidade: real, custo: real,
             dataCriacao: string, dataAtualizacao: Option<string>)

  /** What the create and edit forms hand over; numbers are parsed with `parseFloat` (None is `NaN`). */
  datatype Formulario =
    | FormPlantio(fazenda: string, cultura: string, area: Option<real>, tipoArea: string)
    | FormInsumo(fazenda: string, tipoInsumo: string, produto: string, quantidade: Option<real>, custo: Option<real>)

  datatype Desfecho = Concluido | Cancelado | NaoEncontrado | Invalido

  const SamplePlantio: seq<Registro> := [
    Plantio(1, "Fazenda Arcanjo Miguel", "Laranja", 2.5, "retangulo", LarguraAltura(100.0, 250.0), "15/01/2024 10:30:00", None),
    Plantio(2, "Fazenda Barra Grande", "Cana-de-Açúcar", 1.8, "quadrado", Lado(134.16), "15/01/2024 11:15:00", None)
  ]

  const SampleInsumos: seq<Registro> := [
    Insumo(1, "Fazenda Arcanjo Miguel", "corretivo", "Calcário", 5.0, 600.0, "15/01/2024 14:20:00", None),
    Insumo(2, "Fazenda Barra Grande", "fertilizante", "Fósforo (P2O5)", 207.0, 931.5, "15/01/2024 15:45:00", None)
  ]

  predicate SoPlantio(s: seq<Registro>)
  {
    forall i :: 0 <= i < |s| ==> s[i].Plantio?
  }

  predicate SoInsumos(s: seq<Registro>)
  {
    forall i :: 0 <= i < |s| ==> s[i].Insumo?
  }

  function Ids(s: seq<Registro>): (ids: seq<int>)
    ensures |ids| == |s| && forall i :: 0 <= i < |s| ==> ids[i] == s[i].id
  {
    seq(|s|, i requires 0 <= i < |s| => s[i].id)
  }

  /** `findIndex(item => item.id === id)`: the first position holding the id, or -1. */
  function FindIndex(s: seq<Registro>, id: int): (i: int)
    ensures -1 <= i < |s|
    ensures i == -1 <==> id !in Ids(s)
    ensures i >= 0 ==> s[i].id == id && forall j :: 0 <= j < i ==> s[j].id != id
  {
    if |s| == 0 then -1
    else if s[0].id == id then 0
    else
      var k := FindIndex(s[1..], id);
      assert Ids(s) == [s[0].id] + Ids(s[1..]);
      if k == -1 then -1 else k + 1
  }

  /** The checks `createRecord` and `updateRecord` make before storing anything. */
  predicate Valido(form: Formulario): (ok: bool)
    ensures form.FormPlantio? ==> (ok <==> form.area.Some? && form.area.value > 0.0)
    ensures form.FormInsumo? ==> (ok <==>
      && form.produto != ""
      && form.quantidade.Some? && form.quantidade.value > 0.0
      && form.custo.Some? && form.custo.value > 0.0)
  {
    match form
    case FormPlantio(_, _, area, _) => Positive(area)
    case FormInsumo(_, _, produto, quantidade, custo) => produto != "" && Positive(quantidade) && Positive(custo)
  }

  /** The record `createRecord` builds: a manual planting record has no dimensions. */
  function Novo(form: Formulario, id: int, agora: string): (r: Registro)
    requires Valido(form)
    ensures r.id == id && r.fazenda == form.fazenda && r.dataCriacao == agora && r.dataAtualizacao == None
    ensures r.Plantio? <==> form.FormPlantio?
    ensures r.Plantio? ==> r.dimensoes == SemDimensoes && r.areaHectares > 0.0
    ensures r.Insumo? ==> r.quantidade > 0.0 && r.custo > 0.0 && r.produto != ""
    ensures r.Plantio? ==> r.cultura == form.cultura && r.areaHectares == form.area.value && r.tipoArea == form.tipoArea
    ensures r.Insumo? ==>
      && r.tipoInsumo == form.tipoInsumo && r.produto == form.produto
      && r.quantidade == form.quantidade.value && r.custo == form.custo.value
  {
    match form
    case FormPlantio(fazenda, cultura, area, tipoArea) =>
      Plantio(id, fazenda, cultura, area.value, tipoArea, SemDimensoes, agora, None)
    case FormInsumo(fazenda, tipoInsumo, produto, quantidade, custo) =>
      Insumo(id, fazenda, tipoInsumo, produto, quantidade.value, custo.value, agora, None)
  }

  /**
   * The object spread of `updateRecord`: the edit replaces the form's fields and
   * stamps the update time; id, creation time and dimensions survive. An edited
   * record is what creating it from the same form would give, with its old id,
   * creation time and dimensions.
   */
  function Mesclar(r: Registro, form: Formulario, agora: string): (m: Registro)
    requires Valido(form) && (r.Plantio? <==> form.FormPlantio?)
    ensures m.id == r.id && m.dataCriacao == r.dataCriacao && m.dataAtualizacao == Some(agora)
    ensures m.Plantio? <==> r.Plantio?
    ensures form.FormInsumo? ==>
      Novo(form, r.id, r.dataCriacao) == Insumo(m.id, m.fazenda, m.tipoInsumo, m.produto, m.quantidade, m.custo, m.dataCriacao, None)
    ensures form.FormPlantio? ==>
      Novo(form, r.id, r.dataCriacao) == Plantio(m.id, m.fazenda, m.cultura, m.areaHectares, m.tipoArea, SemDimensoes, m.dataCriacao, None) &&
      m.dimensoes == r.dimensoes
  {
    match form
    case FormPlantio(fazenda, cultura, area, tipoArea) =>
      r.(fazenda := fazenda, cultura := cultura, areaHectares := area.value, tipoArea := tipoArea, dataAtualizacao := Some(agora))
    case FormInsumo(fazenda, tipoInsumo, produto, quantidade, custo) =>
      r.(fazenda := fazenda, tipoInsumo := tipoInsumo, produto := produto, quantidade := quantidade.value,
         custo := custo.value, dataAtualizacao := Some(agora))
  }

  function RemoveAt(s: seq<Registro>, i: nat): (r: seq<Registro>)
    requires i < |s|
    ensures Ids(r) == RemoveIdAt(Ids(s), i)
    ensures multiset(r) + multiset{s[i]} == multiset(s)
  {
    var r := s[..i] + s[i + 1..];
    assert s == s[..i] + [s[i]] + s[i + 1..];
    assert multiset(s) == multiset(s[..i]) + multiset{s[i]} + multiset(s[i + 1..]);
    assert |Ids(r)| == |RemoveIdAt(Ids(s), i)|;
    assert forall j :: 0 <= j < |r| ==> Ids(r)[j] == RemoveIdAt(Ids(s), i)[j];
    r
  }

  /** Adding a record numbered `length + 1` extends the ids by the id rule. */
  lemma IdsAppend(s: seq<Registro>, r: Registro)
    requires r.id == |s| + 1
    ensures Ids(s + [r]) == AppendId(Ids(s))
  {
  }

  /** Editing a record in place leaves every id where it was. */
  lemma IdsReplace(s: seq<Registro>, i: nat, r: Registro)
    requires i < |s| && r.id == s[i].id
    ensures Ids(s[i := r]) == Ids(s)
  {
  }

  class DadosSimulados {
    var plantio: seq<Registro>
    var insumos: seq<Registro>

    /** Each collection holds only its own kind of record. */
    ghost predicate Valid()
      reads this
    {
      SoPlantio(plantio) && SoInsumos(insumos)
    }

    /** The collection `updateRecord` and `deleteRecord` pick: planting for "plantio", inputs for anything else. */
    function Colecao(tipo: string): seq<Registro>
      reads this
    {
      if tipo == "plantio" then plantio else insumos
    }

    constructor()
      ensures Valid()
      ensures plantio == SamplePlantio && insumos == SampleInsumos
    {
      plantio := SamplePlantio;
      insumos := SampleInsumos;
    }

    /** `salvarCalculoArea`: stores the calculator's result for a farm and crop still to be chosen. */
    method SalvarCalculoArea(tipo: string, dimensoes: Dimensoes, area: real, agora: string)
      requires Valid()
      modifies this
      ensures Valid()
      ensures plantio == old(plantio) + [Plantio(|old(plantio)| + 1, "Fazenda Selecionada", "A definir", area, tipo, dimensoes, agora, None)]
      ensures Ids(plantio) == AppendId(Ids(old(plantio)))
      ensures insumos == old(insumos)
    {
      var novo := Plantio(|plantio| + 1, "Fazenda Selecionada", "A definir", area, tipo, dimensoes, agora, None);
      IdsAppend(plantio, novo);
      plantio := plantio + [novo];
    }

    /** `salvarCalculoInsumo`: stores the calculator's quantity and cost for a farm still to be chosen. */
    method SalvarCalculoInsumo(tipo: string, produto: string, quantidade: real, custo: real, agora: string)
      requires Valid()
      modifies this
      ensures Valid()
      ensures insumos == old(insumos) + [Insumo(|old(insumos)| + 1, "Fazenda Selecionada", tipo, produto, quantidade, custo, agora, None)]
      ensures Ids(insumos) == AppendId(Ids(old(insumos)))
      ensures plantio == old(plantio)
    {
      var novo := Insumo(|insumos| + 1, "Fazenda Selecionada", tipo, produto, quantidade, custo, agora, None);
      IdsAppend(insumos, novo);
      insumos := insumos + [novo];
    }

    /** `createRecord`: an invalid form changes nothing; a valid one appends a record numbered `length + 1`. */
    method CreateRecord(form: Formulario, agora: string) returns (desfecho: Desfecho)
      requires Valid()
      modifies this
      ensures Valid()
      ensures desfecho == (if Valido(form) then Concluido else Invalido)
      ensures desfecho == Invalido ==> plantio == old(plantio) && insumos == old(insumos)
      ensures desfecho == Concluido && form.FormPlantio? ==>
        plantio == old(plantio) + [Novo(form, |old(plantio)| + 1, agora)] && insumos == old(insumos) &&
        Ids(plantio) == AppendId(Ids(old(plantio)))
      ensures desfecho == Concluido && form.FormInsumo? ==>
        insumos == old(insumos) + [Novo(form, |old(insumos)| + 1, agora)] && plantio == old(plantio) &&
        Ids(insumos) == AppendId(Ids(old(insumos)))
    {
      if !Valido(form) {
        return Invalido;
      }
      if form.FormPlantio? {
        var novo := Novo(form, |plantio| + 1, agora);
        IdsAppend(plantio, novo);
        plantio := plantio + [novo];
      } else {
        var novo := Novo(form, |insumos| + 1, agora);
        IdsAppend(insumos, novo);
        insumos := insumos + [novo];
      }
      desfecho := Concluido;
    }

    /**
     * `updateRecord`: the id is looked up first, then the form is checked; on
     * success the first record with that id is merged with the form.
     */
    method UpdateRecord(tipo: string, id: int, form: Formulario, agora: string) returns (desfecho: Desfecho)
      requires Valid()
      requires tipo == "plantio" <==> form.FormPlantio?
      modifies this
      ensures Valid()
      ensures desfecho == (if id !in Ids(old(Colecao(tipo))) then NaoEncontrado
                           else if !Valido(form) then Invalido
                           else Concluido)
      ensures desfecho != Concluido ==> plantio == old(plantio) && insumos == old(insumos)
      ensures desfecho == Concluido ==>
        var i := FindIndex(old(Colecao(tipo)), id);
        Colecao(tipo) == old(Colecao(tipo))[i := Mesclar(old(Colecao(tipo))[i], form, agora)] &&
        Ids(Colecao(tipo)) == Ids(old(Colecao(tipo)))
      ensures tipo == "plantio" ==> insumos == old(insumos)
      ensures tipo != "plantio" ==> plantio == old(plantio)
    {
      var data := if tipo == "plantio" then plantio else insumos;
      var index := FindIndex(data, id);
      if index == -1 {
        return NaoEncontrado;
      }
      if !Valido(form) {
        return Invalido;
      }
      var atualizado := Mesclar(data[index], form, agora);
      IdsReplace(data, index, atualizado);
      if tipo == "plantio" {
        plantio := data[index := atualizado];
      } else {
        insumos := data[index := atualizado];
      }
      desfecho := Concluido;
    }

    /**
     * `deleteRecord`: nothing happens unless the user confirms; then the first
     * record with the id is removed and the others keep their ids.
     */
    method DeleteRecord(tipo: string, id: int, confirmado: bool) returns (desfecho: Desfecho)
      requires Valid()
      modifies this
      ensures Valid()
      ensures desfecho == (if !confirmado then Cancelado
                           else if id !in Ids(old(Colecao(tipo))) then NaoEncontrado
                           else Concluido)
      ensures desfecho != Concluido ==> plantio == old(plantio) && insumos == old(insumos)
      ensures desfecho == Concluido ==>
        var i := FindIndex(old(Colecao(tipo)), id);
        Colecao(tipo) == RemoveAt(old(Colecao(tipo)), i) &&
        Ids(Colecao(tipo)) == RemoveIdAt(Ids(old(Colecao(tipo))), i)
      ensures tipo == "plantio" ==> insumos == old(insumos)
      ensures tipo != "plantio" ==> plantio == old(plantio)
    {
      if !confirmado {
        return Cancelado;
      }
      var data := if tipo == "plantio" then plantio else insumos;
      var index := FindIndex(data, id);
      if index == -1 {
        return NaoEncontrado;
      }
      var restante := RemoveAt(data, index);
      if tipo == "plantio" {
        plantio := restante;
      } else {
        insumos := restante;
      }
      desfecho := Concluido;
    }
  }

  /** The sample plantings are numbered 1 and 2, and id 1 is in the first slot. */
  lemma SamplePlantioIds()
    ensures Ids(SamplePlantio) == [1, 2]
    ensures FindIndex(SamplePlantio, 1) == 0
  {
    assert SamplePlantio[0].id == 1;
  }

  /**
   * From a store whose plantings are numbered 1 and 2 (the sample data, by
   * `SamplePlantioIds`), deleting planting record 1 and then creating a planting
   * record leaves two records numbered 2: ids are not unique after a deletion
   * that is not of the last record.
   */
  method DeleteThenCreateRepeatsId(dados: DadosSimulados, form: Formulario, agora: string) returns (ids: seq<int>)
    requires dados.Valid() && Ids(dados.plantio) == [1, 2]
    requires form.FormPlantio? && Valido(form)
    modifies dados
    ensures ids == [2, 2] && !Unique(ids)
  {
    ghost var antes := dados.plantio;
    assert FindIndex(antes, 1) == 0 by {
      assert antes[0].id == 1;
    }
    var apagado := dados.DeleteRecord("plantio", 1, true);
    ghost var restantes := Ids(dados.plantio);
    assert restantes == [2] by {
      assert apagado == Concluido;
      assert restantes == RemoveIdAt([1, 2], 0);
    }
    var criado := dados.CreateRecord(form, agora);
    ids := Ids(dados.plantio);
    assert ids == [2, 2] by {
      assert criado == Concluido;
      assert ids == AppendId(restantes);
    }
    assert ids[0] == ids[1];
  }
}
