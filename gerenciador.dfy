/**
 * The console's record manager, `GerenciadorDados` (fiap_farm.py): two lists of
 * dictionaries, addressed by position. Adding writes `id = length + 1` into the
 * caller's dictionary and appends it; updating copies the slot's id into the new
 * dictionary and puts it in that slot; deleting removes the slot. A position out of
 * range answers `False` and changes nothing.
 */
module Gerenciador {
  import opened Wrappers
  import opened IdRule
  import Geometry
  import Insumos

  /** What a planting dictionary holds besides its id. */
  datatype CamposPlantio =
    | Quadrado(lado: real, areaM2: real, areaHa: real)
    | Retangulo(largura: real, altura: real, areaM2: real, areaHa: real)

  /** What an input dictionary holds besides its id. */
  datatype CamposInsumo =
    | Corretivos(hectares: real, quantidade: string, calcario: real, gesso: real)
    | Fertilizantes(hectares: real, quantidade: string, fosforo: real, potassio: real)
    | Defensivos(hectares: real, quantidade: string, pulverizacoes: real, caldaLitros: real)
    | Completo(hectares: real, quantidade: string, corretivos: map<string, real>,
               fertilizantes: map<string, real>, defensivos: Insumos.Defensivos)

  /**
   * A stored dictionary. Its fields other than `id` are never written after it is
   * built; `id` is 0 until the manager writes one.
   */
  class Dados<C> {
    var id: int
    const campos: C

    constructor (campos: C)
      ensures this.campos == campos && id == 0
    {
      this.campos := campos;
      id := 0;
    }
  }

  /** The ids of a list of dictionaries, in list order. */
  function Ids<C>(s: seq<Dados<C>>): (r: seq<int>)
    reads s
    ensures |r| == |s|
    ensures forall i :: 0 <= i < |s| ==> r[i] == s[i].id
  {
    seq(|s|, i reads s requires 0 <= i < |s| => s[i].id)
  }

  class GerenciadorDados {
    var dadosPlantio: seq<Dados<CamposPlantio>>
    var dadosInsumos: seq<Dados<CamposInsumo>>

    constructor ()
      ensures dadosPlantio == [] && dadosInsumos == []
    {
      dadosPlantio := [];
      dadosInsumos := [];
    }

    /**
     * `adicionar_plantio`: writes `length + 1` into the dictionary and appends it.
     * When the dictionary was not already in the list, the ids grow by the id rule.
     */
    method AdicionarPlantio(dados: Dados<CamposPlantio>)
      modifies this, dados
      ensures dadosPlantio == old(dadosPlantio) + [dados]
      ensures dados.id == old(|dadosPlantio|) + 1
      ensures dadosInsumos == old(dadosInsumos)
      ensures dados !in old(dadosPlantio) ==> Ids(dadosPlantio) == AppendId(old(Ids(dadosPlantio)))
    {
      dados.id := |dadosPlantio| + 1;
      dadosPlantio := dadosPlantio + [dados];
    }

    /** `adicionar_insumos`: the same rule on the inputs list. */
    method AdicionarInsumos(dados: Dados<CamposInsumo>)
      modifies this, dados
      ensures dadosInsumos == old(dadosInsumos) + [dados]
      ensures dados.id == old(|dadosInsumos|) + 1
      ensures dadosPlantio == old(dadosPlantio)
      ensures dados !in old(dadosInsumos) ==> Ids(dadosInsumos) == AppendId(old(Ids(dadosInsumos)))
    {
      dados.id := |dadosInsumos| + 1;
      dadosInsumos := dadosInsumos + [dados];
    }

    /**
     * `atualizar_plantio`: for a position in range, the new dictionary takes the
     * slot's id and the slot; when it was not also stored in another slot, the ids
     * of the list are as before.
     */
    method AtualizarPlantio(indice: int, novosDados: Dados<CamposPlantio>) returns (ok: bool)
      modifies this, novosDados
      ensures ok <==> 0 <= indice < old(|dadosPlantio|)
      ensures ok ==> dadosPlantio == old(dadosPlantio)[indice := novosDados]
      ensures ok ==> novosDados.id == old(dadosPlantio[indice].id)
      ensures ok && (forall j :: 0 <= j < |old(dadosPlantio)| && j != indice ==> old(dadosPlantio)[j] != novosDados)
        ==> Ids(dadosPlantio) == old(Ids(dadosPlantio))
      ensures !ok ==> dadosPlantio == old(dadosPlantio) && novosDados.id == old(novosDados.id)
      ensures dadosInsumos == old(dadosInsumos)
    {
      if 0 <= indice < |dadosPlantio| {
        novosDados.id := dadosPlantio[indice].id;
        dadosPlantio := dadosPlantio[indice := novosDados];
        return true;
      }
      return false;
    }

    /** `atualizar_insumos`: the same on the inputs list. */
    method AtualizarInsumos(indice: int, novosDados: Dados<CamposInsumo>) returns (ok: bool)
      modifies this, novosDados
      ensures ok <==> 0 <= indice < old(|dadosInsumos|)
      ensures ok ==> dadosInsumos == old(dadosInsumos)[indice := novosDados]
      ensures ok ==> novosDados.id == old(dadosInsumos[indice].id)
      ensures ok && (forall j :: 0 <= j < |old(dadosInsumos)| && j != indice ==> old(dadosInsumos)[j] != novosDados)
        ==> Ids(dadosInsumos) == old(Ids(dadosInsumos))
      ensures !ok ==> dadosInsumos == old(dadosInsumos) && novosDados.id == old(novosDados.id)
      ensures dadosPlantio == old(dadosPlantio)
    {
      if 0 <= indice < |dadosInsumos| {
        novosDados.id := dadosInsumos[indice].id;
        dadosInsumos := dadosInsumos[indice := novosDados];
        return true;
      }
      return false;
    }

    /** `deletar_plantio`: removes the slot; the others keep their order and their ids. */
    method DeletarPlantio(indice: int) returns (ok: bool)
      modifies this
      ensures ok <==> 0 <= indice < old(|dadosPlantio|)
      ensures ok ==> dadosPlantio == old(dadosPlantio)[..indice] + old(dadosPlantio)[indice + 1..]
      ensures ok ==> Ids(dadosPlantio) == RemoveIdAt(old(Ids(dadosPlantio)), indice)
      ensures !ok ==> dadosPlantio == old(dadosPlantio)
      ensures dadosInsumos == old(dadosInsumos)
    {
      if 0 <= indice < |dadosPlantio| {
        dadosPlantio := dadosPlantio[..indice] + dadosPlantio[indice + 1..];
        return true;
      }
      return false;
    }

    /** `deletar_insumos`: the same on the inputs list. */
    method DeletarInsumos(indice: int) returns (ok: bool)
      modifies this
      ensures ok <==> 0 <= indice < old(|dadosInsumos|)
      ensures ok ==> dadosInsumos == old(dadosInsumos)[..indice] + old(dadosInsumos)[indice + 1..]
      ensures ok ==> Ids(dadosInsumos) == RemoveIdAt(old(Ids(dadosInsumos)), indice)
      ensures !ok ==> dadosInsumos == old(dadosInsumos)
      ensures dadosPlantio == old(dadosPlantio)
    {
      if 0 <= indice < |dadosInsumos| {
        dadosInsumos := dadosInsumos[..indice] + dadosInsumos[indice + 1..];
        return true;
      }
      return false;
    }
  }
}
