/** The record store: two collections, movements and budgets, each saved by
    overwriting it as a whole, and id allocation as "largest id + 1". The
    two JSON files become two sequences held in memory. */
module Store {
  import opened Models

  /** The id `proximo_id` hands out for records with the given ids: one more
      than the largest id, counting from 0 (ids below 1 are ignored). */
  function NextId(ids: seq<int>): (r: int)
    ensures r >= 1
    ensures forall k :: 0 <= k < |ids| ==> ids[k] < r
    ensures r == 1 || r - 1 in ids
  {
    if ids == [] then 1
    else
      var r := NextId(ids[..|ids| - 1]);
      var last := ids[|ids| - 1];
      assert forall x :: x in ids[..|ids| - 1] ==> x in ids;
      if last > r - 1 then last + 1 else r
  }

  function MovimentoIds(movs: seq<Movimento>): (ids: seq<int>)
    ensures |ids| == |movs|
    ensures forall k :: 0 <= k < |movs| ==> ids[k] == movs[k].id
  {
    seq(|movs|, k requires 0 <= k < |movs| => movs[k].id)
  }

  function OrcamentoIds(orcs: seq<Orcamento>): (ids: seq<int>)
    ensures |ids| == |orcs|
    ensures forall k :: 0 <= k < |orcs| ==> ids[k] == orcs[k].id
  {
    seq(|orcs|, k requires 0 <= k < |orcs| => orcs[k].id)
  }

  /** A fresh id is not taken, and the first one is 1. */
  lemma NextIdFresh(ids: seq<int>)
    ensures NextId(ids) !in ids
    ensures ids == [] ==> NextId(ids) == 1
  {
  }

  class Storage {
    /** Contents of `movimentos.json`. */
    var movimentos: seq<Movimento>
    /** Contents of `orcamentos.json`. */
    var orcamentos: seq<Orcamento>

    /** A store whose files do not exist yet: both collections load as empty. */
    constructor ()
      ensures movimentos == [] && orcamentos == []
    {
      movimentos := [];
      orcamentos := [];
    }

    method CarregarMovimentos() returns (r: seq<Movimento>)
      ensures r == movimentos
    {
      r := movimentos;
    }

    /** Overwrites the movements; the budgets are another file and stay as they are. */
    method GuardarMovimentos(lista: seq<Movimento>)
      modifies this
      ensures movimentos == lista
      ensures orcamentos == old(orcamentos)
    {
      movimentos := lista;
    }

    method CarregarOrcamentos() returns (r: seq<Orcamento>)
      ensures r == orcamentos
    {
      r := orcamentos;
    }

    /** Overwrites the budgets; the movements stay as they are. */
    method GuardarOrcamentos(lista: seq<Orcamento>)
      modifies this
      ensures orcamentos == lista
      ensures movimentos == old(movimentos)
    {
      orcamentos := lista;
    }

    /** `proximo_id()`: larger than every stored movement id, and exactly
        one more than the largest (or 1 on an empty store). */
    method ProximoId() returns (id: int)
      ensures id == NextId(MovimentoIds(movimentos))
      ensures id >= 1 && forall k :: 0 <= k < |movimentos| ==> movimentos[k].id < id
      ensures id == 1 || exists k :: 0 <= k < |movimentos| && movimentos[k].id == id - 1
    {
      var movs := CarregarMovimentos();
      var maxId := 0;
      var i := 0;
      while i < |movs|
        invariant 0 <= i <= |movs|
        invariant maxId + 1 == NextId(MovimentoIds(movs[..i]))
      {
        assert MovimentoIds(movs[..i + 1])[..i] == MovimentoIds(movs[..i]);
        if movs[i].id > maxId {
          maxId := movs[i].id;
        }
        i := i + 1;
      }
      assert movs[..i] == movs;
      id := maxId + 1;
      ghost var ids := MovimentoIds(movimentos);
      if id != 1 {
        ghost var k :| 0 <= k < |ids| && ids[k] == id - 1;
        assert movimentos[k].id == id - 1;
      }
    }

    /** `proximo_id_orcamento()`: the same rule over the budgets. */
    method ProximoIdOrcamento() returns (id: int)
      ensures id == NextId(OrcamentoIds(orcamentos))
      ensures id >= 1 && forall k :: 0 <= k < |orcamentos| ==> orcamentos[k].id < id
      ensures id == 1 || exists k :: 0 <= k < |orcamentos| && orcamentos[k].id == id - 1
    {
      var orcs := CarregarOrcamentos();
      var maxId := 0;
      var i := 0;
      while i < |orcs|
        invariant 0 <= i <= |orcs|
        invariant maxId + 1 == NextId(OrcamentoIds(orcs[..i]))
      {
        assert OrcamentoIds(orcs[..i + 1])[..i] == OrcamentoIds(orcs[..i]);
        if orcs[i].id > maxId {
          maxId := orcs[i].id;
        }
        i := i + 1;
      }
      assert orcs[..i] == orcs;
      id := maxId + 1;
      ghost var ids := OrcamentoIds(orcamentos);
      if id != 1 {
        ghost var k :| 0 <= k < |ids| && ids[k] == id - 1;
        assert orcamentos[k].id == id - 1;
      }
    }
  }
}
