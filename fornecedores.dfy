/**
 * The supplier page: registering appends a supplier made of the five form
 * fields, deleting filters by id, and the list is written back to storage.
 */
module Fornecedores {
  import opened Collections

  datatype Fornecedor = Fornecedor(id: int, nome: string, cnpj: string, cidade: string, cep: string, estado: string)

  function IdFornecedor(f: Fornecedor): int {
    f.id
  }

  /** `handleExcluirFornecedor(id)`: the suppliers without that id, in their order. */
  function ExcluirFornecedor(fs: seq<Fornecedor>, id: int): (r: seq<Fornecedor>)
    ensures forall i :: 0 <= i < |r| ==> r[i] in fs && r[i].id != id
    ensures forall i :: 0 <= i < |fs| && fs[i].id != id ==> fs[i] in r
  {
    RemoverPorChave(fs, IdFornecedor, id)
  }

  /** Deleting keeps the other suppliers, each as often as before, in their order. */
  lemma ExcluirFornecedorPreserva(a: seq<Fornecedor>, b: seq<Fornecedor>, id: int, x: Fornecedor)
    ensures ExcluirFornecedor(a + b, id) == ExcluirFornecedor(a, id) + ExcluirFornecedor(b, id)
    ensures multiset(ExcluirFornecedor(a, id))[x] == if x.id != id then multiset(a)[x] else 0
  {
    RemoverPorChaveConcat(a, b, IdFornecedor, id);
    RemoverPorChaveConta(a, IdFornecedor, id, x);
  }

  /**
   * The page's state. `armazenado` is the value under the "fornecedores"
   * storage key, `None` while the key is absent.
   */
  class PaginaFornecedores {
    var fornecedores: seq<Fornecedor>
    var armazenado: Option<seq<Fornecedor>>
    var nome: string
    var cnpj: string
    var cidade: string
    var cep: string
    var estado: string

    /**
     * The page as it opens: the stored list is loaded when the key exists; the
     * persistence effect then has nothing to add, since it writes back what was read.
     */
    constructor (armazenado: Option<seq<Fornecedor>>)
      ensures this.armazenado == armazenado
      ensures fornecedores == if armazenado == None then [] else armazenado.value
      ensures nome == "" && cnpj == "" && cidade == "" && cep == "" && estado == ""
    {
      this.armazenado := armazenado;
      fornecedores := if armazenado == None then [] else armazenado.value;
      nome, cnpj, cidade, cep, estado := "", "", "", "", "";
    }

    /** The effect on `fornecedores`: the list is written only when it is not empty. */
    method EfeitoPersistencia()
      modifies this
      ensures armazenado == if fornecedores != [] then Some(fornecedores) else old(armazenado)
      ensures fornecedores == old(fornecedores)
      ensures nome == old(nome) && cnpj == old(cnpj) && cidade == old(cidade)
      ensures cep == old(cep) && estado == old(estado)
    {
      if |fornecedores| > 0 {
        armazenado := Some(fornecedores);
      }
    }

    /** `handleCadastrarFornecedor`, given the new id: one supplier appended, the five fields cleared, the list stored. */
    method CadastrarFornecedor(novoId: int)
      modifies this
      ensures fornecedores == old(fornecedores) + [Fornecedor(novoId, old(nome), old(cnpj), old(cidade), old(cep), old(estado))]
      ensures nome == "" && cnpj == "" && cidade == "" && cep == "" && estado == ""
      ensures armazenado == Some(fornecedores)
    {
      fornecedores := fornecedores + [Fornecedor(novoId, nome, cnpj, cidade, cep, estado)];
      nome, cnpj, cidade, cep, estado := "", "", "", "", "";
      EfeitoPersistencia();
    }

    /**
     * `handleExcluirFornecedor(id)`: the list is filtered and written explicitly,
     * so the store follows it even when the last supplier is deleted.
     */
    method ExcluirFornecedorDaLista(id: int)
      modifies this
      ensures fornecedores == ExcluirFornecedor(old(fornecedores), id)
      ensures armazenado == Some(fornecedores)
      ensures nome == old(nome) && cnpj == old(cnpj) && cidade == old(cidade)
      ensures cep == old(cep) && estado == old(estado)
    {
      fornecedores := ExcluirFornecedor(fornecedores, id);
      armazenado := Some(fornecedores);
      EfeitoPersistencia();
    }
  }
}
