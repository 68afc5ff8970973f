/**
 * The product catalogue page: a form that registers a new product or rewrites
 * the one being edited, deletion by id, and the table filtered by name and
 * supplier and sorted by price.
 */
module Produtos {
  import opened Text
  import opened Collections

  /** The page's view of a stored product; `imagem` is an optional data URL. */
  datatype Produto = Produto(
    id: int,
    nome: string,
    preco: real,
    descricao: string,
    fornecedor: string,
    imagem: Option<string>)

  datatype Ordem = Asc | Desc

  // ---------------------------------------------------------------------------
  // The list operations

  function IdProduto(p: Produto): int {
    p.id
  }

  function ComId(id: int): Produto -> bool {
    (p: Produto) => p.id == id
  }

  /** The rewrite `{ ...p, nome, preco, descricao, fornecedor, imagem }`. */
  function Regravar(nome: string, preco: real, descricao: string, fornecedor: string, imagem: Option<string>)
    : Produto -> Produto
  {
    (p: Produto) => p.(nome := nome, preco := preco, descricao := descricao, fornecedor := fornecedor, imagem := imagem)
  }

  /** Saving in edit mode: the products with the id get the form's fields and keep their id. */
  function AtualizarProduto(ps: seq<Produto>, id: int, nome: string, preco: real, descricao: string,
                            fornecedor: string, imagem: Option<string>): (r: seq<Produto>)
    ensures |r| == |ps|
    ensures forall i :: 0 <= i < |ps| && ps[i].id == id ==>
              r[i] == Produto(ps[i].id, nome, preco, descricao, fornecedor, imagem)
    ensures forall i :: 0 <= i < |ps| && ps[i].id != id ==> r[i] == ps[i]
  {
    MapWhere(ps, ComId(id), Regravar(nome, preco, descricao, fornecedor, imagem))
  }

  /** `handleExcluirProduto(id)`: the products without that id, in their order. */
  function ExcluirProduto(ps: seq<Produto>, id: int): (r: seq<Produto>)
    ensures forall i :: 0 <= i < |r| ==> r[i] in ps && r[i].id != id
    ensures forall i :: 0 <= i < |ps| && ps[i].id != id ==> ps[i] in r
  {
    RemoverPorChave(ps, IdProduto, id)
  }

  /** Deleting keeps the other products, each as often as before, in their order. */
  lemma ExcluirProdutoPreserva(a: seq<Produto>, b: seq<Produto>, id: int, x: Produto)
    ensures ExcluirProduto(a + b, id) == ExcluirProduto(a, id) + ExcluirProduto(b, id)
    ensures multiset(ExcluirProduto(a, id))[x] == if x.id != id then multiset(a)[x] else 0
  {
    RemoverPorChaveConcat(a, b, IdProduto, id);
    RemoverPorChaveConta(a, IdProduto, id, x);
  }

  // ---------------------------------------------------------------------------
  // The filtered and sorted table

  function NomeContem(filtro: string): Produto -> bool {
    (p: Produto) => Includes(Lower(p.nome), Lower(filtro))
  }

  function FornecedorContem(filtro: string): Produto -> bool {
    (p: Produto) => Includes(Lower(p.fornecedor), Lower(filtro))
  }

  /** A product passes both filters, ignoring case. */
  predicate Passa(p: Produto, filtroNome: string, filtroFornecedor: string) {
    Includes(Lower(p.nome), Lower(filtroNome)) && Includes(Lower(p.fornecedor), Lower(filtroFornecedor))
  }

  function PrecoCrescente(p: Produto): real {
    p.preco
  }

  function PrecoDecrescente(p: Produto): real {
    -p.preco
  }

  function Chave(ordem: Ordem): Produto -> real {
    if ordem == Asc then PrecoCrescente else PrecoDecrescente
  }

  /**
   * `produtosFiltrados`: the products passing both filters, each as often as in
   * the list and nothing else, ordered by price in the chosen direction.
   */
  function ProdutosFiltrados(ps: seq<Produto>, filtroNome: string, filtroFornecedor: string, ordem: Ordem)
    : (r: seq<Produto>)
    ensures forall x :: multiset(r)[x] == if Passa(x, filtroNome, filtroFornecedor) then multiset(ps)[x] else 0
    ensures ordem == Asc ==> forall i, j :: 0 <= i < j < |r| ==> r[i].preco <= r[j].preco
    ensures ordem == Desc ==> forall i, j :: 0 <= i < j < |r| ==> r[i].preco >= r[j].preco
  {
    var porNome := Filter(ps, NomeContem(filtroNome));
    var filtrados := Filter(porNome, FornecedorContem(filtroFornecedor));
    forall x ensures multiset(filtrados)[x] == if Passa(x, filtroNome, filtroFornecedor) then multiset(ps)[x] else 0 {
      FilterCount(ps, NomeContem(filtroNome), x);
      FilterCount(porNome, FornecedorContem(filtroFornecedor), x);
    }
    SortByPermutes(filtrados, Chave(ordem));
    SortBySorted(filtrados, Chave(ordem));
    SortBy(filtrados, Chave(ordem))
  }

  /** Empty filters show every product. */
  lemma FiltrosVaziosMostramTodos(ps: seq<Produto>, ordem: Ordem)
    ensures multiset(ProdutosFiltrados(ps, "", "", ordem)) == multiset(ps)
  {
    forall x ensures Passa(x, "", "") {
      IncludesEmpty(Lower(x.nome));
      IncludesEmpty(Lower(x.fornecedor));
    }
  }

  // ---------------------------------------------------------------------------
  // The page

  datatype ErroCadastro = SemFornecedor

  class PaginaProdutos {
    var produtos: seq<Produto>
    var nome: string
    var preco: real
    var descricao: string
    var fornecedor: string
    var imagem: Option<string>
    var editandoProduto: Option<Produto>
    var filtroNome: string
    var filtroFornecedor: string
    var ordemPreco: Ordem

    /** The page as it opens on the stored products. */
    constructor (produtos: seq<Produto>)
      ensures this.produtos == produtos
      ensures nome == "" && preco == 0.0 && descricao == "" && fornecedor == "" && imagem == None
      ensures editandoProduto == None && filtroNome == "" && filtroFornecedor == "" && ordemPreco == Asc
    {
      this.produtos := produtos;
      nome := "";
      preco := 0.0;
      descricao := "";
      fornecedor := "";
      imagem := None;
      editandoProduto := None;
      filtroNome := "";
      filtroFornecedor := "";
      ordemPreco := Asc;
    }

    /** `limparFormulario`: the five form fields back to their defaults and edit mode off. */
    method LimparFormulario()
      modifies this
      ensures nome == "" && preco == 0.0 && descricao == "" && fornecedor == "" && imagem == None
      ensures editandoProduto == None
      ensures produtos == old(produtos) && filtroNome == old(filtroNome)
      ensures filtroFornecedor == old(filtroFornecedor) && ordemPreco == old(ordemPreco)
    {
      nome := "";
      preco := 0.0;
      descricao := "";
      fornecedor := "";
      imagem := None;
      editandoProduto := None;
    }

    /**
     * `handleCadastrarProduto`, given the new product's id: refused without a
     * supplier; in edit mode it rewrites the product being edited, otherwise it
     * appends one product made of the form; then the form is cleared.
     */
    method CadastrarProduto(novoId: int) returns (erro: Option<ErroCadastro>)
      modifies this
      ensures erro == Some(SemFornecedor) <==> old(fornecedor) == ""
      ensures erro != None ==> unchanged(this)
      ensures erro == None && old(editandoProduto) != None ==>
                produtos == AtualizarProduto(old(produtos), old(editandoProduto).value.id, old(nome), old(preco),
                                             old(descricao), old(fornecedor), old(imagem))
      ensures erro == None && old(editandoProduto) == None ==>
                produtos == old(produtos)
                            + [Produto(novoId, old(nome), old(preco), old(descricao), old(fornecedor), old(imagem))]
      ensures erro == None ==>
                && nome == "" && preco == 0.0 && descricao == "" && fornecedor == "" && imagem == None
                && editandoProduto == None
                && filtroNome == old(filtroNome) && filtroFornecedor == old(filtroFornecedor)
                && ordemPreco == old(ordemPreco)
    {
      if fornecedor == "" {
        return Some(SemFornecedor);
      }
      if editandoProduto != None {
        produtos := AtualizarProduto(produtos, editandoProduto.value.id, nome, preco, descricao, fornecedor, imagem);
      } else {
        produtos := produtos + [Produto(novoId, nome, preco, descricao, fornecedor, imagem)];
      }
      LimparFormulario();
      erro := None;
    }

    /** `handleExcluirProduto(id)`. */
    method ExcluirProdutoDaLista(id: int)
      modifies this
      ensures produtos == ExcluirProduto(old(produtos), id)
      ensures nome == old(nome) && preco == old(preco) && descricao == old(descricao)
      ensures fornecedor == old(fornecedor) && imagem == old(imagem) && editandoProduto == old(editandoProduto)
      ensures filtroNome == old(filtroNome) && filtroFornecedor == old(filtroFornecedor)
      ensures ordemPreco == old(ordemPreco)
    {
      produtos := ExcluirProduto(produtos, id);
    }

    /** `handleEditarProduto(produto)`: the form is loaded with the product, which becomes the one being edited. */
    method EditarProduto(produto: Produto)
      modifies this
      ensures editandoProduto == Some(produto)
      ensures nome == produto.nome && preco == produto.preco && descricao == produto.descricao
      ensures fornecedor == produto.fornecedor && imagem == produto.imagem
      ensures produtos == old(produtos) && filtroNome == old(filtroNome)
      ensures filtroFornecedor == old(filtroFornecedor) && ordemPreco == old(ordemPreco)
    {
      editandoProduto := Some(produto);
      nome := produto.nome;
      preco := produto.preco;
      descricao := produto.descricao;
      fornecedor := produto.fornecedor;
      imagem := produto.imagem;
    }
  }
}
