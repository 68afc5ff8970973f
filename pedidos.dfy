/**
 * The orders page: a draft order is built item by item, with one item at a
 * time open for editing, and saved either over the order being edited or as a
 * new order; orders can be deleted and marked as done or not done.
 */
module Pedidos {
  import opened Collections

  /**
   * A position of the draft's item array: an item, or a hole (`Lacuna`), the
   * empty slot an assignment past the end leaves; `JSON.stringify` stores a hole as `null`.
   * The quantity is whatever number the quantity field parses to, fractions included.
   */
  datatype ItemPedido = ItemPedido(produtoId: int, quantidade: real) | Lacuna

  /** The position holds an item, not a hole. */
  predicate Presente(item: ItemPedido) {
    item.ItemPedido?
  }

  function EhPresente(): ItemPedido -> bool {
    (item: ItemPedido) => Presente(item)
  }

  /** No position of the array is a hole. */
  predicate SemLacunas(itens: seq<ItemPedido>) {
    forall k :: 0 <= k < |itens| ==> Presente(itens[k])
  }

  /** A stored order; `data` is its creation time. */
  datatype Pedido = Pedido(
    id: int,
    clienteId: int,
    itens: seq<ItemPedido>,
    total: real,
    data: int,
    concluido: bool)

  /** The page's view of a stored product. */
  datatype ProdutoPedido = ProdutoPedido(id: int, nome: string, preco: real)

  // ---------------------------------------------------------------------------
  // The order total

  function ComId(id: int): ProdutoPedido -> bool {
    (p: ProdutoPedido) => p.id == id
  }

  /** `produtos.find(p => p.id === id)`. */
  function BuscarProduto(ps: seq<ProdutoPedido>, id: int): (r: Option<ProdutoPedido>)
    ensures r == None <==> forall i :: 0 <= i < |ps| ==> ps[i].id != id
    ensures r != None ==> exists i :: 0 <= i < |ps| && ps[i] == r.value && IsFirst(ps, ComId(id), Some(i))
  {
    match FindFirst(ps, ComId(id))
    case None => None
    case Some(k) => Some(ps[k])
  }

  /**
   * What one position adds to the total: price times quantity, or nothing when
   * its product is unknown; `reduce` skips a hole, so it adds nothing either.
   */
  function ValorItem(ps: seq<ProdutoPedido>, item: ItemPedido): real {
    match item
    case Lacuna => 0.0
    case ItemPedido(produtoId, quantidade) =>
      match BuscarProduto(ps, produtoId)
      case Some(p) => p.preco * quantidade
      case None => 0.0
  }

  /** `calcularTotal(itens)`: the `reduce` from the left over the items, starting at 0. */
  function CalcularTotal(ps: seq<ProdutoPedido>, itens: seq<ItemPedido>): real
    decreases |itens|
  {
    if itens == [] then 0.0
    else CalcularTotal(ps, itens[..|itens| - 1]) + ValorItem(ps, itens[|itens| - 1])
  }

  /** The total of a concatenation is the sum of the totals. */
  lemma {:induction false} CalcularTotalConcat(ps: seq<ProdutoPedido>, a: seq<ItemPedido>, b: seq<ItemPedido>)
    ensures CalcularTotal(ps, a + b) == CalcularTotal(ps, a) + CalcularTotal(ps, b)
    decreases |b|
  {
    if b == [] {
      assert a + b == a;
    } else {
      var n := |b| - 1;
      assert (a + b)[..|a| + n] == a + b[..n];
      assert (a + b)[|a| + n] == b[n];
      CalcularTotalConcat(ps, a, b[..n]);
    }
  }

  lemma CalcularTotalUm(ps: seq<ProdutoPedido>, x: ItemPedido)
    ensures CalcularTotal(ps, [x]) == ValorItem(ps, x)
  {
    assert [x][..0] == [];
  }

  /** The selector of the items whose product is known. */
  function Conhecido(ps: seq<ProdutoPedido>): ItemPedido -> bool {
    (item: ItemPedido) => Presente(item) && BuscarProduto(ps, item.produtoId) != None
  }

  /** Dropping positions that add nothing to the total leaves the total as it was. */
  lemma {:induction false} TotalFiltrado(ps: seq<ProdutoPedido>, itens: seq<ItemPedido>, keep: ItemPedido -> bool)
    requires forall x :: !keep(x) ==> ValorItem(ps, x) == 0.0
    ensures CalcularTotal(ps, itens) == CalcularTotal(ps, Filter(itens, keep))
    decreases |itens|
  {
    if itens != [] {
      var n := |itens| - 1;
      var x := itens[n];
      assert itens == itens[..n] + [x];
      TotalFiltrado(ps, itens[..n], keep);
      FilterAppend(itens[..n], [x], keep);
      assert Filter([x], keep) == if keep(x) then [x] else [];
      CalcularTotalConcat(ps, Filter(itens[..n], keep), Filter([x], keep));
      if keep(x) {
        CalcularTotalUm(ps, x);
      }
    }
  }

  /** Items whose product is unknown contribute nothing: the total is that of the known items alone. */
  lemma TotalDosConhecidos(ps: seq<ProdutoPedido>, itens: seq<ItemPedido>)
    ensures CalcularTotal(ps, itens) == CalcularTotal(ps, Filter(itens, Conhecido(ps)))
  {
    TotalFiltrado(ps, itens, Conhecido(ps));
  }

  /** Holes contribute nothing: the total is that of the items alone. */
  lemma TotalSemLacunas(ps: seq<ProdutoPedido>, itens: seq<ItemPedido>)
    ensures CalcularTotal(ps, itens) == CalcularTotal(ps, Filter(itens, EhPresente()))
  {
    TotalFiltrado(ps, itens, EhPresente());
  }

  /** Replacing one item changes the total by the difference of the two items' values. */
  lemma TotalSubstituir(ps: seq<ProdutoPedido>, itens: seq<ItemPedido>, k: int, x: ItemPedido)
    requires 0 <= k < |itens|
    ensures CalcularTotal(ps, itens[k := x])
            == CalcularTotal(ps, itens) - ValorItem(ps, itens[k]) + ValorItem(ps, x)
  {
    var a, b := itens[..k], itens[k + 1..];
    assert itens == a + [itens[k]] + b;
    assert itens[k := x] == a + [x] + b;
    CalcularTotalConcat(ps, a + [itens[k]], b);
    CalcularTotalConcat(ps, a, [itens[k]]);
    CalcularTotalConcat(ps, a + [x], b);
    CalcularTotalConcat(ps, a, [x]);
    CalcularTotalUm(ps, x);
    CalcularTotalUm(ps, itens[k]);
  }

  /** Removing one item takes its value off the total. */
  lemma TotalRemover(ps: seq<ProdutoPedido>, itens: seq<ItemPedido>, k: int)
    requires 0 <= k < |itens|
    ensures CalcularTotal(ps, RemoveAt(itens, k)) == CalcularTotal(ps, itens) - ValorItem(ps, itens[k])
  {
    var a, b := itens[..k], itens[k + 1..];
    assert itens == a + [itens[k]] + b;
    assert RemoveAt(itens, k) == a + b;
    CalcularTotalConcat(ps, a + [itens[k]], b);
    CalcularTotalConcat(ps, a, [itens[k]]);
    CalcularTotalConcat(ps, a, b);
    CalcularTotalUm(ps, itens[k]);
  }

  // ---------------------------------------------------------------------------
  // The item being edited

  /** The draft's items and the position of the item open for editing. */
  datatype Edicao = Edicao(itens: seq<ItemPedido>, indice: Option<int>)

  /** The items at positions other than `i` survive `RemoveAt` and the hole filter; without holes nothing else is dropped. */
  lemma PosicoesMantidas(itens: seq<ItemPedido>, i: int)
    ensures forall k :: 0 <= k < |itens| && k != i && Presente(itens[k]) ==>
              itens[k] in Filter(RemoveAt(itens, i), EhPresente())
    ensures SemLacunas(itens) ==> Filter(RemoveAt(itens, i), EhPresente()) == RemoveAt(itens, i)
  {
    var r := Filter(RemoveAt(itens, i), EhPresente());
    if SemLacunas(itens) {
      FilterKeepsAll(RemoveAt(itens, i), EhPresente());
    }
    forall k | 0 <= k < |itens| && k != i && Presente(itens[k]) ensures itens[k] in r {
      if k < i {
        assert RemoveAt(itens, i)[k] == itens[k];
      } else if 0 <= i {
        assert RemoveAt(itens, i)[k - 1] == itens[k];
      }
    }
  }

  /**
   * `prev.filter((_, i) => i !== index)`: `filter` visits only the positions that
   * hold an item, so the result is the items at every other position, in order,
   * with the holes gone.
   */
  function FiltrarPosicao(itens: seq<ItemPedido>, i: int): (r: seq<ItemPedido>)
    ensures SemLacunas(r)
    ensures forall k :: 0 <= k < |r| ==> r[k] in itens
    ensures forall k :: 0 <= k < |itens| && k != i && Presente(itens[k]) ==> itens[k] in r
    ensures SemLacunas(itens) ==> r == RemoveAt(itens, i)
  {
    PosicoesMantidas(itens, i);
    Filter(RemoveAt(itens, i), EhPresente())
  }

  /** Removing a position as written takes that position's value off the total, holes aside. */
  lemma TotalFiltrarPosicao(ps: seq<ProdutoPedido>, itens: seq<ItemPedido>, i: int)
    ensures CalcularTotal(ps, FiltrarPosicao(itens, i))
            == CalcularTotal(ps, itens) - if 0 <= i < |itens| then ValorItem(ps, itens[i]) else 0.0
  {
    TotalSemLacunas(ps, RemoveAt(itens, i));
    if 0 <= i < |itens| {
      TotalRemover(ps, itens, i);
    }
  }

  /**
   * `removerItem(index)` as written: the item is filtered out and the editing
   * position is dropped only when it is the removed position; otherwise it is kept as it was.
   */
  function RemoverItemComoEscrito(itens: seq<ItemPedido>, indice: Option<int>, i: int): (r: Edicao)
    ensures r.itens == FiltrarPosicao(itens, i)
    ensures indice == Some(i) ==> r.indice == None
    ensures indice != Some(i) ==> r.indice == indice
  {
    Edicao(FiltrarPosicao(itens, i), if indice == Some(i) then None else indice)
  }

  /** `n` holes. */
  function Lacunas(n: nat): (r: seq<ItemPedido>)
    ensures |r| == n && forall j :: 0 <= j < n ==> r[j] == Lacuna
  {
    seq(n, j => Lacuna)
  }

  /**
   * The assignment `novos[k] = x` on a copy of the items: it replaces position
   * `k`; at or past the end it lengthens the array to `k + 1`, leaving holes between.
   */
  function Atribuir(s: seq<ItemPedido>, k: int, x: ItemPedido): (r: seq<ItemPedido>)
    requires 0 <= k
    ensures |r| == if k < |s| then |s| else k + 1
    ensures r[k] == x
    ensures forall j :: 0 <= j < |s| && j != k ==> r[j] == s[j]
    ensures forall j :: |s| <= j < k ==> r[j] == Lacuna
  {
    if k < |s| then s[k := x] else s + Lacunas(k - |s|) + [x]
  }

  /**
   * Removing an item before the one being edited leaves the editing position
   * on the next item, so saving the edit overwrites the wrong item, or appends.
   */
  lemma RemocaoDesalinhaEdicao()
    ensures var a, b, x := ItemPedido(1, 1.0), ItemPedido(2, 1.0), ItemPedido(2, 5.0);
            var e := RemoverItemComoEscrito([a, b], Some(1), 0);
            && e == Edicao([b], Some(1))
            && Atribuir(e.itens, e.indice.value, x) == [b, x]
            && RemoveAt([a, b][1 := x], 0) == [x]
  {
    var a, b, x := ItemPedido(1, 1.0), ItemPedido(2, 1.0), ItemPedido(2, 5.0);
    assert SemLacunas([a, b]);
    assert RemoveAt([a, b], 0) == [b];
    assert [a, b][1 := x] == [a, x];
    assert RemoveAt([a, x], 0) == [x];
    assert Lacunas(0) == [];
  }

  /**
   * On every draft, removing an item before the edited one and then saving the
   * edit leaves the edited item where it moved to, unchanged, and writes the
   * new item over its successor, or after the end.
   */
  lemma RemocaoDesalinhaSempre(itens: seq<ItemPedido>, k: int, i: int, x: ItemPedido)
    requires SemLacunas(itens) && 0 <= i < k < |itens|
    ensures var e := RemoverItemComoEscrito(itens, Some(k), i);
            && e.indice == Some(k)
            && |Atribuir(e.itens, k, x)| == |itens| - (if k < |itens| - 1 then 1 else 0)
            && Atribuir(e.itens, k, x)[k - 1] == itens[k]
            && Atribuir(e.itens, k, x)[k] == x
            && RemoveAt(itens[k := x], i)[k - 1] == x
  {
  }

  /**
   * Two removals before the edited last item put the editing position past the
   * end, and saving the edit then leaves a hole before the new item: for
   * [A, B, C], `editarItem(2)`, `removerItem(0)` twice and a save give [C, hole, X].
   */
  lemma RemocaoDeixaLacuna(itens: seq<ItemPedido>, i: int, j: int, x: ItemPedido)
    requires SemLacunas(itens) && |itens| >= 2
    requires 0 <= i < |itens| - 1 && 0 <= j < |itens| - 2
    ensures var k := |itens| - 1;
            var e1 := RemoverItemComoEscrito(itens, Some(k), i);
            var e2 := RemoverItemComoEscrito(e1.itens, e1.indice, j);
            && e2.indice == Some(k)
            && |e2.itens| == k - 1
            && Atribuir(e2.itens, k, x) == e2.itens + [Lacuna, x]
  {
    var k := |itens| - 1;
    var e1 := RemoverItemComoEscrito(itens, Some(k), i);
    var e2 := RemoverItemComoEscrito(e1.itens, e1.indice, j);
    assert Lacunas(1) == [Lacuna];
    assert e2.itens + Lacunas(1) + [x] == e2.itens + [Lacuna, x];
  }

  /**
   * `removerItem(index)` with the editing position kept on the item being
   * edited: it is dropped when that item is removed and moves down by one when an
   * earlier item is removed.
   */
  function RemoverItem(itens: seq<ItemPedido>, indice: Option<int>, i: int): (r: Edicao)
    ensures r.itens == RemoveAt(itens, i)
    ensures indice == Some(i) ==> r.indice == None
    ensures indice != Some(i) && indice != None && 0 <= indice.value < |itens| ==>
              r.indice != None && 0 <= r.indice.value < |r.itens| && r.itens[r.indice.value] == itens[indice.value]
  {
    var indice' :=
      match indice
      case None => None
      case Some(k) => if k == i then None else if 0 <= i < k then Some(k - 1) else Some(k);
    Edicao(RemoveAt(itens, i), indice')
  }

  /** With the position kept on its item, removing an item and then saving the edit is saving it and then removing. */
  lemma RemoverEntaoSalvar(itens: seq<ItemPedido>, k: int, i: int, x: ItemPedido)
    requires 0 <= k < |itens| && 0 <= i < |itens| && i != k
    ensures var e := RemoverItem(itens, Some(k), i);
            e.indice != None && 0 <= e.indice.value < |e.itens|
            && e.itens[e.indice.value := x] == RemoveAt(itens[k := x], i)
  {
  }

  // ---------------------------------------------------------------------------
  // The order list

  function ComIdPedido(id: int): Pedido -> bool {
    (p: Pedido) => p.id == id
  }

  /** The rewrite `{ ...p, clienteId, itens, total }`. */
  function Regravar(clienteId: int, itens: seq<ItemPedido>, total: real): Pedido -> Pedido {
    (p: Pedido) => p.(clienteId := clienteId, itens := itens, total := total)
  }

  /** Saving in edit mode: the orders with the id get the draft's customer, items and total. */
  function AtualizarPedido(ps: seq<Pedido>, id: int, clienteId: int, itens: seq<ItemPedido>, total: real)
    : (r: seq<Pedido>)
    ensures |r| == |ps|
    ensures forall i :: 0 <= i < |ps| && ps[i].id == id ==>
              && r[i].clienteId == clienteId && r[i].itens == itens && r[i].total == total
              && r[i].id == id && r[i].data == ps[i].data && r[i].concluido == ps[i].concluido
    ensures forall i :: 0 <= i < |ps| && ps[i].id != id ==> r[i] == ps[i]
  {
    MapWhere(ps, ComIdPedido(id), Regravar(clienteId, itens, total))
  }

  function IdPedido(p: Pedido): int {
    p.id
  }

  /** `excluirPedido(id)`: the orders without that id, in their order. */
  function ExcluirPedido(ps: seq<Pedido>, id: int): (r: seq<Pedido>)
    ensures forall i :: 0 <= i < |r| ==> r[i] in ps && r[i].id != id
    ensures forall i :: 0 <= i < |ps| && ps[i].id != id ==> ps[i] in r
  {
    RemoverPorChave(ps, IdPedido, id)
  }

  /** Deleting works on each part of a list separately, so the remaining orders keep their order. */
  lemma ExcluirPedidoConcat(a: seq<Pedido>, b: seq<Pedido>, id: int)
    ensures ExcluirPedido(a + b, id) == ExcluirPedido(a, id) + ExcluirPedido(b, id)
  {
    RemoverPorChaveConcat(a, b, IdPedido, id);
  }

  /** Deleting an id no order has changes nothing. */
  lemma ExcluirPedidoAusente(ps: seq<Pedido>, id: int)
    requires forall i :: 0 <= i < |ps| ==> ps[i].id != id
    ensures ExcluirPedido(ps, id) == ps
  {
    RemoverPorChaveAusente(ps, IdPedido, id);
  }

  function InverteConcluido(p: Pedido): Pedido {
    p.(concluido := !p.concluido)
  }

  /** `alternarConclusao(id)`: only the orders with that id have their done flag flipped. */
  function AlternarConclusao(ps: seq<Pedido>, id: int): (r: seq<Pedido>)
    ensures |r| == |ps|
    ensures forall i :: 0 <= i < |ps| ==> r[i].concluido == (if ps[i].id == id then !ps[i].concluido else ps[i].concluido)
    ensures forall i :: 0 <= i < |ps| ==> r[i].(concluido := ps[i].concluido) == ps[i]
  {
    MapWhere(ps, ComIdPedido(id), InverteConcluido)
  }

  /** Flipping the same order twice gives back the list. */
  lemma AlternarConclusaoTwice(ps: seq<Pedido>, id: int)
    ensures AlternarConclusao(AlternarConclusao(ps, id), id) == ps
  {
    MapWhereTwice(ps, ComIdPedido(id), InverteConcluido);
  }

  // ---------------------------------------------------------------------------
  // The page

  /** The page's state: the stored orders and products, and the draft order. */
  class PaginaPedidos {
    var pedidos: seq<Pedido>
    var produtos: seq<ProdutoPedido>
    /** The chosen customer; 0 is none. */
    var clienteId: int
    /** The product field of the item form; 0 is none. */
    var produtoId: int
    var quantidade: real
    var itens: seq<ItemPedido>
    var editandoId: Option<int>
    var editandoItemIndex: Option<int>

    /**
     * The editing position is never negative; it may lie at or past the end,
     * after items before it were removed.
     */
    ghost predicate Valid()
      reads this
    {
      editandoItemIndex != None ==> 0 <= editandoItemIndex.value
    }

    /** The page as it opens on the stored orders and products. */
    constructor (pedidos: seq<Pedido>, produtos: seq<ProdutoPedido>)
      ensures Valid()
      ensures this.pedidos == pedidos && this.produtos == produtos
      ensures clienteId == 0 && produtoId == 0 && quantidade == 1.0 && itens == []
      ensures editandoId == None && editandoItemIndex == None
    {
      this.pedidos := pedidos;
      this.produtos := produtos;
      clienteId := 0;
      produtoId := 0;
      quantidade := 1.0;
      itens := [];
      editandoId := None;
      editandoItemIndex := None;
    }

    /** `adicionarItem`: without a product or with a quantity not above 0 nothing happens. */
    method AdicionarItem() returns (feito: bool)
      requires Valid()
      modifies this
      ensures Valid()
      ensures feito <==> old(produtoId) != 0 && old(quantidade) > 0.0
      ensures !feito ==> unchanged(this)
      ensures feito ==>
                && itens == old(itens) + [ItemPedido(old(produtoId), old(quantidade))]
                && produtoId == 0 && quantidade == 1.0
                && pedidos == old(pedidos) && produtos == old(produtos) && clienteId == old(clienteId)
                && editandoId == old(editandoId) && editandoItemIndex == old(editandoItemIndex)
    {
      if produtoId == 0 || quantidade <= 0.0 {
        return false;
      }
      itens := itens + [ItemPedido(produtoId, quantidade)];
      produtoId := 0;
      quantidade := 1.0;
      feito := true;
    }

    /**
     * `editarItem(index)`: the item form is loaded with the item and it becomes
     * the one being edited; the table offers only positions that hold an item.
     */
    method EditarItem(index: int)
      requires Valid() && 0 <= index < |itens| && Presente(itens[index])
      modifies this
      ensures Valid()
      ensures produtoId == old(itens)[index].produtoId && quantidade == old(itens)[index].quantidade
      ensures editandoItemIndex == Some(index)
      ensures itens == old(itens) && pedidos == old(pedidos) && produtos == old(produtos)
      ensures clienteId == old(clienteId) && editandoId == old(editandoId)
    {
      produtoId := itens[index].produtoId;
      quantidade := itens[index].quantidade;
      editandoItemIndex := Some(index);
    }

    /**
     * `salvarItemEditado`: refused without an item being edited, without a
     * product or with a quantity not above 0; otherwise the edited position is
     * written, which at or past the end lengthens the array and leaves holes between.
     */
    method SalvarItemEditado() returns (feito: bool)
      requires Valid()
      modifies this
      ensures Valid()
      ensures feito <==> old(editandoItemIndex) != None && old(produtoId) != 0 && old(quantidade) > 0.0
      ensures !feito ==> unchanged(this)
      ensures feito ==>
                var k := old(editandoItemIndex).value;
                && |itens| == (if k < |old(itens)| then |old(itens)| else k + 1)
                && itens[k] == ItemPedido(old(produtoId), old(quantidade))
                && (forall j :: 0 <= j < |old(itens)| && j != k ==> itens[j] == old(itens)[j])
                && (forall j :: |old(itens)| <= j < k ==> itens[j] == Lacuna)
                && produtoId == 0 && quantidade == 1.0 && editandoItemIndex == None
                && pedidos == old(pedidos) && produtos == old(produtos) && clienteId == old(clienteId)
                && editandoId == old(editandoId)
    {
      if editandoItemIndex == None || produtoId == 0 || quantidade <= 0.0 {
        return false;
      }
      itens := Atribuir(itens, editandoItemIndex.value, ItemPedido(produtoId, quantidade));
      produtoId := 0;
      quantidade := 1.0;
      editandoItemIndex := None;
      feito := true;
    }

    /**
     * `removerItem(index)`: the item at that position and every hole are filtered
     * out; the item form is reset when the removed position was the one being
     * edited, and otherwise the editing position is left as it was.
     */
    method RemoverItemDoPedido(index: int)
      requires Valid()
      modifies this
      ensures Valid()
      ensures itens == FiltrarPosicao(old(itens), index)
      ensures old(editandoItemIndex) == Some(index) ==>
                editandoItemIndex == None && produtoId == 0 && quantidade == 1.0
      ensures old(editandoItemIndex) != Some(index) ==>
                && editandoItemIndex == old(editandoItemIndex)
                && produtoId == old(produtoId) && quantidade == old(quantidade)
      ensures pedidos == old(pedidos) && produtos == old(produtos) && clienteId == old(clienteId)
      ensures editandoId == old(editandoId)
    {
      var e := RemoverItemComoEscrito(itens, editandoItemIndex, index);
      if editandoItemIndex == Some(index) {
        produtoId := 0;
        quantidade := 1.0;
      }
      itens := e.itens;
      editandoItemIndex := e.indice;
    }

    /**
     * `salvarPedido`, given the new order's id and time: refused without a
     * customer or without items; in edit mode it rewrites the order being edited,
     * otherwise it appends a new open order; then the draft is cleared.
     */
    method SalvarPedido(novoId: int, agora: int) returns (feito: bool)
      requires Valid()
      modifies this
      ensures Valid()
      ensures feito <==> old(clienteId) != 0 && old(itens) != []
      ensures !feito ==> unchanged(this)
      ensures feito && old(editandoId) != None ==>
                pedidos == AtualizarPedido(old(pedidos), old(editandoId).value, old(clienteId), old(itens),
                                           CalcularTotal(produtos, old(itens)))
      ensures feito && old(editandoId) == None ==>
                pedidos == old(pedidos)
                           + [Pedido(novoId, old(clienteId), old(itens), CalcularTotal(produtos, old(itens)), agora, false)]
      ensures feito ==>
                && clienteId == 0 && itens == [] && produtoId == 0 && quantidade == 1.0
                && editandoItemIndex == None && editandoId == None && produtos == old(produtos)
    {
      if clienteId == 0 || |itens| == 0 {
        return false;
      }
      var total := CalcularTotal(produtos, itens);
      if editandoId != None {
        pedidos := AtualizarPedido(pedidos, editandoId.value, clienteId, itens, total);
        editandoId := None;
      } else {
        pedidos := pedidos + [Pedido(novoId, clienteId, itens, total, agora, false)];
      }
      clienteId := 0;
      itens := [];
      produtoId := 0;
      quantidade := 1.0;
      editandoItemIndex := None;
      feito := true;
    }

    /** `excluirPedido(id)`. */
    method ExcluirPedidoDaLista(id: int)
      modifies this
      ensures pedidos == ExcluirPedido(old(pedidos), id)
      ensures produtos == old(produtos) && clienteId == old(clienteId) && produtoId == old(produtoId)
      ensures quantidade == old(quantidade) && itens == old(itens)
      ensures editandoId == old(editandoId) && editandoItemIndex == old(editandoItemIndex)
    {
      pedidos := ExcluirPedido(pedidos, id);
    }

    /** `editarPedido(pedido)`: the draft is loaded with the order, which becomes the one being edited. */
    method EditarPedido(pedido: Pedido)
      modifies this
      ensures Valid()
      ensures clienteId == pedido.clienteId && itens == pedido.itens && editandoId == Some(pedido.id)
      ensures produtoId == 0 && quantidade == 1.0 && editandoItemIndex == None
      ensures pedidos == old(pedidos) && produtos == old(produtos)
    {
      clienteId := pedido.clienteId;
      itens := pedido.itens;
      editandoId := Some(pedido.id);
      produtoId := 0;
      quantidade := 1.0;
      editandoItemIndex := None;
    }

    /** `alternarConclusao(id)`. */
    method AlternarConclusaoDoPedido(id: int)
      modifies this
      ensures pedidos == AlternarConclusao(old(pedidos), id)
      ensures produtos == old(produtos) && clienteId == old(clienteId) && produtoId == old(produtoId)
      ensures quantidade == old(quantidade) && itens == old(itens)
      ensures editandoId == old(editandoId) && editandoItemIndex == old(editandoItemIndex)
    {
      pedidos := AlternarConclusao(pedidos, id);
    }
  }
}
