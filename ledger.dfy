/**
 * The stock ledger stored under the "transacoes" key: an append-only list of
 * stock movements, written by the stock-entry page and read back by the panel.
 */
module Ledger {
  import opened Collections

  /**
   * One stock movement of one product. A positive `quantidade` is stock in, a
   * negative one stock out; `data` is the moment of the movement in milliseconds.
   */
  datatype Transacao = Transacao(
    id: string,
    produtoId: int,
    fornecedorId: int,
    quantidade: int,
    valorTotal: real,
    data: int)

  /** The sum of the quantities of `ts`: the stock these movements add up to. */
  function Saldo(ts: seq<Transacao>): int {
    if ts == [] then 0 else ts[0].quantidade + Saldo(ts[1..])
  }

  /** The selector `t => t.produtoId === produtoId`. */
  function DoProdutoSel(produtoId: int): Transacao -> bool {
    (t: Transacao) => t.produtoId == produtoId
  }

  /** The movements of one product, in ledger order. */
  function DoProduto(ts: seq<Transacao>, produtoId: int): (r: seq<Transacao>)
    ensures forall i :: 0 <= i < |r| ==> r[i] in ts && r[i].produtoId == produtoId
    ensures forall i :: 0 <= i < |ts| && ts[i].produtoId == produtoId ==> ts[i] in r
  {
    Filter(ts, DoProdutoSel(produtoId))
  }

  lemma {:induction false} SaldoAppend(a: seq<Transacao>, b: seq<Transacao>)
    ensures Saldo(a + b) == Saldo(a) + Saldo(b)
  {
    if a == [] {
      assert a + b == b;
    } else {
      assert (a + b)[1..] == a[1..] + b;
      SaldoAppend(a[1..], b);
    }
  }

  /** Appending one movement to the ledger adds to the product's movements only if it is that product's. */
  lemma DoProdutoAppend(ts: seq<Transacao>, t: Transacao, produtoId: int)
    ensures DoProduto(ts + [t], produtoId)
            == DoProduto(ts, produtoId) + (if t.produtoId == produtoId then [t] else [])
    ensures Saldo(DoProduto(ts + [t], produtoId))
            == Saldo(DoProduto(ts, produtoId)) + (if t.produtoId == produtoId then t.quantidade else 0)
  {
    FilterAppend(ts, [t], DoProdutoSel(produtoId));
    assert Filter([t], DoProdutoSel(produtoId)) == if t.produtoId == produtoId then [t] else [];
    SaldoAppend(DoProduto(ts, produtoId), if t.produtoId == produtoId then [t] else []);
  }

  lemma {:induction false} SaldoInsert(x: Transacao, s: seq<Transacao>, key: Transacao -> real)
    ensures Saldo(Insert(x, s, key)) == x.quantidade + Saldo(s)
  {
    if s != [] && key(x) > key(s[0]) {
      SaldoInsert(x, s[1..], key);
    }
  }

  /** Sorting the movements does not change what they add up to. */
  lemma {:induction false} SaldoSortBy(s: seq<Transacao>, key: Transacao -> real)
    ensures Saldo(SortBy(s, key)) == Saldo(s)
  {
    if s != [] {
      SaldoSortBy(s[1..], key);
      SaldoInsert(s[0], SortBy(s[1..], key), key);
    }
  }
}
