/**
 * How the stock-entry page and the panel's history agree: when every product's
 * stock is the sum of its ledger movements, registering a batch keeps it so, and
 * then the newest history row of a product shows that product's stock.
 */
module Conciliacao {
  import opened Collections
  import opened Ledger
  import opened EntradaProdutos
  import Painel = PainelControle

  /** No two products share an id. */
  predicate IdsUnicos(ps: seq<Produto>) {
    forall i, j :: 0 <= i < |ps| && 0 <= j < |ps| && ps[i].id == ps[j].id ==> i == j
  }

  /** `id` is one of the fresh product ids of the batch. */
  predicate IdNovo(novos: seq<Novos>, id: int) {
    exists i :: 0 <= i < |novos| && novos[i].produtoId == id
  }

  /** The fresh product ids are pairwise distinct and used by no product. */
  predicate NovosFrescos(ps: seq<Produto>, novos: seq<Novos>) {
    && (forall i, j :: 0 <= i < |novos| && 0 <= j < |novos| && novos[i].produtoId == novos[j].produtoId ==> i == j)
    && (forall i, k :: 0 <= i < |novos| && 0 <= k < |ps| ==> novos[i].produtoId != ps[k].id)
  }

  /** The fresh product ids appear in no movement of the ledger. */
  predicate ForaDoLivro(ledger: seq<Transacao>, novos: seq<Novos>) {
    forall i, t :: 0 <= i < |novos| && 0 <= t < |ledger| ==> ledger[t].produtoId != novos[i].produtoId
  }

  /** Every product's stock is what the ledger's movements for its id add up to. */
  predicate Conciliado(ps: seq<Produto>, ledger: seq<Transacao>) {
    IdsUnicos(ps) && forall k :: 0 <= k < |ps| ==> ps[k].estoque == Saldo(DoProduto(ledger, ps[k].id))
  }

  /** The product `find` returns is one it can reach. */
  lemma BuscarEhPrimeiro(r: seq<Produto>, nome: string)
    requires Buscar(r, nome) != None
    ensures Primeiro(r, Buscar(r, nome).value)
  {
  }

  /** One line with an id no product has keeps ids unique; a product it creates carries that id. */
  lemma IdsPasso(r: seq<Produto>, e: EntradaProduto, novoId: int)
    requires e.quantidade > 0 && IdsUnicos(r)
    requires forall k :: 0 <= k < |r| ==> r[k].id != novoId
    ensures var s := Aplicar(r, e, novoId);
            && IdsUnicos(s) && |r| <= |s| <= |r| + 1
            && (forall k :: 0 <= k < |r| ==> s[k].id == r[k].id)
            && (|s| == |r| + 1 ==> s[|r|].id == novoId)
  {
    AplicarNomes(r, e, novoId);
  }

  /** A batch keeps ids unique, and each product it creates carries one of the fresh ids. */
  lemma {:induction false} IdsDoLote(ps: seq<Produto>, es: seq<EntradaProduto>, novos: seq<Novos>)
    requires |novos| == |es| && Positivas(es) && IdsUnicos(ps) && NovosFrescos(ps, novos)
    ensures |ps| <= |AplicarLote(ps, es, novos)|
    ensures forall k :: 0 <= k < |ps| ==> AplicarLote(ps, es, novos)[k].id == ps[k].id
    ensures IdsUnicos(AplicarLote(ps, es, novos))
    ensures forall k :: |ps| <= k < |AplicarLote(ps, es, novos)| ==> IdNovo(novos, AplicarLote(ps, es, novos)[k].id)
    decreases |es|
  {
    if es != [] {
      var n := |es| - 1;
      PositivasCorte(es, n);
      var r0 := AplicarLote(ps, es[..n], novos[..n]);
      var r := AplicarLote(ps, es, novos);
      assert NovosFrescos(ps, novos[..n]);
      IdsDoLote(ps, es[..n], novos[..n]);
      forall k | 0 <= k < |r0| ensures r0[k].id != novos[n].produtoId && (|ps| <= k ==> IdNovo(novos, r0[k].id)) {
        if |ps| <= k {
          var i :| 0 <= i < n && novos[..n][i].produtoId == r0[k].id;
          assert novos[i].produtoId == r0[k].id;
        }
      }
      IdsPasso(r0, es[n], novos[n].produtoId);
      if |r| > |r0| {
        assert IdNovo(novos, r[|r0|].id) by {
          assert novos[n].produtoId == r[|r0|].id;
        }
      }
    }
  }

  lemma SaldoDoProdutoConcat(a: seq<Transacao>, b: seq<Transacao>, id: int)
    ensures Saldo(DoProduto(a + b, id)) == Saldo(DoProduto(a, id)) + Saldo(DoProduto(b, id))
  {
    FilterAppend(a, b, DoProdutoSel(id));
    SaldoAppend(DoProduto(a, id), DoProduto(b, id));
  }

  /** Movements none of which is of product `id` add up to nothing for it. */
  lemma SaldoSemMovimento(ts: seq<Transacao>, id: int)
    requires forall i :: 0 <= i < |ts| ==> ts[i].produtoId != id
    ensures Saldo(DoProduto(ts, id)) == 0
  {
    FilterKeepsNone(ts, DoProdutoSel(id));
  }

  /**
   * When the movements of product `id` are exactly those of the lines named
   * `nome`, with the same quantities, they add up to those lines' sum.
   */
  lemma {:induction false} SaldoDasEntradas(ts: seq<Transacao>, es: seq<EntradaProduto>, id: int, nome: string)
    requires |ts| == |es|
    requires forall i :: 0 <= i < |es| ==> ts[i].quantidade == es[i].quantidade
    requires forall i :: 0 <= i < |es| ==> (ts[i].produtoId == id <==> MesmoNome(es[i].produtoNome, nome))
    ensures Saldo(DoProduto(ts, id)) == SomaDoNome(es, nome)
    decreases |es|
  {
    if es == [] {
      assert DoProduto(ts, id) == [];
    } else {
      var n := |es| - 1;
      assert ts == ts[..n] + [ts[n]];
      SaldoDasEntradas(ts[..n], es[..n], id, nome);
      DoProdutoAppend(ts[..n], ts[n], id);
    }
  }

  /** A product `find` can reach receives exactly the movements of the lines with its name. */
  lemma MovimentosDoPrimeiro(ps: seq<Produto>, es: seq<EntradaProduto>, novos: seq<Novos>, f: int, k: int)
    requires |novos| == |es| && Positivas(es)
    requires IdsUnicos(AplicarLote(ps, es, novos))
    requires 0 <= k < |AplicarLote(ps, es, novos)| && Primeiro(AplicarLote(ps, es, novos), k)
    ensures var fim := AplicarLote(ps, es, novos);
            Saldo(DoProduto(TransacoesDoLote(ps, es, novos, f), fim[k].id)) == SomaDoNome(es, fim[k].nome)
  {
    var fim := AplicarLote(ps, es, novos);
    var ts := TransacoesDoLote(ps, es, novos, f);
    forall i | 0 <= i < |es|
      ensures ts[i].quantidade == es[i].quantidade
      ensures ts[i].produtoId == fim[k].id <==> MesmoNome(es[i].produtoNome, fim[k].nome)
    {
      TransacaoDaEntrada(ps, es, novos, f, i);
      if MesmoNome(es[i].produtoNome, fim[k].nome) {
        BuscarPrimeiro(fim, k, es[i].produtoNome);
      }
    }
    SaldoDasEntradas(ts, es, fim[k].id, fim[k].nome);
  }

  /** A product hidden behind an earlier one with the same name receives no movement. */
  lemma MovimentosDoOculto(ps: seq<Produto>, es: seq<EntradaProduto>, novos: seq<Novos>, f: int, k: int)
    requires |novos| == |es| && Positivas(es)
    requires IdsUnicos(AplicarLote(ps, es, novos))
    requires 0 <= k < |AplicarLote(ps, es, novos)| && !Primeiro(AplicarLote(ps, es, novos), k)
    ensures Saldo(DoProduto(TransacoesDoLote(ps, es, novos, f), AplicarLote(ps, es, novos)[k].id)) == 0
  {
    var fim := AplicarLote(ps, es, novos);
    var ts := TransacoesDoLote(ps, es, novos, f);
    forall i | 0 <= i < |ts| ensures ts[i].produtoId != fim[k].id {
      TransacaoDaEntrada(ps, es, novos, f, i);
      BuscarEhPrimeiro(fim, es[i].produtoNome);
    }
    SaldoSemMovimento(ts, fim[k].id);
  }

  /** A reachable product that was already there: its old sum plus the lines with its name. */
  lemma ConciliadoAntigo(ps: seq<Produto>, ledger: seq<Transacao>, es: seq<EntradaProduto>,
                         novos: seq<Novos>, fornecedorId: int, k: int)
    requires |novos| == |es| && Positivas(es) && Conciliado(ps, ledger)
    requires Prefixo(ps, AplicarLote(ps, es, novos)) && Estoques(ps, es, AplicarLote(ps, es, novos))
    requires IdsUnicos(AplicarLote(ps, es, novos))
    requires 0 <= k < |ps| && Primeiro(AplicarLote(ps, es, novos), k)
    ensures var fim := AplicarLote(ps, es, novos);
            fim[k].estoque == Saldo(DoProduto(ledger + TransacoesDoLote(ps, es, novos, fornecedorId), fim[k].id))
  {
    var fim := AplicarLote(ps, es, novos);
    SaldoDoProdutoConcat(ledger, TransacoesDoLote(ps, es, novos, fornecedorId), fim[k].id);
    MovimentosDoPrimeiro(ps, es, novos, fornecedorId, k);
  }

  /** A product the batch created: nothing in the old ledger, then the lines with its name. */
  lemma ConciliadoCriado(ps: seq<Produto>, ledger: seq<Transacao>, es: seq<EntradaProduto>,
                         novos: seq<Novos>, fornecedorId: int, k: int)
    requires |novos| == |es| && Positivas(es) && ForaDoLivro(ledger, novos)
    requires Estoques(ps, es, AplicarLote(ps, es, novos)) && IdsUnicos(AplicarLote(ps, es, novos))
    requires |ps| <= k < |AplicarLote(ps, es, novos)| && Primeiro(AplicarLote(ps, es, novos), k)
    requires IdNovo(novos, AplicarLote(ps, es, novos)[k].id)
    ensures var fim := AplicarLote(ps, es, novos);
            fim[k].estoque == Saldo(DoProduto(ledger + TransacoesDoLote(ps, es, novos, fornecedorId), fim[k].id))
  {
    var fim := AplicarLote(ps, es, novos);
    SaldoDoProdutoConcat(ledger, TransacoesDoLote(ps, es, novos, fornecedorId), fim[k].id);
    MovimentosDoPrimeiro(ps, es, novos, fornecedorId, k);
    var i :| 0 <= i < |novos| && novos[i].produtoId == fim[k].id;
    SaldoSemMovimento(ledger, fim[k].id);
  }

  /** A product hidden behind an earlier one with the same name: untouched, and no new movement. */
  lemma ConciliadoOculto(ps: seq<Produto>, ledger: seq<Transacao>, es: seq<EntradaProduto>,
                         novos: seq<Novos>, fornecedorId: int, k: int)
    requires |novos| == |es| && Positivas(es) && Conciliado(ps, ledger)
    requires Prefixo(ps, AplicarLote(ps, es, novos)) && Ocultos(ps, AplicarLote(ps, es, novos))
    requires Criados(ps, AplicarLote(ps, es, novos)) && IdsUnicos(AplicarLote(ps, es, novos))
    requires 0 <= k < |AplicarLote(ps, es, novos)| && !Primeiro(AplicarLote(ps, es, novos), k)
    ensures var fim := AplicarLote(ps, es, novos);
            fim[k].estoque == Saldo(DoProduto(ledger + TransacoesDoLote(ps, es, novos, fornecedorId), fim[k].id))
  {
    var fim := AplicarLote(ps, es, novos);
    SaldoDoProdutoConcat(ledger, TransacoesDoLote(ps, es, novos, fornecedorId), fim[k].id);
    MovimentosDoOculto(ps, es, novos, fornecedorId, k);
    assert k < |ps|;
    assert !Primeiro(ps, k) by {
      var j :| 0 <= j < k && MesmoNome(fim[j].nome, fim[k].nome);
      assert fim[j].nome == ps[j].nome && fim[k].nome == ps[k].nome;
    }
  }

  /**
   * Registering a batch with fresh product ids keeps every product's stock equal
   * to the sum of its movements in the ledger with the batch's movements appended.
   */
  lemma ConciliacaoDoLote(ps: seq<Produto>, ledger: seq<Transacao>, es: seq<EntradaProduto>,
                          novos: seq<Novos>, fornecedorId: int)
    requires |novos| == |es| && Positivas(es)
    requires Conciliado(ps, ledger) && NovosFrescos(ps, novos) && ForaDoLivro(ledger, novos)
    ensures Conciliado(AplicarLote(ps, es, novos), ledger + TransacoesDoLote(ps, es, novos, fornecedorId))
  {
    var fim := AplicarLote(ps, es, novos);
    var ts := TransacoesDoLote(ps, es, novos, fornecedorId);
    AplicarLoteEfeito(ps, es, novos);
    IdsDoLote(ps, es, novos);
    forall k | 0 <= k < |fim| ensures fim[k].estoque == Saldo(DoProduto(ledger + ts, fim[k].id)) {
      if !Primeiro(fim, k) {
        ConciliadoOculto(ps, ledger, es, novos, fornecedorId, k);
      } else if k < |ps| {
        ConciliadoAntigo(ps, ledger, es, novos, fornecedorId, k);
      } else {
        ConciliadoCriado(ps, ledger, es, novos, fornecedorId, k);
      }
    }
  }

  /**
   * Where stock and ledger agree, the panel's history of a product ends, at its
   * newest row, on the product's stock, and a product without history has no stock.
   */
  lemma HistoricoMostraEstoque(ps: seq<Produto>, ledger: seq<Transacao>, k: int)
    requires Conciliado(ps, ledger) && 0 <= k < |ps|
    ensures Painel.Historico(ledger, Some(ps[k].id)) != [] ==>
              Painel.Historico(ledger, Some(ps[k].id))[0].estoqueAtual == ps[k].estoque
    ensures Painel.Historico(ledger, Some(ps[k].id)) == [] ==> ps[k].estoque == 0
  {
    if Painel.Historico(ledger, Some(ps[k].id)) != [] {
      Painel.HistoricoEstoqueAtual(ledger, ps[k].id);
    }
  }
}
