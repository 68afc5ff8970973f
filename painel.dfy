/**
 * The product panel: the product table with its active flag and profit column,
 * and the per-product stock history rebuilt from the ledger.
 */
module PainelControle {
  import opened Text
  import opened Collections
  import opened Ledger

  /** The panel's view of a stored product; `custo` is absent on products never restocked. */
  datatype Produto = Produto(
    id: int,
    nome: string,
    preco: real,
    custo: Option<real>,
    estoque: int,
    ativo: bool)

  /** The selector `p => p.id === id`. */
  function ComId(id: int): Produto -> bool {
    (p: Produto) => p.id == id
  }

  function InverteAtivo(p: Produto): Produto {
    p.(ativo := !p.ativo)
  }

  /** `alternarStatus(id)`: the product list with the active flag of the products with that id flipped. */
  function AlternarStatus(ps: seq<Produto>, id: int): (r: seq<Produto>)
    ensures |r| == |ps|
    ensures forall i :: 0 <= i < |ps| ==> r[i].ativo == (if ps[i].id == id then !ps[i].ativo else ps[i].ativo)
    ensures forall i :: 0 <= i < |ps| ==> r[i].(ativo := ps[i].ativo) == ps[i]
  {
    MapWhere(ps, ComId(id), InverteAtivo)
  }

  /** Toggling the same id twice gives back the original list. */
  lemma AlternarStatusTwice(ps: seq<Produto>, id: int)
    ensures AlternarStatus(AlternarStatus(ps, id), id) == ps
  {
    MapWhereTwice(ps, ComId(id), InverteAtivo);
  }

  /** The profit column: "N/A" or a percentage over cost (the percentage's formatting is not modelled). */
  datatype Lucro = NaoDisponivel | Percentual(valor: real)

  /** `calcularLucro(preco, custo)`. */
  function CalcularLucro(preco: real, custo: Option<real>): (r: Lucro)
    ensures r == NaoDisponivel <==> custo == None || custo.value <= 0.0
    ensures r.Percentual? ==> r.valor * custo.value == (preco - custo.value) * 100.0
    ensures r.Percentual? ==> (r.valor > 0.0 <==> preco > custo.value)
    ensures r.Percentual? ==> (r.valor == 0.0 <==> preco == custo.value)
  {
    if custo == None || custo.value <= 0.0 then NaoDisponivel
    else Percentual((preco - custo.value) / custo.value * 100.0)
  }

  /** The selector of the product table's name filter. */
  function NomeContem(filtroNome: string): Produto -> bool {
    (p: Produto) => Includes(Lower(p.nome), Lower(filtroNome))
  }

  /** The rows of the product table: the products whose name contains the filter, ignoring case, in list order. */
  function ProdutosListados(ps: seq<Produto>, filtroNome: string): (r: seq<Produto>)
    ensures forall i :: 0 <= i < |r| ==> r[i] in ps && Includes(Lower(r[i].nome), Lower(filtroNome))
    ensures forall i :: 0 <= i < |ps| && Includes(Lower(ps[i].nome), Lower(filtroNome)) ==> ps[i] in r
  {
    Filter(ps, NomeContem(filtroNome))
  }

  /** The sort key of `sort((a, b) => b.data - a.data)`: newest first. */
  function MaisRecentePrimeiro(t: Transacao): real {
    -(t.data as real)
  }

  /** The movements of one product, newest first. */
  function Ordenadas(ts: seq<Transacao>, produtoId: int): (r: seq<Transacao>)
    ensures multiset(r) == multiset(DoProduto(ts, produtoId))
    ensures |r| == |DoProduto(ts, produtoId)|
    ensures forall i, j :: 0 <= i < j < |r| ==> r[i].data >= r[j].data
  {
    var s := DoProduto(ts, produtoId);
    SortByPermutes(s, MaisRecentePrimeiro);
    SortBySorted(s, MaisRecentePrimeiro);
    assert |SortBy(s, MaisRecentePrimeiro)| == |multiset(SortBy(s, MaisRecentePrimeiro))|;
    SortBy(s, MaisRecentePrimeiro)
  }

  /** The type column of a history row. */
  datatype Tipo = Saida | Entrada

  /** The text the type column shows. */
  function TextoTipo(t: Tipo): string {
    match t
    case Saida => "S"
    case Entrada => "E"
  }

  /** The description column of a history row. */
  datatype Descricao = VendaDeMercadoria | CompraParaRevenda

  /** The text the description column shows. */
  function TextoDescricao(d: Descricao): string {
    match d
    case VendaDeMercadoria => "Venda de mercadoria"
    case CompraParaRevenda => "Compra de mercadoria para revenda"
  }

  /** One row of the history table. */
  datatype Linha = Linha(
    id: string,
    data: int,
    tipo: Tipo,
    descricao: Descricao,
    quantidade: int,
    estoqueAnterior: int,
    estoqueAtual: int)

  function Abs(x: int): int {
    if x < 0 then -x else x
  }

  /** The type column: "S" (stock out) for a negative quantity, "E" (stock in) otherwise. */
  function TipoDe(quantidade: int): Tipo {
    if quantidade < 0 then Saida else Entrada
  }

  /** The description column: a sale for a negative quantity, a purchase for resale otherwise. */
  function DescricaoDe(quantidade: int): Descricao {
    if quantidade < 0 then VendaDeMercadoria else CompraParaRevenda
  }

  /** The row of movement `t` when the older movements add up to `anterior`. */
  function ParaLinha(t: Transacao, anterior: int): Linha {
    Linha(
      t.id,
      t.data,
      TipoDe(t.quantidade),
      DescricaoDe(t.quantidade),
      Abs(t.quantidade),
      anterior,
      anterior + t.quantidade)
  }

  /** The signed quantity a row stands for: its displayed quantity, negated for an "S" row. */
  function Movimento(l: Linha): int {
    if l.tipo == Saida then -l.quantidade else l.quantidade
  }

  /**
   * Row `l` shows movement `t`: same id and time, "S" with the sale text for stock
   * out and "E" with the purchase text otherwise, the absolute quantity.
   */
  predicate Mostra(l: Linha, t: Transacao) {
    && l.id == t.id
    && l.data == t.data
    && l.tipo == TipoDe(t.quantidade)
    && l.descricao == DescricaoDe(t.quantidade)
    && l.quantidade == Abs(t.quantidade)
    && Movimento(l) == t.quantidade
  }

  /** The row built for a movement shows it, and its stock moves by the movement's signed quantity. */
  lemma ParaLinhaMostra(t: Transacao, anterior: int)
    ensures Mostra(ParaLinha(t, anterior), t)
    ensures ParaLinha(t, anterior).estoqueAnterior == anterior
    ensures ParaLinha(t, anterior).estoqueAtual == anterior + Movimento(ParaLinha(t, anterior))
  {
  }

  /** The rows of movements `o`, newest first: each row's previous stock is the sum of the movements after it. */
  function Linhas(o: seq<Transacao>): (rows: seq<Linha>)
    ensures |rows| == |o|
    ensures forall i :: 0 <= i < |o| ==> Mostra(rows[i], o[i]) && rows[i].estoqueAnterior == Saldo(o[i + 1..])
    ensures forall i :: 0 <= i < |o| ==> rows[i].estoqueAtual == rows[i].estoqueAnterior + Movimento(rows[i])
  {
    if o == [] then []
    else
      ParaLinhaMostra(o[0], Saldo(o[1..]));
      var resto := Linhas(o[1..]);
      assert forall i :: 1 <= i < |o| ==> o[1..][i - 1] == o[i] && o[1..][i - 1 + 1..] == o[i + 1..];
      [ParaLinha(o[0], Saldo(o[1..]))] + resto
  }

  /** The row below row `i` ends at the stock row `i` starts from. */
  lemma LinhaSeguinte(o: seq<Transacao>, i: int)
    requires 0 <= i < |o| - 1
    ensures Linhas(o)[i + 1].estoqueAtual == Linhas(o)[i].estoqueAnterior
  {
    var rows := Linhas(o);
    assert o[i + 1..][1..] == o[i + 2..];
    assert rows[i].estoqueAnterior == o[i + 1].quantidade + Saldo(o[i + 2..]);
  }

  /**
   * Rows built from movements sorted newest first are sorted the same way, each
   * row's current stock is the previous stock of the row above, and the oldest row starts at 0.
   */
  lemma LinhasEncadeadas(o: seq<Transacao>)
    requires forall i, j :: 0 <= i < j < |o| ==> o[i].data >= o[j].data
    ensures forall i, j :: 0 <= i < j < |o| ==> Linhas(o)[i].data >= Linhas(o)[j].data
    ensures forall i :: 0 <= i < |o| - 1 ==> Linhas(o)[i + 1].estoqueAtual == Linhas(o)[i].estoqueAnterior
    ensures |o| > 0 ==> Linhas(o)[|o| - 1].estoqueAnterior == 0
  {
    var rows := Linhas(o);
    assert |o| > 0 ==> o[|o|..] == [];
    forall i | 0 <= i < |o| - 1 {
      LinhaSeguinte(o, i);
    }
    assert forall i :: 0 <= i < |o| ==> rows[i].data == o[i].data;
  }

  /** `historico`: one row per movement of the selected product, newest first, with running stock levels. */
  function Historico(ts: seq<Transacao>, selecionado: Option<int>): (rows: seq<Linha>)
    ensures selecionado == None ==> rows == []
    ensures selecionado != None ==> |rows| == |DoProduto(ts, selecionado.value)|
    ensures selecionado != None ==>
              forall i :: 0 <= i < |rows| ==> Mostra(rows[i], Ordenadas(ts, selecionado.value)[i])
    ensures forall i, j :: 0 <= i < j < |rows| ==> rows[i].data >= rows[j].data
    ensures forall i :: 0 <= i < |rows| ==> rows[i].estoqueAtual == rows[i].estoqueAnterior + Movimento(rows[i])
    ensures forall i :: 0 <= i < |rows| - 1 ==> rows[i + 1].estoqueAtual == rows[i].estoqueAnterior
    ensures |rows| > 0 ==> rows[|rows| - 1].estoqueAnterior == 0
  {
    match selecionado
    case None => []
    case Some(produtoId) =>
      var o := Ordenadas(ts, produtoId);
      LinhasEncadeadas(o);
      Linhas(o)
  }

  /** The sum of the signed quantities of some rows. */
  function SaldoLinhas(rows: seq<Linha>): int {
    if rows == [] then 0 else Movimento(rows[0]) + SaldoLinhas(rows[1..])
  }

  /** Each row's previous stock is what the rows below it (the older movements) add up to. */
  lemma {:induction false} HistoricoEstoqueAnterior(ts: seq<Transacao>, selecionado: Option<int>, i: int)
    requires 0 <= i < |Historico(ts, selecionado)|
    ensures Historico(ts, selecionado)[i].estoqueAnterior == SaldoLinhas(Historico(ts, selecionado)[i + 1..])
    decreases |Historico(ts, selecionado)| - i
  {
    var rows := Historico(ts, selecionado);
    if i == |rows| - 1 {
      assert rows[i + 1..] == [];
    } else {
      HistoricoEstoqueAnterior(ts, selecionado, i + 1);
      assert rows[i + 1..][1..] == rows[i + 2..];
    }
  }

  lemma {:induction false} SaldoLinhasMostra(rows: seq<Linha>, o: seq<Transacao>)
    requires |rows| == |o|
    requires forall i :: 0 <= i < |o| ==> Mostra(rows[i], o[i])
    ensures SaldoLinhas(rows) == Saldo(o)
  {
    if rows != [] {
      SaldoLinhasMostra(rows[1..], o[1..]);
    }
  }

  /** The newest row's current stock is the sum of all movements of the product. */
  lemma HistoricoEstoqueAtual(ts: seq<Transacao>, produtoId: int)
    requires Historico(ts, Some(produtoId)) != []
    ensures Historico(ts, Some(produtoId))[0].estoqueAtual == Saldo(DoProduto(ts, produtoId))
  {
    var rows := Historico(ts, Some(produtoId));
    var o := Ordenadas(ts, produtoId);
    HistoricoEstoqueAnterior(ts, Some(produtoId), 0);
    assert rows == [rows[0]] + rows[1..];
    SaldoLinhasMostra(rows, o);
    SaldoSortBy(DoProduto(ts, produtoId), MaisRecentePrimeiro);
  }

  /** What the history tab shows. */
  datatype Vista = SemSelecao | NenhumaTransacao | Tabela(linhas: seq<Linha>)

  /** The history tab: nothing until a product is chosen, then the table, or the "no transaction" message. */
  function AbaHistorico(ts: seq<Transacao>, selecionado: Option<int>): (v: Vista)
    ensures v == SemSelecao <==> selecionado == None
    ensures v == NenhumaTransacao <==>
              selecionado != None && forall i :: 0 <= i < |ts| ==> ts[i].produtoId != selecionado.value
    ensures v.Tabela? ==> v.linhas == Historico(ts, selecionado) && v.linhas != []
  {
    match selecionado
    case None => SemSelecao
    case Some(produtoId) =>
      var h := Historico(ts, selecionado);
      assert |DoProduto(ts, produtoId)| > 0 ==> DoProduto(ts, produtoId)[0] in ts;
      if |h| > 0 then Tabela(h) else NenhumaTransacao
  }
}
