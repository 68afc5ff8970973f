/**
 * The stock-entry page: a supplier is chosen, lines (product name, quantity,
 * total paid) are collected in a pending batch, and registering the batch
 * restocks or creates the products and appends one ledger movement per line.
 */
module EntradaProdutos {
  import opened Text
  import opened Collections
  import opened Ledger

  /** The page's view of a stored product. */
  datatype Produto = Produto(id: int, nome: string, estoque: int, custo: real)

  datatype Fornecedor = Fornecedor(id: int, nome: string)

  /** One pending line of the batch. */
  datatype EntradaProduto = EntradaProduto(produtoNome: string, quantidade: int, valorTotal: real)

  /**
   * The id and clock values one line may consume when it is registered: the id
   * of the product it creates if its name is unknown, and its movement's id and timestamp.
   */
  datatype Novos = Novos(produtoId: int, transacaoId: string, data: int)

  /** Names compared as `a.toLowerCase() === b.toLowerCase()`. */
  predicate MesmoNome(a: string, b: string) {
    Lower(a) == Lower(b)
  }

  // ---------------------------------------------------------------------------
  // Suggestions and supplier selection

  function FornecedorContem(texto: string): Fornecedor -> bool {
    (f: Fornecedor) => Includes(Lower(f.nome), Lower(texto))
  }

  /** `fornecedoresSugeridos`: the suppliers whose name contains the typed text, ignoring case, in list order. */
  function FornecedoresSugeridos(fs: seq<Fornecedor>, texto: string): (r: seq<Fornecedor>)
    ensures forall i :: 0 <= i < |r| ==> r[i] in fs && Includes(Lower(r[i].nome), Lower(texto))
    ensures forall i :: 0 <= i < |fs| && Includes(Lower(fs[i].nome), Lower(texto)) ==> fs[i] in r
  {
    Filter(fs, FornecedorContem(texto))
  }

  function ProdutoContem(texto: string): Produto -> bool {
    (p: Produto) => Includes(Lower(p.nome), Lower(texto))
  }

  /** `produtosSugeridos`: the products whose name contains the typed text, ignoring case, in list order. */
  function ProdutosSugeridos(ps: seq<Produto>, texto: string): (r: seq<Produto>)
    ensures forall i :: 0 <= i < |r| ==> r[i] in ps && Includes(Lower(r[i].nome), Lower(texto))
    ensures forall i :: 0 <= i < |ps| && Includes(Lower(ps[i].nome), Lower(texto)) ==> ps[i] in r
  {
    Filter(ps, ProdutoContem(texto))
  }

  function FornecedorChamado(nome: string): Fornecedor -> bool {
    (f: Fornecedor) => f.nome == nome
  }

  /** `fornecedores.find(f => f.nome === nome) || null`: the first supplier with exactly that name. */
  function FornecedorPorNome(fs: seq<Fornecedor>, nome: string): (r: Option<Fornecedor>)
    ensures r == None <==> forall i :: 0 <= i < |fs| ==> fs[i].nome != nome
    ensures r != None ==> exists i :: 0 <= i < |fs| && fs[i] == r.value && PrimeiroChamado(fs, nome, i)
  {
    match FindFirst(fs, FornecedorChamado(nome))
    case None => None
    case Some(k) =>
      assert PrimeiroChamado(fs, nome, k);
      Some(fs[k])
  }

  /** Position `i` holds the first supplier named exactly `nome`. */
  predicate PrimeiroChamado(fs: seq<Fornecedor>, nome: string, i: int) {
    0 <= i < |fs| && fs[i].nome == nome && forall j :: 0 <= j < i ==> fs[j].nome != nome
  }

  // ---------------------------------------------------------------------------
  // Adding a line to the pending batch

  datatype ErroEntrada = NomeVazio | QuantidadeInvalida | ValorInvalido

  /**
   * The checks of `adicionarProdutoNaLista`, in their order. The quantity and
   * total fields are taken as already parsed; `None` is an empty field.
   */
  function ValidarEntrada(produtoInput: string, quantidade: Option<int>, valorTotal: Option<real>)
    : (r: Result<EntradaProduto, ErroEntrada>)
    ensures r == Err(NomeVazio) <==> forall k :: 0 <= k < |produtoInput| ==> IsSpace(produtoInput[k])
    ensures r == Err(QuantidadeInvalida) <==>
              Trim(produtoInput) != [] && (quantidade == None || quantidade.value <= 0)
    ensures r.Ok? <==>
              && Trim(produtoInput) != []
              && quantidade != None && quantidade.value > 0
              && valorTotal != None && valorTotal.value > 0.0
    ensures r.Ok? ==> r.value == EntradaProduto(Trim(produtoInput), quantidade.value, valorTotal.value)
  {
    TrimEmptyIffBlank(produtoInput);
    if Trim(produtoInput) == [] then Err(NomeVazio)
    else if quantidade == None || quantidade.value <= 0 then Err(QuantidadeInvalida)
    else if valorTotal == None || valorTotal.value <= 0.0 then Err(ValorInvalido)
    else Ok(EntradaProduto(Trim(produtoInput), quantidade.value, valorTotal.value))
  }

  /** What every line that reaches the pending batch satisfies. */
  predicate Aceitavel(e: EntradaProduto) {
    e.produtoNome != [] && e.quantidade > 0 && e.valorTotal > 0.0
  }

  /** A line that passed the checks keeps a list of such lines acceptable when it is appended. */
  lemma AceitaveisAnexadas(lista: seq<EntradaProduto>, e: EntradaProduto)
    requires forall i :: 0 <= i < |lista| ==> Aceitavel(lista[i])
    requires Aceitavel(e)
    ensures forall i :: 0 <= i < |lista + [e]| ==> Aceitavel((lista + [e])[i])
  {
  }

  // ---------------------------------------------------------------------------
  // Registering the batch: the specification of the loop of `registrarEntradas`

  function ComNome(nome: string): Produto -> bool {
    (p: Produto) => MesmoNome(p.nome, nome)
  }

  /** `prods.find(p => p.nome.toLowerCase() === nome.toLowerCase())`, as a position. */
  function Buscar(ps: seq<Produto>, nome: string): (r: Option<nat>)
    ensures r != None ==> r.value < |ps| && MesmoNome(ps[r.value].nome, nome)
                          && forall j :: 0 <= j < r.value ==> !MesmoNome(ps[j].nome, nome)
    ensures r == None ==> forall j :: 0 <= j < |ps| ==> !MesmoNome(ps[j].nome, nome)
  {
    FindFirst(ps, ComNome(nome))
  }

  /** No product before position `k` has the same name as `ps[k]`, ignoring case: `find` can reach it. */
  predicate Primeiro(ps: seq<Produto>, k: int)
    requires 0 <= k < |ps|
  {
    forall j :: 0 <= j < k ==> !MesmoNome(ps[j].nome, ps[k].nome)
  }

  /** The line's quantity added to the stock and the unit cost overwritten with total over quantity. */
  function Reabastecer(p: Produto, e: EntradaProduto): Produto
    requires e.quantidade > 0
  {
    p.(estoque := p.estoque + e.quantidade, custo := e.valorTotal / (e.quantidade as real))
  }

  /** One iteration: restock the first product with the line's name, or create it with stock 0 and cost 0. */
  function Aplicar(ps: seq<Produto>, e: EntradaProduto, novoId: int): seq<Produto>
    requires e.quantidade > 0
  {
    match Buscar(ps, e.produtoNome)
    case Some(k) => ps[k := Reabastecer(ps[k], e)]
    case None => ps + [Reabastecer(Produto(novoId, e.produtoNome, 0, 0.0), e)]
  }

  /** The id of the product one iteration restocks. */
  function Destino(ps: seq<Produto>, e: EntradaProduto, novoId: int): int {
    match Buscar(ps, e.produtoNome)
    case Some(k) => ps[k].id
    case None => novoId
  }

  predicate Positivas(es: seq<EntradaProduto>) {
    forall i :: 0 <= i < |es| ==> es[i].quantidade > 0
  }

  /** The product list after the lines `es` have been applied in order. */
  function AplicarLote(ps: seq<Produto>, es: seq<EntradaProduto>, novos: seq<Novos>): seq<Produto>
    requires |novos| == |es| && Positivas(es)
    decreases |es|
  {
    if es == [] then ps
    else
      var n := |es| - 1;
      Aplicar(AplicarLote(ps, es[..n], novos[..n]), es[n], novos[n].produtoId)
  }

  /** The movement line `i` appends: booked on the product that line finds or creates after the lines before it. */
  function Movimento(ps: seq<Produto>, es: seq<EntradaProduto>, novos: seq<Novos>, fornecedorId: int, i: int)
    : Transacao
    requires |novos| == |es| && Positivas(es) && 0 <= i < |es|
  {
    PositivasCorte(es, i);
    Transacao(novos[i].transacaoId, Destino(AplicarLote(ps, es[..i], novos[..i]), es[i], novos[i].produtoId),
              fornecedorId, es[i].quantidade, es[i].valorTotal, novos[i].data)
  }

  /** The movements the lines `es` append to the ledger: one per line, in the lines' order. */
  function TransacoesDoLote(ps: seq<Produto>, es: seq<EntradaProduto>, novos: seq<Novos>, fornecedorId: int)
    : (r: seq<Transacao>)
    requires |novos| == |es| && Positivas(es)
    ensures |r| == |es|
  {
    seq(|es|, i requires 0 <= i < |es| => Movimento(ps, es, novos, fornecedorId, i))
  }


  /** The ids collected in `novosIds`. */
  function IdsDasTransacoes(novos: seq<Novos>): (r: seq<string>)
    ensures |r| == |novos| && forall i :: 0 <= i < |novos| ==> r[i] == novos[i].transacaoId
  {
    seq(|novos|, i requires 0 <= i < |novos| => novos[i].transacaoId)
  }

  /** The total quantity of the lines whose name matches `nome`, ignoring case. */
  function SomaDoNome(es: seq<EntradaProduto>, nome: string): int
    decreases |es|
  {
    if es == [] then 0
    else
      var n := |es| - 1;
      SomaDoNome(es[..n], nome) + (if MesmoNome(es[n].produtoNome, nome) then es[n].quantidade else 0)
  }

  /** The position of the last line whose name matches `nome`, ignoring case. */
  function UltimaDoNome(es: seq<EntradaProduto>, nome: string): (r: Option<nat>)
    ensures r != None ==> r.value < |es| && MesmoNome(es[r.value].produtoNome, nome)
                          && forall j :: r.value < j < |es| ==> !MesmoNome(es[j].produtoNome, nome)
    ensures r == None ==> forall j :: 0 <= j < |es| ==> !MesmoNome(es[j].produtoNome, nome)
    decreases |es|
  {
    if es == [] then None
    else
      var n := |es| - 1;
      if MesmoNome(es[n].produtoNome, nome) then Some(n) else UltimaDoNome(es[..n], nome)
  }

  /** The stock a product had before the batch: its old stock, or 0 for a product the batch created. */
  function EstoqueAntes(ps: seq<Produto>, k: int): int {
    if 0 <= k < |ps| then ps[k].estoque else 0
  }

  // ---------------------------------------------------------------------------
  // Facts about the search and one iteration

  lemma BuscarAnexado(ps: seq<Produto>, x: Produto, nome: string)
    ensures Buscar(ps + [x], nome)
            == if Buscar(ps, nome) != None then Buscar(ps, nome)
               else if MesmoNome(x.nome, nome) then Some(|ps|) else None
  {
    var r := if Buscar(ps, nome) != None then Buscar(ps, nome)
             else if MesmoNome(x.nome, nome) then Some(|ps|) else None;
    assert IsFirst(ps + [x], ComNome(nome), r);
    FindFirstUnique(ps + [x], ComNome(nome), r);
  }

  lemma BuscarMesmosNomes(a: seq<Produto>, b: seq<Produto>, nome: string)
    requires |a| == |b| && forall i :: 0 <= i < |a| ==> a[i].nome == b[i].nome
    ensures Buscar(a, nome) == Buscar(b, nome)
  {
    assert IsFirst(b, ComNome(nome), Buscar(a, nome));
    FindFirstUnique(b, ComNome(nome), Buscar(a, nome));
  }

  lemma BuscarPrimeiro(ps: seq<Produto>, k: int, nome: string)
    requires 0 <= k < |ps| && Primeiro(ps, k) && MesmoNome(ps[k].nome, nome)
    ensures Buscar(ps, nome) == Some(k)
  {
    assert IsFirst(ps, ComNome(nome), Some(k));
    FindFirstUnique(ps, ComNome(nome), Some(k));
  }

  /** One iteration keeps every product's name, keeps the length or appends one product. */
  lemma AplicarNomes(ps: seq<Produto>, e: EntradaProduto, novoId: int)
    requires e.quantidade > 0
    ensures var r := Aplicar(ps, e, novoId);
            && (|r| == |ps| || |r| == |ps| + 1)
            && (forall k :: 0 <= k < |ps| ==> r[k].id == ps[k].id && r[k].nome == ps[k].nome)
            && (|r| == |ps| + 1 <==> Buscar(ps, e.produtoNome) == None)
            && (|r| == |ps| + 1 ==> r[|ps|].nome == e.produtoNome && r[|ps|].id == novoId)
  {
  }

  /** After one iteration the line's name is found at the product it restocked. */
  lemma BuscarAposAplicar(ps: seq<Produto>, e: EntradaProduto, novoId: int, nome: string)
    requires e.quantidade > 0
    ensures var r := Aplicar(ps, e, novoId);
            Buscar(r, nome)
            == if Buscar(ps, nome) != None then Buscar(ps, nome)
               else if MesmoNome(e.produtoNome, nome) then Some(|ps|) else None
  {
    var r := Aplicar(ps, e, novoId);
    match Buscar(ps, e.produtoNome)
    case Some(m) =>
      BuscarMesmosNomes(ps, r, nome);
    case None =>
      BuscarAnexado(ps, Reabastecer(Produto(novoId, e.produtoNome, 0, 0.0), e), nome);
  }

  lemma SomaSemCorrespondente(es: seq<EntradaProduto>, ps: seq<Produto>, nome: string)
    requires forall i :: 0 <= i < |es| ==> Buscar(ps, es[i].produtoNome) != None
    requires forall j :: 0 <= j < |ps| ==> !MesmoNome(ps[j].nome, nome)
    ensures SomaDoNome(es, nome) == 0 && UltimaDoNome(es, nome) == None
    decreases |es|
  {
    if es != [] {
      var n := |es| - 1;
      SomaSemCorrespondente(es[..n], ps, nome);
      var m := Buscar(ps, es[n].produtoNome).value;
      assert MesmoNome(ps[m].nome, es[n].produtoNome);
    }
  }

  // ---------------------------------------------------------------------------
  // What the batch does to the product list

  /** Old products keep their place, id and name; the batch only appends. */
  predicate Prefixo(ps: seq<Produto>, r: seq<Produto>) {
    |ps| <= |r| && forall k :: 0 <= k < |ps| ==> r[k].id == ps[k].id && r[k].nome == ps[k].nome
  }

  /** Every line's name now names a product. */
  predicate Cobertos(es: seq<EntradaProduto>, r: seq<Produto>) {
    forall i :: 0 <= i < |es| ==> Buscar(r, es[i].produtoNome) != None
  }

  /** A product `find` can reach gained exactly the quantities of the lines with its name. */
  predicate Estoques(ps: seq<Produto>, es: seq<EntradaProduto>, r: seq<Produto>) {
    forall k :: 0 <= k < |r| && Primeiro(r, k) ==>
      r[k].estoque == EstoqueAntes(ps, k) + SomaDoNome(es, r[k].nome)
  }

  /** A reachable product's unit cost is that of the last line with its name, or unchanged. */
  predicate Custos(ps: seq<Produto>, es: seq<EntradaProduto>, r: seq<Produto>)
    requires Positivas(es)
  {
    forall k :: 0 <= k < |r| && Primeiro(r, k) ==>
      match UltimaDoNome(es, r[k].nome)
      case Some(i) => r[k].custo == es[i].valorTotal / (es[i].quantidade as real)
      case None => k < |ps| && r[k].custo == ps[k].custo
  }

  /** A product hidden behind an earlier one with the same name is untouched. */
  predicate Ocultos(ps: seq<Produto>, r: seq<Produto>)
    requires |ps| <= |r|
  {
    forall k :: 0 <= k < |ps| && !Primeiro(ps, k) ==> r[k] == ps[k]
  }

  /** Created products are reachable and have names no old product has. */
  predicate Criados(ps: seq<Produto>, r: seq<Produto>) {
    forall k :: |ps| <= k < |r| ==>
      Primeiro(r, k) && forall j :: 0 <= j < |ps| ==> !MesmoNome(ps[j].nome, r[k].nome)
  }

  /** The product list `r` is what the lines `es` make of `ps`. */
  predicate Efeito(ps: seq<Produto>, es: seq<EntradaProduto>, r: seq<Produto>)
    requires Positivas(es)
  {
    Prefixo(ps, r) && Cobertos(es, r) && Estoques(ps, es, r) && Custos(ps, es, r)
    && Ocultos(ps, r) && Criados(ps, r)
  }

  /** What one more line adds to the sums and to the last positions by name. */
  lemma PassoDoLote(es: seq<EntradaProduto>, e: EntradaProduto, nome: string)
    ensures SomaDoNome(es + [e], nome)
            == SomaDoNome(es, nome) + (if MesmoNome(e.produtoNome, nome) then e.quantidade else 0)
    ensures UltimaDoNome(es + [e], nome)
            == if MesmoNome(e.produtoNome, nome) then Some(|es|) else UltimaDoNome(es, nome)
  {
    assert (es + [e])[..|es|] == es;
  }

  /** One iteration does not change which old positions `find` can reach. */
  lemma PrimeiroAposAplicar(r: seq<Produto>, e: EntradaProduto, novoId: int, k: int)
    requires e.quantidade > 0 && 0 <= k < |r|
    ensures 0 <= k < |Aplicar(r, e, novoId)|
    ensures Primeiro(Aplicar(r, e, novoId), k) <==> Primeiro(r, k)
  {
    AplicarNomes(r, e, novoId);
  }

  lemma PrefixoPasso(ps: seq<Produto>, r: seq<Produto>, e: EntradaProduto, novoId: int)
    requires e.quantidade > 0 && Prefixo(ps, r)
    ensures Prefixo(ps, Aplicar(r, e, novoId))
  {
    AplicarNomes(r, e, novoId);
  }

  lemma CobertosPasso(es: seq<EntradaProduto>, r: seq<Produto>, e: EntradaProduto, novoId: int)
    requires e.quantidade > 0 && Cobertos(es, r)
    ensures Cobertos(es + [e], Aplicar(r, e, novoId))
  {
    var es' := es + [e];
    forall i | 0 <= i < |es'| ensures Buscar(Aplicar(r, e, novoId), es'[i].produtoNome) != None {
      BuscarAposAplicar(r, e, novoId, es'[i].produtoNome);
    }
  }

  lemma EstoquesPasso(ps: seq<Produto>, es: seq<EntradaProduto>, r: seq<Produto>, e: EntradaProduto, novoId: int)
    requires e.quantidade > 0 && Prefixo(ps, r) && Cobertos(es, r) && Estoques(ps, es, r)
    ensures Estoques(ps, es + [e], Aplicar(r, e, novoId))
  {
    var r' := Aplicar(r, e, novoId);
    var es' := es + [e];
    AplicarNomes(r, e, novoId);
    forall k | 0 <= k < |r'| && Primeiro(r', k)
      ensures r'[k].estoque == EstoqueAntes(ps, k) + SomaDoNome(es', r'[k].nome)
    {
      PassoDoLote(es, e, r'[k].nome);
      if k < |r| {
        PrimeiroAposAplicar(r, e, novoId, k);
        if MesmoNome(e.produtoNome, r[k].nome) {
          BuscarPrimeiro(r, k, e.produtoNome);
        }
      } else {
        SomaSemCorrespondente(es, r, e.produtoNome);
      }
    }
  }

  lemma CustosPasso(ps: seq<Produto>, es: seq<EntradaProduto>, r: seq<Produto>, e: EntradaProduto, novoId: int)
    requires Positivas(es) && e.quantidade > 0 && Prefixo(ps, r) && Cobertos(es, r) && Custos(ps, es, r)
    ensures Positivas(es + [e]) && Custos(ps, es + [e], Aplicar(r, e, novoId))
  {
    var r' := Aplicar(r, e, novoId);
    var es' := es + [e];
    AplicarNomes(r, e, novoId);
    forall k | 0 <= k < |r'| && Primeiro(r', k)
      ensures match UltimaDoNome(es', r'[k].nome)
              case Some(i) => r'[k].custo == es'[i].valorTotal / (es'[i].quantidade as real)
              case None => k < |ps| && r'[k].custo == ps[k].custo
    {
      PassoDoLote(es, e, r'[k].nome);
      if k < |r| {
        PrimeiroAposAplicar(r, e, novoId, k);
        if MesmoNome(e.produtoNome, r[k].nome) {
          BuscarPrimeiro(r, k, e.produtoNome);
        }
      } else {
        SomaSemCorrespondente(es, r, e.produtoNome);
      }
    }
  }

  lemma OcultosPasso(ps: seq<Produto>, r: seq<Produto>, e: EntradaProduto, novoId: int)
    requires e.quantidade > 0 && Prefixo(ps, r) && Ocultos(ps, r)
    ensures |ps| <= |Aplicar(r, e, novoId)| && Ocultos(ps, Aplicar(r, e, novoId))
  {
    var r' := Aplicar(r, e, novoId);
    AplicarNomes(r, e, novoId);
    forall k | 0 <= k < |ps| && !Primeiro(ps, k) ensures r'[k] == ps[k] {
      match Buscar(r, e.produtoNome)
      case Some(m) =>
        assert Primeiro(r, m);
      case None =>
    }
  }

  lemma CriadosPasso(ps: seq<Produto>, r: seq<Produto>, e: EntradaProduto, novoId: int)
    requires e.quantidade > 0 && Prefixo(ps, r) && Criados(ps, r)
    ensures Criados(ps, Aplicar(r, e, novoId))
  {
    var r' := Aplicar(r, e, novoId);
    AplicarNomes(r, e, novoId);
    forall k | |ps| <= k < |r'|
      ensures Primeiro(r', k) && forall j :: 0 <= j < |ps| ==> !MesmoNome(ps[j].nome, r'[k].nome)
    {
      if k < |r| {
        PrimeiroAposAplicar(r, e, novoId, k);
      } else {
        forall j | 0 <= j < |ps| ensures !MesmoNome(ps[j].nome, r'[k].nome) {
          assert r[j].nome == ps[j].nome;
        }
      }
    }
  }

  /** The batch has the effect `Efeito` describes. */
  lemma {:induction false} AplicarLoteEfeito(ps: seq<Produto>, es: seq<EntradaProduto>, novos: seq<Novos>)
    requires |novos| == |es| && Positivas(es)
    ensures Efeito(ps, es, AplicarLote(ps, es, novos))
    decreases |es|
  {
    if es != [] {
      var n := |es| - 1;
      var es0 := es[..n];
      var r := AplicarLote(ps, es0, novos[..n]);
      var e := es[n];
      var id := novos[n].produtoId;
      assert es0 + [e] == es;
      AplicarLoteEfeito(ps, es0, novos[..n]);
      PrefixoPasso(ps, r, e, id);
      CobertosPasso(es0, r, e, id);
      EstoquesPasso(ps, es0, r, e, id);
      CustosPasso(ps, es0, r, e, id);
      OcultosPasso(ps, r, e, id);
      CriadosPasso(ps, r, e, id);
    }
  }

  // ---------------------------------------------------------------------------
  // What the batch appends to the ledger


  lemma PositivasConcat(a: seq<EntradaProduto>, b: seq<EntradaProduto>)
    requires Positivas(a) && Positivas(b)
    ensures Positivas(a + b)
  {
    forall i | 0 <= i < |a + b| ensures (a + b)[i].quantidade > 0 {
      if i >= |a| {
        assert (a + b)[i] == b[i - |a|];
      }
    }
  }

  /** The lines before and after any cut of a batch of positive lines are positive too. */
  lemma PositivasCorte(es: seq<EntradaProduto>, i: int)
    requires Positivas(es) && 0 <= i <= |es|
    ensures Positivas(es[..i]) && Positivas(es[i..])
  {
    forall j | 0 <= j < |es| - i ensures es[i..][j].quantidade > 0 {
      assert es[i..][j] == es[i + j];
    }
  }

  /** A batch with one more line at its end: one more iteration of the loop. */
  lemma LoteAnexado(ps: seq<Produto>, es: seq<EntradaProduto>, e: EntradaProduto, novos: seq<Novos>, novo: Novos)
    requires |novos| == |es| && Positivas(es) && e.quantidade > 0
    ensures Positivas(es + [e])
    ensures AplicarLote(ps, es + [e], novos + [novo]) == Aplicar(AplicarLote(ps, es, novos), e, novo.produtoId)
  {
    PositivasConcat(es, [e]);
    assert (es + [e])[..|es|] == es;
    assert (novos + [novo])[..|es|] == novos;
  }

  /** Registering two batches one after the other leaves the products as registering their concatenation. */
  lemma {:induction false} AplicarLoteConcat(ps: seq<Produto>, a: seq<EntradaProduto>, b: seq<EntradaProduto>,
                                             na: seq<Novos>, nb: seq<Novos>)
    requires |na| == |a| && |nb| == |b| && Positivas(a) && Positivas(b)
    ensures Positivas(a + b)
    ensures AplicarLote(ps, a + b, na + nb) == AplicarLote(AplicarLote(ps, a, na), b, nb)
    decreases |b|
  {
    PositivasConcat(a, b);
    if b == [] {
      assert a + b == a;
      assert na + nb == na;
    } else {
      var n := |b| - 1;
      var b0, nb0 := b[..n], nb[..n];
      assert b == b0 + [b[n]] && nb == nb0 + [nb[n]];
      assert a + b == (a + b0) + [b[n]] && na + nb == (na + nb0) + [nb[n]];
      PositivasCorte(b, n);
      PositivasConcat(a, b0);
      AplicarLoteConcat(ps, a, b0, na, nb0);
      LoteAnexado(ps, a + b0, b[n], na + nb0, nb[n]);
      LoteAnexado(AplicarLote(ps, a, na), b0, b[n], nb0, nb[n]);
    }
  }


  /** After its own iteration, a line's name leads to the product that iteration restocked. */
  lemma DestinoEncontrado(r: seq<Produto>, e: EntradaProduto, novoId: int)
    requires e.quantidade > 0
    ensures var k := Buscar(Aplicar(r, e, novoId), e.produtoNome);
            k != None && Aplicar(r, e, novoId)[k.value].id == Destino(r, e, novoId)
  {
    BuscarAposAplicar(r, e, novoId, e.produtoNome);
    AplicarNomes(r, e, novoId);
  }

  /** Once a name is found, later lines keep it at the same product, with the same id. */
  lemma {:induction false} BuscarPersiste(r: seq<Produto>, es: seq<EntradaProduto>, novos: seq<Novos>,
                                          nome: string, k: nat)
    requires |novos| == |es| && Positivas(es) && Buscar(r, nome) == Some(k)
    ensures Buscar(AplicarLote(r, es, novos), nome) == Some(k)
    ensures AplicarLote(r, es, novos)[k].id == r[k].id
    decreases |es|
  {
    if es != [] {
      var n := |es| - 1;
      BuscarPersiste(r, es[..n], novos[..n], nome, k);
      var s := AplicarLote(r, es[..n], novos[..n]);
      BuscarAposAplicar(s, es[n], novos[n].produtoId, nome);
      AplicarNomes(s, es[n], novos[n].produtoId);
    }
  }


  /**
   * The batch splits after line `i`: the final products are what the remaining
   * lines make of the products after line `i`.
   */
  lemma LoteCortado(ps: seq<Produto>, es: seq<EntradaProduto>, novos: seq<Novos>, i: int)
    requires |novos| == |es| && Positivas(es) && 0 <= i < |es|
    ensures Positivas(es[..i + 1]) && Positivas(es[i + 1..])
    ensures AplicarLote(ps, es, novos)
            == AplicarLote(AplicarLote(ps, es[..i + 1], novos[..i + 1]), es[i + 1..], novos[i + 1..])
  {
    var a, b := es[..i + 1], es[i + 1..];
    var na, nb := novos[..i + 1], novos[i + 1..];
    assert a + b == es;
    assert na + nb == novos;
    PositivasCorte(es, i + 1);
    AplicarLoteConcat(ps, a, b, na, nb);
  }

  /**
   * The `i`-th new movement carries the `i`-th line's quantity and total, the
   * selected supplier and the `i`-th fresh id and time, and is booked against the
   * product that the line's name leads to once the batch is done.
   */
  lemma TransacaoDaEntrada(ps: seq<Produto>, es: seq<EntradaProduto>, novos: seq<Novos>, fornecedorId: int, i: int)
    requires |novos| == |es| && Positivas(es) && 0 <= i < |es|
    ensures |TransacoesDoLote(ps, es, novos, fornecedorId)| == |es|
    ensures var t := TransacoesDoLote(ps, es, novos, fornecedorId)[i];
            var fim := AplicarLote(ps, es, novos);
            && t.id == novos[i].transacaoId
            && t.fornecedorId == fornecedorId
            && t.quantidade == es[i].quantidade && t.quantidade > 0
            && t.valorTotal == es[i].valorTotal
            && t.data == novos[i].data
            && Buscar(fim, es[i].produtoNome) != None
            && t.produtoId == fim[Buscar(fim, es[i].produtoNome).value].id
  {
    LoteCortado(ps, es, novos, i);
    LotePasso(ps, es, novos, fornecedorId, i);
    var antes := AplicarLote(ps, es[..i], novos[..i]);
    var depois := AplicarLote(ps, es[..i + 1], novos[..i + 1]);
    DestinoEncontrado(antes, es[i], novos[i].produtoId);
    var k := Buscar(depois, es[i].produtoNome).value;
    BuscarPersiste(depois, es[i + 1..], novos[i + 1..], es[i].produtoNome, k);
  }

  /** One more line extends the batch's products by one iteration. */
  lemma LotePassoProdutos(ps: seq<Produto>, es: seq<EntradaProduto>, novos: seq<Novos>, i: int)
    requires |novos| == |es| && Positivas(es) && 0 <= i < |es|
    ensures Positivas(es[..i]) && Positivas(es[..i + 1])
    ensures AplicarLote(ps, es[..i + 1], novos[..i + 1])
            == Aplicar(AplicarLote(ps, es[..i], novos[..i]), es[i], novos[i].produtoId)
  {
    PositivasCorte(es, i);
    PositivasCorte(es, i + 1);
    assert es[..i + 1][..i] == es[..i] && novos[..i + 1][..i] == novos[..i];
  }

  /** One more line appends its movement to the batch's movements. */
  lemma LotePassoTransacoes(ps: seq<Produto>, es: seq<EntradaProduto>, novos: seq<Novos>, fornecedorId: int, i: int)
    requires |novos| == |es| && Positivas(es) && 0 <= i < |es|
    ensures Positivas(es[..i]) && Positivas(es[..i + 1])
    ensures TransacoesDoLote(ps, es[..i + 1], novos[..i + 1], fornecedorId)
            == TransacoesDoLote(ps, es[..i], novos[..i], fornecedorId) + [Movimento(ps, es, novos, fornecedorId, i)]
  {
    PositivasCorte(es, i);
    PositivasCorte(es, i + 1);
    var x := TransacoesDoLote(ps, es[..i + 1], novos[..i + 1], fornecedorId);
    var y := TransacoesDoLote(ps, es[..i], novos[..i], fornecedorId);
    forall j | 0 <= j < i + 1 ensures x[j] == (y + [Movimento(ps, es, novos, fornecedorId, i)])[j] {
      MovimentoPrefixo(ps, es, novos, fornecedorId, i + 1, j);
      if j < i {
        MovimentoPrefixo(ps, es, novos, fornecedorId, i, j);
      }
    }
  }

  /** One more line extends the batch's products, movements and ids by one iteration. */
  lemma LotePasso(ps: seq<Produto>, es: seq<EntradaProduto>, novos: seq<Novos>, fornecedorId: int, i: int)
    requires |novos| == |es| && Positivas(es) && 0 <= i < |es|
    ensures AplicarLote(ps, es[..i + 1], novos[..i + 1])
            == Aplicar(AplicarLote(ps, es[..i], novos[..i]), es[i], novos[i].produtoId)
    ensures TransacoesDoLote(ps, es[..i + 1], novos[..i + 1], fornecedorId)
            == TransacoesDoLote(ps, es[..i], novos[..i], fornecedorId)
               + [Transacao(novos[i].transacaoId,
                            Destino(AplicarLote(ps, es[..i], novos[..i]), es[i], novos[i].produtoId),
                            fornecedorId, es[i].quantidade, es[i].valorTotal, novos[i].data)]
    ensures IdsDasTransacoes(novos[..i + 1]) == IdsDasTransacoes(novos[..i]) + [novos[i].transacaoId]
  {
    LotePassoProdutos(ps, es, novos, i);
    LotePassoTransacoes(ps, es, novos, fornecedorId, i);
    assert novos[..i + 1][..i] == novos[..i];
  }

  /** A line's movement is the same in the whole batch and in any prefix that contains it. */
  lemma MovimentoPrefixo(ps: seq<Produto>, es: seq<EntradaProduto>, novos: seq<Novos>, fornecedorId: int,
                         n: int, j: int)
    requires |novos| == |es| && Positivas(es) && 0 <= j < n <= |es|
    ensures Positivas(es[..n])
    ensures Movimento(ps, es[..n], novos[..n], fornecedorId, j) == Movimento(ps, es, novos, fornecedorId, j)
  {
    PositivasCorte(es, n);
    assert es[..n][..j] == es[..j] && novos[..n][..j] == novos[..j];
    assert es[..n][j] == es[j] && novos[..n][j] == novos[j];
  }

  /** The body of the loop of `registrarEntradas`: one line restocks its product and yields its movement. */
  method Iteracao(prods: seq<Produto>, entrada: EntradaProduto, novo: Novos, fornecedorId: int)
    returns (r: seq<Produto>, t: Transacao)
    requires entrada.quantidade > 0
    ensures r == Aplicar(prods, entrada, novo.produtoId)
    ensures t == Transacao(novo.transacaoId, Destino(prods, entrada, novo.produtoId), fornecedorId,
                           entrada.quantidade, entrada.valorTotal, novo.data)
  {
    r := prods;
    var achado := Buscar(r, entrada.produtoNome);
    var k: nat;
    if achado == None {
      r := r + [Produto(novo.produtoId, entrada.produtoNome, 0, 0.0)];
      k := |r| - 1;
    } else {
      k := achado.value;
    }
    r := r[k := r[k].(estoque := r[k].estoque + entrada.quantidade,
                      custo := entrada.valorTotal / (entrada.quantidade as real))];
    t := Transacao(novo.transacaoId, r[k].id, fornecedorId, entrada.quantidade, entrada.valorTotal, novo.data);
  }

  /**
   * The loop of `registrarEntradas` over the pending lines: it returns the new
   * product list, the ledger with the new movements appended, and the new movement ids.
   */
  method Lancar(produtos: seq<Produto>, transacoes: seq<Transacao>, lista: seq<EntradaProduto>,
                novos: seq<Novos>, fornecedorId: int)
    returns (prods: seq<Produto>, ts: seq<Transacao>, novosIds: seq<string>)
    requires |novos| == |lista| && Positivas(lista)
    ensures prods == AplicarLote(produtos, lista, novos)
    ensures ts == transacoes + TransacoesDoLote(produtos, lista, novos, fornecedorId)
    ensures novosIds == IdsDasTransacoes(novos)
  {
    prods := produtos;
    ts := transacoes;
    novosIds := [];
    var i := 0;
    while i < |lista|
      invariant 0 <= i <= |lista|
      invariant prods == AplicarLote(produtos, lista[..i], novos[..i])
      invariant ts == transacoes + TransacoesDoLote(produtos, lista[..i], novos[..i], fornecedorId)
      invariant novosIds == IdsDasTransacoes(novos[..i])
    {
      LotePasso(produtos, lista, novos, fornecedorId, i);
      var t;
      prods, t := Iteracao(prods, lista[i], novos[i], fornecedorId);
      ts := ts + [t];
      novosIds := novosIds + [novos[i].transacaoId];
      i := i + 1;
    }
    assert lista[..i] == lista && novos[..i] == novos;
  }

  // ---------------------------------------------------------------------------
  // The stock field of a product the catalogue page registered

  /**
   * What a product's `estoque` holds as a JavaScript value: a number, nothing
   * (the catalogue page saves products without the field), NaN, or `null`.
   */
  datatype ValorJs = Numero(v: int) | Indefinido | NaoNumero | Nulo

  /** `estoque + q` in JavaScript: `undefined` and NaN give NaN, `null` counts as 0. */
  function SomaJs(a: ValorJs, q: int): ValorJs {
    match a
    case Numero(v) => Numero(v + q)
    case Nulo => Numero(q)
    case _ => NaoNumero
  }

  /** Saving with `JSON.stringify` and reading back: NaN comes back as `null`. */
  function ArmazenadoJson(a: ValorJs): ValorJs {
    if a == NaoNumero then Nulo else a
  }

  /** The sum of some quantities. */
  function SomaQuantidades(qs: seq<int>): int {
    if qs == [] then 0 else qs[0] + SomaQuantidades(qs[1..])
  }

  /** The sum of the quantities of several batches. */
  function SomaLotes(lotes: seq<seq<int>>): int {
    if lotes == [] then 0 else SomaQuantidades(lotes[0]) + SomaLotes(lotes[1..])
  }

  /** One batch's lines for the product, each running `produto.estoque += quantidade`, as written. */
  function SomarLinhasJs(a: ValorJs, qs: seq<int>): ValorJs
    decreases |qs|
  {
    if qs == [] then a else SomarLinhasJs(SomaJs(a, qs[0]), qs[1..])
  }

  /** The stored stock after several registered batches, each saved and read back, as written. */
  function EstoqueComoEscrito(a: ValorJs, lotes: seq<seq<int>>): ValorJs
    decreases |lotes|
  {
    if lotes == [] then a else EstoqueComoEscrito(ArmazenadoJson(SomarLinhasJs(a, lotes[0])), lotes[1..])
  }

  lemma {:induction false} SomarLinhasNaoNumero(qs: seq<int>)
    ensures SomarLinhasJs(NaoNumero, qs) == NaoNumero
  {
    if qs != [] {
      SomarLinhasNaoNumero(qs[1..]);
    }
  }

  lemma {:induction false} SomarLinhasNumero(v: int, qs: seq<int>)
    ensures SomarLinhasJs(Numero(v), qs) == Numero(v + SomaQuantidades(qs))
    decreases |qs|
  {
    if qs != [] {
      SomarLinhasNumero(v + qs[0], qs[1..]);
    }
  }

  lemma {:induction false} EstoqueNumero(v: int, lotes: seq<seq<int>>)
    ensures EstoqueComoEscrito(Numero(v), lotes) == Numero(v + SomaLotes(lotes))
    decreases |lotes|
  {
    if lotes != [] {
      SomarLinhasNumero(v, lotes[0]);
      EstoqueNumero(v + SomaQuantidades(lotes[0]), lotes[1..]);
    }
  }

  /**
   * A product registered on the catalogue page and then restocked batch after
   * batch, with the page reopened between the batches, loses everything its
   * first batch brought: that batch leaves NaN, which is stored as `null` and read
   * back as `null`, and the count starts again from the second batch.
   */
  lemma EstoquePerdeOPrimeiroLote(lotes: seq<seq<int>>)
    requires |lotes| >= 2 && lotes[0] != [] && lotes[1] != []
    ensures EstoqueComoEscrito(Indefinido, lotes) == Numero(SomaLotes(lotes[1..]))
    ensures SomaLotes(lotes) == SomaQuantidades(lotes[0]) + SomaLotes(lotes[1..])
  {
    var l0, l1 := lotes[0], lotes[1];
    SomarLinhasNaoNumero(l0[1..]);
    assert EstoqueComoEscrito(Indefinido, lotes) == EstoqueComoEscrito(Nulo, lotes[1..]);
    SomarLinhasNumero(l1[0], l1[1..]);
    assert SomarLinhasJs(Nulo, l1) == Numero(SomaQuantidades(l1));
    EstoqueNumero(SomaQuantidades(l1), lotes[2..]);
    assert lotes[1..][1..] == lotes[2..];
  }

  /**
   * Within one visit the page keeps the product objects of its state, so the
   * NaN the first batch leaves stays NaN through the second batch, and both
   * stores write `null`: the count never starts again until the page is reopened.
   */
  lemma EstoqueNaMesmaVisita(l0: seq<int>, l1: seq<int>)
    requires l0 != []
    ensures SomarLinhasJs(Indefinido, l0) == NaoNumero
    ensures ArmazenadoJson(SomarLinhasJs(SomarLinhasJs(Indefinido, l0), l1)) == Nulo
  {
    SomarLinhasNaoNumero(l0[1..]);
    SomarLinhasNaoNumero(l1);
  }

  /** A stock that is not a number counts as 0: `(produto.estoque || 0) + quantidade`. */
  function ValorOuZero(a: ValorJs): int {
    if a.Numero? then a.v else 0
  }

  /** One batch's lines for the product with a missing stock counted as 0. */
  function SomarLinhasCorrigido(a: ValorJs, qs: seq<int>): ValorJs
    decreases |qs|
  {
    if qs == [] then a else SomarLinhasCorrigido(Numero(ValorOuZero(a) + qs[0]), qs[1..])
  }

  /** The stored stock after several batches, with a missing stock counted as 0. */
  function EstoqueCorrigido(a: ValorJs, lotes: seq<seq<int>>): ValorJs
    decreases |lotes|
  {
    if lotes == [] then a else EstoqueCorrigido(ArmazenadoJson(SomarLinhasCorrigido(a, lotes[0])), lotes[1..])
  }

  lemma {:induction false} SomarLinhasCorrigidoSoma(a: ValorJs, qs: seq<int>)
    ensures ValorOuZero(SomarLinhasCorrigido(a, qs)) == ValorOuZero(a) + SomaQuantidades(qs)
    ensures SomarLinhasCorrigido(a, qs) != NaoNumero || (qs == [] && a == NaoNumero)
    decreases |qs|
  {
    if qs != [] {
      SomarLinhasCorrigidoSoma(Numero(ValorOuZero(a) + qs[0]), qs[1..]);
    }
  }

  /** With a missing stock counted as 0, the stored stock is the old stock plus every batch's quantities. */
  lemma {:induction false} EstoqueCorrigidoConserva(a: ValorJs, lotes: seq<seq<int>>)
    ensures ValorOuZero(EstoqueCorrigido(a, lotes)) == ValorOuZero(a) + SomaLotes(lotes)
    decreases |lotes|
  {
    if lotes != [] {
      SomarLinhasCorrigidoSoma(a, lotes[0]);
      EstoqueCorrigidoConserva(ArmazenadoJson(SomarLinhasCorrigido(a, lotes[0])), lotes[1..]);
    }
  }

  // ---------------------------------------------------------------------------
  // The page

  datatype ErroRegistro = SemFornecedor | ListaVazia

  const Gravado: string := "Documento gravado com sucesso!"

  /** The page's state: the stored lists, the form fields and the pending batch. */
  class EntradaEstoque {
    var produtos: seq<Produto>
    var fornecedores: seq<Fornecedor>
    /** The ledger as stored; `registrarEntradas` reads it back and appends to it. */
    var transacoes: seq<Transacao>
    var fornecedorInput: string
    var fornecedorSelecionado: Option<Fornecedor>
    var produtoInput: string
    /** The parsed quantity field; `None` is an empty field. */
    var quantidadeInput: Option<int>
    /** The parsed total field; `None` is an empty field. */
    var valorTotalInput: Option<real>
    var listaEntradaProdutos: seq<EntradaProduto>
    var mensagem: string
    var ultimasTransacoesIds: seq<string>

    /** Every pending line passed the checks of `adicionarProdutoNaLista`. */
    ghost predicate Valid()
      reads this
    {
      forall i :: 0 <= i < |listaEntradaProdutos| ==> Aceitavel(listaEntradaProdutos[i])
    }

    /** The page as it opens: the stored lists loaded, every field empty. */
    constructor (produtos: seq<Produto>, fornecedores: seq<Fornecedor>, transacoes: seq<Transacao>)
      ensures Valid()
      ensures this.produtos == produtos && this.fornecedores == fornecedores && this.transacoes == transacoes
      ensures fornecedorInput == "" && fornecedorSelecionado == None
      ensures produtoInput == "" && quantidadeInput == None && valorTotalInput == None
      ensures listaEntradaProdutos == [] && mensagem == "" && ultimasTransacoesIds == []
    {
      this.produtos := produtos;
      this.fornecedores := fornecedores;
      this.transacoes := transacoes;
      fornecedorInput := "";
      fornecedorSelecionado := None;
      produtoInput := "";
      quantidadeInput := None;
      valorTotalInput := None;
      listaEntradaProdutos := [];
      mensagem := "";
      ultimasTransacoesIds := [];
    }

    /** `selecionarFornecedor(nome)`: the text becomes the name and the selection the first supplier with it. */
    method SelecionarFornecedor(nome: string)
      modifies this
      ensures fornecedorInput == nome
      ensures fornecedorSelecionado == FornecedorPorNome(fornecedores, nome)
      ensures produtos == old(produtos) && fornecedores == old(fornecedores) && transacoes == old(transacoes)
      ensures produtoInput == old(produtoInput) && quantidadeInput == old(quantidadeInput)
      ensures valorTotalInput == old(valorTotalInput) && listaEntradaProdutos == old(listaEntradaProdutos)
      ensures mensagem == old(mensagem) && ultimasTransacoesIds == old(ultimasTransacoesIds)
    {
      fornecedorInput := nome;
      fornecedorSelecionado := FornecedorPorNome(fornecedores, nome);
    }

    /** Typing in the supplier field: the text changes and the selection is dropped. */
    method EditarFornecedorInput(texto: string)
      modifies this
      ensures fornecedorInput == texto && fornecedorSelecionado == None
      ensures produtos == old(produtos) && fornecedores == old(fornecedores) && transacoes == old(transacoes)
      ensures produtoInput == old(produtoInput) && quantidadeInput == old(quantidadeInput)
      ensures valorTotalInput == old(valorTotalInput) && listaEntradaProdutos == old(listaEntradaProdutos)
      ensures mensagem == old(mensagem) && ultimasTransacoesIds == old(ultimasTransacoesIds)
    {
      fornecedorInput := texto;
      fornecedorSelecionado := None;
    }

    /**
     * `adicionarProdutoNaLista`: a refused line leaves everything as it was; an
     * accepted one is appended with the trimmed name and the three fields are cleared.
     */
    method AdicionarProdutoNaLista() returns (erro: Option<ErroEntrada>)
      requires Valid()
      modifies this
      ensures Valid()
      ensures var v := ValidarEntrada(old(produtoInput), old(quantidadeInput), old(valorTotalInput));
              if v.Err? then erro == Some(v.error) && unchanged(this)
              else
                && erro == None
                && listaEntradaProdutos == old(listaEntradaProdutos) + [v.value]
                && v.value.produtoNome == Trim(old(produtoInput))
                && produtoInput == "" && quantidadeInput == None && valorTotalInput == None
                && produtos == old(produtos) && fornecedores == old(fornecedores)
                && transacoes == old(transacoes)
                && fornecedorInput == old(fornecedorInput) && fornecedorSelecionado == old(fornecedorSelecionado)
                && mensagem == old(mensagem) && ultimasTransacoesIds == old(ultimasTransacoesIds)
    {
      var v := ValidarEntrada(produtoInput, quantidadeInput, valorTotalInput);
      if v.Err? {
        return Some(v.error);
      }
      AceitaveisAnexadas(listaEntradaProdutos, v.value);
      listaEntradaProdutos := listaEntradaProdutos + [v.value];
      produtoInput := "";
      quantidadeInput := None;
      valorTotalInput := None;
      erro := None;
    }

    /**
     * `registrarEntradas`, given one set of fresh values per pending line: refused
     * without a selected supplier or with an empty batch; otherwise the products
     * and the ledger become what the batch makes of them and the batch is emptied.
     */
    method RegistrarEntradas(novos: seq<Novos>) returns (erro: Option<ErroRegistro>)
      requires Valid() && |novos| == |listaEntradaProdutos|
      modifies this
      ensures Valid()
      ensures erro == Some(SemFornecedor) <==> old(fornecedorSelecionado) == None
      ensures erro == Some(ListaVazia) <==> old(fornecedorSelecionado) != None && old(listaEntradaProdutos) == []
      ensures erro != None ==> unchanged(this)
      ensures erro == None ==>
                && Positivas(old(listaEntradaProdutos))
                && produtos == AplicarLote(old(produtos), old(listaEntradaProdutos), novos)
                && transacoes == old(transacoes)
                                 + TransacoesDoLote(old(produtos), old(listaEntradaProdutos), novos,
                                                    old(fornecedorSelecionado).value.id)
                && listaEntradaProdutos == []
                && mensagem == Gravado
                && ultimasTransacoesIds == IdsDasTransacoes(novos)
                && fornecedores == old(fornecedores) && fornecedorInput == old(fornecedorInput)
                && fornecedorSelecionado == old(fornecedorSelecionado)
                && produtoInput == old(produtoInput) && quantidadeInput == old(quantidadeInput)
                && valorTotalInput == old(valorTotalInput)
    {
      if fornecedorSelecionado == None {
        return Some(SemFornecedor);
      }
      if |listaEntradaProdutos| == 0 {
        return Some(ListaVazia);
      }
      assert Positivas(listaEntradaProdutos);
      var prods, ts, novosIds := Lancar(produtos, transacoes, listaEntradaProdutos, novos,
                                        fornecedorSelecionado.value.id);
      produtos := prods;
      transacoes := ts;
      listaEntradaProdutos := [];
      mensagem := Gravado;
      ultimasTransacoesIds := novosIds;
      erro := None;
    }
  }
}
