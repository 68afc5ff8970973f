# InventoryManager pages, modelled in Dafny

InventoryManager is a small browser front end for a shop: customers, suppliers,
products, stock entries and sales orders, each kept as a JSON array in local
storage. This project models the logic of six of its pages:

- **Entrada de Mercadoria** (`EntradaEstoque`, module `EntradaProdutos`). A supplier
  is chosen, lines of (product name, quantity, total paid) are validated into a
  pending batch, and registering the batch restocks each product found by
  case-insensitive name (creating unknown ones with stock 0 and cost 0), overwrites
  its unit cost and appends one ledger movement per line.
- **Painel de Controle** (module `PainelControle`, pure). The product table with its
  active-flag toggle and profit column, and the stock history of a product rebuilt
  from the ledger, newest first, with running stock levels.
- **Pedidos** (`PaginaPedidos`). Draft orders built item by item, totals, saving over
  the edited order or as a new one, deletion and the done flag.
- **Produtos**, **Clientes** and **Fornecedores** (`PaginaProdutos`, `PaginaClientes`,
  `PaginaFornecedores`). Catalogue forms with upsert by id, append and delete by id,
  the filtered and sorted views, and the suppliers' guarded write to storage.

Module `Ledger` holds the movements list shared by the stock-entry page and the
panel; module `Conciliacao` proves that the two pages agree: if every product's stock
is the sum of its movements, registering a batch with fresh ids keeps it so, and the
newest history row of a product then shows its stock. `Collections` and `Text` model
the JavaScript array and string methods the pages use (`filter`, `find`, `map`,
a stable `sort`, `toLowerCase`, `includes`, `trim`).

Pages whose handlers change component state are classes whose fields are that state
(local storage replaced by in-memory sequences) and whose methods are the handlers;
each handler is one atomic transition. Ids, `Date.now()` values and timestamps are
method parameters. Money is `real`; timestamps are integers (milliseconds).

Order completion only flips `concluido`, both ways: it does not decrement stock,
clamp at zero, check that the products are active, or write to the ledger.

## Model

| member | source | states |
|---|---|---|
| Text.IncludesIffOccurs | src/pages/EntradaProdutos.tsx:83-85 | `includes` holds exactly when the text occurs at some position |
| Text.IncludesEmpty | src/pages/Produtos.tsx:134-135 | every string includes the empty one, so an empty filter keeps every record |
| Text.Lower | src/pages/EntradaProdutos.tsx:84 | `toLowerCase` keeps the length, leaves no upper-case letter and changes only the upper-case ones |
| Text.LowerIdempotent | src/pages/EntradaProdutos.tsx:84 | folding twice is folding once |
| Text.TrimStart | src/pages/EntradaProdutos.tsx:115 | leading white space is dropped and only that |
| Text.TrimEnd | src/pages/EntradaProdutos.tsx:115 | trailing white space is dropped and only that |
| Text.TrimIsCore | src/pages/EntradaProdutos.tsx:115 | `trim` cuts only white space, from both ends, and leaves no white space at either end |
| Text.TrimEmptyIffBlank | src/pages/EntradaProdutos.tsx:99 | a name trims to nothing exactly when it is all white space |
| Collections.FindFirst | src/pages/EntradaProdutos.tsx:143 | `find` yields the first matching position, or none when nothing matches |
| Collections.FindFirstUnique | src/pages/EntradaProdutos.tsx:143 | the first matching position is determined: anything meeting its description is what `find` returns |
| Collections.Filter | src/pages/PainelControle.tsx:131 | `filter` keeps only elements of the input that pass, and every element that passes |
| Collections.FilterAppend | src/pages/PainelControle.tsx:56 | filtering a concatenation filters each part, in order |
| Collections.FilterCount | src/pages/Produtos.tsx:133-135 | filtering keeps each passing value as often as it occurs and drops the others |
| Collections.FilterKeepsAll | src/pages/Cliente.tsx:90-94 | a filter every element passes returns the list unchanged |
| Collections.FilterKeepsNone | src/pages/PainelControle.tsx:56 | a filter no element passes returns nothing |
| Collections.MapWhere | src/pages/PainelControle.tsx:42-44 | the `map` that rewrites the selected records keeps the length and changes exactly the selected ones |
| Collections.MapWhereTwice | src/pages/PainelControle.tsx:42-44 | rewriting twice with a self-inverse rewrite that keeps the selection restores the list |
| Collections.InsertPermutes | src/pages/PainelControle.tsx:57 | one insertion step of the sort adds exactly the inserted element |
| Collections.InsertSorted | src/pages/PainelControle.tsx:57 | one insertion step of the sort keeps the order |
| Collections.RemoveAt | src/pages/Pedidos.tsx:109 | removing a position in range shifts the later items down by one; an index out of range removes nothing |
| Collections.RemoverPorChave | src/pages/Fornecedores.tsx:56 | delete by id keeps elements of the list without the id, and all of them |
| Collections.RemoverPorChaveAusente | src/pages/Fornecedores.tsx:56 | deleting an id no element has changes nothing |
| Collections.RemoverPorChaveConta | src/pages/Fornecedores.tsx:56 | delete by id keeps every other element as often as before and drops every element with the id |
| Collections.SortByPermutes | src/pages/PainelControle.tsx:57 | the numeric-comparator sort is a permutation |
| Collections.SortBySorted | src/pages/PainelControle.tsx:57 | the sort orders by the key |
| Collections.RemoverPorChaveConcat | src/pages/Fornecedores.tsx:56 | delete by id works part by part, so the kept elements keep their order |
| EntradaProdutos.FornecedoresSugeridos | src/pages/EntradaProdutos.tsx:83-85 | the suggestions are the suppliers whose name contains the text ignoring case, and all of them |
| EntradaProdutos.ProdutosSugeridos | src/pages/EntradaProdutos.tsx:87-89 | the suggestions are the products whose name contains the text ignoring case, and all of them |
| EntradaProdutos.FornecedorPorNome | src/pages/EntradaProdutos.tsx:93 | the selection is the first supplier with exactly that name, none exactly when no supplier has it |
| EntradaProdutos.EntradaEstoque.SelecionarFornecedor | src/pages/EntradaProdutos.tsx:91-96 | the text becomes the name and the selection the first supplier with it; nothing else changes |
| EntradaProdutos.EntradaEstoque.EditarFornecedorInput | src/pages/EntradaProdutos.tsx:198-201 | typing in the supplier field always clears the selection |
| EntradaProdutos.ValidarEntrada | src/pages/EntradaProdutos.tsx:98-119 | empty-name, quantity and total errors in that order, each by its exact condition; success exactly when all three hold, with the trimmed name |
| EntradaProdutos.EntradaEstoque.AdicionarProdutoNaLista | src/pages/EntradaProdutos.tsx:98-125 | a refused line changes nothing; an accepted one is appended at the end with the trimmed name and the three fields are cleared |
| EntradaProdutos.Buscar | src/pages/EntradaProdutos.tsx:143 | the product found is the first whose name equals the line's ignoring case |
| EntradaProdutos.BuscarPrimeiro | src/pages/EntradaProdutos.tsx:143 | a product with the searched name and no earlier one with that name is the one found |
| EntradaProdutos.BuscarMesmosNomes | src/pages/EntradaProdutos.tsx:143 | the lookup depends only on the products' names |
| EntradaProdutos.BuscarAnexado | src/pages/EntradaProdutos.tsx:143-152 | appending a product leaves a successful lookup unchanged; a failed one then finds the appended product exactly when it has the name |
| EntradaProdutos.PrimeiroAposAplicar | src/pages/EntradaProdutos.tsx:143-154 | a line neither hides a reachable product nor uncovers a hidden one |
| EntradaProdutos.UltimaDoNome | src/pages/EntradaProdutos.tsx:154 | the last line with the name, or none when no line has it |
| EntradaProdutos.SomaSemCorrespondente | src/pages/EntradaProdutos.tsx:143-154 | when every line finds a product and none is called by the name, no line adds to the name |
| EntradaProdutos.AplicarNomes | src/pages/EntradaProdutos.tsx:143-154 | one line keeps every product's id and name and appends a product exactly when its name is unknown, with that name and the fresh id |
| EntradaProdutos.BuscarAposAplicar | src/pages/EntradaProdutos.tsx:143-152 | later lookups see the products created earlier in the same batch |
| EntradaProdutos.AplicarLoteEfeito | src/pages/EntradaProdutos.tsx:142-154 | after the batch: old products keep place, id and name; each reachable product's stock is its old stock (0 if created) plus the quantities of all lines with its name; its cost is total/quantity of the last such line, or unchanged; shadowed products are untouched; created products have new names |
| EntradaProdutos.LoteAnexado | src/pages/EntradaProdutos.tsx:142-154 | a batch with one more line leaves the products as one more iteration of the loop body after the batch |
| EntradaProdutos.LoteCortado | src/pages/EntradaProdutos.tsx:142-154 | the products after the batch are the products after its first i+1 lines with the remaining lines applied to them |
| EntradaProdutos.LotePasso | src/pages/EntradaProdutos.tsx:142-168 | one more iteration applies the line to the products, appends its movement after the earlier ones and its id after the earlier ids |
| EntradaProdutos.AplicarLoteConcat | src/pages/EntradaProdutos.tsx:142-168 | registering two batches in turn leaves the products as registering their concatenation |
| EntradaProdutos.DestinoEncontrado | src/pages/EntradaProdutos.tsx:143-160 | after its iteration a line's name leads to the product its movement is booked on |
| EntradaProdutos.BuscarPersiste | src/pages/EntradaProdutos.tsx:143 | once found, a name keeps leading to the same product and id for the rest of the batch |
| EntradaProdutos.TransacaoDaEntrada | src/pages/EntradaProdutos.tsx:156-167 | the i-th movement has the i-th fresh id and time, the supplier, the line's positive quantity and total, and the id of the product the name leads to after the batch |
| EntradaProdutos.Iteracao | src/pages/EntradaProdutos.tsx:143-165 | the loop body restocks or creates the product and yields its movement |
| EntradaProdutos.Lancar | src/pages/EntradaProdutos.tsx:137-168 | the loop yields the batch's products, the ledger with the batch's movements appended after the old ones, and one id per line |
| EntradaProdutos.TransacoesDoLote | src/pages/EntradaProdutos.tsx:156-165 | one movement per line of the batch |
| EntradaProdutos.EstoqueNumero | src/pages/EntradaProdutos.tsx:153-171 | a numeric stock, restocked and stored batch after batch, is the old stock plus every batch's quantities |
| EntradaProdutos.EstoquePerdeOPrimeiroLote | src/pages/EntradaProdutos.tsx:153-171 | as written, a product without a stock field, restocked with the page reopened between batches, ends at the quantities of its second and later batches only: the first batch's sum is lost |
| EntradaProdutos.EstoqueNaMesmaVisita | src/pages/EntradaProdutos.tsx:137-172 | as written, within one visit such a product's stock stays NaN through later batches and every store writes `null` |
| EntradaProdutos.EstoqueCorrigidoConserva | src/pages/EntradaProdutos.tsx:153-171 | with a missing stock counted as 0, the stored stock is the old stock plus every batch's quantities |
| EntradaProdutos.IdsDasTransacoes | src/pages/EntradaProdutos.tsx:167 | one collected id per line, in order |
| EntradaProdutos.EntradaEstoque.constructor | src/pages/EntradaProdutos.tsx:60-81 | the page opens on the stored lists with empty fields and batch |
| EntradaProdutos.EntradaEstoque.RegistrarEntradas | src/pages/EntradaProdutos.tsx:127-176 | refused with nothing changed without a supplier or with an empty batch; otherwise products and ledger become the batch's result, the batch is emptied and the success message and ids are set |
| Conciliacao.IdsDoLote | src/pages/EntradaProdutos.tsx:144-152 | with fresh distinct ids a batch keeps product ids unique and created products carry fresh ids |
| Conciliacao.IdsPasso | src/pages/EntradaProdutos.tsx:143-152 | a line with a fresh id keeps products' ids unique and in place, and a created product carries the fresh id |
| Conciliacao.BuscarEhPrimeiro | src/pages/EntradaProdutos.tsx:143 | the product `find` returns is not hidden by an earlier one with the same name |
| Conciliacao.SaldoDoProdutoConcat | src/pages/EntradaProdutos.tsx:170-171 | a product's sum over the old ledger and the batch's movements is the sum of the two |
| Conciliacao.SaldoSemMovimento | src/pages/PainelControle.tsx:56 | a product none of the movements is about has sum 0 |
| Conciliacao.SaldoDasEntradas | src/pages/EntradaProdutos.tsx:156-165 | movements that follow the lines one for one, booked on the product exactly for the lines with its name, add up to those lines' quantities |
| Conciliacao.MovimentosDoPrimeiro | src/pages/EntradaProdutos.tsx:153-165 | a reachable product receives movements adding up to the quantities of the lines with its name |
| Conciliacao.MovimentosDoOculto | src/pages/EntradaProdutos.tsx:143 | a product shadowed by an earlier one with the same name receives no movement |
| Conciliacao.ConciliacaoDoLote | src/pages/EntradaProdutos.tsx:142-171 | if every stock is the sum of its ledger movements before, it still is after the batch |
| Conciliacao.HistoricoMostraEstoque | src/pages/PainelControle.tsx:55-61 | when stock and ledger agree, a product's newest history row shows its stock, and an empty history means zero stock |
| Ledger.DoProduto | src/pages/PainelControle.tsx:56 | exactly the movements of the selected product |
| Ledger.DoProdutoAppend | src/pages/EntradaProdutos.tsx:158-165 | appending a movement adds to a product's movements and sum only if it is that product's |
| Ledger.SaldoAppend | src/pages/PainelControle.tsx:59-61 | the sum of the quantities of a concatenation is the sum of the sums |
| Ledger.SaldoInsert | src/pages/PainelControle.tsx:57 | an insertion step of the sort adds exactly the inserted quantity to the sum |
| Ledger.SaldoSortBy | src/pages/PainelControle.tsx:57 | sorting movements does not change their sum |
| PainelControle.AlternarStatus | src/pages/PainelControle.tsx:41-47 | only the products with the id have `ativo` flipped; every other field and product is unchanged |
| PainelControle.AlternarStatusTwice | src/pages/PainelControle.tsx:41-47 | toggling twice restores the list |
| PainelControle.CalcularLucro | src/pages/PainelControle.tsx:49-53 | "N/A" exactly when the cost is missing or not above 0; otherwise the margin over cost, positive exactly when price exceeds cost |
| PainelControle.ProdutosListados | src/pages/PainelControle.tsx:130-131 | the table shows the products whose name contains the filter ignoring case, and all of them |
| PainelControle.Ordenadas | src/pages/PainelControle.tsx:55-57 | the product's movements, as a permutation, newest first |
| PainelControle.Linhas | src/pages/PainelControle.tsx:58-73 | one row per movement, in order; each row shows its movement and its previous stock is the sum of the movements after it |
| PainelControle.LinhasEncadeadas | src/pages/PainelControle.tsx:58-61 | rows of movements sorted newest first keep that order, each row's current stock is the previous stock of the row above, the oldest starts at 0 |
| PainelControle.Historico | src/pages/PainelControle.tsx:55-73 | one row per movement of the selected product, newest first; "S" with the sale text exactly for negative quantities, "E" with the purchase text otherwise, the absolute quantity shown; current = previous + movement; each row's current is the previous of the row above; the oldest row starts at 0 |
| PainelControle.HistoricoEstoqueAnterior | src/pages/PainelControle.tsx:59-60 | each row's previous stock is the sum of the rows below it |
| PainelControle.SaldoLinhasMostra | src/pages/PainelControle.tsx:66-69 | the rows' signed quantities add up to the movements' sum |
| PainelControle.HistoricoEstoqueAtual | src/pages/PainelControle.tsx:55-61 | the newest row's current stock is the sum of all the product's movements |
| PainelControle.AbaHistorico | src/pages/PainelControle.tsx:189-218 | nothing without a selection; the "no transaction" message exactly when the product has no movement; otherwise the non-empty table |
| Pedidos.BuscarProduto | src/pages/Pedidos.tsx:77 | the first product with the id, none exactly when no product has it |
| Pedidos.CalcularTotalUm | src/pages/Pedidos.tsx:75-80 | a one-item total is price × quantity, or 0 for an unknown product |
| Pedidos.CalcularTotalConcat | src/pages/Pedidos.tsx:75-80 | the total of a concatenation is the sum of the totals |
| Pedidos.TotalDosConhecidos | src/pages/Pedidos.tsx:75-80 | items with unknown products contribute nothing |
| Pedidos.TotalSubstituir | src/pages/Pedidos.tsx:96-106 | replacing an item changes the total by the two items' difference |
| Pedidos.TotalRemover | src/pages/Pedidos.tsx:108-115 | removing an item takes its value off the total |
| Pedidos.TotalSemLacunas | src/pages/Pedidos.tsx:75-80 | `reduce` skips holes: the total is that of the present items alone |
| Pedidos.FiltrarPosicao | src/pages/Pedidos.tsx:109 | `filter` by position leaves no hole, keeps only items of the input and every present item at another position; without holes it is removal of that position |
| Pedidos.TotalFiltrarPosicao | src/pages/Pedidos.tsx:108-115 | filtering out a position takes that position's value off the total, or nothing when it is out of range |
| Pedidos.RemoverItemComoEscrito | src/pages/Pedidos.tsx:108-115 | the code as written: the position and any holes filtered out; the editing position dropped when it is the removed one and otherwise kept as it was |
| Pedidos.Atribuir | src/pages/Pedidos.tsx:99-100 | the index assignment replaces the position; at or past the end it lengthens the array to the index plus one, with holes in between, and keeps every earlier position |
| Pedidos.Lacunas | src/pages/Pedidos.tsx:100 | the run of holes an assignment past the end leaves: the given length, every position a hole |
| Pedidos.RemocaoDesalinhaEdicao | src/pages/Pedidos.tsx:96-115 | the input [A, B] where removal then save gives [B, X] instead of [X] |
| Pedidos.RemocaoDesalinhaSempre | src/pages/Pedidos.tsx:96-115 | for every draft, removing an item before the edited one and saving leaves the edited item unchanged one place down and writes over its successor, or appends |
| Pedidos.RemocaoDeixaLacuna | src/pages/Pedidos.tsx:96-115 | two removals before the edited last item leave the editing position past the end, and the save then leaves a hole before the new item |
| Pedidos.RemoverItem | src/pages/Pedidos.tsx:108-115 | removal keeps the editing position on the same item |
| Pedidos.RemoverEntaoSalvar | src/pages/Pedidos.tsx:96-115 | with that removal, removing then saving the edit equals saving then removing |
| Pedidos.AtualizarPedido | src/pages/Pedidos.tsx:121-127 | the order with the id gets customer, items and total and keeps id, date and done flag; others and length unchanged |
| Pedidos.ExcluirPedido | src/pages/Pedidos.tsx:152-157 | the orders without the id remain, and only they |
| Pedidos.ExcluirPedidoConcat | src/pages/Pedidos.tsx:154 | deletion keeps the remaining orders in order |
| Pedidos.ExcluirPedidoAusente | src/pages/Pedidos.tsx:154 | deleting an unused id changes nothing |
| Pedidos.AlternarConclusao | src/pages/Pedidos.tsx:168-175 | only the orders with the id have `concluido` flipped |
| Pedidos.AlternarConclusaoTwice | src/pages/Pedidos.tsx:168-175 | flipping twice restores the list |
| Pedidos.PaginaPedidos.constructor | src/pages/Pedidos.tsx:35-56 | the page opens on the stored orders with an empty draft and quantity 1 |
| Pedidos.PaginaPedidos.AdicionarItem | src/pages/Pedidos.tsx:82-87 | nothing without a product or with quantity not above 0; otherwise one item appended and product 0, quantity 1 |
| Pedidos.PaginaPedidos.EditarItem | src/pages/Pedidos.tsx:89-94 | the item form holds the item and it becomes the edited one |
| Pedidos.PaginaPedidos.SalvarItemEditado | src/pages/Pedidos.tsx:96-106 | refused, with nothing changed, without an edited position, a product or a quantity above 0; otherwise that position written and every other kept, the array lengthened with holes when the position lies past the end, the item form reset and editing cleared |
| Pedidos.PaginaPedidos.RemoverItemDoPedido | src/pages/Pedidos.tsx:108-115 | the items become the position filter's result; the item form is reset and editing cleared exactly when that position was the edited one; otherwise the editing position and form are kept as they were |
| Pedidos.PaginaPedidos.SalvarPedido | src/pages/Pedidos.tsx:117-150 | refused without customer or items; edit mode rewrites the order by id, new mode appends an open order with the computed total; the draft is reset |
| Pedidos.PaginaPedidos.ExcluirPedidoDaLista | src/pages/Pedidos.tsx:152-157 | the orders become the deletion's result; nothing else changes |
| Pedidos.PaginaPedidos.EditarPedido | src/pages/Pedidos.tsx:159-166 | the draft holds the order's customer and items and the order is the edited one |
| Pedidos.PaginaPedidos.AlternarConclusaoDoPedido | src/pages/Pedidos.tsx:168-175 | the orders become the toggle's result; nothing else changes |
| Produtos.AtualizarProduto | src/pages/Produtos.tsx:76-90 | the product with the id gets the five form fields and keeps its id; others and length unchanged |
| Produtos.ExcluirProduto | src/pages/Produtos.tsx:107-111 | the products without the id remain, and only they |
| Produtos.ExcluirProdutoPreserva | src/pages/Produtos.tsx:108 | deletion keeps the others, as often as before and in order |
| Produtos.ProdutosFiltrados | src/pages/Produtos.tsx:133-136 | a permutation of exactly the products passing both case-insensitive filters, ordered by price in the chosen direction |
| Produtos.FiltrosVaziosMostramTodos | src/pages/Produtos.tsx:133-135 | empty filters show every product |
| Produtos.PaginaProdutos.constructor | src/pages/Produtos.tsx:25-45 | the page opens on the stored products with the default form |
| Produtos.PaginaProdutos.LimparFormulario | src/pages/Produtos.tsx:60-67 | the form fields go back to their defaults and edit mode is cleared |
| Produtos.PaginaProdutos.CadastrarProduto | src/pages/Produtos.tsx:69-105 | refused with nothing changed without a supplier; edit mode rewrites by id, new mode appends one product; then the form is cleared |
| Produtos.PaginaProdutos.ExcluirProdutoDaLista | src/pages/Produtos.tsx:107-111 | the products become the deletion's result; nothing else changes |
| Produtos.PaginaProdutos.EditarProduto | src/pages/Produtos.tsx:113-120 | the form holds the product's fields and it is the edited one |
| Cliente.AtualizarCliente | src/pages/Cliente.tsx:56-63 | the customer with the id gets the four form fields and keeps its id; others and length unchanged |
| Cliente.FormDe | src/pages/Cliente.tsx:80-88 | the form holds exactly the customer's four fields |
| Cliente.EditarSemMudarPreserva | src/pages/Cliente.tsx:56-88 | loading a customer and saving the form unchanged gives the customer back |
| Cliente.ExcluirCliente | src/pages/Cliente.tsx:75-78 | the customers without the id remain, and only they |
| Cliente.ExcluirClientePreserva | src/pages/Cliente.tsx:76 | deletion keeps the others, as often as before and in order |
| Cliente.ClientesFiltrados | src/pages/Cliente.tsx:90-94 | a customer is kept, as often as listed, exactly when its name contains the name filter ignoring case and its document contains the document filter |
| Cliente.FiltrosVaziosMostramTodos | src/pages/Cliente.tsx:90-94 | empty filters keep everyone in order |
| Cliente.DocumentoDistingueCaixa | src/pages/Cliente.tsx:93 | the document filter is case-sensitive |
| Cliente.PaginaClientes.constructor | src/pages/Cliente.tsx:17-37 | the page opens on the stored customers with an empty form |
| Cliente.PaginaClientes.LimparFormulario | src/pages/Cliente.tsx:43-51 | the form is emptied and edit mode cleared |
| Cliente.PaginaClientes.SalvarCliente | src/pages/Cliente.tsx:53-73 | edit mode writes the form over the customer by id, new mode appends the form with the new id; then the form is cleared |
| Cliente.PaginaClientes.ExcluirClienteDaLista | src/pages/Cliente.tsx:75-78 | the customers become the deletion's result; nothing else changes |
| Cliente.PaginaClientes.EditarCliente | src/pages/Cliente.tsx:80-88 | the customer is the edited one and fills the form with its four fields |
| Fornecedores.ExcluirFornecedor | src/pages/Fornecedores.tsx:55-57 | the suppliers without the id remain, and only they |
| Fornecedores.ExcluirFornecedorPreserva | src/pages/Fornecedores.tsx:56 | deletion keeps the others, as often as before and in order |
| Fornecedores.PaginaFornecedores.constructor | src/pages/Fornecedores.tsx:17-29 | the page shows the stored list when the key exists, otherwise nothing |
| Fornecedores.PaginaFornecedores.EfeitoPersistencia | src/pages/Fornecedores.tsx:31-35 | storage is written only when the list is not empty |
| Fornecedores.PaginaFornecedores.CadastrarFornecedor | src/pages/Fornecedores.tsx:37-53 | one supplier of the five fields appended at the end, the fields cleared, the list stored |
| Fornecedores.PaginaFornecedores.ExcluirFornecedorDaLista | src/pages/Fornecedores.tsx:55-59 | the list is filtered and stored, even when it became empty |

## Left out

- Local storage and JSON: reads and writes and the fallback to `[]` on a parse error are not modelled; each collection is a field. Only the suppliers page models its store, because its guard is its logic. The panel's write in `alternarStatus` is left out.
- Id and clock values (`Date.now()`, `Math.random()`, `generateId`, `new Date().toISOString()`) are parameters. Their freshness is stated only where a proof needs it (`Conciliacao.NovosFrescos`, `Conciliacao.ForaDoLivro`).
- Floating point: money is `real`. IEEE rounding of the unit cost and of price × quantity is not modelled, and neither is `toFixed` or the other formatting of the profit, prices and dates.
- EntradaProdutos.ValidarEntrada: the quantity and total arrive already parsed (`None` is an empty field). The non-numeric input for which `parseInt` or `parseFloat` yields NaN, and so passes the `<= 0` checks, is not captured.
- Text.Lower: `toLowerCase` folds only A–Z; full Unicode case mapping is not modelled.
- Dates: the ISO timestamp strings are integers of milliseconds. The history row shows that integer, not the `toLocaleString` text.
- React mechanics: rendering, state batching and effect scheduling are not modelled; each handler is one atomic transition. The suggestion-list visibility flags, the product-suggestion click, tab switching and the plain input setters are UI.
- EntradaProdutos.EntradaEstoque.RegistrarEntradas: `prods` is a shallow copy whose product objects are shared with the page state and mutated in place. The model replaces list elements instead, which gives the same final state because the state is overwritten with `prods` afterwards. The aliasing itself is not modelled.
- Produtos.ProdutosFiltrados, Produtos.Produto: a product created by the stock-entry page carries only `id`, `nome`, `estoque` and `custo`, so it has no `fornecedor`, `preco` or `descricao`; the catalogue's supplier filter then fails at `p.fornecedor.toLowerCase()`, as do the panel's and the order page's price display. The model's records always carry every field their page declares.
- Cliente.PaginaClientes.SalvarCliente, Fornecedores.PaginaFornecedores.CadastrarFornecedor, Produtos.PaginaProdutos.CadastrarProduto: the `required` attributes on the form inputs make the browser refuse to submit an empty field; that browser-side gate is not modelled, so the handlers accept empty strings.
- Per-page records: every page declares its own product interface over the same stored array. Each model carries only the fields its page declares, so fields of other pages kept by the spreads are not shown.
- Pedidos.PaginaPedidos.AdicionarItem: the copy `[...prev, item]` turns a hole left by an earlier save into an `undefined` element, on which the item list and `calcularTotal` then fail at `item.produtoId`; the model keeps it a hole, which `CalcularTotal` skips.
- Pedidos.PaginaPedidos.SalvarItemEditado: the copy `[...prev]` turns a hole left by an earlier save into an `undefined` element, which the item list then cannot render; the model keeps it a hole, which `filter` and `reduce` skip.
- Pedidos.PaginaPedidos.RemoverItemDoPedido follows the code as written. The corrected removal of the Findings table (`Pedidos.RemoverItem`) is proved beside it but not run by the page.
- EntradaProdutos.EntradaEstoque.RegistrarEntradas, Conciliacao.ConciliacaoDoLote: every stored product is taken to carry a numeric stock. A product saved by the catalogue page has no `estoque`; restocking it gives NaN, stored as `null`, so its first batch is lost. That path is modelled apart, on one product's stock value (`EntradaProdutos.EstoquePerdeOPrimeiroLote`, Findings table).
- Pedidos: the customer list serves only the page's drop-down and is not modelled.
- PainelControle.Ordenadas: the sort is stable by construction; stability itself is not stated.
- Image upload through `FileReader` (src/pages/Produtos.tsx:122-131) is asynchronous I/O and is not modelled.
- Login, registration, routing and the home page are not part of this model.

## Findings

| source | as written | input that shows it | evidently intended | confidence | as-written member | corrected member |
|---|---|---|---|---|---|---|
| src/pages/Pedidos.tsx:108-115 | removing an item ahead of the one being edited leaves `editandoItemIndex` unchanged, so it now names the next item, or one past the end | items [A, B]; `editarItem(1)`; `removerItem(0)`; `salvarItemEditado` with X gives [B, X] | the position follows the edited item, giving [X] | not executed | Pedidos.RemocaoDesalinhaEdicao | Pedidos.RemoverItem |
| src/pages/EntradaProdutos.tsx:153 | `produto.estoque += entrada.quantidade` on a product the catalogue page saved without `estoque` gives NaN, which `JSON.stringify` stores as `null` | a product from the catalogue page restocked with 10 and then, after the page is reopened, with 5 ends with stock 5; with both batches in one visit it stays NaN and is stored as `null` | a missing stock counts as 0, giving 15 | not executed | EntradaProdutos.EstoquePerdeOPrimeiroLote | EntradaProdutos.EstoqueCorrigidoConserva |
