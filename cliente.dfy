/**
 * The customer page: one form that registers a new customer or rewrites the
 * one being edited, deletion by id, and the list filtered by name and document.
 */
module Cliente {
  import opened Text
  import opened Collections

  datatype Cliente = Cliente(id: int, nome: string, contato: string, endereco: string, cpfCnpj: string)

  /** The form: a customer without its id. */
  datatype FormCliente = FormCliente(nome: string, contato: string, endereco: string, cpfCnpj: string)

  const FormVazio: FormCliente := FormCliente("", "", "", "")

  function IdCliente(c: Cliente): int {
    c.id
  }

  function ComId(id: int): Cliente -> bool {
    (c: Cliente) => c.id == id
  }

  /** The rewrite `{ ...cliente, ...formCliente }`: the form's fields over the customer, its id kept. */
  function Sobrepor(f: FormCliente): Cliente -> Cliente {
    (c: Cliente) => c.(nome := f.nome, contato := f.contato, endereco := f.endereco, cpfCnpj := f.cpfCnpj)
  }

  /** Saving in edit mode: the customers with the id get the four form fields. */
  function AtualizarCliente(cs: seq<Cliente>, id: int, f: FormCliente): (r: seq<Cliente>)
    ensures |r| == |cs|
    ensures forall i :: 0 <= i < |cs| && cs[i].id == id ==>
              r[i] == Cliente(id, f.nome, f.contato, f.endereco, f.cpfCnpj)
    ensures forall i :: 0 <= i < |cs| && cs[i].id != id ==> r[i] == cs[i]
  {
    MapWhere(cs, ComId(id), Sobrepor(f))
  }

  /** The form a customer loads into: exactly its four fields. */
  function FormDe(c: Cliente): (f: FormCliente)
    ensures f.nome == c.nome && f.contato == c.contato && f.endereco == c.endereco && f.cpfCnpj == c.cpfCnpj
  {
    FormCliente(c.nome, c.contato, c.endereco, c.cpfCnpj)
  }

  /** Loading a customer into the form and saving it unchanged gives back the customer. */
  lemma EditarSemMudarPreserva(cs: seq<Cliente>, i: int)
    requires 0 <= i < |cs|
    ensures AtualizarCliente(cs, cs[i].id, FormDe(cs[i]))[i] == cs[i]
  {
  }

  /** `excluirCliente(id)`: the customers without that id, in their order. */
  function ExcluirCliente(cs: seq<Cliente>, id: int): (r: seq<Cliente>)
    ensures forall i :: 0 <= i < |r| ==> r[i] in cs && r[i].id != id
    ensures forall i :: 0 <= i < |cs| && cs[i].id != id ==> cs[i] in r
  {
    RemoverPorChave(cs, IdCliente, id)
  }

  /** Deleting keeps the other customers, each as often as before, in their order. */
  lemma ExcluirClientePreserva(a: seq<Cliente>, b: seq<Cliente>, id: int, x: Cliente)
    ensures ExcluirCliente(a + b, id) == ExcluirCliente(a, id) + ExcluirCliente(b, id)
    ensures multiset(ExcluirCliente(a, id))[x] == if x.id != id then multiset(a)[x] else 0
  {
    RemoverPorChaveConcat(a, b, IdCliente, id);
    RemoverPorChaveConta(a, IdCliente, id, x);
  }

  /** A customer passes the filters: the name ignoring case, the document as typed. */
  predicate Passa(c: Cliente, filtroNome: string, filtroCpfCnpj: string) {
    Includes(Lower(c.nome), Lower(filtroNome)) && Includes(c.cpfCnpj, filtroCpfCnpj)
  }

  function Filtro(filtroNome: string, filtroCpfCnpj: string): Cliente -> bool {
    (c: Cliente) => Passa(c, filtroNome, filtroCpfCnpj)
  }

  /** `clientesFiltrados`: the customers passing both filters, each as often as in the list, in list order. */
  function ClientesFiltrados(cs: seq<Cliente>, filtroNome: string, filtroCpfCnpj: string): (r: seq<Cliente>)
    ensures forall x :: multiset(r)[x] == if Passa(x, filtroNome, filtroCpfCnpj) then multiset(cs)[x] else 0
    ensures forall i :: 0 <= i < |r| ==> Passa(r[i], filtroNome, filtroCpfCnpj)
  {
    forall x ensures multiset(Filter(cs, Filtro(filtroNome, filtroCpfCnpj)))[x]
                     == if Passa(x, filtroNome, filtroCpfCnpj) then multiset(cs)[x] else 0 {
      FilterCount(cs, Filtro(filtroNome, filtroCpfCnpj), x);
    }
    Filter(cs, Filtro(filtroNome, filtroCpfCnpj))
  }

  /** Empty filters show every customer, in list order. */
  lemma FiltrosVaziosMostramTodos(cs: seq<Cliente>)
    ensures ClientesFiltrados(cs, "", "") == cs
  {
    forall i | 0 <= i < |cs| ensures Filtro("", "")(cs[i]) {
      IncludesEmpty(Lower(cs[i].nome));
      IncludesEmpty(cs[i].cpfCnpj);
    }
    FilterKeepsAll(cs, Filtro("", ""));
  }

  /** The document filter is case-sensitive: an upper-case filter misses a lower-case document. */
  lemma DocumentoDistingueCaixa()
    ensures !Passa(Cliente(1, "Ana", "", "", "ab"), "", "AB")
    ensures Passa(Cliente(1, "Ana", "", "", "ab"), "", "ab")
  {
    var c := Cliente(1, "Ana", "", "", "ab");
    IncludesEmpty(Lower(c.nome));
    assert c.cpfCnpj[..2] == "ab";
    IncludesIffOccurs("ab", "AB");
    assert forall i :: !OccursAt("ab", "AB", i);
  }

  class PaginaClientes {
    var clientes: seq<Cliente>
    var formCliente: FormCliente
    var editandoCliente: Option<Cliente>
    var filtroNome: string
    var filtroCpfCnpj: string

    /** The page as it opens on the stored customers. */
    constructor (clientes: seq<Cliente>)
      ensures this.clientes == clientes && formCliente == FormVazio && editandoCliente == None
      ensures filtroNome == "" && filtroCpfCnpj == ""
    {
      this.clientes := clientes;
      formCliente := FormVazio;
      editandoCliente := None;
      filtroNome := "";
      filtroCpfCnpj := "";
    }

    /** `limparFormulario`: the four fields emptied and edit mode off. */
    method LimparFormulario()
      modifies this
      ensures formCliente == FormVazio && editandoCliente == None
      ensures clientes == old(clientes) && filtroNome == old(filtroNome) && filtroCpfCnpj == old(filtroCpfCnpj)
    {
      formCliente := FormVazio;
      editandoCliente := None;
    }

    /**
     * `handleSalvarCliente`, given the new customer's id: in edit mode the form
     * is written over the customer being edited, otherwise one customer made of
     * the form is appended; then the form is cleared.
     */
    method SalvarCliente(novoId: int)
      modifies this
      ensures old(editandoCliente) != None ==>
                clientes == AtualizarCliente(old(clientes), old(editandoCliente).value.id, old(formCliente))
      ensures old(editandoCliente) == None ==>
                clientes == old(clientes) + [Cliente(novoId, old(formCliente).nome, old(formCliente).contato,
                                                     old(formCliente).endereco, old(formCliente).cpfCnpj)]
      ensures formCliente == FormVazio && editandoCliente == None
      ensures filtroNome == old(filtroNome) && filtroCpfCnpj == old(filtroCpfCnpj)
    {
      if editandoCliente != None {
        clientes := AtualizarCliente(clientes, editandoCliente.value.id, formCliente);
      } else {
        var f := formCliente;
        clientes := clientes + [Cliente(novoId, f.nome, f.contato, f.endereco, f.cpfCnpj)];
      }
      LimparFormulario();
    }

    /** `excluirCliente(id)`. */
    method ExcluirClienteDaLista(id: int)
      modifies this
      ensures clientes == ExcluirCliente(old(clientes), id)
      ensures formCliente == old(formCliente) && editandoCliente == old(editandoCliente)
      ensures filtroNome == old(filtroNome) && filtroCpfCnpj == old(filtroCpfCnpj)
    {
      clientes := ExcluirCliente(clientes, id);
    }

    /** `handleEditarCliente(cliente)`: the customer becomes the one being edited and fills the form. */
    method EditarCliente(cliente: Cliente)
      modifies this
      ensures editandoCliente == Some(cliente) && formCliente == FormDe(cliente)
      ensures clientes == old(clientes) && filtroNome == old(filtroNome) && filtroCpfCnpj == old(filtroCpfCnpj)
    {
      editandoCliente := Some(cliente);
      formCliente := FormDe(cliente);
    }
  }
}
