/** The Clientes table and the statements the customer repository runs on
    it. A row is never removed: deleting clears its `Ativo` flag. */
module ClienteRepo {
  import opened Wrappers
  import opened Seqs
  import opened Text
  import opened Js

  /** The columns a customer update rewrites. */
  datatype ClienteDados = ClienteDados(
    nomeCompleto: string,
    dataNascimento: Option<string>,
    genero: Option<string>,
    telefone: Option<string>,
    telefoneWhatsApp: bool,
    email: Option<string>,
    cep: Option<string>,
    logradouro: Option<string>,
    numero: Option<string>,
    complemento: Option<string>,
    bairro: Option<string>,
    cidade: Option<string>,
    estado: Option<string>)

  /** A row of Clientes, keyed by ClienteId. */
  datatype Cliente = Cliente(tipo: string, cpfCnpj: string, dados: ClienteDados, ativo: bool)

  /** What `criar` receives. */
  datatype NovoCliente = NovoCliente(tipo: string, cpfCnpj: string, dados: ClienteDados)

  type ClienteRecord = Entry<Cliente>

  type ClienteTable = map<int, Cliente>

  predicate NullOrFilled(o: Option<string>) { o.None? || o.value != [] }

  /** No optional column holds an empty string. */
  predicate SemVazios(d: ClienteDados)
  {
    NullOrFilled(d.dataNascimento) && NullOrFilled(d.genero) && NullOrFilled(d.telefone)
    && NullOrFilled(d.email) && NullOrFilled(d.cep) && NullOrFilled(d.logradouro)
    && NullOrFilled(d.numero) && NullOrFilled(d.complemento) && NullOrFilled(d.bairro)
    && NullOrFilled(d.cidade) && NullOrFilled(d.estado)
  }

  /** The values bound to the statement: `|| null` on every optional column. */
  function Gravado(d: ClienteDados): (r: ClienteDados)
    ensures SemVazios(r)
    ensures SemVazios(d) ==> r == d
    ensures r.nomeCompleto == d.nomeCompleto && r.telefoneWhatsApp == d.telefoneWhatsApp
  {
    d.(dataNascimento := OrNull(d.dataNascimento), genero := OrNull(d.genero),
       telefone := OrNull(d.telefone), email := OrNull(d.email), cep := OrNull(d.cep),
       logradouro := OrNull(d.logradouro), numero := OrNull(d.numero),
       complemento := OrNull(d.complemento), bairro := OrNull(d.bairro),
       cidade := OrNull(d.cidade), estado := OrNull(d.estado))
  }

  function NomeKey(e: ClienteRecord): SortKey
  {
    SortKey(0, e.row.dados.nomeCompleto)
  }

  predicate Ativo(c: Cliente) { c.ativo }

  /** `listarTodos`: the active customers, ordered by NomeCompleto. */
  function ListarClientes(t: ClienteTable, hi: int): (r: seq<ClienteRecord>)
    requires KeysBelow(t.Keys, hi)
    ensures forall e :: e in r <==> e.id in t && t[e.id].ativo && e.row == t[e.id]
    ensures SortedBy(r, NomeKey) && NoDup(r)
  {
    SelectOrdered(t, hi, Ativo, NomeKey)
  }

  /** `buscarPorId`: only an active customer is found. */
  function ClientePorId(t: ClienteTable, id: int): (r: Option<ClienteRecord>)
    ensures r.Some? <==> id in t && t[id].ativo
    ensures r.Some? ==> r.value.id == id && r.value.row == t[id]
  {
    if id in t && t[id].ativo then Some(Entry(id, t[id])) else None
  }

  /** `buscarPorNome`: active customers whose name contains the upper-cased
      input, ordered by name. */
  function ClientesPorNome(t: ClienteTable, hi: int, nome: string): (r: seq<ClienteRecord>)
    requires KeysBelow(t.Keys, hi)
    ensures forall e :: e in r <==>
      e.id in t && t[e.id].ativo && Contains(t[e.id].dados.nomeCompleto, Upper(nome)) && e.row == t[e.id]
    ensures SortedBy(r, NomeKey) && NoDup(r)
  {
    var padrao := Upper(nome);
    SelectOrdered(t, hi, (c: Cliente) => c.ativo && Contains(c.dados.nomeCompleto, padrao), NomeKey)
  }

  const SeparadoresDocumento: set<char> := {'.', '-', '/'}

  /** `buscarPorCpfCnpj`: active customers whose CpfCnpj equals the input
      with '.', '-' and '/' removed, in identity order. */
  function ClientesPorCpfCnpj(t: ClienteTable, hi: int, cpfCnpj: string): (r: seq<ClienteRecord>)
    requires KeysBelow(t.Keys, hi)
    ensures forall e :: e in r <==>
      e.id in t && t[e.id].ativo && t[e.id].cpfCnpj == Remove(cpfCnpj, SeparadoresDocumento) && e.row == t[e.id]
    ensures NoDup(r)
  {
    var limpo := Remove(cpfCnpj, SeparadoresDocumento);
    Select(t, hi, (c: Cliente) => c.ativo && c.cpfCnpj == limpo)
  }

  const SeparadoresTelefone: set<char> := Whitespace + {'-', '(', ')'}

  /** `buscarPorTelefone`: active customers whose Telefone contains the input
      with whitespace, '-', '(' and ')' removed; a NULL Telefone never matches. */
  function ClientesPorTelefone(t: ClienteTable, hi: int, telefone: string): (r: seq<ClienteRecord>)
    requires KeysBelow(t.Keys, hi)
    ensures forall e :: e in r <==>
      e.id in t && t[e.id].ativo && t[e.id].dados.telefone.Some?
      && Contains(t[e.id].dados.telefone.value, Remove(telefone, SeparadoresTelefone)) && e.row == t[e.id]
    ensures SortedBy(r, NomeKey) && NoDup(r)
  {
    var limpo := Remove(telefone, SeparadoresTelefone);
    SelectOrdered(t, hi, (c: Cliente) => c.ativo && c.dados.telefone.Some? && Contains(c.dados.telefone.value, limpo), NomeKey)
  }

  /** The row `criar` inserts. */
  function LinhaCliente(n: NovoCliente): Cliente
  {
    Cliente(n.tipo, n.cpfCnpj, Gravado(n.dados), true)
  }

  /** `criar`: an INSERT under a fresh id. */
  function InserirCliente(t: ClienteTable, id: int, n: NovoCliente): ClienteTable
  {
    t[id := LinhaCliente(n)]
  }

  /** `atualizar`: `UPDATE ... WHERE ClienteId = @id AND Ativo = 1`. */
  function AtualizarCliente(t: ClienteTable, id: int, d: ClienteDados): ClienteTable
  {
    if id in t && t[id].ativo then t[id := t[id].(dados := Gravado(d))] else t
  }

  /** `deletar`: `UPDATE ... SET Ativo = 0 WHERE ClienteId = @id`. */
  function DesativarCliente(t: ClienteTable, id: int): ClienteTable
  {
    if id in t then t[id := t[id].(ativo := false)] else t
  }

  /** Creating a customer never touches an existing row: an inactive
      customer with the same CpfCnpj stays inactive, and the new row is
      active and found by its id and by its document. */
  lemma InserirNaoReativa(t: ClienteTable, hi: int, n: NovoCliente)
    requires hi >= 1 && KeysBelow(t.Keys, hi)
    ensures hi !in t
    ensures forall k :: k in t ==> k in InserirCliente(t, hi, n) && InserirCliente(t, hi, n)[k] == t[k]
    ensures InserirCliente(t, hi, n).Keys == t.Keys + {hi}
    ensures ClientePorId(InserirCliente(t, hi, n), hi) == Some(Entry(hi, LinhaCliente(n)))
    ensures Entry(hi, LinhaCliente(n)) in ClientesPorCpfCnpj(InserirCliente(t, hi, n), hi + 1, n.cpfCnpj)
      <==> Remove(n.cpfCnpj, SeparadoresDocumento) == n.cpfCnpj
  {
  }

  /** Updating a missing or inactive customer changes nothing; updating an
      active one rewrites its data columns only. */
  lemma AtualizarClienteEfeito(t: ClienteTable, id: int, d: ClienteDados)
    ensures !(id in t && t[id].ativo) ==> AtualizarCliente(t, id, d) == t
    ensures AtualizarCliente(t, id, d).Keys == t.Keys
    ensures forall k :: k in t ==>
      var u := AtualizarCliente(t, id, d)[k];
      u.tipo == t[k].tipo && u.cpfCnpj == t[k].cpfCnpj && u.ativo == t[k].ativo
      && (k != id ==> u == t[k])
    ensures id in t && t[id].ativo ==> AtualizarCliente(t, id, d)[id].dados == Gravado(d)
  {
  }

  /** Deleting keeps the row but hides it from every query, and deleting
      twice is deleting once. */
  lemma DesativarOculta(t: ClienteTable, hi: int, id: int)
    requires KeysBelow(t.Keys, hi)
    ensures DesativarCliente(t, id).Keys == t.Keys
    ensures ClientePorId(DesativarCliente(t, id), id).None?
    ensures forall e :: e in ListarClientes(DesativarCliente(t, id), hi) ==> e.id != id
    ensures forall k :: k in t && k != id ==> DesativarCliente(t, id)[k] == t[k]
    ensures DesativarCliente(DesativarCliente(t, id), id) == DesativarCliente(t, id)
  {
  }

  /** A deleted customer can no longer be updated. */
  lemma DesativadoNaoAtualiza(t: ClienteTable, id: int, d: ClienteDados)
    ensures AtualizarCliente(DesativarCliente(t, id), id, d) == DesativarCliente(t, id)
  {
  }

  /** The customer repository: one table and its identity counter. */
  class ClienteRepository {
    var clientes: ClienteTable
    var nextId: int

    ghost predicate Valid()
      reads this
    {
      nextId >= 1 && KeysBelow(clientes.Keys, nextId)
    }

    constructor ()
      ensures Valid() && clientes == map[] && nextId == 1
    {
      clientes := map[];
      nextId := 1;
    }

    function ListarTodos(): seq<ClienteRecord>
      reads this
      requires Valid()
    {
      ListarClientes(clientes, nextId)
    }

    function BuscarPorId(id: int): Option<ClienteRecord>
      reads this
    {
      ClientePorId(clientes, id)
    }

    function BuscarPorNome(nome: string): seq<ClienteRecord>
      reads this
      requires Valid()
    {
      ClientesPorNome(clientes, nextId, nome)
    }

    function BuscarPorCpfCnpj(cpfCnpj: string): seq<ClienteRecord>
      reads this
      requires Valid()
    {
      ClientesPorCpfCnpj(clientes, nextId, cpfCnpj)
    }

    function BuscarPorTelefone(telefone: string): seq<ClienteRecord>
      reads this
      requires Valid()
    {
      ClientesPorTelefone(clientes, nextId, telefone)
    }

    /** `criar`. `falha` is the error the database raises, if it rejects
        the INSERT (a UNIQUE constraint, say). */
    method Criar(n: NovoCliente, falha: Option<string>) returns (r: Result<ClienteRecord, string>)
      requires Valid()
      modifies this
      ensures Valid()
      ensures falha.Some? ==> r == Failure(falha.value) && clientes == old(clientes) && nextId == old(nextId)
      ensures falha.None? ==>
        && r == Success(Entry(old(nextId), LinhaCliente(n)))
        && clientes == InserirCliente(old(clientes), old(nextId), n)
        && nextId == old(nextId) + 1
    {
      if falha.Some? {
        return Failure(falha.value);
      }
      var id := nextId;
      clientes := InserirCliente(clientes, id, n);
      nextId := nextId + 1;
      r := Success(Entry(id, clientes[id]));
    }

    /** `atualizar`: returns the number of rows affected. */
    method Atualizar(id: int, d: ClienteDados) returns (linhas: int)
      requires Valid()
      modifies this
      ensures Valid() && nextId == old(nextId)
      ensures clientes == AtualizarCliente(old(clientes), id, d)
      ensures linhas == if id in old(clientes) && old(clientes)[id].ativo then 1 else 0
    {
      linhas := if id in clientes && clientes[id].ativo then 1 else 0;
      clientes := AtualizarCliente(clientes, id, d);
    }

    /** `deletar`: 1 for any existing id, active or not. */
    method Deletar(id: int) returns (linhas: int)
      requires Valid()
      modifies this
      ensures Valid() && nextId == old(nextId)
      ensures clientes == DesativarCliente(old(clientes), id)
      ensures linhas == if id in old(clientes) then 1 else 0
    {
      linhas := if id in clientes then 1 else 0;
      clientes := DesativarCliente(clientes, id);
    }
  }
}
