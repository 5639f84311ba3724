/** The Veiculos table and the statements the vehicle repository runs on it.
    Queries join each vehicle with its owner's row in Clientes. */
module VeiculoRepo {
  import opened Wrappers
  import opened Seqs
  import opened Text
  import opened Js
  import opened ClienteRepo

  /** A row of Veiculos, keyed by VeiculoId. */
  datatype Veiculo = Veiculo(
    clienteId: Option<int>,
    marca: string,
    modelo: string,
    motorizacao: Option<string>,
    anoModelo: Option<string>,
    placa: Option<string>,
    km: Option<int>,
    ativo: bool)

  type VeiculoTable = map<int, Veiculo>

  /** What the controller hands to `criar` and `atualizar`. */
  datatype VeiculoDados = VeiculoDados(
    clienteId: Num,
    marca: string,
    modelo: string,
    motorizacao: Option<string>,
    anoModelo: Option<string>,
    placa: Option<string>,
    km: Num)

  /** A result row: the vehicle plus ProprietarioNome and ProprietarioCpfCnpj
      from `LEFT JOIN Clientes c ON c.ClienteId = v.ClienteId`. */
  datatype VeiculoView = VeiculoView(
    veiculoId: int,
    veiculo: Veiculo,
    proprietarioNome: Option<string>,
    proprietarioCpfCnpj: Option<string>)

  /** The customer row `LEFT JOIN Clientes ON c.ClienteId = v.ClienteId`
      pairs a vehicle with, active or not: every row whose key equals the
      vehicle's owner is that match, a match is always such a row, and a
      NULL owner matches nothing. */
  function Dono(v: Veiculo, cs: ClienteTable): (r: Option<Cliente>)
    ensures forall k :: k in cs && v.clienteId == Some(k) ==> r == Some(cs[k])
    ensures r.Some? ==> exists k :: k in cs && v.clienteId == Some(k) && r.value == cs[k]
  {
    if v.clienteId.Some? && v.clienteId.value in cs then
      var k := v.clienteId.value;
      assert k in cs && v.clienteId == Some(k);
      Some(cs[k])
    else None
  }

  function Visao(id: int, v: Veiculo, cs: ClienteTable): (w: VeiculoView)
    ensures w.veiculoId == id && w.veiculo == v
  {
    match Dono(v, cs)
      case None => VeiculoView(id, v, None, None)
      case Some(c) => VeiculoView(id, v, Some(c.dados.nomeCompleto), Some(c.cpfCnpj))
  }

  function Visoes(es: seq<Entry<Veiculo>>, cs: ClienteTable): (r: seq<VeiculoView>)
    ensures |r| == |es|
    ensures forall i :: 0 <= i < |es| ==> r[i] == Visao(es[i].id, es[i].row, cs)
  {
    if es == [] then [] else [Visao(es[0].id, es[0].row, cs)] + Visoes(es[1..], cs)
  }

  lemma VisoesMembership(es: seq<Entry<Veiculo>>, cs: ClienteTable)
    requires NoDup(es)
    ensures forall w :: w in Visoes(es, cs) <==>
      Entry(w.veiculoId, w.veiculo) in es && w == Visao(w.veiculoId, w.veiculo, cs)
    ensures NoDup(Visoes(es, cs))
  {
    VisoesSound(es, cs);
    VisoesComplete(es, cs);
    var r := Visoes(es, cs);
    forall i, j | 0 <= i < j < |r|
      ensures r[i] != r[j]
    {
      assert es[i] != es[j];
    }
  }

  lemma VisoesSound(es: seq<Entry<Veiculo>>, cs: ClienteTable)
    ensures forall w :: w in Visoes(es, cs) ==>
      Entry(w.veiculoId, w.veiculo) in es && w == Visao(w.veiculoId, w.veiculo, cs)
  {
    var r := Visoes(es, cs);
    forall w | w in r
      ensures Entry(w.veiculoId, w.veiculo) in es && w == Visao(w.veiculoId, w.veiculo, cs)
    {
      var i :| 0 <= i < |r| && r[i] == w;
      assert es[i] == Entry(w.veiculoId, w.veiculo);
    }
  }

  lemma VisoesComplete(es: seq<Entry<Veiculo>>, cs: ClienteTable)
    ensures forall e :: e in es ==> Visao(e.id, e.row, cs) in Visoes(es, cs)
  {
    var r := Visoes(es, cs);
    forall e | e in es
      ensures Visao(e.id, e.row, cs) in r
    {
      var i :| 0 <= i < |es| && es[i] == e;
      assert r[i] == Visao(e.id, e.row, cs);
    }
  }

  /** A query over Veiculos: the rows satisfying `p`, joined with their
      owners and ordered by `key`. */
  function Consulta(t: VeiculoTable, cs: ClienteTable, hi: int, p: Veiculo -> bool, key: VeiculoView -> SortKey): (r: seq<VeiculoView>)
    requires KeysBelow(t.Keys, hi)
    ensures forall w :: w in r <==>
      w.veiculoId in t && p(t[w.veiculoId]) && w == Visao(w.veiculoId, t[w.veiculoId], cs)
    ensures SortedBy(r, key) && NoDup(r)
  {
    var es := Select(t, hi, p);
    var ws := Visoes(es, cs);
    VisoesMembership(es, cs);
    SortByNoDup(ws, key);
    SortBy(ws, key)
  }

  function MarcaKey(w: VeiculoView): SortKey
  {
    SortKey(0, w.veiculo.marca)
  }

  /** `ORDER BY v.Ativo DESC, v.Marca`. */
  function AtivoMarcaKey(w: VeiculoView): SortKey
  {
    SortKey(if w.veiculo.ativo then 0 else 1, w.veiculo.marca)
  }

  predicate VeiculoAtivo(v: Veiculo) { v.ativo }

  /** `listarTodos(ordem)`: the active vehicles ordered by Marca, descending
      only when `ordem` upper-cases to "DESC". */
  function ListarVeiculos(t: VeiculoTable, cs: ClienteTable, hi: int, ordem: string): (r: seq<VeiculoView>)
    requires KeysBelow(t.Keys, hi)
    ensures forall w :: w in r <==>
      w.veiculoId in t && t[w.veiculoId].ativo && w == Visao(w.veiculoId, t[w.veiculoId], cs)
    ensures NoDup(r)
    ensures Upper(ordem) == "DESC" ==> SortedDescBy(r, MarcaKey)
    ensures Upper(ordem) != "DESC" ==> SortedBy(r, MarcaKey)
  {
    var asc := Consulta(t, cs, hi, VeiculoAtivo, MarcaKey);
    if Upper(ordem) == "DESC" then
      ReverseSortedDesc(asc, MarcaKey);
      ReverseNoDup(asc);
      Reverse(asc)
    else asc
  }

  /** `buscarPorId`: active or inactive. */
  function VeiculoPorId(t: VeiculoTable, cs: ClienteTable, id: int): (r: Option<VeiculoView>)
    ensures r.Some? <==> id in t
    ensures r.Some? ==> r.value == Visao(id, t[id], cs)
  {
    if id in t then Some(Visao(id, t[id], cs)) else None
  }

  const SeparadoresPlaca: set<char> := {'-'} + Whitespace

  /** The search text of `buscarPorPlaca`: '-' and whitespace removed,
      upper-cased. */
  function NormalizarPlaca(placa: string): string
  {
    Upper(Remove(placa, SeparadoresPlaca))
  }

  /** `REPLACE(v.Placa, '-', '') LIKE '%x%'`; a NULL plate never matches. */
  predicate PlacaContem(v: Veiculo, x: string)
  {
    v.placa.Some? && Contains(Remove(v.placa.value, {'-'}), x)
  }

  /** `buscarPorPlaca`: active and inactive vehicles whose plate contains the
      search text; active rows first, then by Marca. */
  function VeiculosPorPlaca(t: VeiculoTable, cs: ClienteTable, hi: int, placa: string): (r: seq<VeiculoView>)
    requires KeysBelow(t.Keys, hi)
    ensures forall w :: w in r <==>
      w.veiculoId in t && PlacaContem(t[w.veiculoId], NormalizarPlaca(placa)) && w == Visao(w.veiculoId, t[w.veiculoId], cs)
    ensures SortedBy(r, AtivoMarcaKey) && NoDup(r)
    ensures forall i, j :: 0 <= i < j < |r| && r[j].veiculo.ativo ==> r[i].veiculo.ativo
  {
    var x := NormalizarPlaca(placa);
    Consulta(t, cs, hi, (v: Veiculo) => PlacaContem(v, x), AtivoMarcaKey)
  }

  const SeparadoresProprietario: set<char> := {'.', '-', '/'} + Whitespace

  /** `c.CpfCnpj = @cpfCnpj` through the INNER JOIN. */
  predicate DonoComDocumento(v: Veiculo, cs: ClienteTable, doc: string)
  {
    v.clienteId.Some? && v.clienteId.value in cs && cs[v.clienteId.value].cpfCnpj == doc
  }

  /** `buscarPorProprietario`: active vehicles whose owner's CpfCnpj equals
      the input with '.', '-', '/' and whitespace removed, by Marca. */
  function VeiculosPorProprietario(t: VeiculoTable, cs: ClienteTable, hi: int, cpfCnpj: string): (r: seq<VeiculoView>)
    requires KeysBelow(t.Keys, hi)
    ensures forall w :: w in r <==>
      w.veiculoId in t && t[w.veiculoId].ativo
      && DonoComDocumento(t[w.veiculoId], cs, Remove(cpfCnpj, SeparadoresProprietario))
      && w == Visao(w.veiculoId, t[w.veiculoId], cs)
    ensures forall w :: w in r ==>
      w.veiculo.ativo && w.veiculo.clienteId.Some?
      && w.proprietarioCpfCnpj == Some(Remove(cpfCnpj, SeparadoresProprietario))
    ensures SortedBy(r, MarcaKey) && NoDup(r)
  {
    var doc := Remove(cpfCnpj, SeparadoresProprietario);
    Consulta(t, cs, hi, (v: Veiculo) => v.ativo && DonoComDocumento(v, cs, doc), MarcaKey)
  }

  /** `buscarClientePorCpfCnpj`: the first active customer with the cleaned
      document, taken in identity order. */
  function ClientePorDocumento(cs: ClienteTable, hi: int, cpfCnpj: string): (r: Option<ClienteRecord>)
    requires KeysBelow(cs.Keys, hi)
    ensures r.None? <==>
      forall k :: k in cs ==> !(cs[k].ativo && cs[k].cpfCnpj == Remove(cpfCnpj, SeparadoresProprietario))
    ensures r.Some? ==>
      r.value.id in cs && r.value.row == cs[r.value.id] && r.value.row.ativo
      && r.value.row.cpfCnpj == Remove(cpfCnpj, SeparadoresProprietario)
      && forall k :: k in cs && cs[k].ativo && cs[k].cpfCnpj == r.value.row.cpfCnpj ==> r.value.id <= k
  {
    var doc := Remove(cpfCnpj, SeparadoresProprietario);
    var p := (c: Cliente) => c.ativo && c.cpfCnpj == doc;
    var s := Select(cs, hi, p);
    SelectBounds(cs, hi, p);
    if s == [] then None
    else
      assert s[0] in s;
      Some(s[0])
  }

  /** The SELECT after `criar`: `TOP 1 ... WHERE v.Placa = @placa ORDER BY
      v.VeiculoId DESC`. A NULL plate matches nothing. */
  function UltimoComPlaca(t: VeiculoTable, cs: ClienteTable, hi: int, placa: Option<string>): (r: Option<VeiculoView>)
    requires KeysBelow(t.Keys, hi)
    ensures r.None? <==> placa.None? || forall k :: k in t ==> t[k].placa != placa
    ensures r.Some? ==>
      r.value.veiculoId in t && r.value == Visao(r.value.veiculoId, t[r.value.veiculoId], cs)
      && t[r.value.veiculoId].placa == placa
      && forall k :: k in t && t[k].placa == placa ==> k <= r.value.veiculoId
  {
    if placa.None? then None
    else
      var p := (v: Veiculo) => v.placa == placa;
      var s := Select(t, hi, p);
      SelectBounds(t, hi, p);
      if s == [] then None
      else
        var e := s[|s| - 1];
        assert e in s;
        Some(Visao(e.id, e.row, cs))
  }

  /** The row `criar` inserts for an owner id already bound. */
  function LinhaVeiculo(d: VeiculoDados, clienteId: Option<int>): Veiculo
  {
    Veiculo(clienteId, Upper(d.marca), Upper(d.modelo), MapTruthy(d.motorizacao, Upper),
            OrNull(d.anoModelo), MapTruthy(d.placa, Upper), IntOrNull(d.km), true)
  }

  /** The columns `atualizar` rewrites; Ativo is kept. */
  function VeiculoAtualizado(v: Veiculo, d: VeiculoDados): Veiculo
  {
    v.(clienteId := IntOrNull(d.clienteId), marca := Upper(d.marca), modelo := Upper(d.modelo),
       motorizacao := MapTruthy(d.motorizacao, Upper), anoModelo := OrNull(d.anoModelo),
       placa := MapTruthy(d.placa, Upper), km := IntOrNull(d.km))
  }

  /** `UPDATE ... WHERE VeiculoId = @id AND Ativo = 1`. */
  function AtualizarVeiculo(t: VeiculoTable, id: int, d: VeiculoDados): VeiculoTable
  {
    if id in t && t[id].ativo then t[id := VeiculoAtualizado(t[id], d)] else t
  }

  /** `UPDATE ... SET Ativo = 0, ClienteId = NULL WHERE VeiculoId = @id`. */
  function InativarVeiculo(t: VeiculoTable, id: int): VeiculoTable
  {
    if id in t then t[id := t[id].(ativo := false, clienteId := None)] else t
  }

  /** `UPDATE ... SET Ativo = 1, ClienteId = @clienteId WHERE VeiculoId = @id`. */
  function ReativarVeiculo(t: VeiculoTable, id: int, clienteId: Option<int>): VeiculoTable
  {
    if id in t then t[id := t[id].(ativo := true, clienteId := clienteId)] else t
  }

  /** Every inactive vehicle has had its owner cleared. */
  predicate InativosSemDono(t: VeiculoTable)
  {
    forall k :: k in t && !t[k].ativo ==> t[k].clienteId.None?
  }

  /** Each statement keeps inactive vehicles ownerless. */
  lemma InativosSemDonoPreservado(t: VeiculoTable, id: int, d: VeiculoDados, c: Option<int>, o: Option<int>)
    requires InativosSemDono(t)
    ensures id !in t ==> InativosSemDono(t[id := LinhaVeiculo(d, o)])
    ensures InativosSemDono(AtualizarVeiculo(t, id, d))
    ensures InativosSemDono(InativarVeiculo(t, id))
    ensures InativosSemDono(ReativarVeiculo(t, id, c))
  {
  }

  /** A plain update without an owner leaves an active vehicle ownerless:
      an active vehicle does not always have an owner. */
  lemma AtualizarSemDono(t: VeiculoTable, id: int, d: VeiculoDados)
    requires id in t && t[id].ativo && !d.clienteId.Int?
    ensures AtualizarVeiculo(t, id, d)[id].ativo
    ensures AtualizarVeiculo(t, id, d)[id].clienteId.None?
  {
  }

  /** Updating an inactive or missing vehicle changes nothing, and the
      select-back then shows the stored row. */
  lemma AtualizarInativoNoop(t: VeiculoTable, cs: ClienteTable, id: int, d: VeiculoDados)
    requires !(id in t && t[id].ativo)
    ensures AtualizarVeiculo(t, id, d) == t
    ensures VeiculoPorId(AtualizarVeiculo(t, id, d), cs, id) == VeiculoPorId(t, cs, id)
  {
  }

  /** Inactivation: the row stays, found by id, gone from the listing and
      from the owner search, the other rows untouched; doing it twice is
      doing it once. */
  lemma InativarEfeito(t: VeiculoTable, cs: ClienteTable, hi: int, id: int, ordem: string, doc: string)
    requires KeysBelow(t.Keys, hi) && id in t
    ensures InativarVeiculo(t, id).Keys == t.Keys
    ensures forall k :: k in t && k != id ==> InativarVeiculo(t, id)[k] == t[k]
    ensures VeiculoPorId(InativarVeiculo(t, id), cs, id) == Some(VeiculoView(id, t[id].(ativo := false, clienteId := None), None, None))
    ensures forall w :: w in ListarVeiculos(InativarVeiculo(t, id), cs, hi, ordem) ==> w.veiculoId != id
    ensures forall w :: w in VeiculosPorProprietario(InativarVeiculo(t, id), cs, hi, doc) ==> w.veiculoId != id
    ensures InativarVeiculo(InativarVeiculo(t, id), id) == InativarVeiculo(t, id)
  {
  }

  /** Reactivation after inactivation restores every column except the
      owner, which becomes the one given. */
  lemma ReativarRestaura(t: VeiculoTable, id: int, c: Option<int>)
    requires id in t
    ensures ReativarVeiculo(InativarVeiculo(t, id), id, c) == t[id := t[id].(ativo := true, clienteId := c)]
  {
  }

  /** After `criar` with a plate, the select-back returns the inserted row:
      the new id is the largest. */
  lemma CriarDevolveInserido(t: VeiculoTable, cs: ClienteTable, hi: int, d: VeiculoDados, o: Option<int>)
    requires hi >= 1 && KeysBelow(t.Keys, hi) && Truthy(d.placa)
    ensures KeysBelow(t[hi := LinhaVeiculo(d, o)].Keys, hi + 1)
    ensures UltimoComPlaca(t[hi := LinhaVeiculo(d, o)], cs, hi + 1, LinhaVeiculo(d, o).placa) == Some(Visao(hi, LinhaVeiculo(d, o), cs))
  {
    var t' := t[hi := LinhaVeiculo(d, o)];
    var r := UltimoComPlaca(t', cs, hi + 1, LinhaVeiculo(d, o).placa);
    assert hi in t' && t'[hi].placa == LinhaVeiculo(d, o).placa;
    assert r.value.veiculoId == hi;
  }

  /** The vehicle repository; it reads the customer table for its joins. */
  class VeiculoRepository {
    var veiculos: VeiculoTable
    var nextId: int
    const clientes: ClienteRepository

    ghost predicate Valid()
      reads this
    {
      nextId >= 1 && KeysBelow(veiculos.Keys, nextId)
    }

    constructor (clientes: ClienteRepository)
      ensures Valid() && veiculos == map[] && nextId == 1 && this.clientes == clientes
    {
      veiculos := map[];
      nextId := 1;
      this.clientes := clientes;
    }

    function ListarTodos(ordem: string): seq<VeiculoView>
      reads this, clientes
      requires Valid()
    {
      ListarVeiculos(veiculos, clientes.clientes, nextId, ordem)
    }

    function BuscarPorId(id: int): Option<VeiculoView>
      reads this, clientes
    {
      VeiculoPorId(veiculos, clientes.clientes, id)
    }

    function BuscarPorPlaca(placa: string): seq<VeiculoView>
      reads this, clientes
      requires Valid()
    {
      VeiculosPorPlaca(veiculos, clientes.clientes, nextId, placa)
    }

    function BuscarPorProprietario(cpfCnpj: string): seq<VeiculoView>
      reads this, clientes
      requires Valid()
    {
      VeiculosPorProprietario(veiculos, clientes.clientes, nextId, cpfCnpj)
    }

    function BuscarClientePorCpfCnpj(cpfCnpj: string): Option<ClienteRecord>
      reads clientes
      requires clientes.Valid()
    {
      ClientePorDocumento(clientes.clientes, clientes.nextId, cpfCnpj)
    }

    /** `criar`: binding a NaN owner id fails before anything is written;
        otherwise the row is inserted and read back by its plate. */
    method Criar(d: VeiculoDados) returns (r: Result<Option<VeiculoView>, string>)
      requires Valid()
      modifies this
      ensures Valid()
      ensures r.Failure? <==> d.clienteId.NaN?
      ensures r.Failure? ==> veiculos == old(veiculos) && nextId == old(nextId)
      ensures r.Success? ==>
        && veiculos == old(veiculos)[old(nextId) := LinhaVeiculo(d, SqlInt(d.clienteId).value)]
        && nextId == old(nextId) + 1
        && r.value == UltimoComPlaca(veiculos, clientes.clientes, nextId, LinhaVeiculo(d, SqlInt(d.clienteId).value).placa)
    {
      var dono := SqlInt(d.clienteId);
      if dono.Failure? {
        return Failure(dono.error);
      }
      var linha := LinhaVeiculo(d, dono.value);
      veiculos := veiculos[nextId := linha];
      nextId := nextId + 1;
      r := Success(UltimoComPlaca(veiculos, clientes.clientes, nextId, linha.placa));
    }

    /** `atualizar`: the UPDATE, then the row read back by id. */
    method Atualizar(id: int, d: VeiculoDados) returns (r: Option<VeiculoView>)
      requires Valid()
      modifies this
      ensures Valid() && nextId == old(nextId)
      ensures veiculos == AtualizarVeiculo(old(veiculos), id, d)
      ensures r == VeiculoPorId(veiculos, clientes.clientes, id)
    {
      veiculos := AtualizarVeiculo(veiculos, id, d);
      r := VeiculoPorId(veiculos, clientes.clientes, id);
    }

    /** `inativar`: rows affected, whatever the row's state. */
    method Inativar(id: int) returns (linhas: int)
      requires Valid()
      modifies this
      ensures Valid() && nextId == old(nextId)
      ensures veiculos == InativarVeiculo(old(veiculos), id)
      ensures linhas == if id in old(veiculos) then 1 else 0
    {
      linhas := if id in veiculos then 1 else 0;
      veiculos := InativarVeiculo(veiculos, id);
    }

    /** `reativar`: a NaN owner id fails in the binding; otherwise the row
        is reactivated with that owner and read back. */
    method Reativar(id: int, clienteId: Num) returns (r: Result<Option<VeiculoView>, string>)
      requires Valid()
      modifies this
      ensures Valid() && nextId == old(nextId)
      ensures r.Failure? <==> clienteId.NaN?
      ensures r.Failure? ==> veiculos == old(veiculos)
      ensures r.Success? ==>
        veiculos == ReativarVeiculo(old(veiculos), id, SqlInt(clienteId).value)
        && r.value == VeiculoPorId(veiculos, clientes.clientes, id)
    {
      var dono := SqlInt(clienteId);
      if dono.Failure? {
        return Failure(dono.error);
      }
      veiculos := ReativarVeiculo(veiculos, id, dono.value);
      r := Success(VeiculoPorId(veiculos, clientes.clientes, id));
    }
  }
}
