/** The vehicle handlers: each runs its guard chain on the request, answers
    400 or 404 on the first failed check, and otherwise makes its calls to
    the vehicle repository. */
module VeiculoCtl {
  import opened Wrappers
  import opened Seqs
  import opened Text
  import opened Js
  import opened Http
  import opened ClienteRepo
  import opened VeiculoRepo

  /** The JSON body of a create or update request. */
  datatype VeiculoBody = VeiculoBody(
    clienteId: Option<string>,
    marca: Option<string>,
    modelo: Option<string>,
    motorizacao: Option<string>,
    anoModelo: Option<string>,
    placa: Option<string>,
    km: Option<string>)

  const ErroProprietario: string := "Proprietário é obrigatório"
  const ErroMarca: string := "Marca é obrigatória"
  const ErroModelo: string := "Modelo é obrigatório"
  const ErroPlacaObrigatoria: string := "Placa é obrigatória"
  const ErroPlacaInvalida: string := "Placa inválida. Use formato ABC1234 ou ABC1D23"
  const ErroKm: string := "Km deve ser um número positivo"
  const NaoEncontrado: string := "Veículo não encontrado"
  const JaInativo: string := "Veículo já está inativo"
  const Inativado: string := "Veículo inativado com sucesso"
  const ErroProprietarioReativar: string := "Proprietário é obrigatório para reativar"
  const ErroParametros: string := "Parâmetros tipo e valor são obrigatórios"
  const ErroTipoBusca: string := "Tipo de busca inválido. Use: placa ou proprietario"
  const ErroCpfCnpjObrigatorio: string := "CPF/CNPJ é obrigatório"
  const ErroCpfCnpjTamanho: string := "CPF deve ter 11 dígitos ou CNPJ 14 dígitos"
  const ClienteNaoEncontrado: string := "Cliente não encontrado ou inativo"

  /** `!x || x.trim() === ''`. */
  predicate Faltando(o: Option<string>)
  {
    !Truthy(o) || Blank(o.value)
  }

  predicate Letra(c: char) { 'A' <= c <= 'Z' }

  /** `/^[A-Z]{3}[0-9]{4}$/`. */
  predicate PlacaAntiga(p: string)
  {
    |p| == 7 && Letra(p[0]) && Letra(p[1]) && Letra(p[2])
    && IsDigit(p[3]) && IsDigit(p[4]) && IsDigit(p[5]) && IsDigit(p[6])
  }

  /** `/^[A-Z]{3}[0-9]{1}[A-Z]{1}[0-9]{2}$/`. */
  predicate PlacaMercosul(p: string)
  {
    |p| == 7 && Letra(p[0]) && Letra(p[1]) && Letra(p[2])
    && IsDigit(p[3]) && Letra(p[4]) && IsDigit(p[5]) && IsDigit(p[6])
  }

  predicate PlacaValida(p: string)
  {
    PlacaAntiga(p) || PlacaMercosul(p)
  }

  /** Plate characters, in either case, are not separators; upper-casing
      keeps the digits and the capitals. */
  lemma CaracterePlaca(c: char)
    requires Letra(c) || IsDigit(c) || 'a' <= c <= 'z'
    ensures c !in SeparadoresPlaca
    ensures Letra(c) || IsDigit(c) ==> UpperChar(c) == c
    ensures 'a' <= c <= 'z' ==> Letra(UpperChar(c))
  {
  }

  /** Separators are not letters, and no upper-cased letter is a separator. */
  lemma SeparadoresSemLetras()
    ensures forall c :: c in SeparadoresPlaca ==> !IsLowerLetter(c)
    ensures forall c :: IsLowerLetter(c) ==> UpperChar(c) !in SeparadoresPlaca
  {
  }

  /** Letters of either case and digits are never removed. */
  lemma RemoveSemSeparadores(p: string)
    requires forall i :: 0 <= i < |p| ==> Letra(p[i]) || IsDigit(p[i]) || 'a' <= p[i] <= 'z'
    ensures Remove(p, SeparadoresPlaca) == p
  {
    forall i | 0 <= i < |p|
      ensures p[i] !in SeparadoresPlaca
    {
      CaracterePlaca(p[i]);
    }
    RemoveSpec(p, SeparadoresPlaca);
  }

  lemma SemSeparadores(p: string)
    requires forall i :: 0 <= i < |p| ==> Letra(p[i]) || IsDigit(p[i])
    ensures Remove(p, SeparadoresPlaca) == p && NormalizarPlaca(p) == p
  {
    RemoveSemSeparadores(p);
    forall i | 0 <= i < |p|
      ensures UpperChar(p[i]) == p[i]
    {
      CaracterePlaca(p[i]);
    }
  }

  /** The two plate formats never both match: they differ at the fifth
      character. A valid plate is already normalised. */
  lemma PlacaFormatos(p: string)
    ensures !(PlacaAntiga(p) && PlacaMercosul(p))
    ensures PlacaValida(p) ==> NormalizarPlaca(p) == p
  {
    if PlacaValida(p) {
      SemSeparadores(p);
    }
  }

  /** Normalising twice is normalising once. */
  lemma NormalizarPlacaIdempotente(p: string)
    ensures NormalizarPlaca(NormalizarPlaca(p)) == NormalizarPlaca(p)
  {
    var r := Remove(p, SeparadoresPlaca);
    RemoveSpec(p, SeparadoresPlaca);
    SeparadoresSemLetras();
    UpperRemoveCommute(r, SeparadoresPlaca);
    UpperIdempotent(r);
  }

  lemma HifenSozinho()
    ensures Remove("-", SeparadoresPlaca) == []
  {
  }

  /** One hyphen between two runs of plate characters is dropped. */
  lemma HifenRemovido(a: string, b: string)
    requires forall i :: 0 <= i < |a| ==> Letra(a[i]) || IsDigit(a[i])
    requires forall i :: 0 <= i < |b| ==> Letra(b[i]) || IsDigit(b[i])
    ensures Remove(a + "-" + b, SeparadoresPlaca) == a + b
  {
    SemSeparadores(a);
    SemSeparadores(b);
    HifenSozinho();
    assert Remove(a + "-", SeparadoresPlaca) == a by {
      RemoveConcat(a, "-", SeparadoresPlaca);
    }
    RemoveConcat(a + "-", b, SeparadoresPlaca);
  }

  lemma PlacaExemplos()
    ensures NormalizarPlaca("ABC-1234") == "ABC1234"
    ensures NormalizarPlaca("abc1234") == "ABC1234"
    ensures PlacaAntiga("ABC1234")
    ensures PlacaMercosul("ABC1D23") && NormalizarPlaca("ABC1D23") == "ABC1D23"
    ensures NormalizarPlaca("ABCD123") == "ABCD123" && !PlacaValida("ABCD123")
  {
    ExemploHifen();
    ExemploMinusculas();
    ExemploMercosul();
    ExemploInvalida();
  }

  lemma ExemploMinusculas()
    ensures NormalizarPlaca("abc1234") == "ABC1234"
  {
    RemoveSemSeparadores("abc1234");
    MaiusculasExemplo();
  }

  lemma MaiusculasExemplo()
    ensures Upper("abc1234") == "ABC1234"
  {
    var p := "abc1234";
    var u := Upper(p);
    assert u[0] == UpperChar('a') == 'A' && u[1] == UpperChar('b') == 'B' && u[2] == UpperChar('c') == 'C';
    assert u[3] == UpperChar('1') && u[4] == UpperChar('2') && u[5] == UpperChar('3') && u[6] == UpperChar('4');
  }

  lemma ExemploMercosul()
    ensures PlacaMercosul("ABC1D23") && NormalizarPlaca("ABC1D23") == "ABC1D23"
  {
    SemSeparadores("ABC1D23");
  }

  lemma ExemploInvalida()
    ensures NormalizarPlaca("ABCD123") == "ABCD123" && !PlacaValida("ABCD123")
  {
    SemSeparadores("ABCD123");
  }

  lemma ExemploHifen()
    ensures NormalizarPlaca("ABC-1234") == "ABC1234"
  {
    HifenRemovido("ABC", "1234");
    assert "ABC" + "-" + "1234" == "ABC-1234";
    assert "ABC" + "1234" == "ABC1234";
    SemSeparadores("ABC1234");
  }

  /** A normalised plate has no separator and no lower-case letter left. */
  lemma NormalizadaLimpa(p: string)
    ensures forall i :: 0 <= i < |NormalizarPlaca(p)| ==>
      NormalizarPlaca(p)[i] !in SeparadoresPlaca && !IsLowerLetter(NormalizarPlaca(p)[i])
  {
    var r := Remove(p, SeparadoresPlaca);
    RemoveSpec(p, SeparadoresPlaca);
    SeparadoresSemLetras();
    UpperIdempotent(r);
    forall i | 0 <= i < |r| ensures r[i] !in SeparadoresPlaca {
      assert r[i] in r;
    }
  }

  /** A km that is present must read as a non-negative integer. */
  predicate KmAceito(km: Option<string>)
  {
    !Truthy(km) || (ParseInt(km.value).Int? && ParseInt(km.value).value >= 0)
  }

  /** `km ? parseInt(km) : null`. */
  function KmParaGravar(km: Option<string>): Num
  {
    if Truthy(km) then ParseInt(km.value) else Null
  }

  /** The sequence of create checks, in order. */
  function ValidarCriacao(b: VeiculoBody): (r: Result<VeiculoDados, string>)
    ensures r.Success? <==>
      Truthy(b.clienteId) && !Faltando(b.marca) && !Faltando(b.modelo) && !Faltando(b.placa)
      && PlacaValida(NormalizarPlaca(b.placa.value)) && KmAceito(b.km)
    ensures r.Success? ==>
      && r.value.clienteId == ParseInt(b.clienteId.value)
      && r.value.marca == Trim(b.marca.value) && r.value.modelo == Trim(b.modelo.value)
      && r.value.placa == Some(NormalizarPlaca(b.placa.value)) && PlacaValida(r.value.placa.value)
      && r.value.motorizacao == MapTruthy(b.motorizacao, Trim)
      && r.value.anoModelo == MapTruthy(b.anoModelo, Trim)
      && (!Truthy(b.km) ==> r.value.km == Null)
      && (Truthy(b.km) ==> r.value.km.Int? && r.value.km.value >= 0 && r.value.km == ParseInt(b.km.value))
  {
    if !Truthy(b.clienteId) then Failure(ErroProprietario)
    else if Faltando(b.marca) then Failure(ErroMarca)
    else if Faltando(b.modelo) then Failure(ErroModelo)
    else if Faltando(b.placa) then Failure(ErroPlacaObrigatoria)
    else if !PlacaValida(NormalizarPlaca(b.placa.value)) then Failure(ErroPlacaInvalida)
    else if !KmAceito(b.km) then Failure(ErroKm)
    else Success(VeiculoDados(
      ParseInt(b.clienteId.value), Trim(b.marca.value), Trim(b.modelo.value),
      MapTruthy(b.motorizacao, Trim), MapTruthy(b.anoModelo, Trim),
      Some(NormalizarPlaca(b.placa.value)), KmParaGravar(b.km)))
  }

  /** The first failed create check decides the message. */
  lemma OrdemCriacao(b: VeiculoBody)
    ensures !Truthy(b.clienteId) ==> ValidarCriacao(b) == Failure(ErroProprietario)
    ensures Truthy(b.clienteId) && Faltando(b.marca) ==> ValidarCriacao(b) == Failure(ErroMarca)
    ensures Truthy(b.clienteId) && !Faltando(b.marca) && Faltando(b.modelo) ==> ValidarCriacao(b) == Failure(ErroModelo)
    ensures (Truthy(b.clienteId) && !Faltando(b.marca) && !Faltando(b.modelo) && Faltando(b.placa))
      ==> ValidarCriacao(b) == Failure(ErroPlacaObrigatoria)
    ensures (Truthy(b.clienteId) && !Faltando(b.marca) && !Faltando(b.modelo) && !Faltando(b.placa)
      && !PlacaValida(NormalizarPlaca(b.placa.value))) ==> ValidarCriacao(b) == Failure(ErroPlacaInvalida)
    ensures (Truthy(b.clienteId) && !Faltando(b.marca) && !Faltando(b.modelo) && !Faltando(b.placa)
      && PlacaValida(NormalizarPlaca(b.placa.value)) && !KmAceito(b.km)) ==> ValidarCriacao(b) == Failure(ErroKm)
  {
  }

  /** The update checks: marca and modelo, a plate only when one is given,
      and the km. The owner becomes null when none is sent. */
  function ValidarAtualizacao(b: VeiculoBody): (r: Result<VeiculoDados, string>)
    ensures r.Success? <==>
      !Faltando(b.marca) && !Faltando(b.modelo)
      && (Faltando(b.placa) || PlacaValida(NormalizarPlaca(b.placa.value))) && KmAceito(b.km)
    ensures Faltando(b.marca) ==> r == Failure(ErroMarca)
    ensures !Faltando(b.marca) && Faltando(b.modelo) ==> r == Failure(ErroModelo)
    ensures (!Faltando(b.marca) && !Faltando(b.modelo) && !Faltando(b.placa)
      && !PlacaValida(NormalizarPlaca(b.placa.value))) ==> r == Failure(ErroPlacaInvalida)
    ensures (!Faltando(b.marca) && !Faltando(b.modelo)
      && (Faltando(b.placa) || PlacaValida(NormalizarPlaca(b.placa.value))) && !KmAceito(b.km)) ==> r == Failure(ErroKm)
    ensures r.Success? ==>
      && (Truthy(b.clienteId) ==> r.value.clienteId == ParseInt(b.clienteId.value))
      && (!Truthy(b.clienteId) ==> r.value.clienteId == Null)
      && r.value.marca == Trim(b.marca.value) && r.value.modelo == Trim(b.modelo.value)
      && r.value.placa == MapTruthy(b.placa, NormalizarPlaca)
      && r.value.motorizacao == MapTruthy(b.motorizacao, Trim)
      && r.value.anoModelo == MapTruthy(b.anoModelo, Trim)
      && (!Truthy(b.km) ==> r.value.km == Null)
      && (Truthy(b.km) ==> r.value.km.Int? && r.value.km.value >= 0 && r.value.km == ParseInt(b.km.value))
  {
    if Faltando(b.marca) then Failure(ErroMarca)
    else if Faltando(b.modelo) then Failure(ErroModelo)
    else if !Faltando(b.placa) && !PlacaValida(NormalizarPlaca(b.placa.value)) then Failure(ErroPlacaInvalida)
    else if !KmAceito(b.km) then Failure(ErroKm)
    else Success(VeiculoDados(
      if Truthy(b.clienteId) then ParseInt(b.clienteId.value) else Null,
      Trim(b.marca.value), Trim(b.modelo.value),
      MapTruthy(b.motorizacao, Trim), MapTruthy(b.anoModelo, Trim),
      MapTruthy(b.placa, NormalizarPlaca), KmParaGravar(b.km)))
  }

  /** The km rule is the same on create and update. */
  lemma KmMesmaRegra(b: VeiculoBody)
    requires ValidarCriacao(b).Success? || ValidarAtualizacao(b).Success?
    ensures KmAceito(b.km)
    ensures !Truthy(b.km) || (ParseInt(b.km.value).Int? && ParseInt(b.km.value).value >= 0)
  {
  }

  /** `listarTodos`: `ordem || 'ASC'`. */
  function ListarTodos(repo: VeiculoRepository, ordem: Option<string>): (r: Response<seq<VeiculoView>>)
    reads repo, repo.clientes
    requires repo.Valid()
    ensures r.Ok? && r.status == 200
    ensures Truthy(ordem) ==> r.body == ListarVeiculos(repo.veiculos, repo.clientes.clientes, repo.nextId, ordem.value)
    ensures !Truthy(ordem) ==> r.body == ListarVeiculos(repo.veiculos, repo.clientes.clientes, repo.nextId, "ASC")
    ensures !Truthy(ordem) ==> SortedBy(r.body, MarcaKey)
  {
    Ok(200, repo.ListarTodos(if Truthy(ordem) then ordem.value else "ASC"))
  }

  /** `buscar`: tipo and valor required, tipo `placa` or `proprietario`. */
  function Buscar(repo: VeiculoRepository, tipo: Option<string>, valor: Option<string>): (r: Response<seq<VeiculoView>>)
    reads repo, repo.clientes
    requires repo.Valid()
    ensures r.Erro? <==> !Truthy(tipo) || !Truthy(valor) || (tipo.value != "placa" && tipo.value != "proprietario")
    ensures r.Erro? ==> r.status == 400
    ensures !Truthy(tipo) || !Truthy(valor) ==> r == Erro(400, ErroParametros)
    ensures (Truthy(tipo) && Truthy(valor) && tipo.value != "placa" && tipo.value != "proprietario") ==>
      r == Erro(400, ErroTipoBusca)
    ensures r.Ok? ==> r.status == 200
    ensures r.Ok? && tipo.value == "placa" ==>
      r == Ok(200, VeiculosPorPlaca(repo.veiculos, repo.clientes.clientes, repo.nextId, valor.value))
    ensures r.Ok? && tipo.value == "proprietario" ==>
      r == Ok(200, VeiculosPorProprietario(repo.veiculos, repo.clientes.clientes, repo.nextId, valor.value))
  {
    if !Truthy(tipo) || !Truthy(valor) then Erro(400, ErroParametros)
    else if tipo.value == "placa" then Ok(200, repo.BuscarPorPlaca(valor.value))
    else if tipo.value == "proprietario" then Ok(200, repo.BuscarPorProprietario(valor.value))
    else Erro(400, ErroTipoBusca)
  }

  /** `buscarPorId`: 404 only when no row has that id, active or not. */
  function BuscarPorId(repo: VeiculoRepository, id: string): (r: Response<VeiculoView>)
    reads repo, repo.clientes
    ensures r == Erro(400, IdInvalido) <==> ParseInt(id).NaN?
    ensures r.Erro? && r.status == 404 <==> ParseInt(id).Int? && ParseInt(id).value !in repo.veiculos
    ensures r.Ok? ==>
      r.status == 200 && r.body.veiculoId == ParseInt(id).value
      && r.body == Visao(r.body.veiculoId, repo.veiculos[r.body.veiculoId], repo.clientes.clientes)
  {
    var n := ParseInt(id);
    if n.NaN? then Erro(400, IdInvalido)
    else match repo.BuscarPorId(n.value)
      case None => Erro(404, NaoEncontrado)
      case Some(v) => Ok(200, v)
  }

  /** The document length rule shared by the owner lookup and the customer
      handlers. */
  predicate TamanhoDocumento(doc: string)
  {
    |doc| == 11 || |doc| == 14
  }

  /** `buscarCliente`: required, '.', '-', '/' and whitespace removed, 11 or
      14 characters, then an active customer with that document. */
  function BuscarCliente(repo: VeiculoRepository, cpfCnpj: Option<string>): (r: Response<ClienteRecord>)
    reads repo.clientes
    requires repo.clientes.Valid()
    ensures !Truthy(cpfCnpj) ==> r == Erro(400, ErroCpfCnpjObrigatorio)
    ensures Truthy(cpfCnpj) && !TamanhoDocumento(Remove(cpfCnpj.value, SeparadoresProprietario)) ==>
      r == Erro(400, ErroCpfCnpjTamanho)
    ensures r.Erro? && r.status == 404 <==>
      Truthy(cpfCnpj) && TamanhoDocumento(Remove(cpfCnpj.value, SeparadoresProprietario))
      && forall k :: k in repo.clientes.clientes ==>
        !(repo.clientes.clientes[k].ativo && repo.clientes.clientes[k].cpfCnpj == Remove(cpfCnpj.value, SeparadoresProprietario))
    ensures r.Ok? ==>
      r.status == 200 && r.body.row.ativo && TamanhoDocumento(r.body.row.cpfCnpj)
      && r.body.row.cpfCnpj == Remove(cpfCnpj.value, SeparadoresProprietario)
    ensures r.Ok? ==>
      r.body.id in repo.clientes.clientes && r.body.row == repo.clientes.clientes[r.body.id]
      && forall k :: k in repo.clientes.clientes && k < r.body.id ==>
        !(repo.clientes.clientes[k].ativo && repo.clientes.clientes[k].cpfCnpj == r.body.row.cpfCnpj)
    ensures (Truthy(cpfCnpj) && TamanhoDocumento(Remove(cpfCnpj.value, SeparadoresProprietario))) ==>
      (r.Erro? && r.status == 404 <==>
        ClientePorDocumento(repo.clientes.clientes, repo.clientes.nextId, Remove(cpfCnpj.value, SeparadoresProprietario)).None?)
    ensures r.Ok? ==>
      r.body == ClientePorDocumento(repo.clientes.clientes, repo.clientes.nextId, Remove(cpfCnpj.value, SeparadoresProprietario)).value
  {
    if !Truthy(cpfCnpj) then Erro(400, ErroCpfCnpjObrigatorio)
    else
      var limpo := Remove(cpfCnpj.value, SeparadoresProprietario);
      if !TamanhoDocumento(limpo) then Erro(400, ErroCpfCnpjTamanho)
      else
        RemoveSpec(cpfCnpj.value, SeparadoresProprietario);
        match repo.BuscarClientePorCpfCnpj(limpo)
          case None => Erro(404, ClienteNaoEncontrado)
          case Some(c) => Ok(200, c)
  }

  /** The insert and the answer of `criar`, once the body has passed: a
      NaN owner id makes the insert fail, which answers 500; otherwise
      201 with the row read back by its plate. */
  method GravarNovo(repo: VeiculoRepository, d: VeiculoDados) returns (resp: Response<VeiculoView>)
    requires repo.Valid() && Truthy(d.placa)
    modifies repo
    ensures repo.Valid()
    ensures d.clienteId.NaN? ==>
      resp == Erro(500, ErroInterno) && repo.veiculos == old(repo.veiculos) && repo.nextId == old(repo.nextId)
    ensures !d.clienteId.NaN? ==>
      var linha := LinhaVeiculo(d, SqlInt(d.clienteId).value);
      && repo.veiculos == old(repo.veiculos)[old(repo.nextId) := linha]
      && repo.nextId == old(repo.nextId) + 1
      && resp == Ok(201, Visao(old(repo.nextId), linha, repo.clientes.clientes))
  {
    var t0, hi := repo.veiculos, repo.nextId;
    var r := repo.Criar(d);
    if r.Failure? {
      return Erro(500, ErroInterno);
    }
    CriarDevolveInserido(t0, repo.clientes.clientes, hi, d, SqlInt(d.clienteId).value);
    resp := Ok(201, r.value.value);
  }

  /** `criar`: the checks, then one insert. */
  method Criar(repo: VeiculoRepository, b: VeiculoBody) returns (resp: Response<VeiculoView>)
    requires repo.Valid()
    modifies repo
    ensures repo.Valid()
    ensures ValidarCriacao(b).Failure? ==>
      resp == Erro(400, ValidarCriacao(b).error) && repo.veiculos == old(repo.veiculos) && repo.nextId == old(repo.nextId)
    ensures ValidarCriacao(b).Success? && ValidarCriacao(b).value.clienteId.NaN? ==>
      resp == Erro(500, ErroInterno) && repo.veiculos == old(repo.veiculos) && repo.nextId == old(repo.nextId)
    ensures ValidarCriacao(b).Success? && ValidarCriacao(b).value.clienteId.Int? ==>
      var d := ValidarCriacao(b).value;
      var linha := LinhaVeiculo(d, Some(d.clienteId.value));
      && repo.veiculos == old(repo.veiculos)[old(repo.nextId) := linha]
      && repo.nextId == old(repo.nextId) + 1
      && resp == Ok(201, Visao(old(repo.nextId), linha, repo.clientes.clientes))
  {
    var v := ValidarCriacao(b);
    if v.Failure? {
      return Erro(400, v.error);
    }
    resp := GravarNovo(repo, v.value);
  }

  /** `atualizar`: id, then the body checks, then existence (active or
      not), then the update and its select-back. */
  method Atualizar(repo: VeiculoRepository, id: string, b: VeiculoBody) returns (resp: Response<VeiculoView>)
    requires repo.Valid()
    modifies repo
    ensures repo.Valid()
    ensures ParseInt(id).NaN? ==> resp == Erro(400, IdInvalido) && repo.veiculos == old(repo.veiculos) && repo.nextId == old(repo.nextId)
    ensures ParseInt(id).Int? && ValidarAtualizacao(b).Failure? ==>
      resp == Erro(400, ValidarAtualizacao(b).error) && repo.veiculos == old(repo.veiculos) && repo.nextId == old(repo.nextId)
    ensures ParseInt(id).Int? && ValidarAtualizacao(b).Success? && ParseInt(id).value !in old(repo.veiculos) ==>
      resp == Erro(404, NaoEncontrado) && repo.veiculos == old(repo.veiculos) && repo.nextId == old(repo.nextId)
    ensures ParseInt(id).Int? && ValidarAtualizacao(b).Success? && ParseInt(id).value in old(repo.veiculos) ==>
      var n := ParseInt(id).value;
      && repo.veiculos == AtualizarVeiculo(old(repo.veiculos), n, ValidarAtualizacao(b).value)
      && repo.nextId == old(repo.nextId)
      && resp == Ok(200, Visao(n, repo.veiculos[n], repo.clientes.clientes))
  {
    var n := ParseInt(id);
    if n.NaN? {
      return Erro(400, IdInvalido);
    }
    var v := ValidarAtualizacao(b);
    if v.Failure? {
      return Erro(400, v.error);
    }
    if repo.BuscarPorId(n.value).None? {
      return Erro(404, NaoEncontrado);
    }
    var r := repo.Atualizar(n.value, v.value);
    resp := Ok(200, r.value);
  }

  /** `inativar`: 404 for a missing id, 400 for an inactive vehicle,
      otherwise exactly one inactivation. */
  method Inativar(repo: VeiculoRepository, id: string) returns (resp: Response<string>)
    requires repo.Valid()
    modifies repo
    ensures repo.Valid()
    ensures ParseInt(id).NaN? ==> resp == Erro(400, IdInvalido) && repo.veiculos == old(repo.veiculos) && repo.nextId == old(repo.nextId)
    ensures ParseInt(id).Int? && ParseInt(id).value !in old(repo.veiculos) ==>
      resp == Erro(404, NaoEncontrado) && repo.veiculos == old(repo.veiculos) && repo.nextId == old(repo.nextId)
    ensures ParseInt(id).Int? && ParseInt(id).value in old(repo.veiculos) && !old(repo.veiculos)[ParseInt(id).value].ativo ==>
      resp == Erro(400, JaInativo) && repo.veiculos == old(repo.veiculos) && repo.nextId == old(repo.nextId)
    ensures ParseInt(id).Int? && ParseInt(id).value in old(repo.veiculos) && old(repo.veiculos)[ParseInt(id).value].ativo ==>
      && resp == Ok(200, Inativado)
      && repo.veiculos == InativarVeiculo(old(repo.veiculos), ParseInt(id).value)
      && repo.nextId == old(repo.nextId)
  {
    var n := ParseInt(id);
    if n.NaN? {
      return Erro(400, IdInvalido);
    }
    var v := repo.BuscarPorId(n.value);
    if v.None? {
      return Erro(404, NaoEncontrado);
    }
    if !v.value.veiculo.ativo {
      return Erro(400, JaInativo);
    }
    var _ := repo.Inativar(n.value);
    resp := Ok(200, Inativado);
  }

  /** `reativar`: a clienteId is required and the vehicle must exist; it
      need not be inactive. */
  method Reativar(repo: VeiculoRepository, id: string, clienteId: Option<string>) returns (resp: Response<VeiculoView>)
    requires repo.Valid()
    modifies repo
    ensures repo.Valid()
    ensures ParseInt(id).NaN? ==> resp == Erro(400, IdInvalido) && repo.veiculos == old(repo.veiculos) && repo.nextId == old(repo.nextId)
    ensures ParseInt(id).Int? && !Truthy(clienteId) ==> resp == Erro(400, ErroProprietarioReativar) && repo.veiculos == old(repo.veiculos) && repo.nextId == old(repo.nextId)
    ensures ParseInt(id).Int? && Truthy(clienteId) && ParseInt(id).value !in old(repo.veiculos) ==>
      resp == Erro(404, NaoEncontrado) && repo.veiculos == old(repo.veiculos) && repo.nextId == old(repo.nextId)
    ensures ParseInt(id).Int? && Truthy(clienteId) && ParseInt(id).value in old(repo.veiculos) && ParseInt(clienteId.value).NaN? ==>
      resp == Erro(500, ErroInterno) && repo.veiculos == old(repo.veiculos) && repo.nextId == old(repo.nextId)
    ensures ParseInt(id).Int? && Truthy(clienteId) && ParseInt(id).value in old(repo.veiculos) && ParseInt(clienteId.value).Int? ==>
      var n := ParseInt(id).value;
      && repo.veiculos == ReativarVeiculo(old(repo.veiculos), n, Some(ParseInt(clienteId.value).value))
      && repo.nextId == old(repo.nextId)
      && resp == Ok(200, Visao(n, repo.veiculos[n], repo.clientes.clientes))
      && repo.veiculos[n].ativo
  {
    var n := ParseInt(id);
    if n.NaN? {
      return Erro(400, IdInvalido);
    }
    if !Truthy(clienteId) {
      return Erro(400, ErroProprietarioReativar);
    }
    if repo.BuscarPorId(n.value).None? {
      return Erro(404, NaoEncontrado);
    }
    var r := repo.Reativar(n.value, ParseInt(clienteId.value));
    if r.Failure? {
      return Erro(500, ErroInterno);
    }
    resp := Ok(200, r.value.value);
  }
}
