/** The customer handlers: validation and clean-up of the request body,
    then one call to the customer repository. */
module ClienteCtl {
  import opened Wrappers
  import opened Seqs
  import opened Text
  import opened Js
  import opened Config
  import opened Http
  import opened ClienteRepo

  /** The JSON body of a create or update request. */
  datatype ClienteBody = ClienteBody(
    tipo: Option<string>,
    cpfCnpj: Option<string>,
    nomeCompleto: Option<string>,
    dataNascimento: Option<string>,
    genero: Option<string>,
    telefone: Option<string>,
    telefoneWhatsApp: Value,
    email: Option<string>,
    cep: Option<string>,
    logradouro: Option<string>,
    numero: Option<string>,
    complemento: Option<string>,
    bairro: Option<string>,
    cidade: Option<string>,
    estado: Option<string>)

  const ErroObrigatorios: string := "Tipo, CPF/CNPJ e Nome Completo são obrigatórios"
  const ErroTipo: string := "Tipo deve ser PF ou PJ"
  const ErroDocumento: string := "CPF deve ter 11 dígitos ou CNPJ 14 dígitos"
  const ErroGenero: string := "Gênero deve ser M, F ou O"
  const ErroEmail: string := "Formato de email inválido"
  const Duplicado: string := "CPF/CNPJ já cadastrado"
  const NaoEncontrado: string := "Cliente não encontrado"
  const ErroNome: string := "Nome Completo é obrigatório"
  const Atualizado: string := "Cliente atualizado com sucesso"
  const Excluido: string := "Cliente excluído com sucesso"
  const ErroParametros: string := "Parâmetros tipo e valor são obrigatórios"
  const ErroCurto: string := "Digite ao menos 2 caracteres para buscar"
  const ErroTipoBusca: string := "Tipo de busca inválido. Use: nome, cpfcnpj ou telefone"

  function UpperTrim(s: string): string
  {
    Upper(Trim(s))
  }

  /** `cpfCnpj.replace(/[.\-\/]/g, '').trim()`. */
  function DocumentoLimpo(cpfCnpj: string): string
  {
    Trim(Remove(cpfCnpj, SeparadoresDocumento))
  }

  predicate TipoValido(tipo: string)
  {
    Upper(tipo) == "PF" || Upper(tipo) == "PJ"
  }

  /** A gender, when given, is M, F or O in either case. */
  predicate GeneroAceito(genero: Option<string>)
  {
    !Truthy(genero) || Upper(genero.value) in {"M", "F", "O"}
  }

  /** An email, when given, matches the email pattern. */
  predicate EmailAceito(email: Option<string>)
  {
    !Truthy(email) || IsValidEmail(email.value)
  }

  /** A column cleaned by `x ? x.toUpperCase() : null`: present exactly
      when the field is truthy, with no lower-case letter, and the field's
      text up to case. */
  predicate CampoMaiusculo(c: Option<string>, o: Option<string>)
  {
    (c.Some? <==> Truthy(o)) && (c.Some? ==> NoLower(c.value) && SameUpToCase(c.value, o.value))
  }

  /** A column cleaned by `x ? x.trim().toUpperCase() : null`: as above,
      but of the trimmed text, so no whitespace is left at either end. */
  predicate CampoMaiusculoAparado(c: Option<string>, o: Option<string>)
  {
    && (c.Some? <==> Truthy(o))
    && (c.Some? ==>
          NoLower(c.value) && SameUpToCase(c.value, Trim(o.value)) && Trim(c.value) == c.value)
  }

  /** A column cleaned by `x ? x.trim() : null`. */
  predicate CampoAparado(c: Option<string>, o: Option<string>)
  {
    (c.Some? <==> Truthy(o)) && (c.Some? ==> c.value == Trim(o.value) && Trim(c.value) == c.value)
  }

  /** A column stored as `x || null`: the field itself when it is truthy. */
  predicate CampoRepassado(c: Option<string>, o: Option<string>)
  {
    (c.Some? <==> Truthy(o)) && (c.Some? ==> c == o)
  }

  /** A column cleaned by `x ? x.replace(/\D/g, '') : null`: the field's
      digits and nothing else. */
  predicate CampoDigitos(c: Option<string>, o: Option<string>)
  {
    (c.Some? <==> Truthy(o)) && (c.Some? ==> AllDigits(c.value) && c.value == DigitsOf(o.value))
  }

  /** What `criar` and `atualizar` promise of the columns they write. */
  predicate DadosConformes(d: ClienteDados, b: ClienteBody)
    requires Truthy(b.nomeCompleto)
  {
    && NoLower(d.nomeCompleto) && Trim(d.nomeCompleto) == d.nomeCompleto
    && SameUpToCase(d.nomeCompleto, Trim(b.nomeCompleto.value))
    && CampoRepassado(d.dataNascimento, b.dataNascimento)
    && CampoMaiusculo(d.genero, b.genero)
    && CampoAparado(d.telefone, b.telefone)
    && d.telefoneWhatsApp == TruthyValue(b.telefoneWhatsApp)
    && CampoMaiusculoAparado(d.email, b.email)
    && CampoDigitos(d.cep, b.cep)
    && CampoMaiusculoAparado(d.logradouro, b.logradouro)
    && CampoAparado(d.numero, b.numero)
    && CampoMaiusculoAparado(d.complemento, b.complemento)
    && CampoMaiusculoAparado(d.bairro, b.bairro)
    && CampoMaiusculoAparado(d.cidade, b.cidade)
    && CampoMaiusculoAparado(d.estado, b.estado)
  }

  lemma MaiusculoAparado(s: string)
    ensures NoLower(UpperTrim(s)) && SameUpToCase(UpperTrim(s), Trim(s))
    ensures Trim(UpperTrim(s)) == UpperTrim(s)
  {
    UpperCharacterization(UpperTrim(s), Trim(s));
    TrimIdempotent(s);
    UpperKeepsTrimmed(Trim(s));
  }

  /** Each column predicate is met by exactly one cleaning. */
  lemma CampoMaiusculoSpec(c: Option<string>, o: Option<string>)
    ensures CampoMaiusculo(c, o) <==> c == MapTruthy(o, Upper)
  {
    if Truthy(o) {
      UpperCharacterization(Upper(o.value), o.value);
      if c.Some? {
        UpperCharacterization(c.value, o.value);
      }
    }
  }

  lemma CampoMaiusculoAparadoSpec(c: Option<string>, o: Option<string>)
    ensures CampoMaiusculoAparado(c, o) <==> c == MapTruthy(o, UpperTrim)
  {
    if Truthy(o) {
      MaiusculoAparado(o.value);
      if c.Some? {
        UpperCharacterization(c.value, Trim(o.value));
      }
    }
  }

  lemma CampoAparadoSpec(c: Option<string>, o: Option<string>)
    ensures CampoAparado(c, o) <==> c == MapTruthy(o, Trim)
  {
    if Truthy(o) {
      TrimIdempotent(o.value);
    }
  }

  lemma CampoRepassadoSpec(c: Option<string>, o: Option<string>)
    ensures CampoRepassado(c, o) <==> c == OrNull(o)
  {
  }

  lemma CampoDigitosSpec(c: Option<string>, o: Option<string>)
    ensures CampoDigitos(c, o) <==> c == MapTruthy(o, DigitsOf)
  {
    if Truthy(o) {
      DigitsOfSpec(o.value);
    }
  }

  /** The cleaned columns shared by create and update. The name must be
      present. */
  function DadosLimpos(b: ClienteBody): (d: ClienteDados)
    requires Truthy(b.nomeCompleto)
    ensures DadosConformes(d, b)
  {
    var d := ClienteDados(
      UpperTrim(b.nomeCompleto.value), OrNull(b.dataNascimento), MapTruthy(b.genero, Upper),
      MapTruthy(b.telefone, Trim), TruthyValue(b.telefoneWhatsApp), MapTruthy(b.email, UpperTrim),
      MapTruthy(b.cep, DigitsOf), MapTruthy(b.logradouro, UpperTrim), MapTruthy(b.numero, Trim),
      MapTruthy(b.complemento, UpperTrim), MapTruthy(b.bairro, UpperTrim),
      MapTruthy(b.cidade, UpperTrim), MapTruthy(b.estado, UpperTrim));
    MaiusculoAparado(b.nomeCompleto.value);
    CampoMaiusculoSpec(d.genero, b.genero);
    CampoAparadoSpec(d.telefone, b.telefone);
    CampoMaiusculoAparadoSpec(d.email, b.email);
    CampoDigitosSpec(d.cep, b.cep);
    CampoMaiusculoAparadoSpec(d.logradouro, b.logradouro);
    CampoAparadoSpec(d.numero, b.numero);
    CampoMaiusculoAparadoSpec(d.complemento, b.complemento);
    CampoMaiusculoAparadoSpec(d.bairro, b.bairro);
    CampoMaiusculoAparadoSpec(d.cidade, b.cidade);
    CampoMaiusculoAparadoSpec(d.estado, b.estado);
    d
  }

  /** The promise is complete: the cleaned record is the only one that
      keeps it. */
  lemma DadosConformesUnicos(b: ClienteBody, d: ClienteDados)
    requires Truthy(b.nomeCompleto)
    ensures DadosConformes(d, b) <==> d == DadosLimpos(b)
  {
    if DadosConformes(d, b) {
      UpperCharacterization(d.nomeCompleto, Trim(b.nomeCompleto.value));
      CampoMaiusculoSpec(d.genero, b.genero);
      CampoAparadoSpec(d.telefone, b.telefone);
      CampoMaiusculoAparadoSpec(d.email, b.email);
      CampoDigitosSpec(d.cep, b.cep);
      CampoMaiusculoAparadoSpec(d.logradouro, b.logradouro);
      CampoAparadoSpec(d.numero, b.numero);
      CampoMaiusculoAparadoSpec(d.complemento, b.complemento);
      CampoMaiusculoAparadoSpec(d.bairro, b.bairro);
      CampoMaiusculoAparadoSpec(d.cidade, b.cidade);
      CampoMaiusculoAparadoSpec(d.estado, b.estado);
    }
  }

  /** The checks of `criar`, in order, and the row they build. */
  function ValidarCriacao(b: ClienteBody): (r: Result<NovoCliente, string>)
    ensures r.Success? <==>
      Truthy(b.tipo) && Truthy(b.cpfCnpj) && Truthy(b.nomeCompleto) && TipoValido(b.tipo.value)
      && (|DocumentoLimpo(b.cpfCnpj.value)| == 11 || |DocumentoLimpo(b.cpfCnpj.value)| == 14)
      && GeneroAceito(b.genero) && EmailAceito(b.email)
    ensures !(Truthy(b.tipo) && Truthy(b.cpfCnpj) && Truthy(b.nomeCompleto)) ==> r == Failure(ErroObrigatorios)
    ensures (Truthy(b.tipo) && Truthy(b.cpfCnpj) && Truthy(b.nomeCompleto) && !TipoValido(b.tipo.value)) ==>
      r == Failure(ErroTipo)
    ensures (Truthy(b.tipo) && Truthy(b.cpfCnpj) && Truthy(b.nomeCompleto) && TipoValido(b.tipo.value)
             && |DocumentoLimpo(b.cpfCnpj.value)| != 11 && |DocumentoLimpo(b.cpfCnpj.value)| != 14) ==>
      r == Failure(ErroDocumento)
    ensures (Truthy(b.tipo) && Truthy(b.cpfCnpj) && Truthy(b.nomeCompleto) && TipoValido(b.tipo.value)
             && (|DocumentoLimpo(b.cpfCnpj.value)| == 11 || |DocumentoLimpo(b.cpfCnpj.value)| == 14)
             && !GeneroAceito(b.genero)) ==>
      r == Failure(ErroGenero)
    ensures (Truthy(b.tipo) && Truthy(b.cpfCnpj) && Truthy(b.nomeCompleto) && TipoValido(b.tipo.value)
             && (|DocumentoLimpo(b.cpfCnpj.value)| == 11 || |DocumentoLimpo(b.cpfCnpj.value)| == 14)
             && GeneroAceito(b.genero) && !EmailAceito(b.email)) ==>
      r == Failure(ErroEmail)
    ensures r.Failure? ==> r.error in {ErroObrigatorios, ErroTipo, ErroDocumento, ErroGenero, ErroEmail}
    ensures r.Success? ==>
      && r.value.tipo == Upper(b.tipo.value) && (r.value.tipo == "PF" || r.value.tipo == "PJ")
      && r.value.cpfCnpj == DocumentoLimpo(b.cpfCnpj.value)
      && r.value.dados == DadosLimpos(b)
  {
    if !Truthy(b.tipo) || !Truthy(b.cpfCnpj) || !Truthy(b.nomeCompleto) then Failure(ErroObrigatorios)
    else if !TipoValido(b.tipo.value) then Failure(ErroTipo)
    else
      var doc := DocumentoLimpo(b.cpfCnpj.value);
      if |doc| != 11 && |doc| != 14 then Failure(ErroDocumento)
      else if !GeneroAceito(b.genero) then Failure(ErroGenero)
      else if !EmailAceito(b.email) then Failure(ErroEmail)
      else Success(NovoCliente(Upper(b.tipo.value), doc, DadosLimpos(b)))
  }

  /** The checks of `atualizar`: tipo and CPF/CNPJ are neither required nor
      ever written. */
  function ValidarAtualizacao(b: ClienteBody): (r: Result<ClienteDados, string>)
    ensures r.Success? <==> Truthy(b.nomeCompleto) && GeneroAceito(b.genero) && EmailAceito(b.email)
    ensures !Truthy(b.nomeCompleto) ==> r == Failure(ErroNome)
    ensures Truthy(b.nomeCompleto) && !GeneroAceito(b.genero) ==> r == Failure(ErroGenero)
    ensures Truthy(b.nomeCompleto) && GeneroAceito(b.genero) && !EmailAceito(b.email) ==> r == Failure(ErroEmail)
    ensures r.Failure? ==> r.error in {ErroNome, ErroGenero, ErroEmail}
    ensures r.Success? ==> r.value == DadosLimpos(b)
  {
    if !Truthy(b.nomeCompleto) then Failure(ErroNome)
    else if !GeneroAceito(b.genero) then Failure(ErroGenero)
    else if !EmailAceito(b.email) then Failure(ErroEmail)
    else Success(DadosLimpos(b))
  }

  /** A document that passes the create checks carries no '.', '-' or '/'
      and no whitespace at either end. */
  lemma DocumentoAceito(b: ClienteBody)
    requires ValidarCriacao(b).Success?
    ensures forall i :: 0 <= i < |ValidarCriacao(b).value.cpfCnpj| ==>
      ValidarCriacao(b).value.cpfCnpj[i] !in SeparadoresDocumento
    ensures !IsSpace(ValidarCriacao(b).value.cpfCnpj[0])
    ensures !IsSpace(ValidarCriacao(b).value.cpfCnpj[|ValidarCriacao(b).value.cpfCnpj| - 1])
  {
    var s := b.cpfCnpj.value;
    var r := Remove(s, SeparadoresDocumento);
    RemoveSpec(s, SeparadoresDocumento);
    var pre, suf := TrimShape(r);
    var d := Trim(r);
    forall i | 0 <= i < |d| ensures d[i] !in SeparadoresDocumento {
      assert d[i] == r[|pre| + i];
      assert r[|pre| + i] in r;
    }
  }

  /** An accepted email has no whitespace, so the stored value is the
      input upper-cased, with nothing trimmed. */
  lemma EmailGravado(b: ClienteBody)
    requires Truthy(b.nomeCompleto) && Truthy(b.email) && EmailAceito(b.email)
    ensures DadosLimpos(b).email == Some(Upper(b.email.value))
  {
    IsValidEmailShape(b.email.value);
    TrimNoop(b.email.value);
  }

  /** The message of a failed INSERT: a UNIQUE violation is a conflict. */
  function ErroAoGravar<T>(mensagem: string): (r: Response<T>)
    ensures r.Erro?
    ensures r.status == 409 <==> Contains(mensagem, "UNIQUE")
    ensures r.status != 409 ==> r == Erro(500, ErroInterno)
  {
    if Contains(mensagem, "UNIQUE") then Erro(409, Duplicado) else Erro(500, ErroInterno)
  }

  /** `listarTodos`. */
  function ListarTodos(repo: ClienteRepository): (r: Response<seq<ClienteRecord>>)
    reads repo
    requires repo.Valid()
    ensures r.Ok? && r.status == 200
    ensures forall e :: e in r.body <==> e.id in repo.clientes && repo.clientes[e.id].ativo && e.row == repo.clientes[e.id]
    ensures SortedBy(r.body, NomeKey)
    ensures NoDup(r.body)
  {
    Ok(200, repo.ListarTodos())
  }

  /** `buscarPorId`: 400 for a bad id, 404 unless an active row has it. */
  function BuscarPorId(repo: ClienteRepository, id: Option<string>): (r: Response<ClienteRecord>)
    reads repo
    ensures !IdValido(id) <==> r == Erro(400, IdInvalido)
    ensures IdValido(id) && !(Chave(id) in repo.clientes && repo.clientes[Chave(id)].ativo) <==> r == Erro(404, NaoEncontrado)
    ensures r.Ok? ==> r.status == 200 && r.body == Entry(Chave(id), repo.clientes[Chave(id)]) && r.body.row.ativo
  {
    if !IdValido(id) then Erro(400, IdInvalido)
    else match repo.BuscarPorId(Chave(id))
      case None => Erro(404, NaoEncontrado)
      case Some(c) => Ok(200, c)
  }

  /** `buscar`: tipo and valor required, at least two characters once
      trimmed, then one of the three searches on the trimmed text. */
  function Buscar(repo: ClienteRepository, tipo: Option<string>, valor: Option<string>): (r: Response<seq<ClienteRecord>>)
    reads repo
    requires repo.Valid()
    ensures !Truthy(tipo) || !Truthy(valor) ==> r == Erro(400, ErroParametros)
    ensures Truthy(tipo) && Truthy(valor) && |Trim(valor.value)| < 2 ==> r == Erro(400, ErroCurto)
    ensures r.Ok? <==>
      Truthy(tipo) && Truthy(valor) && |Trim(valor.value)| >= 2 && tipo.value in {"nome", "cpfcnpj", "telefone"}
    ensures r.Ok? ==> r.status == 200
    ensures (Truthy(tipo) && Truthy(valor) && |Trim(valor.value)| >= 2
             && tipo.value !in {"nome", "cpfcnpj", "telefone"}) ==> r == Erro(400, ErroTipoBusca)
    ensures r.Ok? && tipo.value == "nome" ==> r.body == ClientesPorNome(repo.clientes, repo.nextId, Trim(valor.value))
    ensures r.Ok? && tipo.value == "cpfcnpj" ==> r.body == ClientesPorCpfCnpj(repo.clientes, repo.nextId, Trim(valor.value))
    ensures r.Ok? && tipo.value == "telefone" ==> r.body == ClientesPorTelefone(repo.clientes, repo.nextId, Trim(valor.value))
  {
    if !Truthy(tipo) || !Truthy(valor) then Erro(400, ErroParametros)
    else
      var v := Trim(valor.value);
      if |v| < 2 then Erro(400, ErroCurto)
      else if tipo.value == "nome" then Ok(200, repo.BuscarPorNome(v))
      else if tipo.value == "cpfcnpj" then Ok(200, repo.BuscarPorCpfCnpj(v))
      else if tipo.value == "telefone" then Ok(200, repo.BuscarPorTelefone(v))
      else Erro(400, ErroTipoBusca)
  }

  /** `criar`. `falha` is the error the database raises on the INSERT, if
      any. */
  method Criar(repo: ClienteRepository, b: ClienteBody, falha: Option<string>) returns (resp: Response<ClienteRecord>)
    requires repo.Valid()
    modifies repo
    ensures repo.Valid()
    ensures ValidarCriacao(b).Failure? ==>
      resp == Erro(400, ValidarCriacao(b).error) && repo.clientes == old(repo.clientes) && repo.nextId == old(repo.nextId)
    ensures ValidarCriacao(b).Success? && falha.Some? ==>
      resp == ErroAoGravar(falha.value) && repo.clientes == old(repo.clientes) && repo.nextId == old(repo.nextId)
    ensures ValidarCriacao(b).Success? && falha.None? ==>
      var n := ValidarCriacao(b).value;
      && repo.clientes == InserirCliente(old(repo.clientes), old(repo.nextId), n)
      && repo.nextId == old(repo.nextId) + 1
      && resp == Ok(201, Entry(old(repo.nextId), LinhaCliente(n)))
  {
    var v := ValidarCriacao(b);
    if v.Failure? {
      return Erro(400, v.error);
    }
    var r := repo.Criar(v.value, falha);
    if r.Failure? {
      return ErroAoGravar(r.error);
    }
    resp := Ok(201, r.value);
  }

  /** `atualizar`: 400 for a bad id or body, 404 when no active row has
      the id, otherwise that row's data columns are rewritten. */
  method Atualizar(repo: ClienteRepository, id: Option<string>, b: ClienteBody) returns (resp: Response<string>)
    requires repo.Valid()
    modifies repo
    ensures repo.Valid() && repo.nextId == old(repo.nextId)
    ensures !IdValido(id) ==> resp == Erro(400, IdInvalido) && repo.clientes == old(repo.clientes)
    ensures IdValido(id) && ValidarAtualizacao(b).Failure? ==>
      resp == Erro(400, ValidarAtualizacao(b).error) && repo.clientes == old(repo.clientes)
    ensures IdValido(id) && ValidarAtualizacao(b).Success? ==>
      && repo.clientes == AtualizarCliente(old(repo.clientes), Chave(id), ValidarAtualizacao(b).value)
      && (resp == Ok(200, Atualizado) <==> Chave(id) in old(repo.clientes) && old(repo.clientes)[Chave(id)].ativo)
      && (resp.Erro? ==> resp == Erro(404, NaoEncontrado) && repo.clientes == old(repo.clientes))
  {
    if !IdValido(id) {
      return Erro(400, IdInvalido);
    }
    var v := ValidarAtualizacao(b);
    if v.Failure? {
      return Erro(400, v.error);
    }
    AtualizarClienteEfeito(repo.clientes, Chave(id), v.value);
    var linhas := repo.Atualizar(Chave(id), v.value);
    if linhas == 0 {
      return Erro(404, NaoEncontrado);
    }
    resp := Ok(200, Atualizado);
  }

  /** `deletar`: 404 only when no row has the id; an inactive row is
      deactivated again and answers 200. */
  method Deletar(repo: ClienteRepository, id: Option<string>) returns (resp: Response<string>)
    requires repo.Valid()
    modifies repo
    ensures repo.Valid() && repo.nextId == old(repo.nextId)
    ensures !IdValido(id) ==> resp == Erro(400, IdInvalido) && repo.clientes == old(repo.clientes)
    ensures IdValido(id) ==>
      && repo.clientes == DesativarCliente(old(repo.clientes), Chave(id))
      && (resp == Ok(200, Excluido) <==> Chave(id) in old(repo.clientes))
      && (resp.Erro? ==> resp == Erro(404, NaoEncontrado))
  {
    if !IdValido(id) {
      return Erro(400, IdInvalido);
    }
    var linhas := repo.Deletar(Chave(id));
    if linhas == 0 {
      return Erro(404, NaoEncontrado);
    }
    resp := Ok(200, Excluido);
  }
}
