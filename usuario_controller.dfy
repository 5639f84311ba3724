/** The user handlers: login, the password-reset guards, and the create,
    update and delete checks before their one call to the user
    repository. */
module UsuarioCtl {
  import opened Wrappers
  import opened Seqs
  import opened Text
  import opened Js
  import opened Config
  import opened Http
  import opened UsuarioRepo

  const ErroCredenciaisObrigatorias: string := "Email e senha são obrigatórios"
  const ErroCredenciais: string := "Usuário ou senha inválidos"
  const ErroEmailObrigatorio: string := "Email é obrigatório"
  const ErroEmail: string := "Formato de email inválido"
  const ErroObrigatoriosCriacao: string := "Login, senha, nome completo e email são obrigatórios"
  const ErroObrigatoriosAtualizacao: string := "Nome completo, email e senha são obrigatórios"
  const ErroSenhaCurta: string := "Senha deve ter pelo menos 6 caracteres"
  const Duplicado: string := "Login ou email já existem"
  const NaoEncontrado: string := "Usuário não encontrado"
  const Atualizado: string := "Usuário atualizado com sucesso"
  const Excluido: string := "Usuário excluído com sucesso"

  /** The columns an update rewrites. */
  datatype DadosUsuario = DadosUsuario(nomeCompleto: string, email: string, senha: string)

  /** `login`: both fields required; the trimmed email is matched against
      the Login column. The answer never carries the password. */
  function Login(repo: UsuarioRepository, email: Option<string>, senha: Option<string>): (r: Response<UsuarioPublico>)
    reads repo
    requires repo.Valid()
    ensures !Truthy(email) || !Truthy(senha) <==> r == Erro(400, ErroCredenciaisObrigatorias)
    ensures Truthy(email) && Truthy(senha) ==>
      match LoginUsuario(repo.usuarios, repo.nextId, Trim(email.value), senha.value)
      case None => r == Erro(401, ErroCredenciais)
      case Some(u) => r == Ok(200, SemSenha(u)) && u.row.ativo && u.row.senha == senha.value
    ensures r.Ok? ==> r.body.usuarioId in repo.usuarios && repo.usuarios[r.body.usuarioId].ativo
  {
    if !Truthy(email) || !Truthy(senha) then Erro(400, ErroCredenciaisObrigatorias)
    else match repo.Login(Trim(email.value), senha.value)
      case None => Erro(401, ErroCredenciais)
      case Some(u) => Ok(200, SemSenha(u))
  }

  /** `resetSenha`: the two guards. The repository has no `resetSenha`, so
      every request that passes them fails with a 500. */
  function ResetSenha(email: Option<string>): (r: Response<string>)
    ensures !Truthy(email) <==> r == Erro(400, ErroEmailObrigatorio)
    ensures Truthy(email) && !IsValidEmail(email.value) <==> r == Erro(400, ErroEmail)
    ensures r.Erro? && (r.status == 500 <==> Truthy(email) && IsValidEmail(email.value))
  {
    if !Truthy(email) then Erro(400, ErroEmailObrigatorio)
    else if !IsValidEmail(email.value) then Erro(400, ErroEmail)
    else Erro(500, ErroInterno)
  }

  /** The password rule both handlers apply once the field is present. */
  predicate SenhaAceita(senha: string)
  {
    |senha| >= 6
  }

  /** The server's password rule is the client's `isValidPassword`. */
  lemma SenhaMesmaRegra(senha: Option<string>)
    ensures Truthy(senha) && SenhaAceita(senha.value) <==> IsValidPassword(senha)
    ensures MinPasswordLength == 6
  {
  }

  /** The checks of `criar`, in order, and the row they build. */
  function ValidarCriacao(login: Option<string>, senha: Option<string>, nomeCompleto: Option<string>, email: Option<string>): (r: Result<NovoUsuario, string>)
    ensures r.Success? <==>
      Truthy(login) && Truthy(senha) && Truthy(nomeCompleto) && Truthy(email)
      && SenhaAceita(senha.value) && IsValidEmail(email.value)
    ensures !(Truthy(login) && Truthy(senha) && Truthy(nomeCompleto) && Truthy(email)) ==>
      r == Failure(ErroObrigatoriosCriacao)
    ensures Truthy(login) && Truthy(senha) && Truthy(nomeCompleto) && Truthy(email) && !SenhaAceita(senha.value) ==>
      r == Failure(ErroSenhaCurta)
    ensures (Truthy(login) && Truthy(senha) && Truthy(nomeCompleto) && Truthy(email) && SenhaAceita(senha.value)
      && !IsValidEmail(email.value)) ==> r == Failure(ErroEmail)
    ensures r.Success? ==>
      r.value == NovoUsuario(Trim(login.value), senha.value, Trim(nomeCompleto.value), Lower(Trim(email.value)))
  {
    if !Truthy(login) || !Truthy(senha) || !Truthy(nomeCompleto) || !Truthy(email) then Failure(ErroObrigatoriosCriacao)
    else if |senha.value| < 6 then Failure(ErroSenhaCurta)
    else if !IsValidEmail(email.value) then Failure(ErroEmail)
    else Success(NovoUsuario(Trim(login.value), senha.value, Trim(nomeCompleto.value), Lower(Trim(email.value))))
  }

  /** The checks of `atualizar`, in order, and the columns they rewrite. */
  function ValidarAtualizacao(nomeCompleto: Option<string>, email: Option<string>, senha: Option<string>): (r: Result<DadosUsuario, string>)
    ensures r.Success? <==>
      Truthy(nomeCompleto) && Truthy(email) && Truthy(senha) && SenhaAceita(senha.value) && IsValidEmail(email.value)
    ensures !(Truthy(nomeCompleto) && Truthy(email) && Truthy(senha)) ==> r == Failure(ErroObrigatoriosAtualizacao)
    ensures Truthy(nomeCompleto) && Truthy(email) && Truthy(senha) && !SenhaAceita(senha.value) ==>
      r == Failure(ErroSenhaCurta)
    ensures (Truthy(nomeCompleto) && Truthy(email) && Truthy(senha) && SenhaAceita(senha.value)
      && !IsValidEmail(email.value)) ==> r == Failure(ErroEmail)
    ensures r.Failure? && r.error == ErroEmail ==> Truthy(email) && !IsValidEmail(email.value)
    ensures r.Success? ==>
      r.value == DadosUsuario(Trim(nomeCompleto.value), Lower(Trim(email.value)), senha.value)
  {
    if !Truthy(nomeCompleto) || !Truthy(email) || !Truthy(senha) then Failure(ErroObrigatoriosAtualizacao)
    else if |senha.value| < 6 then Failure(ErroSenhaCurta)
    else if !IsValidEmail(email.value) then Failure(ErroEmail)
    else Success(DadosUsuario(Trim(nomeCompleto.value), Lower(Trim(email.value)), senha.value))
  }

  /** An accepted email has no whitespace, so it is stored lower-cased and
      otherwise as typed. */
  lemma EmailGravado(email: string)
    requires IsValidEmail(email)
    ensures Lower(Trim(email)) == Lower(email)
    ensures forall i :: 0 <= i < |Lower(email)| ==> !IsUpperLetter(Lower(email)[i])
  {
    IsValidEmailShape(email);
    TrimNoop(email);
    LowerIdempotent(email);
  }

  /** The message of a failed INSERT: a UNIQUE violation is a conflict. */
  function ErroAoGravar<T>(mensagem: string): (r: Response<T>)
    ensures r.Erro?
    ensures r.status == 409 <==> Contains(mensagem, "UNIQUE")
    ensures r.status != 409 ==> r == Erro(500, ErroInterno)
  {
    if Contains(mensagem, "UNIQUE") then Erro(409, Duplicado) else Erro(500, ErroInterno)
  }

  /** `listarTodos`: the repository's rows sent as they are, so every
      active user comes with every column, `Senha` included. */
  function ListarTodos(repo: UsuarioRepository): (r: Response<seq<UsuarioRecord>>)
    reads repo
    requires repo.Valid()
    ensures r.Ok? && r.status == 200
    ensures forall e :: e in r.body <==>
      e.id in repo.usuarios && repo.usuarios[e.id].ativo && e.row == repo.usuarios[e.id]
    ensures NoDup(r.body)
  {
    Ok(200, ListarUsuarios(repo.usuarios, repo.nextId))
  }

  /** `criar`: the checks, then one INSERT; the new row is returned whole,
      `Senha` included. A created user can log in with the stored login
      and password. */
  method Criar(repo: UsuarioRepository, login: Option<string>, senha: Option<string>, nomeCompleto: Option<string>,
               email: Option<string>, falha: Option<string>) returns (resp: Response<UsuarioRecord>)
    requires repo.Valid()
    modifies repo
    ensures repo.Valid()
    ensures ValidarCriacao(login, senha, nomeCompleto, email).Failure? ==>
      && resp == Erro(400, ValidarCriacao(login, senha, nomeCompleto, email).error)
      && repo.usuarios == old(repo.usuarios) && repo.nextId == old(repo.nextId)
    ensures ValidarCriacao(login, senha, nomeCompleto, email).Success? && falha.Some? ==>
      resp == ErroAoGravar(falha.value) && repo.usuarios == old(repo.usuarios) && repo.nextId == old(repo.nextId)
    ensures ValidarCriacao(login, senha, nomeCompleto, email).Success? && falha.None? ==>
      var n := ValidarCriacao(login, senha, nomeCompleto, email).value;
      && repo.usuarios == old(repo.usuarios)[old(repo.nextId) := LinhaUsuario(n)]
      && repo.nextId == old(repo.nextId) + 1
      && resp == Ok(201, Entry(old(repo.nextId), LinhaUsuario(n)))
      && LoginUsuario(repo.usuarios, repo.nextId, n.login, n.senha).Some?
  {
    var v := ValidarCriacao(login, senha, nomeCompleto, email);
    if v.Failure? {
      return Erro(400, v.error);
    }
    CriadoFazLogin(repo.usuarios, repo.nextId, v.value);
    var r := repo.Criar(v.value, falha);
    if r.Failure? {
      return ErroAoGravar(r.error);
    }
    resp := Ok(201, r.value);
  }

  /** `atualizar`: 400 for a bad id or body, 404 when no row has the id
      (active or not), otherwise the three columns are rewritten. */
  method Atualizar(repo: UsuarioRepository, id: Option<string>, nomeCompleto: Option<string>,
                   email: Option<string>, senha: Option<string>) returns (resp: Response<string>)
    requires repo.Valid()
    modifies repo
    ensures repo.Valid() && repo.nextId == old(repo.nextId)
    ensures !IdValido(id) ==> resp == Erro(400, IdInvalido) && repo.usuarios == old(repo.usuarios)
    ensures IdValido(id) && ValidarAtualizacao(nomeCompleto, email, senha).Failure? ==>
      resp == Erro(400, ValidarAtualizacao(nomeCompleto, email, senha).error) && repo.usuarios == old(repo.usuarios)
    ensures IdValido(id) && ValidarAtualizacao(nomeCompleto, email, senha).Success? ==>
      var d := ValidarAtualizacao(nomeCompleto, email, senha).value;
      && repo.usuarios == AtualizarUsuario(old(repo.usuarios), Chave(id), d.nomeCompleto, d.email, d.senha)
      && (resp == Ok(200, Atualizado) <==> Chave(id) in old(repo.usuarios))
      && (resp.Erro? ==> resp == Erro(404, NaoEncontrado) && repo.usuarios == old(repo.usuarios))
  {
    if !IdValido(id) {
      return Erro(400, IdInvalido);
    }
    var v := ValidarAtualizacao(nomeCompleto, email, senha);
    if v.Failure? {
      return Erro(400, v.error);
    }
    var linhas := repo.Atualizar(Chave(id), v.value.nomeCompleto, v.value.email, v.value.senha);
    if linhas == 0 {
      return Erro(404, NaoEncontrado);
    }
    resp := Ok(200, Atualizado);
  }

  /** `deletar`: 400 for a bad id, 404 when no row has it. */
  method Deletar(repo: UsuarioRepository, id: Option<string>) returns (resp: Response<string>)
    requires repo.Valid()
    modifies repo
    ensures repo.Valid() && repo.nextId == old(repo.nextId)
    ensures !IdValido(id) ==> resp == Erro(400, IdInvalido) && repo.usuarios == old(repo.usuarios)
    ensures IdValido(id) ==>
      && repo.usuarios == DesativarUsuario(old(repo.usuarios), Chave(id))
      && (resp == Ok(200, Excluido) <==> Chave(id) in old(repo.usuarios))
      && (resp.Erro? ==> resp == Erro(404, NaoEncontrado))
  {
    if !IdValido(id) {
      return Erro(400, IdInvalido);
    }
    var linhas := repo.Deletar(Chave(id));
    if linhas == 0 {
      return Erro(404, NaoEncontrado);
    }
    resp := Ok(200, Excluido);
  }
}
