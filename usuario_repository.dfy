/** The Usuarios table and the statements the user repository runs on it.
    Passwords are stored and compared as given. */
module UsuarioRepo {
  import opened Wrappers
  import opened Seqs

  /** A row of Usuarios, keyed by UsuarioId. */
  datatype Usuario = Usuario(login: string, senha: string, nomeCompleto: string, email: string, ativo: bool)

  type UsuarioRecord = Entry<Usuario>

  type UsuarioTable = map<int, Usuario>

  /** What `criar` receives. */
  datatype NovoUsuario = NovoUsuario(login: string, senha: string, nomeCompleto: string, email: string)

  /** A user as the API should show it: every column except Senha. */
  datatype UsuarioPublico = UsuarioPublico(usuarioId: int, login: string, nomeCompleto: string, email: string, ativo: bool)

  /** `const { Senha, ...usuarioSemSenha } = usuario`. */
  function SemSenha(e: UsuarioRecord): (p: UsuarioPublico)
    ensures p.usuarioId == e.id && p.login == e.row.login && p.nomeCompleto == e.row.nomeCompleto
    ensures p.email == e.row.email && p.ativo == e.row.ativo
  {
    UsuarioPublico(e.id, e.row.login, e.row.nomeCompleto, e.row.email, e.row.ativo)
  }

  /** Removing Senha loses nothing else: the row is the public view plus
      the password. */
  lemma SemSenhaInjetiva(a: UsuarioRecord, b: UsuarioRecord)
    requires SemSenha(a) == SemSenha(b) && a.row.senha == b.row.senha
    ensures a == b
  {
  }

  predicate Credenciais(u: Usuario, login: string, senha: string)
  {
    u.ativo && u.login == login && u.senha == senha
  }

  /** `login`: `WHERE Login = @login AND Senha = @senha AND Ativo = 1`, the
      first row in identity order. */
  function LoginUsuario(t: UsuarioTable, hi: int, login: string, senha: string): (r: Option<UsuarioRecord>)
    requires KeysBelow(t.Keys, hi)
    ensures r.None? <==> forall k :: k in t ==> !Credenciais(t[k], login, senha)
    ensures r.Some? ==>
      r.value.id in t && r.value.row == t[r.value.id] && Credenciais(r.value.row, login, senha)
      && forall k :: k in t && Credenciais(t[k], login, senha) ==> r.value.id <= k
  {
    var p := (u: Usuario) => Credenciais(u, login, senha);
    var s := Select(t, hi, p);
    SelectBounds(t, hi, p);
    if s == [] then None
    else
      assert s[0] in s;
      Some(s[0])
  }

  predicate UsuarioAtivo(u: Usuario) { u.ativo }

  /** `listarTodos`: `SELECT * ... WHERE Ativo = 1`, every column included. */
  function ListarUsuarios(t: UsuarioTable, hi: int): (r: seq<UsuarioRecord>)
    requires KeysBelow(t.Keys, hi)
    ensures forall e :: e in r <==> e.id in t && t[e.id].ativo && e.row == t[e.id]
    ensures NoDup(r)
  {
    Select(t, hi, UsuarioAtivo)
  }

  function Publicos(es: seq<UsuarioRecord>): (r: seq<UsuarioPublico>)
    ensures |r| == |es|
    ensures forall i :: 0 <= i < |es| ==> r[i] == SemSenha(es[i])
  {
    if es == [] then [] else [SemSenha(es[0])] + Publicos(es[1..])
  }

  /** The listing without Senha: the same users, in the same order. */
  function ListarUsuariosPublicos(t: UsuarioTable, hi: int): (r: seq<UsuarioPublico>)
    requires KeysBelow(t.Keys, hi)
    ensures |r| == |ListarUsuarios(t, hi)|
    ensures forall p :: p in r <==> p.usuarioId in t && t[p.usuarioId].ativo && p == SemSenha(Entry(p.usuarioId, t[p.usuarioId]))
  {
    var es := ListarUsuarios(t, hi);
    var r := Publicos(es);
    forall p | p in r
      ensures p.usuarioId in t && t[p.usuarioId].ativo && p == SemSenha(Entry(p.usuarioId, t[p.usuarioId]))
    {
      var i :| 0 <= i < |r| && r[i] == p;
      assert es[i] in es;
    }
    forall k | k in t && t[k].ativo
      ensures SemSenha(Entry(k, t[k])) in r
    {
      assert Entry(k, t[k]) in es;
      var i :| 0 <= i < |es| && es[i] == Entry(k, t[k]);
      assert r[i] == SemSenha(Entry(k, t[k]));
    }
    r
  }

  /** The listing as written hands every active user's password to the
      caller. */
  lemma ListarExpoeSenha(t: UsuarioTable, hi: int, k: int)
    requires KeysBelow(t.Keys, hi) && k in t && t[k].ativo
    ensures exists e :: e in ListarUsuarios(t, hi) && e.id == k && e.row.senha == t[k].senha
  {
    assert Entry(k, t[k]) in ListarUsuarios(t, hi);
  }

  /** A concrete table that shows it. */
  lemma ListarExpoeSenhaExemplo()
    ensures ListarUsuarios(map[1 := Usuario("admin", "segredo1", "ADMIN", "a@b.co", true)], 2)
      == [Entry(1, Usuario("admin", "segredo1", "ADMIN", "a@b.co", true))]
  {
    var t := map[1 := Usuario("admin", "segredo1", "ADMIN", "a@b.co", true)];
    var r := ListarUsuarios(t, 2);
    assert Entry(1, t[1]) in r;
    assert forall e :: e in r ==> e == Entry(1, t[1]);
  }

  /** `criar`: INSERT with the Ativo default of 1. */
  function LinhaUsuario(n: NovoUsuario): Usuario
  {
    Usuario(n.login, n.senha, n.nomeCompleto, n.email, true)
  }

  /** `atualizar`: `UPDATE ... WHERE UsuarioId = @id`, with no Ativo filter. */
  function AtualizarUsuario(t: UsuarioTable, id: int, nomeCompleto: string, email: string, senha: string): UsuarioTable
  {
    if id in t then t[id := t[id].(nomeCompleto := nomeCompleto, email := email, senha := senha)] else t
  }

  /** `deletar`: `UPDATE ... SET Ativo = 0 WHERE UsuarioId = @id`. */
  function DesativarUsuario(t: UsuarioTable, id: int): UsuarioTable
  {
    if id in t then t[id := t[id].(ativo := false)] else t
  }

  /** Updating an inactive user still rewrites the row and leaves it
      inactive: the new password does not let it log in. */
  lemma AtualizarInativo(t: UsuarioTable, hi: int, id: int, nome: string, email: string, senha: string)
    requires KeysBelow(t.Keys, hi) && id in t && !t[id].ativo
    ensures AtualizarUsuario(t, id, nome, email, senha)[id].senha == senha
    ensures !AtualizarUsuario(t, id, nome, email, senha)[id].ativo
    ensures var r := LoginUsuario(AtualizarUsuario(t, id, nome, email, senha), hi, t[id].login, senha);
      r.None? || r.value.id != id
  {
  }

  /** A deleted user can no longer log in, and only that row changes. */
  lemma DesativarBloqueiaLogin(t: UsuarioTable, hi: int, id: int, login: string, senha: string)
    requires KeysBelow(t.Keys, hi)
    ensures var r := LoginUsuario(DesativarUsuario(t, id), hi, login, senha);
      r.None? || r.value.id != id
    ensures forall k :: k in t && k != id ==> DesativarUsuario(t, id)[k] == t[k]
    ensures DesativarUsuario(t, id).Keys == t.Keys
  {
  }

  /** A user just created logs in with its own login and password, unless an
      older active row has the same credentials. */
  lemma CriadoFazLogin(t: UsuarioTable, hi: int, n: NovoUsuario)
    requires hi >= 1 && KeysBelow(t.Keys, hi)
    ensures KeysBelow(t[hi := LinhaUsuario(n)].Keys, hi + 1)
    ensures LoginUsuario(t[hi := LinhaUsuario(n)], hi + 1, n.login, n.senha).Some?
    ensures (forall k :: k in t ==> !Credenciais(t[k], n.login, n.senha)) ==>
      LoginUsuario(t[hi := LinhaUsuario(n)], hi + 1, n.login, n.senha) == Some(Entry(hi, LinhaUsuario(n)))
  {
    assert Credenciais(t[hi := LinhaUsuario(n)][hi], n.login, n.senha);
  }

  /** The user repository. */
  class UsuarioRepository {
    var usuarios: UsuarioTable
    var nextId: int

    ghost predicate Valid()
      reads this
    {
      nextId >= 1 && KeysBelow(usuarios.Keys, nextId)
    }

    constructor ()
      ensures Valid() && usuarios == map[] && nextId == 1
    {
      usuarios := map[];
      nextId := 1;
    }

    function Login(login: string, senha: string): Option<UsuarioRecord>
      reads this
      requires Valid()
    {
      LoginUsuario(usuarios, nextId, login, senha)
    }

    function ListarTodos(): seq<UsuarioRecord>
      reads this
      requires Valid()
    {
      ListarUsuarios(usuarios, nextId)
    }

    /** `criar`: `OUTPUT INSERTED.*` returns the whole new row. `falha` is
        the error the database raises, if it rejects the INSERT. */
    method Criar(n: NovoUsuario, falha: Option<string>) returns (r: Result<UsuarioRecord, string>)
      requires Valid()
      modifies this
      ensures Valid()
      ensures falha.Some? ==> r == Failure(falha.value) && usuarios == old(usuarios) && nextId == old(nextId)
      ensures falha.None? ==>
        && r == Success(Entry(old(nextId), LinhaUsuario(n)))
        && usuarios == old(usuarios)[old(nextId) := LinhaUsuario(n)]
        && nextId == old(nextId) + 1
    {
      if falha.Some? {
        return Failure(falha.value);
      }
      var id := nextId;
      usuarios := usuarios[id := LinhaUsuario(n)];
      nextId := nextId + 1;
      r := Success(Entry(id, LinhaUsuario(n)));
    }

    method Atualizar(id: int, nomeCompleto: string, email: string, senha: string) returns (linhas: int)
      requires Valid()
      modifies this
      ensures Valid() && nextId == old(nextId)
      ensures usuarios == AtualizarUsuario(old(usuarios), id, nomeCompleto, email, senha)
      ensures linhas == if id in old(usuarios) then 1 else 0
    {
      linhas := if id in usuarios then 1 else 0;
      usuarios := AtualizarUsuario(usuarios, id, nomeCompleto, email, senha);
    }

    method Deletar(id: int) returns (linhas: int)
      requires Valid()
      modifies this
      ensures Valid() && nextId == old(nextId)
      ensures usuarios == DesativarUsuario(old(usuarios), id)
      ensures linhas == if id in old(usuarios) then 1 else 0
    {
      linhas := if id in usuarios then 1 else 0;
      usuarios := DesativarUsuario(usuarios, id);
    }
  }
}
