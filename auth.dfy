/** The client-side session gate: the one `sessionStorage` slot under the
    key 'usuario', its classification against the clock, and the page
    handlers that clear it and decide the redirect to the login page. */
module Auth {
  import opened Wrappers
  import opened Text
  import opened Config
  import opened UsuarioRepo

  const MaxSessionTime: int := 24 * 60 * 60 * 1000
  const CheckInterval: int := 5 * 60 * 1000
  const LegacyKey: string := "usuarioLogado"
  const LoginUrl: string := "http://127.0.0.1:3000/pages/login.html"

  const MsgExpirada: string := "Sessão expirada. Faça login novamente."
  const MsgLogout: string := "Logout realizado com sucesso."
  const MsgPerdida: string := "Sessão perdida. Redirecionando..."
  const MsgOutraAba: string := "Sessão encerrada em outra aba."

  /** The properties of the parsed session object that the gate reads.
      A missing property is `None`; a `loginTime` of 0 is falsy. */
  datatype Sessao = Sessao(usuario: Option<UsuarioPublico>, loginTime: Option<int>, lastActivity: Option<int>)

  /** The decoded text of the slot: text `JSON.parse` rejects, or that
      parses to `null`, is unreadable (reading a property of it throws);
      anything else is read as an object, a missing property being absent. */
  datatype Conteudo = Ilegivel | Objeto(sessao: Sessao)

  /** A stored string: the empty string, or JSON text. */
  datatype Armazenado = Vazio | Json(conteudo: Conteudo)

  /** What `getUsuarioLogado` finds. */
  datatype Estado = Ausente | Malformada | Expirada | Valida(usuario: UsuarioPublico)

  predicate TimeTruthy(t: Option<int>)
  {
    t.Some? && t.value != 0
  }

  /** The decision of `getUsuarioLogado` on the slot's content at time
      `now`. */
  function Classificar(slot: Option<Armazenado>, now: int): (e: Estado)
    ensures e.Ausente? <==> slot.None? || slot == Some(Vazio)
    ensures e.Valida? <==>
      && slot.Some? && slot.value.Json? && slot.value.conteudo.Objeto?
      && var s := slot.value.conteudo.sessao;
         s.usuario.Some? && TimeTruthy(s.loginTime) && now - s.loginTime.value <= MaxSessionTime
    ensures e.Valida? ==> e.usuario == slot.value.conteudo.sessao.usuario.value
    ensures e.Expirada? <==>
      && slot.Some? && slot.value.Json? && slot.value.conteudo.Objeto?
      && var s := slot.value.conteudo.sessao;
         s.usuario.Some? && TimeTruthy(s.loginTime) && now - s.loginTime.value > MaxSessionTime
  {
    match slot
    case None => Ausente
    case Some(Vazio) => Ausente
    case Some(Json(Ilegivel)) => Malformada
    case Some(Json(Objeto(s))) =>
      if s.usuario.None? || !TimeTruthy(s.loginTime) then Malformada
      else if now - s.loginTime.value > MaxSessionTime then Expirada
      else Valida(s.usuario.value)
  }

  /** The user `getUsuarioLogado` returns: only a valid session yields one,
      and it is the user that session holds. */
  function UsuarioDe(e: Estado): (u: Option<UsuarioPublico>)
    ensures u.Some? <==> e.Valida?
    ensures u.Some? ==> u.value == e.usuario
  {
    if e.Valida? then Some(e.usuario) else None
  }

  /** The user returned is the stored session's `usuario`, and one is
      returned exactly when that session has a user and a login time and is
      at most 24 h old. */
  lemma UsuarioDaSessao(slot: Option<Armazenado>, now: int, u: UsuarioPublico)
    ensures UsuarioDe(Classificar(slot, now)) == Some(u) <==>
      && slot.Some? && slot.value.Json? && slot.value.conteudo.Objeto?
      && var s := slot.value.conteudo.sessao;
         s.usuario == Some(u) && TimeTruthy(s.loginTime) && now - s.loginTime.value <= MaxSessionTime
  {
  }

  /** A malformed or expired session is what `getUsuarioLogado` clears. */
  predicate Limpa(e: Estado)
  {
    e.Malformada? || e.Expirada?
  }

  /** The session storage after `getUsuarioLogado` found `e`. */
  function SessaoApos(ss: map<string, Armazenado>, e: Estado): (r: map<string, Armazenado>)
    ensures Limpa(e) ==> SessionKey !in r
    ensures Limpa(e) ==> r == ss - {SessionKey}
    ensures forall k :: k in ss && k != SessionKey ==> k in r && r[k] == ss[k]
    ensures !Limpa(e) ==> r == ss
  {
    if Limpa(e) then ss - {SessionKey} else ss
  }

  /** The local storage after `getUsuarioLogado` found `e`. */
  function LocalApos(ls: map<string, string>, e: Estado): (r: map<string, string>)
    ensures Limpa(e) ==> LegacyKey !in r
    ensures Limpa(e) ==> r == ls - {LegacyKey}
    ensures forall k :: k in ls && k != LegacyKey ==> k in r && r[k] == ls[k]
    ensures !Limpa(e) ==> r == ls
  {
    if Limpa(e) then ls - {LegacyKey} else ls
  }

  /** The message `getUsuarioLogado` shows: only for an expired session. */
  function AvisoDe(e: Estado): (r: seq<string>)
    ensures r == [MsgExpirada] <==> e.Expirada?
    ensures r == [] <==> !e.Expirada?
  {
    if e.Expirada? then [MsgExpirada] else []
  }

  /** Expiry is measured from `loginTime` alone: `lastActivity` never
      changes the decision. */
  lemma AtividadeIrrelevante(s: Sessao, t: Option<int>, now: int)
    ensures Classificar(Some(Json(Objeto(s))), now) == Classificar(Some(Json(Objeto(s.(lastActivity := t)))), now)
  {
  }

  /** A session stays valid until exactly 24 h after login, and is expired
      from the next millisecond on, whatever else happened. */
  lemma ValidadeMonotona(s: Sessao, now: int, later: int)
    requires s.usuario.Some? && TimeTruthy(s.loginTime)
    requires now <= later
    ensures Classificar(Some(Json(Objeto(s))), later).Valida? ==> Classificar(Some(Json(Objeto(s))), now).Valida?
    ensures Classificar(Some(Json(Objeto(s))), s.loginTime.value + MaxSessionTime).Valida?
    ensures Classificar(Some(Json(Objeto(s))), s.loginTime.value + MaxSessionTime + 1) == Expirada
  {
  }

  /** The lifetime the gate enforces is the configured token expiry. */
  lemma MesmaValidade()
    ensures MaxSessionTime == TokenExpiry == 86400000
    ensures CheckInterval == 300000
  {
  }

  /** What the login page stores: the user object itself. It has no
      `usuario` and no `loginTime` property. */
  function GravadoPeloLogin(u: UsuarioPublico): Armazenado
  {
    Json(Objeto(Sessao(None, None, None)))
  }

  /** Whatever the clock, the gate rejects what the login page stores. */
  lemma LoginGravaSessaoInvalida(u: UsuarioPublico, now: int)
    ensures Classificar(Some(GravadoPeloLogin(u)), now) == Malformada
  {
  }

  /** The session object the gate expects: the user and the login time. */
  function NovaSessao(u: UsuarioPublico, now: int): Armazenado
  {
    Json(Objeto(Sessao(Some(u), Some(now), Some(now))))
  }

  /** A session written at a positive time `now` yields its user at every
      time up to 24 h later and is expired afterwards. */
  lemma NovaSessaoValida(u: UsuarioPublico, now: int, t: int)
    requires now > 0
    ensures t - now <= MaxSessionTime ==> Classificar(Some(NovaSessao(u, now)), t) == Valida(u)
    ensures t - now > MaxSessionTime ==> Classificar(Some(NovaSessao(u, now)), t) == Expirada
  {
  }

  /** `isProtectedPage`. */
  predicate PaginaProtegida(pathname: string)
  {
    Contains(pathname, "dashboard.html") || Contains(pathname, "admin.html") || Contains(pathname, "usuarios.html")
  }

  /** `redirectToLogin` acts only outside the login page. */
  predicate RedirecionaDe(pathname: string)
  {
    !Contains(pathname, "login.html")
  }

  /** The browser state the gate touches. `destino` is the URL assigned to
      `window.location.href`, if any; `avisos` the messages shown. */
  class Navegador {
    var sessionStorage: map<string, Armazenado>
    var localStorage: map<string, string>
    var destino: Option<string>
    var avisos: seq<string>
    const pathname: string

    constructor (pathname: string, sessionStorage: map<string, Armazenado>, localStorage: map<string, string>)
      ensures this.pathname == pathname && this.sessionStorage == sessionStorage
      ensures this.localStorage == localStorage && destino.None? && avisos == []
    {
      this.pathname := pathname;
      this.sessionStorage := sessionStorage;
      this.localStorage := localStorage;
      destino := None;
      avisos := [];
    }

    function Slot(): Option<Armazenado>
      reads this
    {
      if SessionKey in sessionStorage then Some(sessionStorage[SessionKey]) else None
    }

    /** `clearSession`: the session key and the legacy local key go,
        nothing else. */
    method ClearSession()
      modifies this
      ensures sessionStorage == old(sessionStorage) - {SessionKey}
      ensures localStorage == old(localStorage) - {LegacyKey}
      ensures destino == old(destino) && avisos == old(avisos)
    {
      sessionStorage := sessionStorage - {SessionKey};
      localStorage := localStorage - {LegacyKey};
    }

    /** `getUsuarioLogado`: a malformed or expired session is cleared; an
        absent or valid one leaves storage as it was. */
    method GetUsuarioLogado(now: int) returns (u: Option<UsuarioPublico>)
      modifies this
      ensures u == UsuarioDe(Classificar(old(Slot()), now))
      ensures sessionStorage == SessaoApos(old(sessionStorage), Classificar(old(Slot()), now))
      ensures localStorage == LocalApos(old(localStorage), Classificar(old(Slot()), now))
      ensures avisos == old(avisos) + AvisoDe(Classificar(old(Slot()), now))
      ensures destino == old(destino)
    {
      var e := Classificar(Slot(), now);
      if e.Malformada? {
        ClearSession();
      } else if e.Expirada? {
        ClearSession();
        avisos := avisos + [MsgExpirada];
      }
      u := UsuarioDe(e);
    }

    /** `redirectToLogin`: never from a path containing "login.html". */
    method RedirectToLogin()
      modifies this
      ensures destino == if RedirecionaDe(pathname) then Some(LoginUrl) else old(destino)
      ensures sessionStorage == old(sessionStorage) && localStorage == old(localStorage) && avisos == old(avisos)
    {
      if RedirecionaDe(pathname) {
        destino := Some(LoginUrl);
      }
    }

    /** `verificarAutenticacao`: true exactly for a valid session; otherwise
        the redirect decision is taken. */
    method VerificarAutenticacao(now: int) returns (ok: bool)
      modifies this
      ensures ok <==> Classificar(old(Slot()), now).Valida?
      ensures !ok ==> destino == if RedirecionaDe(pathname) then Some(LoginUrl) else old(destino)
      ensures ok ==> destino == old(destino)
      ensures sessionStorage == SessaoApos(old(sessionStorage), Classificar(old(Slot()), now))
      ensures localStorage == LocalApos(old(localStorage), Classificar(old(Slot()), now))
      ensures avisos == old(avisos) + AvisoDe(Classificar(old(Slot()), now))
    {
      var u := GetUsuarioLogado(now);
      if u.None? {
        RedirectToLogin();
        return false;
      }
      ok := true;
    }

    /** The page-load rule: only a protected page is checked, and the
        periodic check is started only after a successful one. */
    method OnLoad(now: int) returns (periodico: bool)
      modifies this
      ensures periodico <==> PaginaProtegida(pathname) && Classificar(old(Slot()), now).Valida?
      ensures PaginaProtegida(pathname) ==>
        && destino == (if periodico || !RedirecionaDe(pathname) then old(destino) else Some(LoginUrl))
        && sessionStorage == SessaoApos(old(sessionStorage), Classificar(old(Slot()), now))
        && localStorage == LocalApos(old(localStorage), Classificar(old(Slot()), now))
        && avisos == old(avisos) + AvisoDe(Classificar(old(Slot()), now))
      ensures !PaginaProtegida(pathname) ==>
        && sessionStorage == old(sessionStorage) && localStorage == old(localStorage)
        && destino == old(destino) && avisos == old(avisos)
    {
      periodico := false;
      if PaginaProtegida(pathname) {
        periodico := VerificarAutenticacao(now);
      }
    }

    /** One tick of the periodic check; the two-second delay before the
        redirect is taken as immediate. */
    method PeriodicCheck(now: int)
      modifies this
      ensures Classificar(old(Slot()), now).Valida? ==> destino == old(destino) && avisos == old(avisos)
      ensures !Classificar(old(Slot()), now).Valida? ==>
        destino == (if RedirecionaDe(pathname) then Some(LoginUrl) else old(destino))
        && avisos == old(avisos) + AvisoDe(Classificar(old(Slot()), now)) + [MsgPerdida]
      ensures sessionStorage == SessaoApos(old(sessionStorage), Classificar(old(Slot()), now))
      ensures localStorage == LocalApos(old(localStorage), Classificar(old(Slot()), now))
    {
      var u := GetUsuarioLogado(now);
      if u.None? {
        avisos := avisos + [MsgPerdida];
        RedirectToLogin();
      }
    }

    /** `logout`: the session is cleared and the login page loaded, from
        any page and whatever the session held. */
    method Logout(now: int)
      modifies this
      ensures sessionStorage == old(sessionStorage) - {SessionKey}
      ensures localStorage == old(localStorage) - {LegacyKey}
      ensures destino == Some(LoginUrl)
      ensures avisos == old(avisos) + AvisoDe(Classificar(old(Slot()), now)) + [MsgLogout]
    {
      ghost var ss, ls := sessionStorage, localStorage;
      var _ := GetUsuarioLogado(now);
      assert sessionStorage - {SessionKey} == ss - {SessionKey};
      assert localStorage - {LegacyKey} == ls - {LegacyKey};
      ClearSession();
      avisos := avisos + [MsgLogout];
      destino := Some(LoginUrl);
    }

    /** The beforeunload handler: on a protected page with a valid session
        only `lastActivity` is rewritten, so the session's login time and
        user are kept. */
    method BeforeUnload(now: int)
      modifies this
      ensures PaginaProtegida(pathname) && Classificar(old(Slot()), now).Valida? ==>
        var s := old(Slot()).value.conteudo.sessao;
        && sessionStorage == old(sessionStorage)[SessionKey := Json(Objeto(s.(lastActivity := Some(now))))]
        && localStorage == old(localStorage) && avisos == old(avisos)
      ensures PaginaProtegida(pathname) && !Classificar(old(Slot()), now).Valida? ==>
        && sessionStorage == SessaoApos(old(sessionStorage), Classificar(old(Slot()), now))
        && localStorage == LocalApos(old(localStorage), Classificar(old(Slot()), now))
        && avisos == old(avisos) + AvisoDe(Classificar(old(Slot()), now))
      ensures !PaginaProtegida(pathname) ==>
        sessionStorage == old(sessionStorage) && localStorage == old(localStorage) && avisos == old(avisos)
      ensures destino == old(destino)
    {
      if PaginaProtegida(pathname) {
        var u := GetUsuarioLogado(now);
        if u.Some? {
          var s := Slot().value.conteudo.sessao;
          sessionStorage := sessionStorage[SessionKey := Json(Objeto(s.(lastActivity := Some(now))))];
        }
      }
    }

    /** The storage event: another tab removed the session while this one
        shows a protected page. The two-second delay is taken as
        immediate. */
    method StorageEvent(key: string, newValue: Option<string>)
      modifies this
      ensures key == SessionKey && (newValue.None? || newValue == Some([])) && PaginaProtegida(pathname) ==>
        destino == (if RedirecionaDe(pathname) then Some(LoginUrl) else old(destino))
        && avisos == old(avisos) + [MsgOutraAba]
      ensures !(key == SessionKey && (newValue.None? || newValue == Some([])) && PaginaProtegida(pathname)) ==>
        destino == old(destino) && avisos == old(avisos)
      ensures sessionStorage == old(sessionStorage) && localStorage == old(localStorage)
    {
      if key == SessionKey && (newValue.None? || newValue == Some([])) && PaginaProtegida(pathname) {
        avisos := avisos + [MsgOutraAba];
        RedirectToLogin();
      }
    }

    /** Storing a login with the session object the gate expects. */
    method SalvarLogin(u: UsuarioPublico, now: int)
      modifies this
      ensures sessionStorage == old(sessionStorage)[SessionKey := NovaSessao(u, now)]
      ensures now > 0 ==> Classificar(Slot(), now) == Valida(u)
      ensures localStorage == old(localStorage) && destino == old(destino) && avisos == old(avisos)
    {
      sessionStorage := sessionStorage[SessionKey := NovaSessao(u, now)];
    }
  }
}
