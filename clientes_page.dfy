/** The customer page's formatters (the CPF and CNPJ masks written as the
    chain of regular-expression replacements they are, the date and the
    document display) and the page state its handlers change. */
module ClientesPage {
  import opened Wrappers
  import opened Text
  import opened Js

  const Travessao: string := "\U{2014}"

  /** `len` digits start at `i`. */
  predicate DigitRun(s: string, i: int, len: nat)
  {
    0 <= i && i + len <= |s| && forall k :: i <= k < i + len ==> IsDigit(s[k])
  }

  /** The leftmost match of `\d{len}` at or after `i`. */
  function FirstRun(s: string, len: nat, i: nat): (r: Option<nat>)
    requires i <= |s|
    decreases |s| - i
    ensures r.Some? ==>
      i <= r.value && DigitRun(s, r.value, len) && forall j :: i <= j < r.value ==> !DigitRun(s, j, len)
    ensures r.None? ==> forall j :: i <= j <= |s| ==> !DigitRun(s, j, len)
  {
    if DigitRun(s, i, len) then Some(i)
    else if i == |s| then None
    else FirstRun(s, len, i + 1)
  }

  lemma FirstRunIs(s: string, len: nat, i0: nat)
    requires DigitRun(s, i0, len)
    requires forall j :: 0 <= j < i0 ==> !DigitRun(s, j, len)
    ensures FirstRun(s, len, 0) == Some(i0)
  {
  }

  function Insert(s: string, k: nat, c: char): (r: string)
    requires k <= |s|
    ensures |r| == |s| + 1
  {
    s[..k] + [c] + s[k..]
  }

  /** `s.replace(/(\d{a})(\d)/, '$1' + sep + '$2')`: `sep` goes after the
      first `a` digits of the leftmost run of `a + 1` digits. */
  function ReplacePair(s: string, a: nat, sep: char): string
  {
    match FirstRun(s, a + 1, 0)
    case None => s
    case Some(i) => Insert(s, i + a, sep)
  }

  /** `s.replace(/(\d{a})(\d{1,2})$/, '$1-$2')`: the leftmost match is the
      longest all-digit tail of `a + 2` or `a + 1` characters; '-' goes
      after its first `a`. */
  function ReplaceTail(s: string, a: nat): string
  {
    if |s| >= a + 2 && DigitRun(s, |s| - (a + 2), a + 2) then Insert(s, |s| - 2, '-')
    else if |s| >= a + 1 && DigitRun(s, |s| - (a + 1), a + 1) then Insert(s, |s| - 1, '-')
    else s
  }

  /** `slice(0, n)`. */
  function Take(s: string, n: nat): (r: string)
    ensures |r| <= n && StartsWith(s, r)
    ensures |s| >= n ==> |r| == n
    ensures |s| <= n ==> r == s
  {
    if |s| <= n then s else s[..n]
  }

  /** `formatarCpf`. */
  function FormatarCpf(valor: string): string
  {
    var n := Take(DigitsOf(valor), 11);
    ReplaceTail(ReplacePair(ReplacePair(n, 3, '.'), 3, '.'), 3)
  }

  /** `formatarCnpj`. */
  function FormatarCnpj(valor: string): string
  {
    var n := Take(DigitsOf(valor), 14);
    ReplaceTail(ReplacePair(ReplacePair(ReplacePair(n, 2, '.'), 3, '.'), 3, '/'), 4)
  }

  /** Inserting a separator keeps the digits. */
  lemma InsertDigits(s: string, k: nat, c: char)
    requires k <= |s| && !IsDigit(c)
    ensures DigitsOf(Insert(s, k, c)) == DigitsOf(s)
  {
    DigitsOfConcat(s[..k] + [c], s[k..]);
    DigitsOfConcat(s[..k], [c]);
    DigitsOfConcat(s[..k], s[k..]);
    assert s[..k] + s[k..] == s;
    assert DigitsOf([c]) == [];
  }

  lemma ReplacePairDigits(s: string, a: nat, sep: char)
    requires !IsDigit(sep)
    ensures DigitsOf(ReplacePair(s, a, sep)) == DigitsOf(s)
  {
    var r := FirstRun(s, a + 1, 0);
    if r.Some? {
      InsertDigits(s, r.value + a, sep);
    }
  }

  lemma ReplaceTailDigits(s: string, a: nat)
    ensures DigitsOf(ReplaceTail(s, a)) == DigitsOf(s)
  {
    if |s| >= a + 2 && DigitRun(s, |s| - (a + 2), a + 2) {
      InsertDigits(s, |s| - 2, '-');
    } else if |s| >= a + 1 && DigitRun(s, |s| - (a + 1), a + 1) {
      InsertDigits(s, |s| - 1, '-');
    }
  }

  /** The digits of a prefix of digits are the prefix. */
  lemma TakeDigits(valor: string, n: nat)
    ensures AllDigits(Take(DigitsOf(valor), n))
    ensures DigitsOf(Take(DigitsOf(valor), n)) == Take(DigitsOf(valor), n)
  {
    DigitsOfSpec(valor);
    var t := Take(DigitsOf(valor), n);
    assert forall i :: 0 <= i < |t| ==> t[i] == DigitsOf(valor)[i];
    DigitsOfSpec(t);
  }

  /** The CPF mask keeps exactly the first 11 digits of its input. */
  lemma CpfDigitos(valor: string)
    ensures DigitsOf(FormatarCpf(valor)) == Take(DigitsOf(valor), 11)
  {
    var n := Take(DigitsOf(valor), 11);
    TakeDigits(valor, 11);
    ReplacePairDigits(n, 3, '.');
    ReplacePairDigits(ReplacePair(n, 3, '.'), 3, '.');
    ReplaceTailDigits(ReplacePair(ReplacePair(n, 3, '.'), 3, '.'), 3);
  }

  /** The CNPJ mask keeps exactly the first 14 digits of its input. */
  lemma CnpjDigitos(valor: string)
    ensures DigitsOf(FormatarCnpj(valor)) == Take(DigitsOf(valor), 14)
  {
    var n := Take(DigitsOf(valor), 14);
    TakeDigits(valor, 14);
    var s1 := ReplacePair(n, 2, '.');
    var s2 := ReplacePair(s1, 3, '.');
    var s3 := ReplacePair(s2, 3, '/');
    ReplacePairDigits(n, 2, '.');
    ReplacePairDigits(s1, 3, '.');
    ReplacePairDigits(s2, 3, '/');
    ReplaceTailDigits(s3, 4);
  }

  /** Masking a masked value changes nothing. */
  lemma CpfIdempotente(valor: string)
    ensures FormatarCpf(FormatarCpf(valor)) == FormatarCpf(valor)
  {
    CpfDigitos(valor);
  }

  lemma CnpjIdempotente(valor: string)
    ensures FormatarCnpj(FormatarCnpj(valor)) == FormatarCnpj(valor)
  {
    CnpjDigitos(valor);
  }

  /** Eleven digits read `DDD.DDD.DDD-DD`. */
  lemma CpfMascara(n: string)
    requires |n| == 11 && AllDigits(n)
    ensures FormatarCpf(n) == n[..3] + "." + n[3..6] + "." + n[6..9] + "-" + n[9..]
  {
    DigitsOfSpec(n);
    FirstRunIs(n, 4, 0);
    var s1 := n[..3] + "." + n[3..];
    assert ReplacePair(n, 3, '.') == s1;
    assert s1[3] == '.';
    forall j | 0 <= j < 4 ensures !DigitRun(s1, j, 4) {
      assert !IsDigit(s1[3]);
    }
    assert forall k :: 4 <= k < 8 ==> s1[k] == n[k - 1];
    FirstRunIs(s1, 4, 4);
    var s2 := n[..3] + "." + n[3..6] + "." + n[6..];
    assert ReplacePair(s1, 3, '.') == s2 by {
      assert Insert(s1, 7, '.') == s2;
    }
    assert forall k :: 8 <= k < 13 ==> s2[k] == n[k - 2];
    assert DigitRun(s2, 8, 5);
    assert ReplaceTail(s2, 3) == Insert(s2, 11, '-');
  }

  /** The first CNPJ step puts '.' after the first two digits. */
  lemma CnpjPrimeiroPonto(n: string)
    requires |n| == 14 && AllDigits(n)
    ensures ReplacePair(n, 2, '.') == n[..2] + "." + n[2..]
  {
    FirstRunIs(n, 3, 0);
  }

  /** The second step puts '.' after the next three digits. */
  lemma CnpjSegundoPonto(n: string)
    requires |n| == 14 && AllDigits(n)
    ensures ReplacePair(n[..2] + "." + n[2..], 3, '.') == n[..2] + "." + n[2..5] + "." + n[5..]
  {
    var s1 := n[..2] + "." + n[2..];
    forall j | 0 <= j < 3 ensures !DigitRun(s1, j, 4) {
      assert !IsDigit(s1[2]);
    }
    assert forall k :: 3 <= k < 7 ==> s1[k] == n[k - 1];
    FirstRunIs(s1, 4, 3);
    assert Insert(s1, 6, '.') == n[..2] + "." + n[2..5] + "." + n[5..];
  }

  /** The third step puts '/' after the next three digits. */
  lemma CnpjBarra(n: string)
    requires |n| == 14 && AllDigits(n)
    ensures ReplacePair(n[..2] + "." + n[2..5] + "." + n[5..], 3, '/')
      == n[..2] + "." + n[2..5] + "." + n[5..8] + "/" + n[8..]
  {
    var s2 := n[..2] + "." + n[2..5] + "." + n[5..];
    forall j | 0 <= j < 7 ensures !DigitRun(s2, j, 4) {
      if j < 3 {
        assert !IsDigit(s2[2]);
      } else {
        assert !IsDigit(s2[6]);
      }
    }
    assert forall k :: 7 <= k < 11 ==> s2[k] == n[k - 2];
    FirstRunIs(s2, 4, 7);
    assert Insert(s2, 10, '/') == n[..2] + "." + n[2..5] + "." + n[5..8] + "/" + n[8..];
  }

  /** The last step puts '-' before the last two digits. */
  lemma CnpjHifen(n: string)
    requires |n| == 14 && AllDigits(n)
    ensures ReplaceTail(n[..2] + "." + n[2..5] + "." + n[5..8] + "/" + n[8..], 4)
      == n[..2] + "." + n[2..5] + "." + n[5..8] + "/" + n[8..12] + "-" + n[12..]
  {
    var s3 := n[..2] + "." + n[2..5] + "." + n[5..8] + "/" + n[8..];
    assert forall k :: 11 <= k < 17 ==> s3[k] == n[k - 3];
    assert DigitRun(s3, 11, 6);
    assert Insert(s3, 15, '-') == n[..2] + "." + n[2..5] + "." + n[5..8] + "/" + n[8..12] + "-" + n[12..];
  }

  /** Fourteen digits read `DD.DDD.DDD/DDDD-DD`. */
  lemma CnpjMascara(n: string)
    requires |n| == 14 && AllDigits(n)
    ensures FormatarCnpj(n) == n[..2] + "." + n[2..5] + "." + n[5..8] + "/" + n[8..12] + "-" + n[12..]
  {
    DigitsOfSpec(n);
    assert Take(DigitsOf(n), 14) == n;
    CnpjPrimeiroPonto(n);
    CnpjSegundoPonto(n);
    CnpjBarra(n);
    CnpjHifen(n);
  }

  /** `formatarDocumento`: a dash for nothing, the mask that fits 11 or 14
      digits, the input itself otherwise. */
  function FormatarDocumento(doc: Option<string>): (r: string)
    ensures !Truthy(doc) ==> r == Travessao
    ensures Truthy(doc) && |DigitsOf(doc.value)| == 11 ==> r == FormatarCpf(DigitsOf(doc.value))
    ensures Truthy(doc) && |DigitsOf(doc.value)| == 14 ==> r == FormatarCnpj(DigitsOf(doc.value))
    ensures Truthy(doc) && |DigitsOf(doc.value)| != 11 && |DigitsOf(doc.value)| != 14 ==> r == doc.value
  {
    if !Truthy(doc) then Travessao
    else
      var n := DigitsOf(doc.value);
      if |n| == 11 then FormatarCpf(n)
      else if |n| == 14 then FormatarCnpj(n)
      else doc.value
  }

  /** A stored CPF or CNPJ is shown with its mask and its digits intact. */
  lemma DocumentoExibido(doc: string)
    requires AllDigits(doc) && (|doc| == 11 || |doc| == 14)
    ensures |doc| == 11 ==> FormatarDocumento(Some(doc)) == doc[..3] + "." + doc[3..6] + "." + doc[6..9] + "-" + doc[9..]
    ensures |doc| == 14 ==> FormatarDocumento(Some(doc)) == doc[..2] + "." + doc[2..5] + "." + doc[5..8] + "/" + doc[8..12] + "-" + doc[12..]
    ensures DigitsOf(FormatarDocumento(Some(doc))) == doc
  {
    DigitsOfSpec(doc);
    if |doc| == 11 {
      CpfMascara(doc);
      CpfDigitos(doc);
    } else {
      CnpjMascara(doc);
      CnpjDigitos(doc);
    }
  }

  /** A missing destructured element prints as "undefined". */
  function Parte(parts: seq<string>, i: nat): string
  {
    if i < |parts| then parts[i] else "undefined"
  }

  /** `formatarData`. */
  function FormatarData(data: Option<string>): (r: string)
    ensures !Truthy(data) ==> r == Travessao
  {
    if !Truthy(data) then Travessao
    else
      var parts := Split(Split(data.value, 'T')[0], '-');
      Parte(parts, 2) + "/" + Parte(parts, 1) + "/" + Parte(parts, 0)
  }

  /** The date part splits at its two '-' into year, month and day. */
  lemma SplitData(ano: string, mes: string, dia: string)
    requires '-' !in ano && '-' !in mes && '-' !in dia
    ensures Split(ano + "-" + mes + "-" + dia, '-') == [ano, mes, dia]
  {
    assert ano + "-" + mes + "-" + dia == ano + ['-'] + (mes + ['-'] + dia);
    SplitFirst(ano, mes + ['-'] + dia, '-');
    SplitFirst(mes, dia, '-');
    SplitNoSeparator(dia, '-');
  }

  /** An ISO date, with or without a time part, is shown day first. */
  lemma DataIso(ano: string, mes: string, dia: string, resto: string)
    requires '-' !in ano && '-' !in mes && '-' !in dia
    requires 'T' !in ano && 'T' !in mes && 'T' !in dia
    requires resto == [] || resto[0] == 'T'
    ensures FormatarData(Some(ano + "-" + mes + "-" + dia + resto)) == dia + "/" + mes + "/" + ano
  {
    var data := ano + "-" + mes + "-" + dia;
    assert 'T' !in data;
    if resto == [] {
      assert data + resto == data;
      SplitNoSeparator(data, 'T');
    } else {
      assert data + resto == data + ['T'] + resto[1..];
      SplitFirst(data, resto[1..], 'T');
    }
    assert Split(data + resto, 'T')[0] == data;
    SplitData(ano, mes, dia);
  }

  /** The input-mask rule of the document field. */
  function Mascara(tipo: string, valor: string): (r: string)
    ensures tipo == "PF" ==> DigitsOf(r) == Take(DigitsOf(valor), 11)
    ensures tipo != "PF" ==> DigitsOf(r) == Take(DigitsOf(valor), 14)
  {
    CpfDigitos(valor);
    CnpjDigitos(valor);
    if tipo == "PF" then FormatarCpf(valor) else FormatarCnpj(valor)
  }

  /** The WhatsApp box: checked for `true` and `1` only. */
  predicate WhatsAppMarcado(v: Value)
  {
    v == Bool(true) || v == Number(1)
  }

  /** A stored bit is shown as it was saved, and a checked box is always a
      truthy value. */
  lemma WhatsAppExibido(b: bool, v: Value)
    ensures WhatsAppMarcado(Bool(b)) <==> b
    ensures WhatsAppMarcado(Number(if b then 1 else 0)) <==> b
    ensures WhatsAppMarcado(v) ==> TruthyValue(v)
  {
  }

  /** One header click. */
  function Alternar(ordem: int): (r: int)
    ensures ordem == 1 ==> r == -1
    ensures ordem == -1 ==> r == 1
  {
    -ordem
  }

  lemma DoisCliques(ordem: int)
    ensures Alternar(Alternar(ordem)) == ordem
  {
  }

  /** The page variables the handlers change. */
  class PaginaClientes {
    var ordemNome: int
    var tipo: string
    var cpfCnpj: string

    ghost predicate Valid()
      reads this
    {
      ordemNome == 1 || ordemNome == -1
    }

    constructor (tipo: string)
      ensures Valid() && ordemNome == 1 && this.tipo == tipo && cpfCnpj == []
    {
      ordemNome := 1;
      this.tipo := tipo;
      cpfCnpj := [];
    }

    /** The name-header click. */
    method ClicarNome()
      requires Valid()
      modifies this
      ensures Valid() && ordemNome == Alternar(old(ordemNome))
      ensures tipo == old(tipo) && cpfCnpj == old(cpfCnpj)
    {
      ordemNome := -ordemNome;
    }

    /** Typing in the document field re-masks it by the current tipo. */
    method DigitarDocumento(valor: string)
      modifies this
      ensures cpfCnpj == Mascara(tipo, valor)
      ensures ordemNome == old(ordemNome) && tipo == old(tipo)
    {
      cpfCnpj := Mascara(tipo, valor);
    }

    /** Changing tipo clears the document field. */
    method MudarTipo(t: string)
      modifies this
      ensures tipo == t && cpfCnpj == []
      ensures ordemNome == old(ordemNome)
    {
      tipo := t;
      cpfCnpj := [];
    }
  }
}
