/** The outcome of a request handler: a status with a body, or a status
    with the `{ erro }` message; and the check on a numeric route id. */
module Http {
  import opened Wrappers
  import opened Js

  datatype Response<T> = Ok(status: int, body: T) | Erro(status: int, erro: string)

  const ErroInterno: string := "Erro interno do servidor"

  const IdInvalido: string := "ID inválido"

  /** `!id || isNaN(id)` rejects the route parameter. */
  predicate IdValido(id: Option<string>)
  {
    Truthy(id) && !IsNaN(id.value)
  }

  /** The key the driver binds for an accepted id. */
  function Chave(id: Option<string>): int
    requires IdValido(id)
  {
    NumberOf(id.value).value
  }

  /** Every decimal id, signed or not, is accepted and read back as itself. */
  lemma IdDecimal(n: nat)
    ensures IdValido(Some(Decimal(n))) && Chave(Some(Decimal(n))) == n
    ensures IdValido(Some("-" + Decimal(n))) && Chave(Some("-" + Decimal(n))) == -(n as int)
  {
    NumberOfDecimal(n);
  }
}
