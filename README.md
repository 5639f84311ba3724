# Oficina — customers, vehicles, users and the session gate

This project models the core of a small workshop-management web application.
It has an Express back end over SQL Server and a browser front end.
The model covers:

- the three back-end resources, each a controller (request checks, HTTP status, error message) over a repository (the SQL statements):
  - customers (`Clientes`);
  - vehicles (`Veiculos`, joined with their owner in `Clientes`);
  - users (`Usuarios`);
- the front end's session gate (`auth.js`), the shared configuration (`config.js`), and the customer page's formatters and page state (`clientes.js`).

How each part is modelled:

- **Tables** are maps from identity id to row, with a `nextId` counter.
- **SQL statements** are pure transition and query functions over those maps. Each repository class holds its table and assigns the results of those functions.
- **Handlers** return `Ok(status, body)` or `Erro(status, erro)`:
  - read-only handlers of the back end are functions;
  - handlers that write are methods over the repository objects.
- **The browser** is a `Navegador` class. Its fields are the two storages, the location it was sent to, and the messages it showed.

Module layout:

| module | file | models |
|---|---|---|
| `Wrappers` | wrappers.dfy | `Option`, `Result` |
| `Seqs` | seqs.dfy | filtering a table, ordering by a key, ascending ids |
| `Text` | text.dfy | `trim`, `toUpperCase`/`toLowerCase`, character-class removal, `includes`, `split` |
| `Js` | js.dfy | truthiness, `x \|\| null`, `parseInt`, `Number`/`isNaN`, binding to `sql.Int` |
| `Config` | config.dfy | config.js: session key, expiry, email pattern, password rule |
| `Http` | http.dfy | responses and the route-id check |
| `ClienteRepo`, `VeiculoRepo`, `UsuarioRepo` | *_repository.dfy | the three repositories |
| `ClienteCtl`, `VeiculoCtl`, `UsuarioCtl` | *_controller.dfy | the three controllers |
| `Auth` | auth.dfy | auth.js |
| `ClientesPage` | clientes_page.dfy | the formatters and page state of clientes.js |

Where the specification and the code disagree, the model follows the code:

- Creating a customer is a plain INSERT. It never reactivates an inactive customer with the same CPF/CNPJ (`ClienteRepo.InserirNaoReativa`).
- Passwords are stored and compared as typed. There is no hashing.
- `login` passes the trimmed email as the `login` argument, so it is compared with the `Login` column.
- Updating a vehicle without a `clienteId` sets its owner to NULL. An active vehicle can therefore be ownerless (`VeiculoRepo.AtualizarSemDono`).
- Reactivating a vehicle does not check that it is inactive.
- Deleting an already inactive customer or user still answers 200.

## Model

| member | source | states |
|---|---|---|
| Js.OrNull | src/repositories/clienteRepository.js:144-155 | `x \|\| null` on a string: truthiness is kept, the result is either null or the input itself, and an empty string never survives |
| Js.MapTruthy | src/controllers/clienteController.js:150-160 | `x ? f(x) : null`: null exactly where `x \|\| null` is, otherwise `f` of what `x \|\| null` keeps; with `f` the identity it is `x \|\| null` itself |
| Js.IntOrNull | src/repositories/veiculoRepository.js:201 | `n \|\| null` on a number: 0 never survives, a kept value is the integer it came from, and every non-zero integer is kept |
| Js.SqlInt | src/repositories/veiculoRepository.js:191 | binding to `sql.Int` fails exactly for NaN; whatever binds reads back (`Js.Lido`) as the very number bound |
| Js.ParseInt | src/controllers/veiculoController.js:64 | `parseInt` never yields null: either NaN or an integer |
| Js.ParseIntField | src/controllers/veiculoController.js:162 | `parseInt` of a field reads an absent field as the text `undefined` |
| Js.ParseIntDecimal | src/controllers/veiculoController.js:162 | `parseInt` reads a decimal number (optionally negative) back exactly, whatever non-digit text follows it |
| Js.NumberOfDecimal | src/controllers/clienteController.js:25 | `Number` reads every canonical decimal text, signed or not, back as its value |
| Js.NumberOf | src/controllers/clienteController.js:25 | definition of `Number` on integer texts; see `Js.NumberOfDecimal` and `Js.NumberAgreesWithParseInt` |
| Js.IsNaN | src/controllers/clienteController.js:25 | definition of `isNaN` on a path parameter: `Number` of it is NaN; see `Http.IdDecimal` |
| Js.NumberAgreesWithParseInt | src/controllers/clienteController.js:25 | a text `Number` accepts is read to the same integer by `parseInt`, so strings and ints of the same id agree |
| Http.IdDecimal | src/controllers/clienteController.js:25-28 | every decimal id passes the `!id \|\| isNaN(id)` guard and binds as its own value |
| Http.IdValido | src/controllers/clienteController.js:25 | definition of the `!id \|\| isNaN(id)` guard, negated; see `Http.IdDecimal` |
| Config.IsValidEmailShape | public/assets/js/config.js:32 | the email pattern matches exactly when there is no whitespace, exactly one `@` with something before it, and a domain with a `.` that is neither first nor last |
| Config.PatternGivesShape | public/assets/js/config.js:32 | a match of the pattern implies that shape |
| Config.ShapeGivesPattern | public/assets/js/config.js:32 | that shape implies a match of the pattern |
| Config.IsValidEmail | public/assets/js/config.js:81-83 | definition: the email pattern tested on the whole text; see `Config.IsValidEmailShape` |
| Config.IsValidPassword | public/assets/js/config.js:86-88 | definition: a truthy password of at least `minPasswordLength` (6) characters; see `UsuarioCtl.SenhaMesmaRegra` |
| ClienteRepo.Gravado | src/repositories/clienteRepository.js:144-155 | after `\|\| null`, no optional column holds an empty string; already clean data is unchanged; name and WhatsApp flag are kept |
| ClienteRepo.ListarClientes | src/repositories/clienteRepository.js:11-37 | exactly the active customers, each with its stored row, ordered by NomeCompleto, without duplicates |
| ClienteRepo.ClientePorId | src/repositories/clienteRepository.js:42-51 | found exactly when the id exists and is active, and then it is that row |
| ClienteRepo.ClientesPorNome | src/repositories/clienteRepository.js:58-77 | exactly the active customers whose name contains the upper-cased input, ordered by name |
| ClienteRepo.ClientesPorCpfCnpj | src/repositories/clienteRepository.js:83-103 | exactly the active customers whose CpfCnpj equals the input with `.`, `-`, `/` removed |
| ClienteRepo.ClientesPorTelefone | src/repositories/clienteRepository.js:109-130 | exactly the active customers with a Telefone containing the input with whitespace, `-`, `(`, `)` removed; ordered by name; a NULL phone never matches |
| ClienteRepo.InserirCliente | src/repositories/clienteRepository.js:137-185 | definition of the INSERT; see `ClienteRepo.InserirNaoReativa` |
| ClienteRepo.AtualizarCliente | src/repositories/clienteRepository.js:190-227 | definition of the active-only UPDATE; see `ClienteRepo.AtualizarClienteEfeito` and `ClienteRepo.DesativadoNaoAtualiza` |
| ClienteRepo.DesativarCliente | src/repositories/clienteRepository.js:233-241 | definition of the soft delete; see `ClienteRepo.DesativarOculta` |
| ClienteRepo.InserirNaoReativa | src/repositories/clienteRepository.js:137-185 | the INSERT takes a fresh id, leaves every existing row (an inactive duplicate included) untouched, and the new active row is found by id; it is found by document exactly when its document is already clean |
| ClienteRepo.AtualizarClienteEfeito | src/repositories/clienteRepository.js:190-227 | updating a missing or inactive id changes nothing; otherwise only the data columns of that row change, to their `\|\| null` values, and Tipo, CpfCnpj and Ativo are kept |
| ClienteRepo.DesativarOculta | src/repositories/clienteRepository.js:233-241 | soft delete keeps the row, hides it from id lookup and from the listing, leaves other rows alone, and is idempotent |
| ClienteRepo.DesativadoNaoAtualiza | src/repositories/clienteRepository.js:223-224 | a deleted customer can no longer be updated |
| ClienteRepo.ClienteRepository.constructor | src/repositories/clienteRepository.js:5 | an empty table with the identity counter at 1 |
| ClienteRepo.ClienteRepository.ListarTodos | src/repositories/clienteRepository.js:11-37 | the query on the held table: `ClienteRepo.ListarClientes` |
| ClienteRepo.ClienteRepository.BuscarPorId | src/repositories/clienteRepository.js:42-51 | the query on the held table: `ClienteRepo.ClientePorId` |
| ClienteRepo.ClienteRepository.BuscarPorNome | src/repositories/clienteRepository.js:58-77 | the query on the held table: `ClienteRepo.ClientesPorNome` |
| ClienteRepo.ClienteRepository.BuscarPorCpfCnpj | src/repositories/clienteRepository.js:83-103 | the query on the held table: `ClienteRepo.ClientesPorCpfCnpj` |
| ClienteRepo.ClienteRepository.BuscarPorTelefone | src/repositories/clienteRepository.js:109-130 | the query on the held table: `ClienteRepo.ClientesPorTelefone` |
| ClienteRepo.ClienteRepository.Criar | src/repositories/clienteRepository.js:137-185 | a database error leaves the table as it was; otherwise the row is stored under the next id and returned |
| ClienteRepo.ClienteRepository.Atualizar | src/repositories/clienteRepository.js:190-227 | the table becomes the update's result; rows affected is 1 exactly for an active id |
| ClienteRepo.ClienteRepository.Deletar | src/repositories/clienteRepository.js:233-241 | the table becomes the delete's result; rows affected is 1 for any existing id |
| ClienteCtl.DadosLimpos | src/controllers/clienteController.js:145-161 | the written columns keep `ClienteCtl.DadosConformes`: name and email/address fields have no lower-case letter, no edge whitespace and equal the trimmed input up to case; gender likewise without trimming; phone and number are the trimmed input; CEP is the input's digits only; the birth date is the field itself, passed through unchanged; WhatsApp is the field's truthiness; an absent or empty optional field is NULL |
| ClienteCtl.MaiusculoAparado | src/controllers/clienteController.js:146 | `trim().toUpperCase()` leaves no lower-case letter and no edge whitespace, and keeps the trimmed text up to case |
| ClienteCtl.CampoMaiusculoSpec | src/controllers/clienteController.js:149 | a column with no lower-case letter, equal up to case to the field, present exactly for a truthy field, is exactly `x ? x.toUpperCase() : null` |
| ClienteCtl.CampoMaiusculoAparadoSpec | src/controllers/clienteController.js:153 | a column with no lower-case letter, no edge whitespace, equal up to case to the trimmed field, present exactly for a truthy field, is exactly `x ? x.trim().toUpperCase() : null` |
| ClienteCtl.CampoAparadoSpec | src/controllers/clienteController.js:150 | a trimmed-only column is characterised by its properties: exactly `x ? x.trim() : null` |
| ClienteCtl.CampoRepassadoSpec | src/controllers/clienteController.js:149 | a column is the field itself when it is truthy, and NULL otherwise, exactly when it is `x \|\| null` |
| ClienteCtl.CampoDigitosSpec | src/controllers/clienteController.js:152 | a column is the digits of a truthy field, and NULL otherwise, exactly when it is `x ? x.replace(/\D/g, '') : null` |
| ClienteCtl.DadosConformesUnicos | src/controllers/clienteController.js:145-161 | those column properties pin the record down: a record keeps them exactly when it is the cleaned one |
| ClienteCtl.TipoValido | src/controllers/clienteController.js:117 | definition: PF or PJ after upper-casing; used by `ClienteCtl.ValidarCriacao` |
| ClienteCtl.DocumentoLimpo | src/controllers/clienteController.js:122 | definition of `replace(/[.\-\/]/g, '').trim()`; see `ClienteCtl.DocumentoAceito` |
| ClienteCtl.GeneroAceito | src/controllers/clienteController.js:132 | definition: absent, empty, or M/F/O after upper-casing; used by `ClienteCtl.ValidarCriacao` and `ClienteCtl.ValidarAtualizacao` |
| ClienteCtl.EmailAceito | src/controllers/clienteController.js:137-142 | definition: absent, empty, or matching the email pattern; see `ClienteCtl.EmailGravado` |
| ClienteCtl.ValidarCriacao | src/controllers/clienteController.js:109-161 | accepted exactly when tipo, CPF/CNPJ and name are present, tipo is PF/PJ in any case, the cleaned document has 11 or 14 characters, gender is M/F/O and email matches; each check, in source order, gives its own message when it is the first to fail (required fields, tipo, document length, gender, email); an accepted row has tipo PF or PJ, the cleaned document and the cleaned columns |
| ClienteCtl.ValidarAtualizacao | src/controllers/clienteController.js:200-232 | accepted exactly when the name is present and gender and email pass; the first failing of name, gender, email gives its message; tipo and document are not asked for; the data is the same clean-up as on create |
| ClienteCtl.DocumentoAceito | src/controllers/clienteController.js:122 | an accepted document has no `.`, `-` or `/` and no whitespace at either end |
| ClienteCtl.EmailGravado | src/controllers/clienteController.js:153 | an accepted email is stored upper-cased with nothing trimmed away |
| ClienteCtl.ErroAoGravar | src/controllers/clienteController.js:165-171 | a failed INSERT answers 409 exactly when its message mentions UNIQUE, 500 otherwise |
| ClienteCtl.ListarTodos | src/controllers/clienteController.js:9-17 | 200 with exactly the active customers, each once, ordered by name |
| ClienteCtl.BuscarPorId | src/controllers/clienteController.js:22-37 | 400 exactly for a missing or non-numeric id; 404 exactly when no active row has it; otherwise 200 with that active row |
| ClienteCtl.Buscar | src/controllers/clienteController.js:44-81 | 400 without tipo or valor, or with fewer than 2 characters after trimming; 400 with the invalid-type message for any other tipo; 200 exactly for tipo nome/cpfcnpj/telefone, with that search on the trimmed text |
| ClienteCtl.Criar | src/controllers/clienteController.js:89-172 | a rejected body answers 400 with the check's message and writes nothing; a database error answers 409/500 and writes nothing; otherwise 201 with the row inserted under the next id |
| ClienteCtl.Atualizar | src/controllers/clienteController.js:177-244 | 400 for a bad id or body and no write; otherwise the update runs, answering 200 exactly when an active row had the id and 404 (no change) otherwise |
| ClienteCtl.Deletar | src/controllers/clienteController.js:249-266 | 400 for a bad id; otherwise the soft delete runs, answering 200 exactly when a row (active or not) had the id |
| VeiculoRepo.Dono | src/repositories/veiculoRepository.js:39 | the `LEFT JOIN ... ON c.ClienteId = v.ClienteId` match: any customer row whose key equals the owner id is the match, every match is such a row, and a NULL owner matches nothing |
| VeiculoRepo.Visao | src/repositories/veiculoRepository.js:23-42 | a result row carries the vehicle's own id and columns |
| VeiculoRepo.Visoes | src/repositories/veiculoRepository.js:23-42 | one result row per selected vehicle, in order |
| VeiculoRepo.VisoesMembership | src/repositories/veiculoRepository.js:23-42 | the join neither adds nor drops nor duplicates a vehicle |
| VeiculoRepo.VisoesSound | src/repositories/veiculoRepository.js:23-42 | every joined row comes from a selected vehicle |
| VeiculoRepo.VisoesComplete | src/repositories/veiculoRepository.js:23-42 | every selected vehicle appears joined |
| VeiculoRepo.Consulta | src/repositories/veiculoRepository.js:89-110 | a filtered, joined, ordered query returns exactly the matching vehicles, sorted by the key, without duplicates |
| VeiculoRepo.ListarVeiculos | src/repositories/veiculoRepository.js:17-45 | exactly the active vehicles with their owner; ordered by Marca descending exactly when `ordem` upper-cases to DESC, ascending otherwise |
| VeiculoRepo.VeiculoPorId | src/repositories/veiculoRepository.js:52-75 | found exactly when the id exists, active or inactive |
| VeiculoRepo.PlacaContem | src/repositories/veiculoRepository.js:108 | definition of `REPLACE(v.Placa, '-', '') LIKE '%x%'` (a NULL plate never matches); see `VeiculoRepo.VeiculosPorPlaca` |
| VeiculoRepo.VeiculosPorPlaca | src/repositories/veiculoRepository.js:83-113 | exactly the vehicles, active or not, whose hyphen-free plate contains the input with `-`/whitespace removed and upper-cased; active rows come before inactive ones, then by Marca |
| VeiculoRepo.VeiculosPorProprietario | src/repositories/veiculoRepository.js:120-151 | exactly the active vehicles whose owner's CpfCnpj equals the cleaned input; each has an owner; ordered by Marca |
| VeiculoRepo.ClientePorDocumento | src/repositories/veiculoRepository.js:159-174 | none exactly when no active customer has the cleaned document; otherwise the first such customer |
| VeiculoRepo.UltimoComPlaca | src/repositories/veiculoRepository.js:209-228 | the select-back after the INSERT finds the vehicle with the highest id among those with exactly this plate; a NULL plate finds nothing |
| VeiculoRepo.VeiculoAtualizado | src/repositories/veiculoRepository.js:241-266 | definition of the columns the update writes, Ativo kept; see `VeiculoRepo.AtualizarSemDono` and `VeiculoRepo.AtualizarInativoNoop` |
| VeiculoRepo.AtualizarVeiculo | src/repositories/veiculoRepository.js:236-287 | definition of the active-only UPDATE; see `VeiculoRepo.AtualizarSemDono`, `VeiculoRepo.AtualizarInativoNoop` and `VeiculoRepo.InativosSemDonoPreservado` |
| VeiculoRepo.InativarVeiculo | src/repositories/veiculoRepository.js:295-307 | definition of the inactivation; see `VeiculoRepo.InativarEfeito` |
| VeiculoRepo.ReativarVeiculo | src/repositories/veiculoRepository.js:315-327 | definition of the reactivation; see `VeiculoRepo.ReativarRestaura` |
| VeiculoRepo.InativosSemDonoPreservado | src/repositories/veiculoRepository.js:295-307 | the insert, the update, inactivation and reactivation all keep every inactive vehicle ownerless |
| VeiculoRepo.AtualizarSemDono | src/repositories/veiculoRepository.js:242 | an update without clienteId leaves an active vehicle active and ownerless |
| VeiculoRepo.AtualizarInativoNoop | src/repositories/veiculoRepository.js:266 | updating an inactive or missing vehicle changes nothing, and the read-back shows the stored row |
| VeiculoRepo.InativarEfeito | src/repositories/veiculoRepository.js:295-307 | inactivation keeps the row, sets Ativo 0 and ClienteId NULL, removes it from the listing and the owner search, leaves others alone, and is idempotent |
| VeiculoRepo.ReativarRestaura | src/repositories/veiculoRepository.js:315-327 | reactivation after inactivation restores every column except the owner, which becomes the one given |
| VeiculoRepo.CriarDevolveInserido | src/repositories/veiculoRepository.js:209-228 | when the new row has a plate, the select-back by plate returns it, since it has the largest id |
| VeiculoRepo.VeiculoRepository.constructor | src/repositories/veiculoRepository.js:10 | an empty table over the given customer repository |
| VeiculoRepo.VeiculoRepository.ListarTodos | src/repositories/veiculoRepository.js:17-45 | the query on the held tables: `VeiculoRepo.ListarVeiculos` |
| VeiculoRepo.VeiculoRepository.BuscarPorId | src/repositories/veiculoRepository.js:52-75 | the query on the held tables: `VeiculoRepo.VeiculoPorId` |
| VeiculoRepo.VeiculoRepository.BuscarPorPlaca | src/repositories/veiculoRepository.js:83-113 | the query on the held tables: `VeiculoRepo.VeiculosPorPlaca` |
| VeiculoRepo.VeiculoRepository.BuscarPorProprietario | src/repositories/veiculoRepository.js:120-151 | the query on the held tables: `VeiculoRepo.VeiculosPorProprietario` |
| VeiculoRepo.VeiculoRepository.BuscarClientePorCpfCnpj | src/repositories/veiculoRepository.js:159-174 | the query on the held tables: `VeiculoRepo.ClientePorDocumento` |
| VeiculoRepo.VeiculoRepository.Criar | src/repositories/veiculoRepository.js:182-229 | a NaN owner id fails before any write; otherwise the upper-cased row is inserted under the next id and the result is the select-back by plate |
| VeiculoRepo.VeiculoRepository.Atualizar | src/repositories/veiculoRepository.js:236-287 | the table becomes the active-only update's result and the result is the row read back by id |
| VeiculoRepo.VeiculoRepository.Inativar | src/repositories/veiculoRepository.js:295-307 | the table becomes the inactivation's result; rows affected is 1 exactly for an existing id |
| VeiculoRepo.VeiculoRepository.Reativar | src/repositories/veiculoRepository.js:315-347 | a NaN owner id fails without a write; otherwise the row is reactivated with that owner and read back |
| VeiculoCtl.CaracterePlaca | src/controllers/veiculoController.js:147 | plate letters (either case) and digits are not separators; capitals and digits survive upper-casing; lower-case letters become capitals |
| VeiculoCtl.Faltando | src/controllers/veiculoController.js:136-144 | definition of `!x \|\| x.trim() === ''`; used by `VeiculoCtl.ValidarCriacao`, `VeiculoCtl.OrdemCriacao` and `VeiculoCtl.ValidarAtualizacao` |
| VeiculoRepo.NormalizarPlaca | src/controllers/veiculoController.js:147 | definition of `replace(/[-\s]/g, '').toUpperCase()`; see `VeiculoCtl.NormalizadaLimpa`, `VeiculoCtl.NormalizarPlacaIdempotente` and `VeiculoCtl.PlacaExemplos` |
| VeiculoCtl.SeparadoresSemLetras | src/controllers/veiculoController.js:147 | no separator is a letter, and no upper-cased letter is a separator |
| VeiculoCtl.RemoveSemSeparadores | src/controllers/veiculoController.js:147 | removing separators from letters and digits changes nothing |
| VeiculoCtl.SemSeparadores | src/controllers/veiculoController.js:147 | a text of capitals and digits is already normalised |
| VeiculoCtl.PlacaFormatos | src/controllers/veiculoController.js:148-153 | no plate fits both formats, and a valid plate is a fixed point of normalisation |
| VeiculoCtl.PlacaAntiga | src/controllers/veiculoController.js:148 | definition of `/^[A-Z]{3}[0-9]{4}$/`; see `VeiculoCtl.PlacaFormatos` and `VeiculoCtl.PlacaExemplos` |
| VeiculoCtl.PlacaMercosul | src/controllers/veiculoController.js:149 | definition of `/^[A-Z]{3}[0-9]{1}[A-Z]{1}[0-9]{2}$/`; see `VeiculoCtl.PlacaFormatos` and `VeiculoCtl.ExemploMercosul` |
| VeiculoCtl.PlacaValida | src/controllers/veiculoController.js:151-158 | definition: either format; see `VeiculoCtl.PlacaFormatos` and `VeiculoCtl.ExemploInvalida` |
| VeiculoCtl.KmAceito | src/controllers/veiculoController.js:161-168 | definition: absent, null, empty, or `parseInt` to a non-negative integer; see `VeiculoCtl.KmMesmaRegra` |
| VeiculoCtl.KmParaGravar | src/controllers/veiculoController.js:177 | definition of `km ? parseInt(km) : null`; see the km clauses of `VeiculoCtl.ValidarCriacao` and `VeiculoCtl.ValidarAtualizacao` |
| VeiculoCtl.NormalizarPlacaIdempotente | src/controllers/veiculoController.js:147 | normalising a plate twice is normalising it once |
| VeiculoCtl.HifenSozinho | src/controllers/veiculoController.js:147 | a lone hyphen is removed |
| VeiculoCtl.HifenRemovido | src/controllers/veiculoController.js:146-147 | the hyphen of the old `ABC-1234` layout is dropped between plate characters |
| VeiculoCtl.PlacaExemplos | src/controllers/veiculoController.js:146-158 | `ABC-1234` and `abc1234` normalise to `ABC1234` (old format); `ABC1D23` is Mercosul; `ABCD123` is rejected |
| VeiculoCtl.ExemploMinusculas | src/controllers/veiculoController.js:147 | `abc1234` normalises to `ABC1234` |
| VeiculoCtl.MaiusculasExemplo | src/controllers/veiculoController.js:147 | `toUpperCase` of `abc1234` is `ABC1234` |
| VeiculoCtl.ExemploMercosul | src/controllers/veiculoController.js:149 | `ABC1D23` fits the Mercosul format and is already normalised |
| VeiculoCtl.ExemploInvalida | src/controllers/veiculoController.js:151-158 | `ABCD123` fits neither format |
| VeiculoCtl.ExemploHifen | src/controllers/veiculoController.js:147 | `ABC-1234` normalises to `ABC1234` |
| VeiculoCtl.NormalizadaLimpa | src/controllers/veiculoController.js:147 | a normalised plate holds no separator and no lower-case letter |
| VeiculoCtl.ValidarCriacao | src/controllers/veiculoController.js:133-178 | accepted exactly when the owner is given, marca/modelo/placa are not blank, the normalised plate fits a format and a given km parses to a non-negative integer; the stored data are the trimmed texts, the normalised valid plate and the parsed km |
| VeiculoCtl.OrdemCriacao | src/controllers/veiculoController.js:133-158 | the first failing check (owner, marca, modelo, plate required, plate format, km) decides the message |
| VeiculoCtl.ValidarAtualizacao | src/controllers/veiculoController.js:203-254 | accepted exactly when marca and modelo are not blank, a given plate is valid and the km passes; the first failing of marca, modelo, plate format, km gives its own message; the owner becomes null when none is sent; the stored data are the trimmed texts, the normalised plate and the parsed km (null when absent) |
| VeiculoCtl.KmMesmaRegra | src/controllers/veiculoController.js:161-168 | create and update accept the same km values: absent, or parsing to a non-negative integer |
| VeiculoCtl.ListarTodos | src/controllers/veiculoController.js:14-23 | 200 with the active listing for the given order; with no order (or an empty one) it is the ASC listing, ascending by Marca |
| VeiculoCtl.Buscar | src/controllers/veiculoController.js:30-57 | 400 exactly without tipo or valor (the missing-parameters message) or for a tipo other than placa/proprietario (the invalid-type message); otherwise 200 with the plate search or the owner search on the given text |
| VeiculoCtl.BuscarPorId | src/controllers/veiculoController.js:62-81 | 400 exactly when `parseInt` gives NaN; 404 exactly when no vehicle has the id; otherwise 200 with that vehicle, active or not |
| VeiculoCtl.TamanhoDocumento | src/controllers/veiculoController.js:101 | definition: 11 or 14 characters; used by `VeiculoCtl.BuscarCliente` |
| VeiculoCtl.BuscarCliente | src/controllers/veiculoController.js:89-121 | 400 without a document or when the cleaned one has neither 11 nor 14 characters; then 404 exactly when no active customer has the cleaned document; otherwise 200 with the lowest-id active customer row of the table with that document (`VeiculoRepo.ClientePorDocumento`) |
| VeiculoCtl.Criar | src/controllers/veiculoController.js:127-185 | a rejected body answers 400 with no write; a NaN owner id answers 500 with no write; otherwise 201 with the inserted row joined to its owner |
| VeiculoCtl.GravarNovo | src/controllers/veiculoController.js:170-184 | after the checks: a NaN owner id answers 500 with no write; otherwise the row goes under the next id and 201 carries it joined to its owner, as read back by plate |
| VeiculoCtl.Atualizar | src/controllers/veiculoController.js:191-261 | checks id, then body, then existence (active or not), each failure with no write; otherwise the update runs and 200 returns the row read back |
| VeiculoCtl.Inativar | src/controllers/veiculoController.js:267-291 | 400 for a bad id, 404 for a missing vehicle, 400 for an inactive one, all without a write; otherwise exactly one inactivation and 200 |
| VeiculoCtl.Reativar | src/controllers/veiculoController.js:297-329 | 400 for a bad id or no owner, 404 for a missing vehicle, 500 for a NaN owner, all without a write; otherwise the vehicle is active with the new owner |
| UsuarioRepo.SemSenha | src/controllers/usuarioController.js:21-23 | the public view keeps id, login, name, email and Ativo |
| UsuarioRepo.SemSenhaInjetiva | src/controllers/usuarioController.js:22 | removing Senha loses nothing else: the public view plus the password determine the row |
| UsuarioRepo.LoginUsuario | src/repositories/usuarioRepository.js:5-15 | none exactly when no active row has that login and password; otherwise the first such row |
| UsuarioRepo.ListarUsuarios | src/repositories/usuarioRepository.js:17-23 | exactly the active users with every column, Senha included |
| UsuarioRepo.Publicos | src/controllers/usuarioController.js:64 | one public view per row, in order |
| UsuarioRepo.ListarUsuariosPublicos | src/controllers/usuarioController.js:63-73 | the same active users as the listing, without Senha |
| UsuarioRepo.ListarExpoeSenha | src/repositories/usuarioRepository.js:17-23 | the listing as written returns every active user's password |
| UsuarioRepo.ListarExpoeSenhaExemplo | src/repositories/usuarioRepository.js:17-23 | a one-user table whose listing carries that user's password |
| UsuarioRepo.AtualizarUsuario | src/repositories/usuarioRepository.js:40-55 | definition of the UPDATE, without an Ativo filter; see `UsuarioRepo.AtualizarInativo` |
| UsuarioRepo.DesativarUsuario | src/repositories/usuarioRepository.js:57-64 | definition of the soft delete; see `UsuarioRepo.DesativarBloqueiaLogin` |
| UsuarioRepo.AtualizarInativo | src/repositories/usuarioRepository.js:40-55 | an update (no Ativo filter) rewrites an inactive user's password but the user still cannot log in |
| UsuarioRepo.DesativarBloqueiaLogin | src/repositories/usuarioRepository.js:57-64 | a deleted user can no longer log in; only that row changes |
| UsuarioRepo.CriadoFazLogin | src/repositories/usuarioRepository.js:25-38 | a newly created user logs in with its own login and password, as that row unless an older active row has the same credentials |
| UsuarioRepo.UsuarioRepository.constructor | src/repositories/usuarioRepository.js:4 | an empty table with the identity counter at 1 |
| UsuarioRepo.UsuarioRepository.Login | src/repositories/usuarioRepository.js:5-15 | the query on the held table: `UsuarioRepo.LoginUsuario` |
| UsuarioRepo.UsuarioRepository.ListarTodos | src/repositories/usuarioRepository.js:17-23 | the query on the held table: `UsuarioRepo.ListarUsuarios` |
| UsuarioRepo.UsuarioRepository.Criar | src/repositories/usuarioRepository.js:25-38 | a database error writes nothing; otherwise the active row goes under the next id and is returned whole |
| UsuarioRepo.UsuarioRepository.Atualizar | src/repositories/usuarioRepository.js:40-55 | the table becomes the update's result; rows affected is 1 for any existing id |
| UsuarioRepo.UsuarioRepository.Deletar | src/repositories/usuarioRepository.js:57-64 | the table becomes the soft delete's result; rows affected is 1 for any existing id |
| UsuarioCtl.Login | src/controllers/usuarioController.js:6-28 | 400 exactly when email or password is missing; 401 when no active user matches the trimmed email and password; otherwise 200 with that active user without Senha |
| UsuarioCtl.ResetSenha | src/controllers/usuarioController.js:32-61 | 400 exactly for a missing email, 400 exactly for a malformed one, and 500 exactly for the rest, since the repository has no `resetSenha` |
| UsuarioCtl.SenhaMesmaRegra | src/controllers/usuarioController.js:89 | the server's password rule is the front end's `isValidPassword` (minimum 6) |
| UsuarioCtl.ValidarCriacao | src/controllers/usuarioController.js:81-107 | accepted exactly when all four fields are present, the password has 6+ characters and the email matches; the first failed check gives the message; login and name trimmed and email trimmed and lower-cased, password as typed |
| UsuarioCtl.ValidarAtualizacao | src/controllers/usuarioController.js:133-158 | accepted exactly when name, email and password are present, the password has 6+ characters and the email matches; the first failing of required fields, password length, email gives its own message; the same clean-up as create |
| UsuarioCtl.EmailGravado | src/controllers/usuarioController.js:106 | an accepted email is stored lower-cased with nothing trimmed away, and has no capital left |
| UsuarioCtl.ErroAoGravar | src/controllers/usuarioController.js:111-118 | a failed INSERT answers 409 exactly when its message mentions UNIQUE, 500 otherwise |
| UsuarioCtl.ListarTodos | src/controllers/usuarioController.js:63-73 | 200 with exactly the active users, each with every column as stored, Senha included, without duplicates |
| UsuarioCtl.Criar | src/controllers/usuarioController.js:77-119 | a rejected body answers 400 with no write; a database error answers 409/500 with no write; otherwise 201 with the row inserted under the next id, which then logs in |
| UsuarioCtl.Atualizar | src/controllers/usuarioController.js:123-171 | 400 for a bad id or body and no write; otherwise the update runs, 200 exactly when a row (active or not) had the id, 404 with no change otherwise |
| UsuarioCtl.Deletar | src/controllers/usuarioController.js:175-195 | 400 for a bad id; otherwise the soft delete runs, 200 exactly when a row had the id |
| Auth.Classificar | public/assets/js/auth.js:11-42 | absent exactly for no slot or an empty string; valid exactly for an object with a user and a truthy loginTime at most 24 h old, yielding that user; expired exactly when such an object is older; malformed otherwise |
| Auth.UsuarioDe | public/assets/js/auth.js:36 | a user is returned exactly for a valid session, and it is that session's `usuario` |
| Auth.UsuarioDaSessao | public/assets/js/auth.js:11-36 | the gate yields user u exactly when the slot is an object whose `usuario` is u, with a truthy loginTime at most 24 h before now |
| Auth.SessaoApos | public/assets/js/auth.js:19-33 | session storage after a read: the session key removed exactly for a malformed or expired session, and nothing else changes |
| Auth.LocalApos | public/assets/js/auth.js:45-48 | local storage after a read: the legacy key removed exactly for a malformed or expired session, and nothing else changes |
| Auth.AvisoDe | public/assets/js/auth.js:29-31 | the expiry message is shown exactly for an expired session, and nothing otherwise |
| Auth.PaginaProtegida | public/assets/js/auth.js:130-134 | definition: the path contains `dashboard.html`, `admin.html` or `usuarios.html`; used by `Auth.Navegador.OnLoad`, `Auth.Navegador.BeforeUnload` and `Auth.Navegador.StorageEvent` |
| Auth.RedirecionaDe | public/assets/js/auth.js:79 | definition: the path does not contain `login.html`; used by `Auth.Navegador.RedirectToLogin` |
| Auth.AtividadeIrrelevante | public/assets/js/auth.js:26-29 | expiry depends on loginTime only; lastActivity never changes the decision |
| Auth.ValidadeMonotona | public/assets/js/auth.js:26-34 | a session valid later was valid earlier; it is valid at exactly 24 h after login and expired one millisecond later |
| Auth.MesmaValidade | public/assets/js/auth.js:4-8 | the gate's lifetime equals the configured tokenExpiry (86 400 000 ms); the check runs every 300 000 ms |
| Auth.LoginGravaSessaoInvalida | public/assets/js/login.js:34 | what the login page stores (the bare user object) is classified malformed at every time |
| Auth.GravadoPeloLogin | public/assets/js/login.js:34 | definition of what the login page stores (the user object, with no `usuario` or `loginTime`); see `Auth.LoginGravaSessaoInvalida` |
| Auth.NovaSessaoValida | public/assets/js/auth.js:19-36 | a session of user and login time yields that user for 24 h and is expired afterwards |
| Auth.NovaSessao | public/assets/js/auth.js:19-27 | definition of the session object the gate reads (`usuario`, `loginTime`, `lastActivity`); see `Auth.NovaSessaoValida` and `Auth.Navegador.SalvarLogin` |
| Auth.Navegador.constructor | public/assets/js/auth.js:2 | the page starts at the given path with the given storages, no redirect and no message |
| Auth.Navegador.ClearSession | public/assets/js/auth.js:45-48 | removes the session key and the legacy key, nothing else |
| Auth.Navegador.GetUsuarioLogado | public/assets/js/auth.js:11-42 | returns the user exactly for a valid session; both storages become `SessaoApos`/`LocalApos` of the session read (cleared exactly for a malformed or expired one); the expiry message is appended exactly when expired; no redirect |
| Auth.Navegador.RedirectToLogin | public/assets/js/auth.js:77-83 | goes to the login URL unless the path contains `login.html` |
| Auth.Navegador.VerificarAutenticacao | public/assets/js/auth.js:86-105 | true exactly for a valid session; the storages become `SessaoApos`/`LocalApos` of the session read; the expiry message is appended exactly when expired; a valid session never redirects, otherwise the redirect rule is applied |
| Auth.Navegador.OnLoad | public/assets/js/auth.js:130-150 | on a protected page: the periodic check starts exactly with a valid session, the storages become `SessaoApos`/`LocalApos`, the expiry message is appended exactly when expired, and the login URL is set exactly for an invalid session off the login page; other pages are left untouched |
| Auth.Navegador.PeriodicCheck | public/assets/js/auth.js:142-148 | a valid session changes nothing visible; otherwise the storages become `SessaoApos`/`LocalApos` of the session read, the expiry message (when expired) and the lost-session message are appended and the redirect rule is applied |
| Auth.Navegador.Logout | public/assets/js/auth.js:108-127 | session storage loses the session key and local storage the legacy key, and nothing else changes in either; the expiry message (when the session read was expired) and the success message are shown; the login page is loaded |
| Auth.Navegador.BeforeUnload | public/assets/js/auth.js:166-178 | on a protected page with a valid session only the session's lastActivity is rewritten; with an invalid one the storages become `SessaoApos`/`LocalApos` and the expiry message is appended when expired; off protected pages nothing changes; there is never a redirect |
| Auth.Navegador.StorageEvent | public/assets/js/auth.js:181-186 | removing the session in another tab, seen on a protected page, shows the message and applies the redirect rule; nothing else reacts; storage is untouched |
| Auth.Navegador.SalvarLogin | public/assets/js/auth.js:19-36 | storing a login as the session object, with a positive login time, makes the gate find that user at once; nothing else changes |
| ClientesPage.FirstRun | public/assets/js/clientes.js:47 | the leftmost position where `\d{n}` matches, or none when it matches nowhere |
| ClientesPage.FirstRunIs | public/assets/js/clientes.js:47 | a run with no earlier run is the leftmost match |
| ClientesPage.Insert | public/assets/js/clientes.js:47 | a `$1.$2` replacement adds exactly one character |
| ClientesPage.ReplacePair | public/assets/js/clientes.js:47-48 | definition of `replace(/(\d{a})(\d)/, '$1' + sep + '$2')` at the leftmost run; see `ClientesPage.ReplacePairDigits` |
| ClientesPage.ReplaceTail | public/assets/js/clientes.js:49 | definition of `replace(/(\d{a})(\d{1,2})$/, '$1-$2')`; see `ClientesPage.ReplaceTailDigits` |
| ClientesPage.Take | public/assets/js/clientes.js:45 | `slice(0, n)` is a prefix of at most n characters, of exactly n when there are enough, the whole text otherwise |
| ClientesPage.InsertDigits | public/assets/js/clientes.js:47 | inserting a separator keeps the digits |
| ClientesPage.ReplacePairDigits | public/assets/js/clientes.js:47-48 | a `(\d{a})(\d)` replacement keeps the digits |
| ClientesPage.ReplaceTailDigits | public/assets/js/clientes.js:49 | a `(\d{a})(\d{1,2})$` replacement keeps the digits |
| ClientesPage.TakeDigits | public/assets/js/clientes.js:45 | the first n digits are all digits |
| ClientesPage.CpfDigitos | public/assets/js/clientes.js:44-50 | the CPF mask keeps exactly the first 11 digits of its input |
| ClientesPage.FormatarCpf | public/assets/js/clientes.js:44-50 | definition of the CPF mask; its properties are `ClientesPage.CpfDigitos`, `ClientesPage.CpfMascara` and `ClientesPage.CpfIdempotente` |
| ClientesPage.CnpjDigitos | public/assets/js/clientes.js:52-59 | the CNPJ mask keeps exactly the first 14 digits of its input |
| ClientesPage.FormatarCnpj | public/assets/js/clientes.js:52-59 | definition of the CNPJ mask; its properties are `ClientesPage.CnpjDigitos`, `ClientesPage.CnpjMascara` and `ClientesPage.CnpjIdempotente` |
| ClientesPage.CpfIdempotente | public/assets/js/clientes.js:81-86 | masking a masked CPF changes nothing, as happens on each input event |
| ClientesPage.CnpjIdempotente | public/assets/js/clientes.js:81-86 | masking a masked CNPJ changes nothing |
| ClientesPage.CpfMascara | public/assets/js/clientes.js:44-50 | eleven digits read `DDD.DDD.DDD-DD` |
| ClientesPage.CnpjMascara | public/assets/js/clientes.js:52-59 | fourteen digits read `DD.DDD.DDD/DDDD-DD` |
| ClientesPage.FormatarDocumento | public/assets/js/clientes.js:67-73 | a dash for nothing; the CPF mask for 11 digits; the CNPJ mask for 14; the input as given otherwise |
| ClientesPage.DocumentoExibido | public/assets/js/clientes.js:67-73 | a stored 11- or 14-digit document is shown with its full mask and its digits intact |
| ClientesPage.WhatsAppMarcado | public/assets/js/clientes.js:295-296 | definition: checked for `true` and `1` only; see `ClientesPage.WhatsAppExibido` |
| ClientesPage.FormatarData | public/assets/js/clientes.js:61-65 | a missing date is shown as a dash |
| ClientesPage.Parte | public/assets/js/clientes.js:63 | definition: a missing destructured part prints as `undefined`; used by `ClientesPage.FormatarData` |
| ClientesPage.SplitData | public/assets/js/clientes.js:63 | splitting `ano-mes-dia` on `-` gives exactly the three parts when none holds a hyphen |
| ClientesPage.DataIso | public/assets/js/clientes.js:61-65 | an ISO date, with or without a time part, is shown day/month/year |
| ClientesPage.Mascara | public/assets/js/clientes.js:81-86 | the field keeps the first 11 digits for PF and the first 14 otherwise |
| ClientesPage.WhatsAppExibido | public/assets/js/clientes.js:295-296 | a stored bit, as boolean or 0/1, is shown as saved, and a checked box always comes from a truthy value |
| ClientesPage.Alternar | public/assets/js/clientes.js:206 | a header click turns ascending into descending and back |
| ClientesPage.DoisCliques | public/assets/js/clientes.js:206 | two clicks restore the order |
| ClientesPage.PaginaClientes.constructor | public/assets/js/clientes.js:25 | the page starts in ascending order with an empty document field |
| ClientesPage.PaginaClientes.ClicarNome | public/assets/js/clientes.js:205-210 | the order flips and stays ±1, and nothing else changes |
| ClientesPage.PaginaClientes.DigitarDocumento | public/assets/js/clientes.js:81-86 | the field becomes the mask of the typed text for the current tipo |
| ClientesPage.PaginaClientes.MudarTipo | public/assets/js/clientes.js:88-91 | changing tipo clears the document field |

## Left out

- Database connection, pool and driver (`src/config/database.js`): tables are values in memory. SQL errors other than the modelled ones (a UNIQUE violation, a NaN bound to `sql.Int`) are not modelled.
- Collation: `ORDER BY` and `LIKE` are modelled as exact character-code comparisons, with `%x%` as substring containment. Case-insensitive collation, accent folding and LIKE wildcards inside the input are not modelled.
- Ties in `ORDER BY` are broken by id: ascending orders keep rows with equal keys in ascending id, and `DESC` (the ascending list reversed) in descending id. Unordered results come in id order. SQL Server guarantees none of these.
- Column projections: every query returns the whole row (vehicles joined with the owner's name and document). The narrower column lists of the searches, and the OUTPUT and SELECT lists, are not modelled. DataCriacao, DataAtualizacao and their triggers are not modelled.
- The `Ativo` column default is taken as 1 on a user INSERT (`src/repositories/usuarioRepository.js:33`).
- The UNIQUE constraint on vehicle plates is not modelled. A second vehicle with the same plate is inserted, and the select-back returns the newest.
- Request bodies: every field is an optional string. A body value of another JSON type (a number for clienteId, say) is not modelled, except the customer WhatsApp flag, which is a small JavaScript value type.
- `parseInt` and `Number`: only base-10 text with optional whitespace and sign. Hexadecimal, exponent and fractional forms, `Infinity` and numbers beyond 32-bit range at the `sql.Int` binding are not modelled.
- String lengths count code points, not UTF-16 units. `toUpperCase`/`toLowerCase` cover ASCII and Latin-1 letters only (no `ß`, `ÿ` or `µ`).
- `localeCompare` in `renderizarTabela` (`public/assets/js/clientes.js:171-176`) is not modelled: the table sort is left out; only the sign flip of `ordemNome` is.
- The DOM: alert boxes, their timers, the header name `nomeUsuario` and the `confirm` dialog before logout are not modelled. Messages are collected in `avisos`; the logout is modelled as confirmed.
- Timer delays before a redirect (1.5 s and 2 s) are taken as immediate. `setInterval` is modelled as the `PeriodicCheck` tick.
- `JSON.parse` is modelled on decoded content: a slot is empty, unreadable, or an object with the three properties the gate reads.
- `apiRequest`, `API_BASE_URL` and `fetch` (`public/assets/js/config.js:8-78`) are network plumbing and are not modelled.
- `server.js`, the route files, `dashboard.js` and the rest of `login.js` wire handlers to URLs and pages and are not part of this model.
- `resetSenha` calls a repository method that does not exist, so its success and 404 paths are unreachable. The model answers 500 after the two guards.

## Findings

| source | as written | input that shows it | evidently intended | confidence | as-written member | corrected member |
|---|---|---|---|---|---|---|
| public/assets/js/login.js:34 | the login page stores the bare user object under `usuario` | any successful login: the stored object has no `usuario` and no `loginTime`, so `getUsuarioLogado` (auth.js:19-23) clears it and every protected page redirects to login | store `{ usuario, loginTime: Date.now() }`, the object auth.js reads | not executed | Auth.LoginGravaSessaoInvalida | Auth.NovaSessaoValida |
| src/repositories/usuarioRepository.js:17-23 | `SELECT *` returns every column, and `listarTodos` in the controller sends it as is | a table with one active user `admin`/`segredo1`: `GET /api/usuarios` includes `Senha: "segredo1"` | the listing without passwords, as the controller's comment at usuarioController.js:64 says | not executed | UsuarioRepo.ListarExpoeSenhaExemplo | UsuarioRepo.ListarUsuariosPublicos |
