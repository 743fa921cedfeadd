# Budget and transaction core of gestao_financeira, in Dafny

This project models the domain logic of the finance tracker's Flask backend (`backend/run.py`).
Authenticated users record transactions (`Transacao`) against categories (`Categoria`). They set
monthly budget plans (`Orcamento`) per category. They ask for the remaining balance
(`saldo_total`) of a month.

The model is an in-memory store, `Store.FinanceStore`, holding the four tables as sequences. Each
handler except `listar_categorias` is one method on it; `listar_categorias` only reads one table
and is the function `Categories.ListarCategorias`. The create handlers append one row or report an error and change
nothing. The listing and balance handlers loop over rows as the source does. Each method is
specified by a pure function in its component module:

- `Schema`: the rows, the error responses with their HTTP status, the lookups the handlers run
  (`filter_by(...).first()`, `query.get`), and `Consistent`, the invariant every create keeps.
  Row ids are SQLite row ids. Tables start empty and rows are never deleted, so row `i` has id `i + 1`.
- `Calendar`: the date check `strptime("%Y-%m-%d")` performs, and the `YYYY-MM-DD` text form.
- `Categories`, `Ledger`, `Plans`: the decision of each create handler, in the source's order of
  checks, plus the transaction listing.
- `Balance`: the balance as a closed-form sum, and lemmas on how it reacts to new rows.
- `Scenarios`: worked examples driven only through the store's methods.

Request fields are `Option` values, so Python truthiness comes out as written. `not descricao`
rejects `""`. `valor is None` accepts `0`. `not categoria_id` rejects `0`. The caller's identity
arrives as the email of an already verified token (`None` when the token carries no email).
Amounts are `int`.

Four facts of the code shape the model:

- Only `tipo == "despesa"` counts as an expense; no other literal, such as `"expense"`, does.
- `create_transacao`, `create_orcamento` and `verificar_saldo_orcamento` look up the user before
  checking any field. `create_categoria` does no user lookup at all.
- A duplicate category name gets status 400, like a validation error.
- `mes_ano` is stored as given, with no format check.

## Model

| member | source | states |
|---|---|---|
| `Calendar.IsLeapYear` | backend/run.py:182 | the Gregorian leap-year rule `datetime` applies: divisible by 4 and not by 100, or divisible by 400 |
| `Calendar.DaysInMonth` | backend/run.py:182 | 28 to 31 days; 28 exactly for February of a common year; 29 exactly for February of a leap year; 31 exactly for the long months |
| `Calendar.ValidDate` | backend/run.py:182 | the dates `datetime` can hold: year 1 to 9999, month 1 to 12, day within the month with leap years |
| `Calendar.ParseDate` | backend/run.py:181-184 | every date that parses is a real calendar date (year 1-9999, month 1-12, day within the month, leap years) |
| `Calendar.FormatDate` | backend/run.py:158 | the text is 10 characters with dashes at positions 4 and 7 |
| `Calendar.ParseFormat` | backend/run.py:158 | the date text a listing shows parses back to the stored date |
| `Calendar.FormatParse` | backend/run.py:182 | a string that parses is the canonical text of its date, so parsing is one-to-one |
| `Calendar.ParseFields` | backend/run.py:182 | text of four, two and two digits joined by dashes parses to the date those numbers name, or is rejected when that date does not exist |
| `Calendar.MonthThirteenExample` | backend/run.py:181-184 | "2024-13-01" is rejected |
| `Calendar.CommonYearExample` | backend/run.py:181-184 | "2023-02-29" is rejected |
| `Calendar.LeapYearExample` | backend/run.py:181-184 | "2024-02-29" is accepted as February 29, 2024 |
| `Schema.Status` | backend/run.py:174-188 | missing user or category answers 404; every other error answers 400 |
| `Schema.Filled` | backend/run.py:131 | Python truthiness of a text field: absent and `""` are false, any other text is true (also run.py:178, 215, 241) |
| `Schema.NonZero` | backend/run.py:178 | Python truthiness of an integer field: absent and `0` are false, any other integer is true (also run.py:215) |
| `Schema.FindUserByEmail` | backend/run.py:174-176 | a found user is in the table with the token's email; otherwise no row has that email, or the token has none |
| `Schema.CategoriaById` | backend/run.py:186-188 | a found category has the requested id; otherwise no category has it |
| `Schema.CategoriaByName` | backend/run.py:134 | a found category has exactly the name; otherwise no category has it |
| `Schema.CategoriaByIdIndexed` | backend/run.py:186 | for row-id keys, the lookup succeeds exactly for ids 1 to the table size, returning row `id - 1` |
| `Schema.UsersUnique` | backend/run.py:27-28 | the `unique=True` constraints on `username` and `email`: no two user rows share either |
| `Schema.NamesUnique` | backend/run.py:34 | the `unique=True, nullable=False` category name: no two categories share a name, and no name is empty as `create_categoria` demands |
| `Schema.TransacaoWellFormed` | backend/run.py:38-45 | a stored transaction references an existing user and category, has non-empty `descricao` and `tipo`, and a valid date, as `create_transacao` demands before insert |
| `Schema.OrcamentoWellFormed` | backend/run.py:47-52 | a stored plan references an existing user and category and has a non-empty `mes_ano` |
| `Schema.Consistent` | backend/run.py:25-52 | the store invariant over the row datatypes `User`, `Categoria`, `Transacao` and `Orcamento` (the four models, with `Failure` naming the handlers' error responses): ids are row positions plus one, usernames, emails and category names are unique, and every transaction and plan references an existing user and category and has the fields its create handler demands |
| `Schema.ReferencesResolve` | backend/run.py:247-248 | in a consistent store, the category of every transaction and plan is found, and its user exists |
| `Schema.NewUser` | backend/run.py:25-28 | a username or email already present is rejected; otherwise the row gets the next id |
| `Schema.NewUserPreservesConsistency` | backend/run.py:95-97 | seeding a user keeps the store consistent, with usernames and emails unique |
| `Schema.NewUserIsFound` | backend/run.py:174 | after seeding, the new user's email resolves to that user |
| `Categories.ListarCategorias` | backend/run.py:121-124 | every category, in table order, as its (id, nome) pair |
| `Categories.NewCategoria` | backend/run.py:128-140 | a missing or empty name is rejected first; then a name already present; a filled name not yet present is accepted, as a new row with the name and the next id |
| `Categories.NewCategoriaPreservesConsistency` | backend/run.py:134-140 | a successful create keeps the store consistent; in particular names stay pairwise distinct |
| `Categories.CreateTwiceIsDuplicate` | backend/run.py:134-135 | creating the same name a second time is rejected as a duplicate |
| `Categories.ListingAfterCreate` | backend/run.py:122-123 | after a create, the listing is the old listing followed by the new category |
| `Ledger.NewTransacao` | backend/run.py:174-199 | checks run in order: user, then fields, then date, then category; with a known user, all fields and a valid date, the request is accepted exactly when the category exists; no other error occurs; a created row carries the given fields, the parsed date, the resolved user's id and the next id |
| `Ledger.FieldsPresent` | backend/run.py:166-178 | the field check on a `Ledger.TransacaoRequest` (the five `data.get` values): `descricao`, `tipo` and `data` non-empty, `valor` present (0 allowed), `categoria_id` present and non-zero |
| `Ledger.NewTransacaoPreservesConsistency` | backend/run.py:186-199 | a created transaction references an existing user and category and passed validation |
| `Ledger.MonthThirteenRejected` | backend/run.py:181-184 | "2024-13-01" is rejected as an invalid date |
| `Ledger.Owned` | backend/run.py:150 | only rows of the user, taken from the table |
| `Ledger.OwnedExactly` | backend/run.py:150 | a row is listed exactly when it is in the table and belongs to the user |
| `Ledger.OwnedAppend` | backend/run.py:150 | a new row of the user appears at the end, so table order is kept; other users' rows never appear |
| `Ledger.ViewOf` | backend/run.py:153-160 | the response dict as a `Ledger.TransacaoView`: a listing entry keeps the row's fields, shows a date that parses back to the row's date, and names the row's category |
| `Plans.NewOrcamento` | backend/run.py:211-226 | checks run in order: user, then fields, then category; with a known user and all fields, an unknown category gets `CategoryNotFound` and a known one is accepted; no other error occurs; a created plan carries the given value, month token, category, the resolved user and the next id |
| `Plans.FieldsPresent` | backend/run.py:207-215 | the field check on a `Plans.OrcamentoRequest` (the three `data.get` values): `valor` present (0 allowed), `mes_ano` non-empty, `categoria_id` present and non-zero |
| `Plans.NewOrcamentoPreservesConsistency` | backend/run.py:218-229 | a created plan references an existing user and category |
| `Plans.DuplicatePlansAccepted` | backend/run.py:222-229 | a request is accepted again when an identical plan already exists |
| `Balance.IsDespesa` | backend/run.py:248-249 | a row counts toward a plan exactly when it is the user's, in the plan's category, and its `tipo` equals `Balance.DESPESA`, the literal "despesa" |
| `Balance.PlanoDoMes` | backend/run.py:244 | `filter_by(user_id=..., mes_ano=...)`: a plan is the user's and carries exactly the requested month token |
| `Balance.Matching` | backend/run.py:244 | only the user's plans for the month, taken from the table |
| `Balance.MatchingExactly` | backend/run.py:244 | a plan is selected exactly when it is in the table, belongs to the user and has the month token |
| `Balance.TotalDespesas` | backend/run.py:249 | the sum of `valor` over the user's rows in the category whose `tipo` is exactly "despesa"; its properties are the lemmas below |
| `Balance.TotalDespesasWithoutExpenses` | backend/run.py:249 | with no expense of the user in the category, the total is 0 |
| `Balance.TotalDespesasNonNegative` | backend/run.py:249 | with non-negative amounts, the total is non-negative |
| `Balance.Restante` | backend/run.py:250 | what one plan adds: its `valor` minus the user's expenses in its category |
| `Balance.SaldoOf` | backend/run.py:245-250 | the running `saldo_total` after the loop has visited a prefix of the plans; the loop invariant of `VerificarSaldoOrcamento` is stated in it |
| `Balance.Saldo` | backend/run.py:244-250 | the balance as a closed-form sum over the user's plans for the month of value minus category expenses; its loop form is `Balance.SaldoOfMatching` |
| `Balance.SaldoOfMatching` | backend/run.py:244-250 | accumulating over the filtered plans yields the closed-form balance |
| `Balance.SaldoWithoutPlans` | backend/run.py:245-252 | with no plan for the user and month, the balance is exactly 0 |
| `Balance.SaldoAfterTransacao` | backend/run.py:248-250 | a new expense of the user lowers the balance by its value once per matching plan in its category, whatever its date; any other row changes nothing |
| `Balance.SaldoIgnoresNonDespesa` | backend/run.py:249 | a transaction whose `tipo` is not "despesa" never changes the balance |
| `Balance.SaldoIgnoresOtherUsers` | backend/run.py:248 | another user's transaction never changes the balance |
| `Balance.SaldoAfterOrcamento` | backend/run.py:244-250 | a new matching plan adds its value minus its category's expenses, even beside an identical plan; others add nothing |
| `Balance.TotalDespesasIgnoresDates` | backend/run.py:248-249 | expense totals do not depend on transaction dates |
| `Balance.SaldoIgnoresDates` | backend/run.py:244-250 | the balance does not depend on transaction dates |
| `Store.FinanceStore.Valid` | backend/run.py:25-52 | the store's tables satisfy `Schema.Consistent`; every method keeps it |
| `Store.FinanceStore.constructor` | backend/run.py:255-257 | the store starts with four empty tables and is consistent |
| `Store.FinanceStore.SeedUser` | backend/run.py:95-97 | appends the row `NewUser` decides, or changes nothing on error; consistency is kept |
| `Store.FinanceStore.CreateCategoria` | backend/run.py:128-140 | appends exactly the category `NewCategoria` decides and returns its id; on error nothing changes; other tables never change |
| `Store.FinanceStore.ListarTransacoes` | backend/run.py:144-161 | unknown user gives 404; otherwise one entry per row of the user, in table order, each the row's view with its category name |
| `Store.FinanceStore.CreateTransacao` | backend/run.py:165-201 | appends exactly the transaction `NewTransacao` decides and returns its id; on error nothing changes; other tables never change |
| `Store.FinanceStore.CreateOrcamento` | backend/run.py:205-231 | appends exactly the plan `NewOrcamento` decides and returns its id; on error nothing changes; other tables never change |
| `Store.FinanceStore.VerificarSaldoOrcamento` | backend/run.py:235-252 | unknown user gives 404 before a missing `mes_ano` gives 400; otherwise the closed-form balance |
| `Scenarios.CrossMonthScenario` | backend/run.py:244-250 | plan 500, expenses 120 and 80 with any dates, income 50: balance 300 |
| `Scenarios.DuplicatePlansScenario` | backend/run.py:244-250 | two identical plans of 100 and 200, expenses 50: balance 200 |

## Left out

- Token verification (`token_required`) and the Firebase configuration are not modelled. They are calls into the identity provider. The handlers receive the verified email instead.
- `signup` and `login` are not modelled. They call the identity provider. `SeedUser` stands in for the local user insert. It keeps only the unique constraints on username and email, not signup's non-empty checks.
- Flask routing, JSON parsing, CORS, the SQLAlchemy session and commit, and the startup database reset are I/O and persistence, and are not modelled. Storage failures and concurrent requests are not modelled either.
- JSON values of the wrong type are not modelled. Examples are a text `valor` or a text `categoria_id`. Request fields here are typed options.
- Amounts are integers, not floats. Sums are exact, with no floating-point rounding.
- `Calendar.ParseDate` accepts only the zero-padded form `YYYY-MM-DD`. `strptime`'s lexical leniency, for example one-digit months and days, is not modelled. Years below 1000 are shown padded to four digits; the source's output for them depends on the platform.
- Stored dates are calendar dates. `datetime` also stores a midnight time, which the source never reads.
- `Store.FinanceStore.ListarTransacoes` and `Store.FinanceStore.VerificarSaldoOrcamento` require the store invariant. In the source, a dangling category reference would raise an exception. The invariant, which every create keeps, rules that out.
- Row ids are the row's position plus one. This matches SQLite with no deletions; other id allocation is not modelled.
