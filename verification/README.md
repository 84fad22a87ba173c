# Finanzapp ledger rules in Dafny

A model of the ledger rules of the Finanzapp personal-finance web application (`app.py`).
It covers the two tables, `categorias` and `movimientos`. It covers the request logic that
writes to them: the POST branch of `index` and the create and delete branches of
`manejar_categorias`. It also covers the summary `calcular_resumen` (total saved, total
spent, balance).

- `wrappers.dfy`: `Option`, standing for Python's `None`.
- `texto.dfy`: `str.strip()`, `str.lower()` and `int()` on ASCII text. Includes the
  round trip `int(str(i)) == i` and the fact that `strip()` removes exactly the
  surrounding whitespace.
- `tablas.dfy`: the records `Categoria` and `Movimiento`, the lookups by primary key and
  by case-folded name, row deletion, and the table invariants. The invariants are: ids
  unique and below the next id, names non-empty, stripped and unique ignoring case,
  amounts positive, savings without category, and every movement's category, if it has
  one, existing. Deleting a category sets its movements' foreign key to NULL, as the
  relationship's default cascade does on flush.
- `resumen.dfy`: `calcular_resumen` as two SQL `SUM ... WHERE tipo = ...` queries with
  `NULL` read as 0.0, and what one more movement does to the totals.
- `finanzas.dfy`: the store as a class `Finanzas` with both tables and their next ids.
  Each handler is a method with `modifies this` that keeps `Valid()` and states the
  whole new state. The handler's answer is a `Vista`: a redirect, or a page with an
  optional error message.
- `escenarios.dfy`: client methods that issue short request sequences against a fresh
  store. Their assertions follow from the handlers' contracts alone.

Inputs that come from outside the code are parameters:
- the result of `float()` on the amount text is an `Option<real>` field of the form;
- the `datetime.utcnow` timestamp is an integer `ahora`;
- a missing form field is `None` (`tipo`, `categoria_id`) or `""` (`nota`, `nombre`,
  whose `.get` default is `""`).

## Model

| member | source | states |
|---|---|---|
| Texto.Strip | app.py:113 | the result has no whitespace at either end, is no longer than the input, and is empty exactly when the input is all whitespace |
| Texto.StripPadded | app.py:113 | `strip()` of whitespace + core + whitespace is the core whenever the core has no whitespace at its ends |
| Texto.StripIdempotent | app.py:113 | stripping an already stripped name changes nothing, so stored names are stripped |
| Texto.Lower | app.py:119 | folding keeps the length, maps each character to its lower-case ASCII form, and leaves no upper-case ASCII letter |
| Texto.LowerIdempotent | app.py:119 | folding an already folded name changes nothing |
| Texto.ParseInt | app.py:78 | the id parses exactly when, once stripped, it is an optional sign followed by one or more digits; an all-whitespace id never parses |
| Texto.ParseIntSpelled | app.py:78 | a sign, any number of leading zeros and surrounding whitespace do not change the value read: "+7" and "007" read as 7, "-0" as 0 |
| Texto.ParseShowInt | app.py:78 | `int()` reads back every integer written in decimal, with any whitespace around it |
| Tablas.IndiceDe | app.py:78 | `query.get(id)` finds a row with that primary key, or reports that no row has it |
| Tablas.PrimeraConNombre | app.py:118-120 | the duplicate query finds the first row whose name equals the new name after case folding, or reports that none does |
| Tablas.NombresUnicosAgregar | app.py:118-126 | adding a name that matches no existing name ignoring case keeps names unique ignoring case |
| Tablas.CategoriasValidasAgregar | app.py:113-126 | a new category with the next id and a stripped, non-empty, unmatched name keeps every category invariant |
| Tablas.MovimientosValidosAgregar | app.py:65-89 | a new movement with the next id, a positive amount, and no category if it is a saving keeps every movement invariant |
| Tablas.QuitarExacto | app.py:131-135 | deleting a row leaves exactly the categories whose id differs from the deleted one, one row fewer |
| Tablas.QuitarMultiset | app.py:134 | deletion takes away that one row and keeps all the others |
| Tablas.CategoriasValidasQuitar | app.py:131-135 | deleting a category keeps ids unique and names unique ignoring case |
| Tablas.Soltar | app.py:33 | after its category is deleted a movement no longer names it, and only its foreign key changes |
| Tablas.Desvincular | app.py:33 | deleting a category keeps every movement, in place, with `Soltar` applied to it |
| Tablas.MovimientosValidosDesvincular | app.py:134-135 | nulling the foreign keys to a deleted category keeps every movement invariant |
| Tablas.ReferenciasAgregarMovimiento | app.py:75-89 | a new movement whose category, if any, exists keeps every movement's category existing |
| Tablas.ReferenciasAgregarCategoria | app.py:124-126 | a new category takes no movement's category away |
| Tablas.ReferenciasQuitar | app.py:134-135 | deleting a category while nulling the foreign keys to it leaves no movement naming a missing category |
| Resumen.FiltrarMiembros | app.py:40-44 | the `WHERE tipo = ...` filter keeps exactly the movements of that kind |
| Resumen.FiltrarParticion | app.py:40-44 | every movement is counted by exactly one of the two queries |
| Resumen.SumaSql | app.py:40-44 | the SQL sum is `NULL` exactly when no movement has that kind |
| Resumen.Total | app.py:40-44 | a total is 0.0 when no movement has that kind |
| Resumen.CalcularResumen | app.py:39-47 | balance is savings total minus expenses total; each total is 0.0 when there is no movement of its kind |
| Resumen.TotalAgregar | app.py:39-47 | one more movement adds its amount to the total of its own kind and nothing to the other |
| Resumen.ResumenAgregar | app.py:39-47 | after one more movement the summary is the old summary with that amount added to its kind's total and to or from the balance |
| Resumen.ResumenDesvincular | app.py:39-47 | deleting a category does not change the totals or the balance |
| Resumen.TotalesPositivos | app.py:39-47 | with positive amounts each total is non-negative and is 0.0 exactly when there is no movement of its kind |
| Finanzas.CoercerTipo | app.py:72-73 | the stored kind is a saving exactly when "ahorro" was submitted, and otherwise an expense; a submitted "ahorro" or "gasto" is kept as spelled |
| Finanzas.CategoriaAsignada | app.py:75-80 | a movement gets a category only if it is an expense and the id parses to the id of an existing category; otherwise it gets none |
| Finanzas.ErrorNombre | app.py:113-126 | creation succeeds exactly when the stripped name is non-empty and matches no existing name ignoring case; otherwise the error is the empty-name one or the duplicate one |
| Finanzas.CategoriaABorrar | app.py:129-132 | the `eliminar` parameter selects a row exactly when it parses to that row's id; otherwise nothing is selected |
| Finanzas.Finanzas.constructor | app.py:142-144 | a fresh store has both tables empty and ids starting at 1 |
| Finanzas.Finanzas.BuscarCategoriaDe | app.py:75-80 | the step-by-step category lookup attaches the category `CategoriaAsignada` names |
| Finanzas.Finanzas.RegistrarMovimiento | app.py:58-90 | an invalid amount sets the error and stores nothing; a valid one adds exactly one movement (next id, coerced kind, stripped note, resolved category); the category table never changes |
| Finanzas.Finanzas.Index | app.py:53-105 | a valid POST adds the movement and redirects; a GET or an invalid POST changes nothing and renders the current summary with the error, if any |
| Finanzas.Finanzas.CrearCategoria | app.py:112-127 | the error is the one `ErrorNombre` gives; on success exactly one category with the stripped name and next id is added; movements never change |
| Finanzas.Finanzas.EliminarCategoria | app.py:129-136 | deletes exactly the category the parameter resolves to and nulls the foreign keys to it in its movements; nothing changes when the parameter does not resolve |
| Finanzas.Finanzas.ManejarCategorias | app.py:108-139 | a successful creation redirects before the delete check; otherwise a resolved delete removes that one category, nulls the foreign keys to it and redirects; otherwise nothing changes and the page shows the creation error |

## Left out

- Flask routing, `render_template`, `redirect`/`url_for` and the `lobby` route are web plumbing. The handler's answer is modelled as a `Vista` value.
- The SQLAlchemy session, `commit` and the SQLite engine are replaced by the two in-memory sequences. Store faults (connection loss, a failed commit) are not modelled.
- `os.system("cls")` at start-up is console I/O.
- Timestamps come from the `ahora` parameter. The listing order (`fecha DESC`, `nombre`) is not modelled, so the pages carry no listings.
- Python's `float()` parsing and floating-point rounding of the sums are not modelled. Amounts are exact reals and the parse result is an input. In particular, `float("nan")` passes the `monto <= 0` check in the source, and such a value cannot be represented here.
- Full Unicode `strip()` and `lower()` are left out; only ASCII whitespace and ASCII letters are modelled. SQL `lower()` and Python `lower()` are both modelled as the same ASCII fold, although the two differ on non-ASCII names (see the `UNIQUE` line below).
- Texto.ParseInt: does not accept `_` digit separators or non-ASCII digits, which Python's `int()` also accepts.
- Finanzas.CategoriaAsignada: an id that parses outside SQLite's signed 64-bit `INTEGER` range, such as "9223372036854775808", makes the sqlite3 driver raise `OverflowError` inside `query.get`. The `except ValueError` does not catch it, so in the source the request fails and nothing is stored. The model has no integer width and treats such an id as naming no category, so the movement is stored without one.
- Finanzas.CategoriaABorrar: the `eliminar` text is resolved with the same parse as `int()`. In the source the text goes to `query.get` unconverted, and SQLite's own text-to-integer coercion may accept forms such as `3.0` that `int()` rejects.
- Ids come from one counter per table, so an id is never reused. SQLite without `AUTOINCREMENT` may reuse the largest id after that row is deleted.
- The `String(100)` and `String(200)` column widths are not enforced by SQLite and are not modelled.
- The `UNIQUE` constraint on `nombre`: in the source this case-sensitive `UNIQUE` constraint on `nombre` can still reject a name the duplicate check let through. With "Éxito" stored, SQLite's `lower()` leaves it as "Éxito" while Python's `.lower()` of a new "Éxito" gives "éxito", so the check finds no match and the `INSERT` fails with an `IntegrityError`. The model folds both sides with the same ASCII fold, so its duplicate check catches every name the constraint would reject, and it has no such failure.
