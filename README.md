# hamilton_v3 clinic rules in Dafny

This project models the business rules of the hamilton_v3 clinic back end, a Django application, and proves properties about them. The application manages associates, therapists, patients and consultations. The modelled rules are:

- **CPF and field validators** (`principais/models.py`):
  - the CPF mod-11 check-digit validator;
  - the phone-number regular expression;
  - the `vlr_pago >= 0` check constraint on consultations;
  - the "decano" (dean) predicate and `get_decanos`.
- **Dashboard arithmetic** (`app/metrics.py`):
  - per-therapist adherence, received and agreed revenue;
  - the signed difference and its tag;
  - the share of active patients with a recent consultation;
  - the dashboard aggregates: delinquency and average days to match;
  - the two seven-day series.
- **Automatic deactivation signal** (`principais/signals.py`): a patient is deactivated when a discharge/dropout record is created.
- **Consultation views** (`principais/views.py`):
  - the session-price endpoint;
  - the list's scoping, search and `order_by` whitelist;
  - batch creation of consultations paid by one PIX transfer;
  - the detail difference;
  - the edit's paid/not-paid rule.
- **Forms** (`principais/forms.py`):
  - `ConsultaForm.clean`;
  - the optional `quantidade` field;
  - the `user_terapeuta` set-up of the three forms;
  - the module-level `clean` that no form uses.
- **Admin rules** (`principais/admin.py`):
  - the status, dean and period list filters;
  - the payment and attendance labels;
  - the bulk activate/deactivate actions;
  - the fields each admin class makes read-only when editing.
- **The `importar_terapeutas` command**:
  - how `read_csv` types the cells (an empty cell is NaN, an all-digit column is numeric);
  - splitting the name at Python white space (`str.split`), which includes the no-break space;
  - upserting users and adding them to the group;
  - the created/updated/error counters.

Conventions of the model:

- Database tables are sequences of row datatypes, and a query is a filter over them.
- Money is integer cents.
- Dates are proleptic Gregorian ordinals, as `date.toordinal()` gives them. "Today" is a parameter.
- Python's true division in the rates is `real` division.
- Tables that views, signals and admin actions write in place are classes:
  - `Tables.PacienteTable`;
  - `Tables.ConsultaTable`;
  - `ImportarTerapeutas.ImportCommand`, which holds the user map and the group names.
  Their methods state the new state through a specification function.
- `Query.GetWhere` models `objects.get`, with three outcomes: the row, `DoesNotExist` or `MultipleObjectsReturned`.

Places where the code does something other than its names and comments suggest:

- `ConsultaForm.clean` returns `cleaned_data`. Its `add_error` call also removes `vlr_consulta` from that dictionary, so `Forms.ModelForm.CleanConsulta` returns the data without that field.
- The form rules that reject a negative payment and "paid but not held" exist only in the module-level `clean`. That function is bound to no class, so no form `clean` enforces them (`Forms.UnboundCleanIsNotEnforced`). A negative payment is still refused by the `vlr_pago >= 0` check constraint: by the database on save, and, from Django 4.1 on, by the edit form's model validation (`Views.UpdateConsulta`). "Paid but not held" is refused nowhere.
- The phone validator uses `$`, which also matches before a final newline. So "10 or 11 digits" holds only for strings without a line break (`Models.TelefoneValido`, `Models.TelefoneComQuebraFinal`).
- `DecanoFilter` with 'sim' filters through the sector join without `distinct()`. An associate is listed once per "decano" sector, so one with two such sectors is listed twice (`Admin.DecanoSimRepeats`). The filter is declared, but no admin class lists it in `list_filter`.
- `ConsultaForm.__init__` reads `user_terapeuta.nome`, which a `Terapeuta` does not have. No view passes `user_terapeuta`, so this `AttributeError` (`Forms.ModelForm.ApplyUserTerapeuta`) is never reached.

## Model

| member | source | states |
|---|---|---|
| Cpf.ValidarCpf | principais/models.py:13-32 | a string that is not 11 ASCII digits gets the format message; 11 equal digits get "CPF inválido."; otherwise it is accepted exactly when the last two digits equal the two computed check digits |
| Cpf.CheckDigit | principais/models.py:22-24 | a check digit is `(soma*10) % 11` with 10 mapped to 0, always in 0..9 |
| Cpf.RepeatedRejected | principais/models.py:18-19 | every CPF made of one repeated digit is rejected as invalid |
| Cpf.CompleteAccepted | principais/models.py:21-32 | nine digits followed by their two computed check digits are accepted unless all eleven digits are equal |
| Cpf.SingleChangeCaught | principais/models.py:21-32 | changing one digit of an accepted CPF gives a rejected CPF, except a change in the first nine digits that swaps the first check digit's raw value between 0 and 10 |
| Cpf.SecondDigitBlindToFirstPosition | principais/models.py:26-29 | the second check digit does not depend on the first digit (its weight 11 vanishes mod 11) |
| Cpf.UndetectedFirstDigitChange | principais/models.py:21-32 | 70499962206 and 80499962206 are both accepted, so a change in the first digit can go undetected |
| Models.TelefoneValido | principais/models.py:34-37 | a valid phone number has 10 to 12 characters; without a line break it is valid exactly when it has 10 or 11 digits |
| Models.TelefoneComQuebraFinal | principais/models.py:34-37 | any ten digits followed by a final newline pass the validator, although the string is not all digits |
| Models.IsDecano | principais/models.py:117-120 | an associate is a dean exactly when filtering its sectors by "decano" (ignoring case) leaves at least one |
| Models.DecanoRows | principais/models.py:117-120 | the sector join holds one copy of the associate per sector whose name contains "decano" ignoring case, and no other row |
| Models.DecanoJoin | principais/models.py:126 | the joined rows are exactly the active associates with a "decano" sector |
| Models.GetDecanos | principais/models.py:123-126 | `get_decanos` returns exactly the active deans, each once |
| Models.JoinRepeatsAndDistinctCollapses | principais/models.py:126 | an active associate appears in the join once per "decano" sector, so twice with two such sectors, and exactly once after `distinct()` |
| Tables.PacienteTable.SaveIsActive | principais/signals.py:19-20 | `save(update_fields=...)` sets `is_active` on the one patient and stamps `updated_at`, keeping keys unique |
| Tables.PacienteTable.UpdateIsActive | principais/admin.py:274 | `queryset.update(is_active=...)` sets the flag on the selected rows without touching `updated_at`, and returns the number of matched rows |
| Tables.WithIsActiveEffect | principais/admin.py:272-288 | exactly the selected rows get the new flag; every other row and every other field is unchanged; `updated_at` moves only through `save()` |
| Tables.WithIsActiveIdempotent | principais/signals.py:19-20 | writing the same flag twice is the same as writing it once |
| Tables.ConsultaTable.Insert | principais/models.py:286-291 | an insert violating `vlr_pago >= 0` (a NULL payment passes) is refused and changes nothing; otherwise the row is appended with the next key; every stored payment stays NULL or non-negative |
| Tables.ConsultaTable.Update | principais/models.py:286-291 | an update succeeds exactly when the new row satisfies the check constraint, and replaces the row with that key |
| Metrics.Percentage | app/metrics.py:38 | a rate is `part/whole*100`, 0 when the whole is 0, between 0 and 100 when the part is a subset, and 100 when the part is the whole |
| Metrics.Mean | app/metrics.py:163 | a mean times the count gives back the total; 0 with no items |
| Metrics.ConsultasDe | app/metrics.py:14-15 | a therapist's consultations are exactly the rows with that therapist |
| Metrics.TerapeutasAtivos | app/metrics.py:20-21 | only active therapists are listed |
| Metrics.StatsOf | app/metrics.py:14-29 | a therapist's total is the number of its consultations; held consultations and distinct active patients do not exceed it; received revenue is never negative |
| Metrics.MetricFromStats | app/metrics.py:33-51 | the absolute amount and its tag give back `receita_acordada - valor_recebido`; "positivo", "negativo" and "igual" hold exactly when the difference is above, below or at zero; the adherence rate is a percentage when held does not exceed scheduled |
| Metrics.GetTerapeutaMetrics | app/metrics.py:10-52 | one metric per active therapist, in query order, each built from that therapist's aggregates |
| Metrics.MetricsFromStats | app/metrics.py:30-52 | the loop appends one metric per annotated row, in order |
| Metrics.TerapeutaMetricBounds | app/metrics.py:15-38 | the adherence rate is between 0 and 100, held consultations do not exceed scheduled ones, and distinct active patients do not exceed consultations |
| Metrics.ReceitaAcordadaPacienteUnico | app/metrics.py:19 | agreed revenue counts the patient's session price once per consultation |
| Metrics.GetPorcentagemPacientesComConsultas | app/metrics.py:86-111 | patients with a recent consultation are no more than the active ones, and the share is between 0 and 100, or 0 with no active patients |
| Metrics.PacienteSemConsultaRecenteNaoConta | app/metrics.py:90-99 | a patient whose consultations are all older than 180 days is not counted |
| Metrics.MatchesDoMes | app/metrics.py:151-153 | the month's matches are exactly those created since the first of the month whose patient exists |
| Metrics.TempoMedioMatchOf | app/metrics.py:150-165 | the mean wait times the number of the month's matches gives back their total wait, and it is 0 in a month without matches |
| Metrics.TempoMedioMatch | app/metrics.py:150-165 | the accumulating loop computes the mean of the month's match waits |
| Metrics.TempoMedioMatchBounds | app/metrics.py:155-163 | the mean wait lies between the shortest and the longest wait, and is 0 in a month without matches |
| Metrics.Inadimplencia | app/metrics.py:189-191 | the delinquency rate is between 0 and 100; it is 0 when no consultation was paid zero and 100 when every non-NULL payment is zero |
| Metrics.ConsultaMetricsOf | app/metrics.py:171-191 | adherence and delinquency are between 0 and 100; held consultations do not exceed scheduled ones; received revenue and the mean price are not negative |
| Metrics.GetConsultaMetrics | app/metrics.py:114-214 | the dashboard aggregates, with the match mean taken from the first of today's month |
| Metrics.InadimplenciaIgnoraNulos | app/metrics.py:130-131 | a consultation with a NULL payment changes neither side of the delinquency rate |
| Metrics.Last7Days | app/metrics.py:262 | seven consecutive dates ending today |
| Metrics.GetDailyConsultasData | app/metrics.py:258-280 | the count series covers the seven days ending today, and each value is that day's number of consultations, 0 when there are none |
| Metrics.GetDailyValorData | app/metrics.py:283-304 | each value of the amount series is that day's total price, 0 when there are no consultations |
| Signals.TerapeutaAttribute | principais/models.py:194-239 | a `Terapeuta` has exactly the attributes of its ten fields, `pk` and the six `_id` columns; `nome` is not one of them and raises `AttributeError` |
| Signals.SuccessLogAsWritten | principais/signals.py:23-27 | as written, building the success line always raises, because it reads `fk_terapeuta.nome` |
| Signals.SuccessLog | principais/signals.py:23-27 | corrected, the success line names the patient and its key |
| Signals.DesativarPacienteAltaDesistencia | principais/signals.py:8-33 | corrected behaviour, with the name read through `fk_associado` (`Signals.SuccessLog`); the line as written is `Signals.SuccessLogAsWritten`. Nothing happens on update; on creation the patient is saved inactive and a log line is produced, and no exception escapes |
| Signals.DeactivationEffect | principais/signals.py:16-20 | after the handler the linked patient is inactive and stamped, and every other patient is unchanged |
| Signals.DeactivationIdempotent | principais/signals.py:19-20 | deactivating an inactive patient again changes only `updated_at` |
| Signals.AsWrittenLogsErrorAfterDeactivating | principais/signals.py:20-33 | as written, the error line is logged after the patient was already saved inactive |
| Signals.CorrectedLogsSuccess | principais/signals.py:23-27 | reading the name through the associate, the success line is logged whenever the therapist and associate exist |
| Forms.ConsultaCleanErrors | principais/forms.py:75-83 | `ConsultaForm.clean` adds the price error exactly for a present price of 0 or less, and no other error |
| Forms.ModelForm.ApplyUserTerapeuta | principais/forms.py:118-129 | with a therapist given, `AltaDesistenciaForm` and `MatchForm` preset it, disable the field and make it optional; `ConsultaForm` raises before touching the field |
| Forms.ModelForm.CleanConsulta | principais/forms.py:75-83 | `clean` adds the price error and drops that field from the cleaned data |
| Forms.ConsultaCleanExactly | principais/forms.py:75-83 | every entry other than a refused price passes through `clean` unchanged |
| Forms.CleanQuantidade | principais/forms.py:29-35 | `quantidade` is optional, and a given value is accepted, unchanged, exactly when it is at least 1 |
| Forms.UnboundCleanErrors | principais/forms.py:172-190 | the unused `clean` accepts exactly a non-negative or absent payment, a positive or absent price and no "not held but paid" |
| Forms.UnboundCleanIsNotEnforced | principais/forms.py:172-190 | the unused module-level `clean` would reject a negative payment and "paid but not held", which the form's own `clean` accepts |
| Views.TruncateCents | principais/views.py:23 | `int()` of the price drops the cents toward zero |
| Views.PacienteValorSessao | principais/views.py:18-25 | the 404 answer exactly when no patient has the key; a server error exactly when two do; otherwise the truncated price of the patient with that key |
| Views.PacienteValorSessaoAnswers | principais/views.py:18-25 | with unique keys, an existing patient gets its own truncated session price |
| Views.OrderingFor | principais/views.py:65-81 | the ordering used is always one of the twelve accepted keys |
| Views.OrderingWhitelist | principais/views.py:65-81 | a whitelisted `order_by` is used as given; an absent or unknown one falls back to `-dat_consulta` |
| Views.ConsultaListQueryset | principais/views.py:45-81 | a therapist sees exactly their own consultations; staff who are not therapists see all of them; anybody else sees none; with a search, exactly those of these rows whose patient or therapist name matches are kept; a user linked to two therapists makes the request fail; the ordering is the whitelisted one |
| Views.PerSessionShare | principais/views.py:134-137 | the per-session share is within half a cent per session of an equal split of the PIX total |
| Views.FirstMissing | principais/views.py:139-144 | the first session index without a date, or none when every index below `quantidade` has one |
| Views.FirstMissingDate | principais/views.py:139-144 | the date-check loop finds that first missing index |
| Views.PlanCreate | principais/views.py:125-168 | the checks before the first save, run in the view's order, reach the planned outcome |
| Views.CreatePlanOf | principais/views.py:125-168 | a request goes on to saving only with at least one session, a non-negative share and a date for every session |
| Views.CreateConsultas | principais/views.py:125-189 | a refused request writes nothing; an accepted one saves exactly `quantidade` rows in order, with consecutive keys |
| Views.SaveRemaining | principais/views.py:170-186 | the loop after the first save appends sessions 1 to `quantidade - 1` in order, with consecutive keys |
| Views.PlannedRowsContents | principais/views.py:159-186 | every saved row has the same therapist and patient, the share as price and payment, its own date and its own checkbox |
| Views.CreateRefusals | principais/views.py:129-144 | a blank PIX total or a missing date is refused with its error |
| Views.ShareAddsUp | principais/views.py:134-137 | the saved shares add up to the PIX total within half a cent per session |
| Views.CreatedRowsStatus | principais/views.py:161-162 | a batch row is labelled "Paga" when its share is positive and "Não Paga" when it is zero |
| Views.DiferencaValor | principais/views.py:215-218 | price plus difference gives back the payment; the difference is 0 with no payment, and positive only for an overpayment |
| Views.VlrPagoAposEdicao | principais/views.py:259-263 | the payment is never NULL after an edit; "not paid" stores 0; "paid" with no amount or 0 stores the price; "paid" with an amount keeps it |
| Views.UpdateConsulta | principais/views.py:247-267 | from Django 4.1 on, a negative submitted payment is refused by the form and nothing is saved; otherwise the edit saves the form's row with the payment rule applied, and a missing date or a negative kept payment raises and leaves the row unchanged |
| Views.ValidatedEditSatisfiesConstraint | principais/views.py:259-263 | the saved payment breaks the check constraint exactly when "paid" keeps a negative submitted amount, so a form that passed the constraint check always saves a valid row |
| Views.StatusAposEdicao | principais/views.py:254-263 | after an edit, "not paid" is labelled "Não Paga" and "paid" is labelled "Paga" or "Pendente"; the attendance label follows the checkbox |
| Admin.ReadonlyFields | principais/admin.py:14-17 | the audit fields are read-only exactly when an existing object is edited; `PacienteAdmin` (line 241) and `TerapeutaAdmin` (line 319) then also lock `pk_paciente` and `pk_terapeuta` |
| Admin.StatusFilter | principais/admin.py:32-38 | 'active' keeps exactly the active rows and 'inactive' the inactive ones; any other value keeps the list as it is |
| Admin.StatusFilterPartition | principais/admin.py:32-38 | 'active' and 'inactive' together hold every row exactly once |
| Admin.DecanoSimRows | principais/admin.py:66-67 | the 'sim' join holds exactly the associates with a "decano" sector, active or not |
| Admin.DecanoFilter | principais/admin.py:65-70 | 'sim' keeps and 'nao' drops the associates with a "decano" sector; any other value keeps the list |
| Admin.DecanoSimRepeats | principais/admin.py:66-67 | 'sim' lists an associate once per "decano" sector, so twice with two such sectors |
| Admin.PeriodoFilter | principais/admin.py:84-92 | 'hoje' keeps today's rows, 'semana' Monday through Sunday of this week, and 'mes' this calendar month; any other value returns None and the list is kept |
| Admin.PeriodosContainToday | principais/admin.py:84-92 | the week starts on a Monday and contains today, and today's rows are kept by every period |
| Admin.StatusPagamento | principais/admin.py:437-446 | "Paga", "Pendente", "Parcial" and "Não Paga" each hold exactly under the code's truthiness conditions |
| Admin.StatusRealizacao | principais/admin.py:431-434 | None, True and False map to "Indefinido", "Realizada" and "Pendente", and the other way round |
| Admin.AtivarPacientes | principais/admin.py:272-278 | the selected patients become active, with `updated_at` untouched, and the count of matched rows is returned |
| Admin.DesativarPacientes | principais/admin.py:281-287 | the selected patients become inactive, with `updated_at` untouched, and the count of matched rows is returned |
| Admin.ActionEffect | principais/admin.py:272-288 | after an action every selected row has the new flag, unselected rows are unchanged, and the count is at most the table size |
| ImportarTerapeutas.ReadColumn | principais/management/commands/importar_terapeutas.py:24 | `read_csv` reads an empty cell as NaN, and a column whose every non-empty cell is all digits as numbers |
| ImportarTerapeutas.NumericColumnImportsNobody | principais/management/commands/importar_terapeutas.py:24-43 | when a whole NOME, USUARIO or SENHA column is digits, `.strip()` raises on every row: every row counts as an error and no user is created or changed |
| ImportarTerapeutas.NameSplitKeepsWords | principais/management/commands/importar_terapeutas.py:41-48 | the first name is the first word, or empty; the last name splits back into the remaining words, so only spacing is lost |
| ImportarTerapeutas.SpaceSeparatesNames | principais/management/commands/importar_terapeutas.py:41-48 | any Python white-space character, such as a no-break space, separates the first name from the last name |
| ImportarTerapeutas.UpsertUser | principais/management/commands/importar_terapeutas.py:50-81 | an existing username gets the new names and password, keeps its flags and joins the group; a new one is active staff without superuser rights, in the group only; no other user changes |
| ImportarTerapeutas.Step | principais/management/commands/importar_terapeutas.py:39-86 | corrected behaviour (the per-row `except` counts the error): each row adds one to exactly one counter; a row that raises changes no user; users only come in and never leave the group |
| ImportarTerapeutas.HandleAsWritten | principais/management/commands/importar_terapeutas.py:14-95 | as written: a missing file changes nothing; otherwise the group exists afterwards; the import aborts exactly when the first row has no text NOME, and then every user is rolled back |
| ImportarTerapeutas.ImportCommand.Handle | principais/management/commands/importar_terapeutas.py:14-92 | corrected behaviour, with a failing row counted and the import going on; the code as written is `ImportarTerapeutas.HandleAsWritten`. A missing file changes nothing; otherwise the group exists, and users and counters are those of processing every row in order |
| ImportarTerapeutas.CountersAddUp | principais/management/commands/importar_terapeutas.py:33-86 | created + updated + errors equals the number of rows processed |
| ImportarTerapeutas.ReimportIdempotent | principais/management/commands/importar_terapeutas.py:59-61 | importing the same row twice is the same as once, because the group is added only once |
| ImportarTerapeutas.ImportRowsOutcome | principais/management/commands/importar_terapeutas.py:39-86 | processing every row counts each row once, and the user of every readable row ends up in the "Terapeuta" group |
| ImportarTerapeutas.ImportedUsersInGroup | principais/management/commands/importar_terapeutas.py:39-86 | after the import, the user of every readable row exists and is in the "Terapeuta" group |
| ImportarTerapeutas.UnreadableRowsImportNothing | principais/management/commands/importar_terapeutas.py:84-85 | rows that all raise only add to the error counter and change no user |
| ImportarTerapeutas.FirstRowWithoutNomeAbortsImport | principais/management/commands/importar_terapeutas.py:84-95 | as written, an empty or numeric NOME in the first row aborts and rolls back the whole import and reports no counters, although the intended handling counts every row |
| ImportarTerapeutas.AsWrittenAgreesOtherwise | principais/management/commands/importar_terapeutas.py:39-95 | when the first row has a text NOME, the command as written gives the intended result |

## Left out

- Views.PerSessionShare: stated only within half a cent per session. The float rounding of `round(x, 2)` on a binary float, and how it breaks ties, is not modelled.
- Metrics.Percentage: computed as an exact real. Float rounding and `number_format` output are not modelled.
- Display formatting is not modelled: `number_format`, `strftime`, `format_html`, and the `str(date)` keys of the daily dictionaries, which are modelled by the date itself. Only the chosen value or label is kept.
- Logging, `messages`, and the `stdout` output of the import command are not modelled. Only the log entry the signal chooses is kept.
- Time zones and clocks:
  - "today" and "now" are parameters;
  - `created_at` datetimes are reduced to their date;
  - the dashboard's broad `except` blocks (fallback values on database errors) are not modelled.
- Views.ConsultaListQueryset returns the ordering key next to the unsorted rows. The SQL sort, the model's default ordering and pagination are not modelled.
- Forms.ModelForm.ApplyUserTerapeuta: the `vlr_consulta` initial value that `ConsultaForm.__init__` reads from `args[0]` is not modelled. Views pass the data as a keyword argument, so that branch is never taken.
- The "Terapeuta não foi definido" branch of the create view is not modelled. `fk_terapeuta` is a required form field, so the branch is never reached.
- Malformed strings in POST data are not modelled: a date Django cannot parse, or a number `float()` rejects. An absent or blank entry is modelled.
- Foreign keys that point to no row are read as "no name" or price 0. The database does not allow them.
- Non-ASCII digits, which Python's `isdigit` and `\d` also accept, are not modelled, and neither is Unicode case folding in `icontains`. Only ASCII digits and ASCII case are modelled.
- The import command's pandas CSV decoding (cp1252) and password hashing are not modelled. A password is kept as given.
- ImportarTerapeutas.ReadColumn: pandas' type inference is modelled only for unsigned digit strings. Signs, decimal points, exponents, thousands separators, and values pandas reads as booleans or NaN markers (such as "NA" or "null") are read as text.
- Import database errors are not modelled: a failing write inside `transaction.atomic` would break the rest of the transaction.
- The monthly series, the report views and the remaining admin classes are not part of this model, and neither are the models of the `acessorios` application.

## Findings

| source | as written | input that shows it | evidently intended | confidence | as-written member | corrected member |
|---|---|---|---|---|---|---|
| principais/signals.py:26 | the success log reads `instance.fk_terapeuta.nome`; `Terapeuta` has no `nome`, so the f-string raises `AttributeError` after the patient was saved, and the handler logs the error line instead | any newly created discharge/dropout record whose patient exists | log the therapist's name through `fk_terapeuta.fk_associado.nome` | not executed | Signals.AsWrittenLogsErrorAfterDeactivating | Signals.CorrectedLogsSuccess |
| principais/management/commands/importar_terapeutas.py:86 | the per-row `except` prints `nome_completo`; when the first row's NOME cell is empty or numeric, that variable is unbound, the handler raises `UnboundLocalError`, the atomic block rolls back every row, and the outer `except` ends the command | a CSV whose first row has an empty NOME cell (or whose NOME column is all digits), followed by valid rows | count the row as an error and go on with the next rows | not executed | ImportarTerapeutas.FirstRowWithoutNomeAbortsImport | ImportarTerapeutas.ImportRowsOutcome |
