/** The consultation views of principais/views.py: the session-price
    endpoint, the list's scoping, search and ordering, the batch creation
    of consultations paid by one PIX transfer, the detail difference and
    the edit's payment rule.  The request is a parameter; the logged-in
    user is a `User`. */
module Views {
  import opened Wrappers
  import opened Text
  import opened Query
  import opened Models
  import opened Tables
  import opened Calendar
  import Admin

  // ---------------------------------------------------------------------
  // paciente_valor_sessao
  // ---------------------------------------------------------------------

  datatype ValorSessaoResponse =
    | ValorSessao(vlrSessao: int)  // 200 {"vlr_sessao": ...}
    | PacienteNaoEncontrado        // 404 {"error": "Paciente não encontrado"}
    | ServerError                  // an exception the view does not catch

  /** `int(Decimal)`: drop the cents, truncating toward zero. */
  function TruncateCents(c: Cents): (r: int)
    ensures c >= 0 ==> r * 100 <= c < r * 100 + 100
    ensures c < 0 ==> r * 100 - 100 < c <= r * 100
  {
    if c >= 0 then c / 100 else -((-c) / 100)
  }

  /** `paciente_valor_sessao`: the 404 answer exactly when no patient has
      the key; otherwise the truncated price of a patient with that key,
      or an uncaught `MultipleObjectsReturned` when the key is repeated. */
  function PacienteValorSessao(db: Db, pk: nat): (r: ValorSessaoResponse)
    ensures r == PacienteNaoEncontrado <==> forall p :: p in db.pacientes ==> p.pk != pk
    ensures r == ServerError <==> |Filter(db.pacientes, (p: Paciente) => p.pk == pk)| >= 2
    ensures r.ValorSessao? ==>
      exists p :: p in db.pacientes && p.pk == pk && r.vlrSessao == TruncateCents(p.vlrSessao)
  {
    match GetWhere(db.pacientes, (p: Paciente) => p.pk == pk)
    case Found(p) => ValorSessao(TruncateCents(p.vlrSessao))
    case NotFound => PacienteNaoEncontrado
    case Multiple => ServerError
  }

  /** An existing patient gets the whole-real part of its session price
      (rounded toward zero, so the sign is kept); an unknown key gets the
      404 answer. */
  lemma PacienteValorSessaoAnswers(db: Db, pk: nat)
    requires UniquePacientePks(db.pacientes)
    ensures PacienteValorSessao(db, pk) == PacienteNaoEncontrado <==>
      forall p :: p in db.pacientes ==> p.pk != pk
    ensures forall p :: p in db.pacientes && p.pk == pk ==>
      PacienteValorSessao(db, pk) == ValorSessao(TruncateCents(p.vlrSessao))
  {
    PkFilterAtMostOne(db.pacientes, pk, (p: Paciente) => p.pk == pk);
  }

  /** With unique keys, at most one patient row has a given key. */
  lemma {:induction false} PkFilterAtMostOne(ps: seq<Paciente>, pk: nat, pred: Paciente -> bool)
    requires UniquePacientePks(ps)
    requires forall p :: pred(p) <==> p.pk == pk
    ensures |Filter(ps, pred)| <= 1
    decreases |ps|
  {
    if |ps| > 0 && !pred(ps[0]) {
      var rest := ps[1..];
      assert UniquePacientePks(rest) by {
        forall i, j | 0 <= i < j < |rest| ensures rest[i].pk != rest[j].pk {
          assert rest[i] == ps[i + 1] && rest[j] == ps[j + 1];
        }
      }
      PkFilterAtMostOne(rest, pk, pred);
    } else if |ps| > 0 {
      var rest := ps[1..];
      forall x | x in rest
        ensures !pred(x)
      {
        var k :| 0 <= k < |rest| && rest[k] == x;
        assert ps[k + 1] == x;
      }
      FilterNone(rest, pred);
    }
  }

  // ---------------------------------------------------------------------
  // The logged-in therapist
  // ---------------------------------------------------------------------

  /** `Associado.objects.get(usuario=user)` then
      `Terapeuta.objects.get(fk_associado=associado)`. */
  function TerapeutaDoUsuario(db: Db, user: User): Lookup<Terapeuta> {
    match GetWhere(db.associados, (a: Associado) => a.usuario == Some(user.pk))
    case NotFound => NotFound
    case Multiple => Multiple
    case Found(a) => GetWhere(db.terapeutas, (t: Terapeuta) => t.associado == a.pk)
  }

  // ---------------------------------------------------------------------
  // ConsultaListView.get_queryset
  // ---------------------------------------------------------------------

  const DefaultOrdering := "-dat_consulta"

  const ValidOrders: seq<string> := [
    "pk_consulta", "-pk_consulta",
    "fk_terapeuta__fk_associado__nome", "-fk_terapeuta__fk_associado__nome",
    "fk_paciente__nome", "-fk_paciente__nome",
    "dat_consulta", "-dat_consulta",
    "is_realizado", "-is_realizado",
    "vlr_pago", "-vlr_pago"]

  /** `request.GET.get('order_by', '-dat_consulta')`, kept only when it is
      one of the twelve accepted keys. */
  function OrderingFor(orderBy: Option<string>): (o: string)
    ensures o in ValidOrders
  {
    var requested := orderBy.GetOr(DefaultOrdering);
    if requested in ValidOrders then requested else DefaultOrdering
  }

  datatype ListQuery = ListQuery(rows: seq<Consulta>, ordering: string)

  /** The patient's or the therapist's associate's name contains the search
      text, ignoring case. */
  predicate MatchesNome(db: Db, c: Consulta, nome: string) {
    (match FindPaciente(db.pacientes, c.paciente)
     case Some(p) => ContainsIgnoreCase(p.nome, nome)
     case None => false)
    ||
    (match FindTerapeuta(db.terapeutas, c.terapeuta)
     case Some(t) =>
       (match FindAssociado(db.associados, t.associado)
        case Some(a) => ContainsIgnoreCase(a.nome, nome)
        case None => false)
     case None => false)
  }

  /** The rows the user may see: a therapist's own consultations, all of
      them for staff who are not therapists, none for anybody else. */
  function ScopedConsultas(db: Db, user: User): Option<seq<Consulta>> {
    match TerapeutaDoUsuario(db, user)
    case Found(t) => Some(Filter(db.consultas, (c: Consulta) => c.terapeuta == t.pk))
    case NotFound => Some(if user.isStaff then db.consultas else [])
    case Multiple => None  // MultipleObjectsReturned is not caught
  }

  /** `get_queryset` (`None`: the request fails).  The rows keep the table's
      order; `ordering` is the `order_by` key applied to them. */
  function ConsultaListQueryset(db: Db, user: User, nome: Option<string>, orderBy: Option<string>)
    : (r: Option<ListQuery>)
    ensures r.None? <==> TerapeutaDoUsuario(db, user).Multiple?
    ensures r.Some? ==> r.value.ordering == OrderingFor(orderBy)
    ensures r.Some? ==> forall c :: c in r.value.rows ==> c in db.consultas
    ensures TerapeutaDoUsuario(db, user).Found? ==>
      r.Some? && forall c :: c in r.value.rows ==> c.terapeuta == TerapeutaDoUsuario(db, user).value.pk
    ensures TerapeutaDoUsuario(db, user).NotFound? && !user.isStaff ==> r.Some? && r.value.rows == []
    ensures TerapeutaDoUsuario(db, user).NotFound? && user.isStaff && (nome.None? || nome == Some("")) ==>
      r.Some? && r.value.rows == db.consultas
    ensures r.Some? && nome.Some? && nome.value != "" ==>
      forall c :: c in r.value.rows ==> MatchesNome(db, c, nome.value)
    ensures r.Some? ==> forall c :: c in r.value.rows <==>
      c in db.consultas
      && (TerapeutaDoUsuario(db, user).Found? ==> c.terapeuta == TerapeutaDoUsuario(db, user).value.pk)
      && (TerapeutaDoUsuario(db, user).NotFound? ==> user.isStaff)
      && (nome.Some? && nome.value != "" ==> MatchesNome(db, c, nome.value))
  {
    match ScopedConsultas(db, user)
    case None => None
    case Some(scoped) =>
      var rows := if nome.Some? && nome.value != "" then
        Filter(scoped, (c: Consulta) => MatchesNome(db, c, nome.value))
      else scoped;
      Some(ListQuery(rows, OrderingFor(orderBy)))
  }

  /** The requested ordering is used exactly when it is whitelisted; an
      absent or unknown key falls back to newest date first. */
  lemma OrderingWhitelist(orderBy: Option<string>)
    ensures orderBy.Some? && orderBy.value in ValidOrders ==> OrderingFor(orderBy) == orderBy.value
    ensures orderBy.Some? && orderBy.value !in ValidOrders ==> OrderingFor(orderBy) == DefaultOrdering
    ensures orderBy.None? ==> OrderingFor(orderBy) == DefaultOrdering
  {
  }

  // ---------------------------------------------------------------------
  // ConsultaCreateView.form_valid
  // ---------------------------------------------------------------------

  /** The raw `quantidade` POST entry: absent (default 1), present but
      empty (`int('')` raises) or a number the form accepted. */
  datatype QuantidadeRaw = QuantidadeAbsent | QuantidadeBlank | QuantidadeValue(n: int)

  /** `vlr_pix_total`: missing, empty or only white space; or a number,
      already in cents. */
  datatype PixRaw = PixBlank | PixAmount(cents: int)

  /** The POST data the view reads after the form validated. */
  datatype CreateRequest = CreateRequest(
    quantidade: QuantidadeRaw,
    pix: PixRaw,
    datas: map<nat, Date>,      // the non-empty `data_consulta_<i>` entries
    realizados: set<nat>,       // the `i` whose `is_realizado_<i>` is "on"
    formTerapeuta: nat,         // the form's (required) `fk_terapeuta`
    formPaciente: nat)          // the form's (required) `fk_paciente`

  /** The form was valid: `quantidade`, when given, is at least 1. */
  predicate FormValidated(req: CreateRequest) {
    req.quantidade.QuantidadeValue? ==> req.quantidade.n >= 1
  }

  datatype CreateError = PixObrigatorio | DataObrigatoria(numero: nat)

  datatype CreateOutcome =
    | CreateInvalid(error: CreateError)   // form re-rendered with the error
    | CreateCrash                         // an exception the view does not catch
    | CreateRedirect(quantidade: nat, share: Cents)

  /** `round(total / quantidade, 2)` in cents: the share closest to an
      equal split (the float rounding's tie-breaking is not modelled). */
  function PerSessionShare(total: Cents, q: int): (share: Cents)
    requires q > 0
    ensures -q < 2 * (share * q - total) <= q
  {
    var s := (2 * total + q) / (2 * q);
    var r := (2 * total + q) % (2 * q);
    assert 2 * total + q == (2 * q) * s + r && 0 <= r < 2 * q;
    assert s * q * 2 == (2 * q) * s;
    s
  }

  /** The first index below `q` without a date, searching from `from`. */
  function FirstMissing(datas: map<nat, Date>, q: nat, from: nat): (r: Option<nat>)
    ensures r.Some? ==>
      from <= r.value < q && r.value !in datas && forall i :: from <= i < r.value ==> i in datas
    ensures r.None? ==> forall i :: from <= i < q ==> i in datas
    decreases q - from
  {
    if from >= q then None
    else if from !in datas then Some(from)
    else FirstMissing(datas, q, from + 1)
  }

  /** What the view decides before writing anything. */
  datatype CreatePlan =
    | Refuse(outcome: CreateOutcome)
    | Save(terapeuta: nat, quantidade: nat, share: Cents)

  function CreatePlanOf(db: Db, user: User, req: CreateRequest): (plan: CreatePlan)
    requires FormValidated(req)
    ensures plan.Refuse? ==> !plan.outcome.CreateRedirect?
    ensures plan.Save? ==>
      plan.quantidade >= 1 && plan.share >= 0 && forall i :: 0 <= i < plan.quantidade ==> i in req.datas
  {
    if req.quantidade.QuantidadeBlank? then Refuse(CreateCrash)
    else
      var q := if req.quantidade.QuantidadeAbsent? then 1 else req.quantidade.n;
      if req.pix.PixBlank? then Refuse(CreateInvalid(PixObrigatorio))
      else
        var share := PerSessionShare(req.pix.cents, q);
        var missing := FirstMissing(req.datas, q, 0);
        if missing.Some? then Refuse(CreateInvalid(DataObrigatoria(missing.value + 1)))
        else
          var chosen := TerapeutaDoUsuario(db, user);
          if chosen.Multiple? then Refuse(CreateCrash)
          else
            var terapeuta := if chosen.Found? then chosen.value.pk else req.formTerapeuta;
            // the first save violates the check constraint: IntegrityError
            if share < 0 then Refuse(CreateCrash)
            else Save(terapeuta, q, share)
  }

  /** The consultation saved for index `i` of the batch. */
  function PlannedRow(req: CreateRequest, terapeuta: nat, share: Cents, i: nat, pk: nat): Consulta
    requires i in req.datas
  {
    Consulta(pk, terapeuta, req.formPaciente, share, Some(i in req.realizados), Some(share), req.datas[i])
  }

  function PlannedRows(req: CreateRequest, terapeuta: nat, q: nat, share: Cents, firstPk: nat)
    : (rows: seq<Consulta>)
    requires forall i :: 0 <= i < q ==> i in req.datas
    ensures |rows| == q
  {
    seq(q, i requires 0 <= i < q => PlannedRow(req, terapeuta, share, i, firstPk + i))
  }

  /** The loop of lines 170-186: after the first session, every further
      session is saved with the next key. */
  method SaveRemaining(table: ConsultaTable, req: CreateRequest, terapeuta: nat, q: nat,
                       share: Cents, firstPk: nat, ghost before: seq<Consulta>)
    requires table.Valid() && share >= 0 && q >= 1
    requires forall i :: 0 <= i < q ==> i in req.datas
    requires table.nextPk == firstPk + 1
    requires table.rows == before + PlannedRows(req, terapeuta, q, share, firstPk)[..1]
    modifies table
    ensures table.Valid()
    ensures table.rows == before + PlannedRows(req, terapeuta, q, share, firstPk)
  {
    ghost var planned := PlannedRows(req, terapeuta, q, share, firstPk);
    var i := 1;
    while i < q
      invariant 1 <= i <= q
      invariant table.Valid()
      invariant table.nextPk == firstPk + i
      invariant table.rows == before + planned[..i]
    {
      var saved := table.Insert(PlannedRow(req, terapeuta, share, i, table.nextPk));
      assert planned[..i + 1] == planned[..i] + [planned[i]];
      i := i + 1;
    }
    assert planned[..q] == planned;
  }

  /** The date check: the loop over `range(quantidade)`. */
  method FirstMissingDate(datas: map<nat, Date>, q: nat) returns (missing: Option<nat>)
    ensures missing == FirstMissing(datas, q, 0)
  {
    var i := 0;
    while i < q
      invariant 0 <= i <= q
      invariant FirstMissing(datas, q, 0) == FirstMissing(datas, q, i)
    {
      if i !in datas {
        return Some(i);
      }
      i := i + 1;
    }
    return None;
  }

  /** The checks of `ConsultaCreateView.form_valid` in their order, up to
      the first save: a blank `quantidade`, a blank PIX total, the date
      loop, the therapist lookup, and the check constraint the first save
      runs into when the share is negative. */
  method PlanCreate(db: Db, user: User, req: CreateRequest) returns (plan: CreatePlan)
    requires FormValidated(req)
    ensures plan == CreatePlanOf(db, user, req)
  {
    if req.quantidade.QuantidadeBlank? {
      return Refuse(CreateCrash);
    }
    var q := if req.quantidade.QuantidadeAbsent? then 1 else req.quantidade.n;
    if req.pix.PixBlank? {
      return Refuse(CreateInvalid(PixObrigatorio));
    }
    var share := PerSessionShare(req.pix.cents, q);
    var missing := FirstMissingDate(req.datas, q);
    if missing.Some? {
      return Refuse(CreateInvalid(DataObrigatoria(missing.value + 1)));
    }
    var chosen := TerapeutaDoUsuario(db, user);
    if chosen.Multiple? {
      return Refuse(CreateCrash);
    }
    var terapeuta := if chosen.Found? then chosen.value.pk else req.formTerapeuta;
    if share < 0 {
      return Refuse(CreateCrash);
    }
    return Save(terapeuta, q, share);
  }

  /** `ConsultaCreateView.form_valid`: every check runs before the first
      save, so a refused request writes nothing; an accepted one saves
      exactly `quantidade` rows, the first, then the rest in a loop. */
  method CreateConsultas(table: ConsultaTable, db: Db, user: User, req: CreateRequest)
    returns (outcome: CreateOutcome)
    requires table.Valid() && FormValidated(req)
    modifies table
    ensures table.Valid()
    ensures var plan := CreatePlanOf(db, user, req);
      (plan.Refuse? ==>
         outcome == plan.outcome && table.rows == old(table.rows) && table.nextPk == old(table.nextPk))
      && (plan.Save? ==>
         outcome == CreateRedirect(plan.quantidade, plan.share)
         && table.rows == old(table.rows)
              + PlannedRows(req, plan.terapeuta, plan.quantidade, plan.share, old(table.nextPk)))
  {
    var plan := PlanCreate(db, user, req);
    if plan.Refuse? {
      return plan.outcome;
    }
    var firstPk := table.nextPk;
    var first := table.Insert(PlannedRow(req, plan.terapeuta, plan.share, 0, firstPk));
    ghost var planned := PlannedRows(req, plan.terapeuta, plan.quantidade, plan.share, firstPk);
    assert planned[..1] == [PlannedRow(req, plan.terapeuta, plan.share, 0, firstPk)];
    SaveRemaining(table, req, plan.terapeuta, plan.quantidade, plan.share, firstPk, old(table.rows));
    return CreateRedirect(plan.quantidade, plan.share);
  }

  /** Each saved row belongs to the same therapist and patient, costs and
      paid the share, carries its own date and checkbox, and has the next
      consecutive key. */
  lemma PlannedRowsContents(req: CreateRequest, terapeuta: nat, q: nat, share: Cents, firstPk: nat)
    requires forall i :: 0 <= i < q ==> i in req.datas
    ensures var rows := PlannedRows(req, terapeuta, q, share, firstPk);
      forall i :: 0 <= i < q ==>
        rows[i].terapeuta == terapeuta && rows[i].paciente == req.formPaciente
        && rows[i].vlrConsulta == share && rows[i].vlrPago == Some(share)
        && rows[i].datConsulta == req.datas[i]
        && rows[i].isRealizado == Some(i in req.realizados)
        && rows[i].pk == firstPk + i
  {
    var rows := PlannedRows(req, terapeuta, q, share, firstPk);
    forall i | 0 <= i < q
      ensures rows[i] == PlannedRow(req, terapeuta, share, i, firstPk + i)
    {
    }
  }

  /** A missing or blank PIX total, or a missing date, is refused, and by
      the write contract above nothing is saved. */
  lemma CreateRefusals(db: Db, user: User, req: CreateRequest)
    requires FormValidated(req) && !req.quantidade.QuantidadeBlank?
    ensures req.pix.PixBlank? ==> CreatePlanOf(db, user, req) == Refuse(CreateInvalid(PixObrigatorio))
    ensures var q := if req.quantidade.QuantidadeAbsent? then 1 else req.quantidade.n;
      req.pix.PixAmount? && (exists i :: 0 <= i < q && i !in req.datas) ==>
        CreatePlanOf(db, user, req).Refuse?
        && CreatePlanOf(db, user, req).outcome.CreateInvalid?
        && CreatePlanOf(db, user, req).outcome.error.DataObrigatoria?
  {
    var q := if req.quantidade.QuantidadeAbsent? then 1 else req.quantidade.n;
    if req.pix.PixAmount? && (exists i :: 0 <= i < q && i !in req.datas) {
      var missing := FirstMissing(req.datas, q, 0);
      assert missing.Some?;
    }
  }

  /** The batch adds up: `quantidade` shares differ from the PIX total by
      at most half a cent per consultation. */
  lemma ShareAddsUp(db: Db, user: User, req: CreateRequest)
    requires FormValidated(req)
    requires CreatePlanOf(db, user, req).Save?
    ensures var plan := CreatePlanOf(db, user, req);
      var q: int := plan.quantidade;
      -q < 2 * (plan.share * q - req.pix.cents) <= q
  {
  }

  // ---------------------------------------------------------------------
  // ConsultaDetailView.get_context_data
  // ---------------------------------------------------------------------

  /** `diferenca_valor`: paid minus price, or 0.00 with no payment
      (`vlr_consulta` is never NULL). */
  function DiferencaValor(c: Consulta): (d: Cents)
    ensures c.vlrPago.Some? ==> c.vlrConsulta + d == c.vlrPago.value
    ensures c.vlrPago.None? ==> d == 0
    ensures d > 0 ==> c.vlrPago.Some? && c.vlrPago.value > c.vlrConsulta
  {
    match c.vlrPago
    case Some(pago) => pago - c.vlrConsulta
    case None => 0
  }

  // ---------------------------------------------------------------------
  // ConsultaUpdateView.form_valid
  // ---------------------------------------------------------------------

  /** The model fields the edit form submits (its `clean` already refused a
      non-positive price). */
  datatype UpdateForm = UpdateForm(
    pk: nat, terapeuta: nat, paciente: nat, vlrConsulta: Cents, vlrPago: Option<Cents>)

  /** "Paid" with no or a zero amount takes the price; "not paid" sets 0;
      "paid" with an amount keeps it. */
  function VlrPagoAposEdicao(isPago: bool, vlrPago: Option<Cents>, vlrConsulta: Cents): (r: Option<Cents>)
    ensures r.Some?
    ensures !isPago ==> r == Some(0)
    ensures isPago && vlrConsulta > 0 ==> r != Some(0)
    ensures isPago && (vlrPago.None? || vlrPago == Some(0)) ==> r == Some(vlrConsulta)
    ensures isPago && vlrPago.Some? && vlrPago.value != 0 ==> r == vlrPago
  {
    if isPago && (vlrPago.None? || vlrPago == Some(0)) then Some(vlrConsulta)
    else if !isPago then Some(0)
    else vlrPago
  }

  /** The row `form_valid` saves: the form's values, the posted date, the
      held checkbox and the payment rule. */
  function EditedConsulta(form: UpdateForm, dat: Date, isRealizado: bool, isPago: bool): Consulta {
    Consulta(form.pk, form.terapeuta, form.paciente, form.vlrConsulta, Some(isRealizado),
      VlrPagoAposEdicao(isPago, form.vlrPago, form.vlrConsulta), dat)
  }

  datatype UpdateOutcome = UpdateRedirect | UpdateFormInvalid | UpdateCrash

  /** The model-level check Django 4.1 and later runs while validating a
      `ModelForm`: the `vlr_pago >= 0` constraint on the submitted values
      (a NULL payment passes, as it does in SQL). */
  predicate FormPassesConstraints(form: UpdateForm) {
    form.vlrPago.None? || form.vlrPago.value >= 0
  }

  /** `ConsultaUpdateView.form_valid`.  `validatesConstraints` is the
      Django release: from 4.1 on, form validation checks `Meta.constraints`
      and a negative submitted payment re-renders the form before
      `form_valid` runs.  Otherwise a missing `dat_consulta` (NOT NULL) or a
      negative kept payment (the check constraint) makes the save raise.
      Whenever the edit is not saved, the row stays as it was. */
  method UpdateConsulta(table: ConsultaTable, form: UpdateForm, validatesConstraints: bool,
                        dat: Option<Date>, isRealizado: bool, isPago: bool)
    returns (outcome: UpdateOutcome)
    requires table.Valid() && form.vlrConsulta > 0
    modifies table
    ensures table.Valid()
    ensures validatesConstraints && !FormPassesConstraints(form) ==>
      outcome == UpdateFormInvalid && table.rows == old(table.rows)
    ensures !(validatesConstraints && !FormPassesConstraints(form)) ==>
      (dat.Some? && VlrPagoOk(EditedConsulta(form, dat.value, isRealizado, isPago)) ==>
        outcome == UpdateRedirect
        && table.rows == ReplaceByPk(old(table.rows), EditedConsulta(form, dat.value, isRealizado, isPago)))
      && (!(dat.Some? && VlrPagoOk(EditedConsulta(form, dat.value, isRealizado, isPago))) ==>
        outcome == UpdateCrash && table.rows == old(table.rows))
  {
    if validatesConstraints && !FormPassesConstraints(form) {
      return UpdateFormInvalid;
    }
    if dat.None? {
      return UpdateCrash;
    }
    var edited := EditedConsulta(form, dat.value, isRealizado, isPago);
    var ok := table.Update(edited);
    outcome := if ok then UpdateRedirect else UpdateCrash;
  }

  /** A form that passed the constraint check always saves a row that
      satisfies it, so with Django 4.1 or later only a missing date can make
      the edit raise; a negative kept payment is the one way the check
      constraint can fail without it. */
  lemma ValidatedEditSatisfiesConstraint(form: UpdateForm, dat: Date, isRealizado: bool, isPago: bool)
    requires form.vlrConsulta > 0
    ensures FormPassesConstraints(form) ==> VlrPagoOk(EditedConsulta(form, dat, isRealizado, isPago))
    ensures !VlrPagoOk(EditedConsulta(form, dat, isRealizado, isPago)) <==>
      !FormPassesConstraints(form) && isPago
  {
  }

  /** What the consultation list shows after an edit: "not paid" is
      labelled "Não Paga", "paid" is labelled "Paga" or "Pendente" (never
      "Parcial"), and "Paga" when no amount was typed; the attendance label
      follows the checkbox. */
  lemma StatusAposEdicao(form: UpdateForm, dat: Date, isRealizado: bool, isPago: bool)
    requires form.vlrConsulta > 0
    ensures var c := EditedConsulta(form, dat, isRealizado, isPago);
      (!isPago ==> Admin.StatusPagamento(c) == Admin.NaoPaga)
      && (isPago && (form.vlrPago.None? || form.vlrPago == Some(0)) ==> Admin.StatusPagamento(c) == Admin.Paga)
      && (isPago ==> Admin.StatusPagamento(c) in {Admin.Paga, Admin.PagamentoPendente})
      && Admin.StatusRealizacao(c) == (if isRealizado then Admin.Realizada else Admin.RealizacaoPendente)
  {
  }

  /** Every consultation of a batch is labelled "Paga" when the share is
      positive and "Não Paga" when the PIX total rounds to a zero share. */
  lemma CreatedRowsStatus(req: CreateRequest, terapeuta: nat, share: Cents, i: nat, pk: nat)
    requires i in req.datas && share >= 0
    ensures share > 0 ==> Admin.StatusPagamento(PlannedRow(req, terapeuta, share, i, pk)) == Admin.Paga
    ensures share == 0 ==> Admin.StatusPagamento(PlannedRow(req, terapeuta, share, i, pk)) == Admin.NaoPaga
  {
  }
}
