/** principais/admin.py: the list filters, the payment and attendance
    labels of the consultation list, the bulk patient actions and the
    audit fields that are read-only when editing.  A filter's `queryset`
    is a function from the rows it is given to the rows it keeps; the HTML
    around a label is not modelled, only which label is chosen. */
module Admin {
  import opened Wrappers
  import opened Query
  import opened Calendar
  import opened Models
  import opened Tables

  // ---------------------------------------------------------------------
  // BaseAdmin.get_readonly_fields
  // ---------------------------------------------------------------------

  /** The admin classes that inherit `BaseAdmin.get_readonly_fields`. */
  datatype BaseAdminClass =
    PacienteAdmin | TerapeutaAdmin | ConsultaAdmin | AvaliacaoAdmin | AltadesistenciaAdmin

  /** Each class's `readonly_fields`: `BaseAdmin`'s audit fields, to which
      the patient and therapist admins add their primary key. */
  function DeclaredReadonlyFields(c: BaseAdminClass): seq<string> {
    match c
    case PacienteAdmin => ["created_at", "updated_at", "pk_paciente"]
    case TerapeutaAdmin => ["created_at", "updated_at", "pk_terapeuta"]
    case _ => ["created_at", "updated_at"]
  }

  /** `get_readonly_fields`: the class's `readonly_fields` on the change
      page of an existing object (`obj` given), none on the add page.  So
      the audit fields are read-only exactly when an existing object is
      edited, and the patient and therapist admins then also lock their
      primary key, which the other classes leave editable. */
  function ReadonlyFields<T>(c: BaseAdminClass, obj: Option<T>): (r: seq<string>)
    ensures r != [] <==> obj.Some?
    ensures "created_at" in r <==> obj.Some?
    ensures "updated_at" in r <==> obj.Some?
    ensures "pk_paciente" in r <==> obj.Some? && c == PacienteAdmin
    ensures "pk_terapeuta" in r <==> obj.Some? && c == TerapeutaAdmin
  {
    if obj.Some? then DeclaredReadonlyFields(c) else []
  }

  // ---------------------------------------------------------------------
  // StatusFilter (TerapeutaAdmin)
  // ---------------------------------------------------------------------

  /** `?status=active` keeps the active rows, `?status=inactive` the
      inactive ones; 'all', no value or anything else keeps every row. */
  function StatusFilter(value: Option<string>, ts: seq<Terapeuta>): (r: seq<Terapeuta>)
    ensures value == Some("active") ==> forall t :: t in r <==> t in ts && t.isActive
    ensures value == Some("inactive") ==> forall t :: t in r <==> t in ts && !t.isActive
    ensures value != Some("active") && value != Some("inactive") ==> r == ts
    ensures |r| <= |ts|
  {
    if value == Some("active") then Filter(ts, (t: Terapeuta) => t.isActive)
    else if value == Some("inactive") then Filter(ts, (t: Terapeuta) => !t.isActive)
    else ts
  }

  /** 'active' and 'inactive' split the rows: together they hold exactly
      as many rows as the unfiltered list. */
  lemma {:induction false} StatusFilterPartition(ts: seq<Terapeuta>)
    ensures |StatusFilter(Some("active"), ts)| + |StatusFilter(Some("inactive"), ts)| == |ts|
    decreases |ts|
  {
    if |ts| > 0 {
      StatusFilterPartition(ts[1..]);
    }
  }

  // ---------------------------------------------------------------------
  // DecanoFilter (declared; no admin lists it in `list_filter`)
  // ---------------------------------------------------------------------

  /** `filter(setores__setor__icontains='decano')`: the join keeps one row
      per matching sector, active or not, with no `distinct()`. */
  function DecanoSimRows(associados: seq<Associado>): (rows: seq<Associado>)
    ensures forall r :: r in rows <==> r in associados && IsDecano(r)
    decreases |associados|
  {
    if |associados| == 0 then []
    else
      var a := associados[0];
      var head := DecanoRows(a, a.setores);
      assert |head| > 0 ==> head[0] in head;
      assert forall r :: r in head <==> r == a && IsDecano(a);
      assert forall r :: r in associados <==> r == associados[0] || r in associados[1..];
      head + DecanoSimRows(associados[1..])
  }

  /** `?is_decano=sim` keeps, `?is_decano=nao` drops, the associates with a
      "decano" sector; any other value keeps every row. */
  function DecanoFilter(value: Option<string>, associados: seq<Associado>): (r: seq<Associado>)
    ensures value == Some("sim") ==> forall a :: a in r <==> a in associados && IsDecano(a)
    ensures value == Some("nao") ==> forall a :: a in r <==> a in associados && !IsDecano(a)
    ensures value != Some("sim") && value != Some("nao") ==> r == associados
  {
    if value == Some("sim") then DecanoSimRows(associados)
    else if value == Some("nao") then Filter(associados, (a: Associado) => !IsDecano(a))
    else associados
  }

  /** 'sim' lists an associate once per "decano" sector, active or not:
      an associate with two such sectors is listed twice. */
  lemma DecanoSimRepeats(a: Associado)
    ensures |DecanoFilter(Some("sim"), [a])| == |Filter(a.setores, SetorDecano)|
    ensures forall r :: r in DecanoFilter(Some("sim"), [a]) ==> r == a
  {
    assert [a][1..] == [];
    assert DecanoSimRows([a]) == DecanoRows(a, a.setores);
  }

  // ---------------------------------------------------------------------
  // PeriodoFilter (ConsultaAdmin)
  // ---------------------------------------------------------------------

  /** The admin list keeps its rows when a filter's `queryset` returns
      `None`. */
  function ApplyListFilter(filtered: Option<seq<Consulta>>, cs: seq<Consulta>): seq<Consulta> {
    filtered.GetOr(cs)
  }

  /** `queryset` of the period filter; `None` is Python's `None` returned
      when no period is chosen. */
  function PeriodoFilter(value: Option<string>, hoje: Date, cs: seq<Consulta>): (r: Option<seq<Consulta>>)
    ensures value == Some("hoje") ==>
      r.Some? && forall c :: c in r.value <==> c in cs && c.datConsulta == hoje
    ensures value == Some("semana") ==>
      r.Some? && forall c :: c in r.value <==> c in cs && MondayOf(hoje) <= c.datConsulta <= MondayOf(hoje) + 6
    ensures value == Some("mes") ==>
      r.Some? && forall c :: c in r.value <==> c in cs && SameMonth(c.datConsulta, hoje)
    ensures value != Some("hoje") && value != Some("semana") && value != Some("mes") ==>
      r.None? && ApplyListFilter(r, cs) == cs
  {
    if value == Some("hoje") then Some(Filter(cs, (c: Consulta) => c.datConsulta == hoje))
    else if value == Some("semana") then
      var inicio := MondayOf(hoje);
      Some(Filter(cs, (c: Consulta) => inicio <= c.datConsulta <= inicio + 6))
    else if value == Some("mes") then Some(Filter(cs, (c: Consulta) => SameMonth(c.datConsulta, hoje)))
    else None
  }

  /** The week is Monday to Sunday around today: it holds today, and a
      consultation dated today is kept by every period. */
  lemma PeriodosContainToday(hoje: Date, cs: seq<Consulta>)
    ensures Weekday(MondayOf(hoje)) == 0 && MondayOf(hoje) <= hoje <= MondayOf(hoje) + 6
    ensures forall c :: c in PeriodoFilter(Some("hoje"), hoje, cs).value ==>
      c in PeriodoFilter(Some("semana"), hoje, cs).value && c in PeriodoFilter(Some("mes"), hoje, cs).value
  {
  }

  // ---------------------------------------------------------------------
  // ConsultaAdmin.status_pagamento / status_realizacao
  // ---------------------------------------------------------------------

  datatype PagamentoLabel = Paga | PagamentoPendente | Parcial | NaoPaga

  function PagamentoText(l: PagamentoLabel): string {
    match l
    case Paga => "Paga"
    case PagamentoPendente => "Pendente"
    case Parcial => "Parcial"
    case NaoPaga => "Não Paga"
  }

  /** A `Decimal` is truthy when it is nonzero; `None` is falsy. */
  predicate Truthy(v: Option<Cents>) {
    v.Some? && v.value != 0
  }

  /** `status_pagamento`: each label, both ways. */
  function StatusPagamento(c: Consulta): (l: PagamentoLabel)
    ensures l == Paga <==> Truthy(c.vlrPago) && c.vlrConsulta != 0 && c.vlrPago.value >= c.vlrConsulta
    ensures l == PagamentoPendente <==> Truthy(c.vlrPago) && c.vlrConsulta != 0 && c.vlrPago.value < c.vlrConsulta
    ensures l == Parcial <==> Truthy(c.vlrPago) && c.vlrConsulta == 0
    ensures l == NaoPaga <==> c.vlrPago.None? || c.vlrPago.value == 0
  {
    if Truthy(c.vlrPago) && c.vlrConsulta != 0 then
      if c.vlrPago.value >= c.vlrConsulta then Paga else PagamentoPendente
    else if Truthy(c.vlrPago) then Parcial
    else NaoPaga
  }

  datatype RealizacaoLabel = Indefinido | Realizada | RealizacaoPendente

  function RealizacaoText(l: RealizacaoLabel): string {
    match l
    case Indefinido => "Indefinido"
    case Realizada => "Realizada"
    case RealizacaoPendente => "Pendente"
  }

  /** `status_badge(obj.is_realizado, "Realizada", "Pendente")` after the
      `None` check. */
  function StatusRealizacao(c: Consulta): (l: RealizacaoLabel)
    ensures l == Indefinido <==> c.isRealizado.None?
    ensures l == Realizada <==> c.isRealizado == Some(true)
    ensures l == RealizacaoPendente <==> c.isRealizado == Some(false)
    ensures RealizacaoText(l) == "Pendente" <==> c.isRealizado == Some(false)
  {
    match c.isRealizado
    case None => Indefinido
    case Some(b) => if b then Realizada else RealizacaoPendente
  }

  // ---------------------------------------------------------------------
  // PacienteAdmin actions
  // ---------------------------------------------------------------------

  /** `ativar_pacientes`: `queryset.update(is_active=True)` on the selected
      rows; returns the count shown in the message. */
  method AtivarPacientes(table: PacienteTable, selected: set<nat>) returns (updated: nat)
    requires table.Valid()
    modifies table
    ensures table.Valid()
    ensures table.rows == WithIsActive(old(table.rows), selected, true, None)
    ensures updated == |Selected(old(table.rows), selected)|
  {
    updated := table.UpdateIsActive(selected, true);
  }

  /** `desativar_pacientes`: the same with `is_active=False`. */
  method DesativarPacientes(table: PacienteTable, selected: set<nat>) returns (updated: nat)
    requires table.Valid()
    modifies table
    ensures table.Valid()
    ensures table.rows == WithIsActive(old(table.rows), selected, false, None)
    ensures updated == |Selected(old(table.rows), selected)|
  {
    updated := table.UpdateIsActive(selected, false);
  }

  /** After an action exactly the selected rows carry the new flag, and
      the count is the number of rows the selection matched, at most the
      table's size. */
  lemma ActionEffect(rows: seq<Paciente>, selected: set<nat>, isActive: bool)
    ensures var r := WithIsActive(rows, selected, isActive, None);
      (forall p :: p in r && p.pk in selected ==> p.isActive == isActive)
      && (forall i :: 0 <= i < |rows| && rows[i].pk !in selected ==> r[i] == rows[i])
      && |Selected(rows, selected)| <= |rows|
  {
    WithIsActiveEffect(rows, selected, isActive, None);
  }
}
