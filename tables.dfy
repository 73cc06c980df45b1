/** The two tables the write paths change in place: patients (the
    dropout signal and the admin bulk actions) and consultations (the
    create and update views).  A table object holds its rows; a write is a
    method that reassigns them the way the SQL statement Django issues
    would. */
module Tables {
  import opened Wrappers
  import opened Query
  import opened Models

  predicate UniquePacientePks(rows: seq<Paciente>) {
    forall i, j :: 0 <= i < j < |rows| ==> rows[i].pk != rows[j].pk
  }

  /** `UPDATE pacientes SET is_active = b [, updated_at = now] WHERE pk IN
      selected`.  `stamp` is `Some(now)` when the write goes through
      `Model.save()` (whose `auto_now` stamps `updated_at`) and `None` for
      `QuerySet.update()`, which leaves `updated_at` alone. */
  function WithIsActive(rows: seq<Paciente>, selected: set<nat>, isActive: bool, stamp: Option<int>)
    : seq<Paciente>
  {
    Map(rows, (p: Paciente) =>
      if p.pk in selected then p.(isActive := isActive, updatedAt := stamp.GetOr(p.updatedAt)) else p)
  }

  /** The rows a `pk__in` selection matches (what `update()` reports). */
  function Selected(rows: seq<Paciente>, selected: set<nat>): (r: seq<Paciente>)
    ensures forall p :: p in r <==> p in rows && p.pk in selected
  {
    Filter(rows, (p: Paciente) => p.pk in selected)
  }

  class PacienteTable {
    var rows: seq<Paciente>

    ghost predicate Valid()
      reads this
    {
      UniquePacientePks(rows)
    }

    constructor(initial: seq<Paciente>)
      requires UniquePacientePks(initial)
      ensures Valid() && rows == initial
    {
      rows := initial;
    }

    /** `paciente.save(update_fields=['is_active', 'updated_at'])`. */
    method SaveIsActive(pk: nat, isActive: bool, now: int)
      requires Valid()
      modifies this
      ensures Valid()
      ensures rows == WithIsActive(old(rows), {pk}, isActive, Some(now))
    {
      rows := WithIsActive(rows, {pk}, isActive, Some(now));
    }

    /** `queryset.update(is_active=b)`: returns the number of matched rows. */
    method UpdateIsActive(selected: set<nat>, isActive: bool) returns (updated: nat)
      requires Valid()
      modifies this
      ensures Valid()
      ensures rows == WithIsActive(old(rows), selected, isActive, None)
      ensures updated == |Selected(old(rows), selected)|
    {
      updated := |Selected(rows, selected)|;
      rows := WithIsActive(rows, selected, isActive, None);
    }
  }

  /** Exactly the selected rows get the new flag; every other field of every
      row, and every unselected row, stays as it was, and `updated_at`
      moves only when a stamp is given. */
  lemma WithIsActiveEffect(rows: seq<Paciente>, selected: set<nat>, isActive: bool, stamp: Option<int>)
    ensures var r := WithIsActive(rows, selected, isActive, stamp);
      |r| == |rows|
      && (forall i :: 0 <= i < |rows| ==>
            r[i].isActive == (if rows[i].pk in selected then isActive else rows[i].isActive)
            && r[i].pk == rows[i].pk && r[i].nome == rows[i].nome
            && r[i].vlrSessao == rows[i].vlrSessao && r[i].createdAt == rows[i].createdAt
            && (rows[i].pk !in selected ==> r[i] == rows[i])
            && (stamp.None? ==> r[i].updatedAt == rows[i].updatedAt))
  {
  }

  /** Writing the same flag twice is writing it once (only the last stamp
      shows). */
  lemma WithIsActiveIdempotent(rows: seq<Paciente>, selected: set<nat>, isActive: bool, s1: Option<int>, s2: Option<int>)
    ensures WithIsActive(WithIsActive(rows, selected, isActive, s1), selected, isActive, s2)
         == WithIsActive(rows, selected, isActive, if s2.Some? then s2 else s1)
  {
  }

  /** A bulk update keeps primary keys, so it keeps them unique. */
  lemma WithIsActiveKeepsKeys(rows: seq<Paciente>, selected: set<nat>, isActive: bool, stamp: Option<int>)
    requires UniquePacientePks(rows)
    ensures UniquePacientePks(WithIsActive(rows, selected, isActive, stamp))
  {
  }

  // ---------------------------------------------------------------------
  // Consultations
  // ---------------------------------------------------------------------

  /** The stored rows obey the `vlr_pago >= 0` check constraint and have
      distinct primary keys below the next one to hand out. */
  predicate ConsultaRowsOk(rows: seq<Consulta>, nextPk: nat) {
    (forall i :: 0 <= i < |rows| ==> VlrPagoOk(rows[i]) && rows[i].pk < nextPk)
    && (forall i, j :: 0 <= i < j < |rows| ==> rows[i].pk != rows[j].pk)
  }

  /** `UPDATE consultas SET ... WHERE pk = c.pk` */
  function ReplaceByPk(rows: seq<Consulta>, c: Consulta): seq<Consulta> {
    Map(rows, (r: Consulta) => if r.pk == c.pk then c else r)
  }

  class ConsultaTable {
    var rows: seq<Consulta>
    var nextPk: nat

    ghost predicate Valid()
      reads this
    {
      ConsultaRowsOk(rows, nextPk)
    }

    constructor(initial: seq<Consulta>, next: nat)
      requires ConsultaRowsOk(initial, next)
      ensures Valid() && rows == initial && nextPk == next
    {
      rows := initial;
      nextPk := next;
    }

    /** `consulta.save()` of a new row: an INSERT with the next primary key,
        refused with `IntegrityError` (`None`) when the check constraint
        fails. */
    method Insert(c: Consulta) returns (pk: Option<nat>)
      requires Valid()
      modifies this
      ensures Valid()
      ensures VlrPagoOk(c) ==>
        pk == Some(old(nextPk)) && rows == old(rows) + [c.(pk := old(nextPk))]
        && nextPk == old(nextPk) + 1
      ensures !VlrPagoOk(c) ==> pk.None? && rows == old(rows) && nextPk == old(nextPk)
    {
      if VlrPagoOk(c) {
        pk := Some(nextPk);
        rows := rows + [c.(pk := nextPk)];
        nextPk := nextPk + 1;
      } else {
        pk := None;
      }
    }

    /** `consulta.save()` of an existing row: an UPDATE by primary key,
        refused (`false`) when the check constraint fails. */
    method Update(c: Consulta) returns (ok: bool)
      requires Valid()
      modifies this
      ensures Valid()
      ensures ok == VlrPagoOk(c)
      ensures ok ==> rows == ReplaceByPk(old(rows), c)
      ensures !ok ==> rows == old(rows)
      ensures nextPk == old(nextPk)
    {
      ok := VlrPagoOk(c);
      if ok {
        var before := rows;
        rows := ReplaceByPk(rows, c);
        assert forall i :: 0 <= i < |rows| ==> rows[i].pk == before[i].pk;
      }
    }
  }
}
