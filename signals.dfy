/** principais/signals.py: when a discharge/dropout record is created, its
    patient is deactivated.  The handler catches every exception and only
    logs it, so it always returns. */
module Signals {
  import opened Wrappers
  import opened Models
  import opened Tables

  /** What the handler logs: the success line's three values, or the error
      line with the record's primary key. */
  datatype LogEntry =
    | Info(paciente: string, pacientePk: nat, terapeuta: string)
    | Error(altaDesistencia: nat)

  /** The values an attribute read on a `Terapeuta` instance can give;
      `Untracked` is a field whose value this model does not carry (the
      abordagem, nucleo, clinica and modalidade keys and the timestamps). */
  datatype TerapeutaAttr = PkValue(n: nat) | Related(pk: nat) | Flag(b: bool) | Untracked

  /** Python attribute access on a `Terapeuta` model instance. */
  datatype AttrLookup =
    | Found(value: TerapeutaAttr)
    | AttributeError
    | OutsideModel  // reverse accessors and model methods: not modelled

  /** The model fields of `Terapeuta` (principais/models.py:194-239). */
  const TerapeutaFields: set<string> := {
    "pk_terapeuta", "fk_associado", "fk_decano", "fk_abordagem", "fk_nucleo",
    "fk_clinica", "fk_modalidade", "is_active", "created_at", "updated_at"}

  /** The names a field makes readable: the field, for a foreign key also
      its `_id` column, and `pk` for the primary key. */
  const TerapeutaAttributeNames: set<string> := TerapeutaFields + {
    "pk", "fk_associado_id", "fk_decano_id", "fk_abordagem_id", "fk_nucleo_id",
    "fk_clinica_id", "fk_modalidade_id"}

  /** Attribute access on a `Terapeuta`: every field is readable; `nome` is
      not, because the name lives on the related associate, and no field,
      property or reverse accessor of that name exists. */
  function TerapeutaAttribute(t: Terapeuta, name: string): (r: AttrLookup)
    ensures r.Found? <==> name in TerapeutaAttributeNames
    ensures name == "nome" ==> r == AttributeError
    ensures name in {"pk", "pk_terapeuta"} ==> r == Found(PkValue(t.pk))
    ensures name in {"fk_associado", "fk_associado_id"} ==> r == Found(Related(t.associado))
    ensures name in {"fk_decano", "fk_decano_id"} ==> r == Found(Related(t.decano))
    ensures name == "is_active" ==> r == Found(Flag(t.isActive))
  {
    if name == "pk_terapeuta" || name == "pk" then Found(PkValue(t.pk))
    else if name == "fk_associado" || name == "fk_associado_id" then Found(Related(t.associado))
    else if name == "fk_decano" || name == "fk_decano_id" then Found(Related(t.decano))
    else if name == "is_active" then Found(Flag(t.isActive))
    else if name in TerapeutaAttributeNames then Found(Untracked)
    else if name == "nome" then AttributeError
    else OutsideModel
  }

  /** The success log line as written: it reads `instance.fk_terapeuta.nome`
      (`None` means the f-string raised). */
  function SuccessLogAsWritten(db: Db, p: Paciente, instance: Altadesistencia): (r: Option<LogEntry>)
    ensures r.None?
  {
    match FindTerapeuta(db.terapeutas, instance.terapeuta)
    case None => None
    case Some(t) =>
      match TerapeutaAttribute(t, "nome")
      case AttributeError => None  // the f-string raises
      case _ => assert false; None
  }

  /** The success log line reading the therapist's name where it is stored,
      `instance.fk_terapeuta.fk_associado.nome`. */
  function SuccessLog(db: Db, p: Paciente, instance: Altadesistencia): (r: Option<LogEntry>)
    ensures r.Some? ==> r.value.Info? && r.value.paciente == p.nome && r.value.pacientePk == p.pk
  {
    match FindTerapeuta(db.terapeutas, instance.terapeuta)
    case None => None
    case Some(t) =>
      match FindAssociado(db.associados, t.associado)
      case None => None
      case Some(a) => Some(Info(p.nome, p.pk, a.nome))
  }

  /** The `try` block's log: the built line, or the `except` line when
      building it raised. */
  function LogAfterSave(built: Option<LogEntry>, instance: Altadesistencia): LogEntry {
    built.GetOr(Error(instance.pk))
  }

  /** `desativar_paciente_alta_desistencia` (with the corrected log line).
      `now` is the clock reading `auto_now` stores in `updated_at`. */
  method DesativarPacienteAltaDesistencia(
    pacientes: PacienteTable, db: Db, instance: Altadesistencia, created: bool, now: int)
    returns (log: Option<LogEntry>)
    requires pacientes.Valid()
    modifies pacientes
    ensures pacientes.Valid()
    ensures !created ==> log.None? && pacientes.rows == old(pacientes.rows)
    ensures created && FindPaciente(old(pacientes.rows), instance.paciente).None? ==>
      log == Some(Error(instance.pk)) && pacientes.rows == old(pacientes.rows)
    ensures created && FindPaciente(old(pacientes.rows), instance.paciente).Some? ==>
      pacientes.rows == WithIsActive(old(pacientes.rows), {instance.paciente}, false, Some(now))
      && log == Some(LogAfterSave(
           SuccessLog(db, FindPaciente(old(pacientes.rows), instance.paciente).value, instance), instance))
  {
    log := None;
    if created {
      var paciente := FindPaciente(pacientes.rows, instance.paciente);
      if paciente.None? {
        log := Some(Error(instance.pk));
      } else {
        pacientes.SaveIsActive(instance.paciente, false, now);
        log := Some(LogAfterSave(SuccessLog(db, paciente.value, instance), instance));
      }
    }
  }

  /** After the handler runs on a new record whose patient exists, that
      patient is inactive, and every other patient row is untouched. */
  lemma DeactivationEffect(rows: seq<Paciente>, pk: nat, now: int)
    requires FindPaciente(rows, pk).Some?
    ensures var r := WithIsActive(rows, {pk}, false, Some(now));
      (forall i :: 0 <= i < |r| && r[i].pk == pk ==> !r[i].isActive && r[i].updatedAt == now)
      && (forall i :: 0 <= i < |r| && r[i].pk != pk ==> r[i] == rows[i])
      && exists i :: 0 <= i < |r| && r[i].pk == pk
  {
    var p := FindPaciente(rows, pk).value;
    var i :| 0 <= i < |rows| && rows[i] == p;
    assert WithIsActive(rows, {pk}, false, Some(now))[i].pk == pk;
  }

  /** Deactivating an inactive patient again changes only `updated_at`. */
  lemma DeactivationIdempotent(rows: seq<Paciente>, pk: nat, t1: int, t2: int)
    ensures WithIsActive(WithIsActive(rows, {pk}, false, Some(t1)), {pk}, false, Some(t2))
         == WithIsActive(rows, {pk}, false, Some(t2))
  {
    WithIsActiveIdempotent(rows, {pk}, false, Some(t1), Some(t2));
  }

  /** As written, the success line can never be built: `Terapeuta` has no
      `nome`.  So every successful deactivation is followed by the error
      line, although the patient was saved as inactive. */
  lemma AsWrittenLogsErrorAfterDeactivating(db: Db, p: Paciente, instance: Altadesistencia)
    ensures LogAfterSave(SuccessLogAsWritten(db, p, instance), instance) == Error(instance.pk)
  {
  }

  /** With the name read from the associate, a record whose therapist and
      associate exist gets the success line. */
  lemma CorrectedLogsSuccess(db: Db, p: Paciente, instance: Altadesistencia)
    requires FindTerapeuta(db.terapeutas, instance.terapeuta).Some?
    requires FindAssociado(db.associados, FindTerapeuta(db.terapeutas, instance.terapeuta).value.associado).Some?
    ensures LogAfterSave(SuccessLog(db, p, instance), instance).Info?
  {
  }
}
