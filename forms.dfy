/** principais/forms.py: the consultation form's `clean`, its optional
    `quantidade` field, the therapist field set up from `user_terapeuta`,
    and the module-level `clean` no form uses. */
module Forms {
  import opened Wrappers
  import opened Models

  const MsgValorPositivo := "O valor da consulta deve ser positivo."
  const MsgPagoNegativo := "O valor pago não pode ser negativo."
  const MsgNaoRealizadaPaga := "Uma consulta não realizada não pode estar paga."

  /** A message `add_error` attaches to a field. */
  datatype FormError = FormError(field: string, message: string)

  /** The entries of `cleaned_data` the clean methods read; `None` is what
      `cleaned_data.get` returns for a missing or empty entry. */
  datatype CleanedData = CleanedData(
    vlrConsulta: Option<Cents>, vlrPago: Option<Cents>,
    isRealizado: Option<bool>, isPago: Option<bool>)

  /** The errors `ConsultaForm.clean` adds: the price error, exactly for a
      present price that is not positive. */
  function ConsultaCleanErrors(data: CleanedData): (errs: seq<FormError>)
    ensures errs != [] <==> data.vlrConsulta.Some? && data.vlrConsulta.value <= 0
    ensures forall e :: e in errs ==> e == FormError("vlr_consulta", MsgValorPositivo)
  {
    if data.vlrConsulta.Some? && data.vlrConsulta.value <= 0 then
      [FormError("vlr_consulta", MsgValorPositivo)]
    else []
  }

  /** `add_error(field, ...)` also deletes the field from `cleaned_data`. */
  function WithoutErrorFields(data: CleanedData, errs: seq<FormError>): CleanedData {
    var has := (f: string) => exists e :: e in errs && e.field == f;
    CleanedData(
      if has("vlr_consulta") then None else data.vlrConsulta,
      if has("vlr_pago") then None else data.vlrPago,
      if has("is_realizado") then None else data.isRealizado,
      if has("is_pago") then None else data.isPago)
  }

  /** The module-level `clean` of lines 172-190: three checks, bound to no
      class, so no form ever runs it. */
  function UnboundCleanErrors(data: CleanedData): (errs: seq<FormError>)
    ensures errs == [] <==>
      (data.vlrConsulta.None? || data.vlrConsulta.value > 0)
      && (data.vlrPago.None? || data.vlrPago.value >= 0)
      && !(data.isRealizado == Some(false) && data.isPago == Some(true))
    ensures |errs| <= 3
  {
    (if data.vlrConsulta.Some? && data.vlrConsulta.value <= 0 then
       [FormError("vlr_consulta", MsgValorPositivo)] else [])
    + (if data.vlrPago.Some? && data.vlrPago.value < 0 then
         [FormError("vlr_pago", MsgPagoNegativo)] else [])
    + (if data.isRealizado == Some(false) && data.isPago == Some(true) then
         [FormError("is_pago", MsgNaoRealizadaPaga)] else [])
  }

  /** Outcome of cleaning `quantidade = IntegerField(min_value=1,
      required=False)` from an integer or an empty input. */
  datatype QuantidadeClean = QuantidadeOk(value: Option<int>) | MinValueError

  /** `quantidade` is optional, and a given value passes, unchanged,
      exactly when it is at least 1. */
  function CleanQuantidade(raw: Option<int>): (r: QuantidadeClean)
    ensures r == QuantidadeOk(None) <==> raw.None?
    ensures raw.Some? ==> (r.QuantidadeOk? <==> raw.value >= 1)
    ensures r.QuantidadeOk? && raw.Some? ==> r.value == raw
  {
    match raw
    case None => QuantidadeOk(None)
    case Some(n) => if n < 1 then MinValueError else QuantidadeOk(Some(n))
  }

  datatype FormKind = ConsultaFormKind | AltaDesistenciaFormKind | MatchFormKind

  /** A bound model form: its error list and the state of its
      `fk_terapeuta` field. */
  class ModelForm {
    const kind: FormKind
    var errors: seq<FormError>
    var terapeutaInitial: Option<nat>
    var terapeutaRequired: bool
    var terapeutaDisabled: bool

    /** The form as `super().__init__` leaves it: no errors and a required,
        enabled therapist field (the foreign key is not nullable). */
    constructor (k: FormKind)
      ensures kind == k && errors == []
      ensures terapeutaInitial.None? && terapeutaRequired && !terapeutaDisabled
    {
      kind := k;
      errors := [];
      terapeutaInitial := None;
      terapeutaRequired := true;
      terapeutaDisabled := false;
    }

    /** The `if user_terapeuta:` block of the three `__init__` methods.
        `AltaDesistenciaForm` and `MatchForm` preset and disable the field
        and make it optional.  `ConsultaForm` first logs
        `user_terapeuta.nome`, which a therapist does not have: the
        `AttributeError` (`raised`) escapes before the field is touched. */
    method ApplyUserTerapeuta(userTerapeuta: Option<Terapeuta>) returns (raised: bool)
      modifies this
      ensures raised <==> userTerapeuta.Some? && kind == ConsultaFormKind
      ensures userTerapeuta.None? || raised ==>
        terapeutaInitial == old(terapeutaInitial) && terapeutaRequired == old(terapeutaRequired)
        && terapeutaDisabled == old(terapeutaDisabled)
      ensures userTerapeuta.Some? && !raised ==>
        terapeutaInitial == Some(userTerapeuta.value.pk) && !terapeutaRequired && terapeutaDisabled
      ensures errors == old(errors)
    {
      raised := false;
      if userTerapeuta.Some? {
        if kind == ConsultaFormKind {
          raised := true;
        } else {
          terapeutaInitial := Some(userTerapeuta.value.pk);
          terapeutaDisabled := true;
          terapeutaRequired := false;
        }
      }
    }

    /** `ConsultaForm.clean`: adds the price error and returns the cleaned
        data, from which `add_error` removed the offending field. */
    method CleanConsulta(data: CleanedData) returns (cleaned: CleanedData)
      requires kind == ConsultaFormKind
      modifies this
      ensures errors == old(errors) + ConsultaCleanErrors(data)
      ensures cleaned == WithoutErrorFields(data, ConsultaCleanErrors(data))
    {
      cleaned := data;
      if data.vlrConsulta.Some? && data.vlrConsulta.value <= 0 {
        errors := errors + [FormError("vlr_consulta", MsgValorPositivo)];
        cleaned := cleaned.(vlrConsulta := None);
      }
    }
  }

  // ---------------------------------------------------------------------
  // Lemmas
  // ---------------------------------------------------------------------

  /** Every value but a refused price passes through `clean` as it came. */
  lemma ConsultaCleanExactly(data: CleanedData)
    ensures var cleaned := WithoutErrorFields(data, ConsultaCleanErrors(data));
      cleaned.vlrPago == data.vlrPago && cleaned.isRealizado == data.isRealizado
      && cleaned.isPago == data.isPago
      && (ConsultaCleanErrors(data) == [] ==> cleaned == data)
  {
    var errs := ConsultaCleanErrors(data);
    if errs != [] {
      assert errs[0] in errs;
    }
  }

  /** The unbound `clean` would reject a negative payment and a paid
      consultation that was not held, but the form's own `clean` accepts
      both: those rules are not enforced. */
  lemma UnboundCleanIsNotEnforced()
    ensures var d := CleanedData(Some(100), Some(-1), Some(false), Some(true));
      ConsultaCleanErrors(d) == []
      && UnboundCleanErrors(d) == [FormError("vlr_pago", MsgPagoNegativo), FormError("is_pago", MsgNaoRealizadaPaga)]
  {
  }
}
