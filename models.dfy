/** The clinic's records (principais/models.py) as values, the field
    validators and the associate "dean" rules.  Only the fields the modelled
    rules read are kept.  Foreign keys are primary keys (`nat`), money is
    `DecimalField(decimal_places=2)` counted in cents, and dates are
    ordinals (module Calendar). */
module Models {
  import opened Wrappers
  import opened Text
  import opened Query
  import opened Calendar

  /** A `DecimalField(max_digits=10, decimal_places=2)` amount, in cents. */
  type Cents = int

  /** acessorios.Setor: the sector's name is its `setor` field. */
  datatype Setor = Setor(pk: nat, setor: string)

  /** `usuario` is the optional one-to-one link to a login user. */
  datatype Associado = Associado(
    pk: nat, nome: string, setores: seq<Setor>, isActive: bool, usuario: Option<nat>)

  /** `fk_associado` and `fk_decano` both point at associates; a therapist
      has no name of its own. */
  datatype Terapeuta = Terapeuta(pk: nat, associado: nat, decano: nat, isActive: bool)

  /** `updated_at` is a timestamp (any clock reading), `created_at` a date. */
  datatype Paciente = Paciente(
    pk: nat, nome: string, vlrSessao: Cents, isActive: bool, createdAt: Date, updatedAt: int)

  /** `is_realizado` and `vlr_pago` are nullable; `vlr_consulta` is not. */
  datatype Consulta = Consulta(
    pk: nat, terapeuta: nat, paciente: nat, vlrConsulta: Cents,
    isRealizado: Option<bool>, vlrPago: Option<Cents>, datConsulta: Date)

  datatype Match = Match(pk: nat, terapeuta: nat, paciente: nat, datConsulta: Date, createdAt: Date)

  /** A discharge ("alta") or dropout ("desistência") record. */
  datatype Altadesistencia = Altadesistencia(pk: nat, terapeuta: nat, paciente: nat)

  datatype User = User(pk: nat, username: string, isStaff: bool)

  /** The tables the modelled rules read. */
  datatype Db = Db(
    users: seq<User>, associados: seq<Associado>, terapeutas: seq<Terapeuta>,
    pacientes: seq<Paciente>, consultas: seq<Consulta>, matches: seq<Match>)

  // ---------------------------------------------------------------------
  // Foreign keys
  // ---------------------------------------------------------------------

  /** The row a foreign key points at: the first row with that primary
      key (keys are unique, so it is the only one). */
  function FindByPk<T>(rows: seq<T>, pkOf: T -> nat, pk: nat): (r: Option<T>)
    ensures r.Some? ==> r.value in rows && pkOf(r.value) == pk
    ensures r.None? <==> forall x :: x in rows ==> pkOf(x) != pk
    decreases |rows|
  {
    if |rows| == 0 then None
    else if pkOf(rows[0]) == pk then Some(rows[0])
    else FindByPk(rows[1..], pkOf, pk)
  }

  function FindPaciente(ps: seq<Paciente>, pk: nat): Option<Paciente> {
    FindByPk(ps, (p: Paciente) => p.pk, pk)
  }

  function FindAssociado(associados: seq<Associado>, pk: nat): Option<Associado> {
    FindByPk(associados, (a: Associado) => a.pk, pk)
  }

  function FindTerapeuta(ts: seq<Terapeuta>, pk: nat): Option<Terapeuta> {
    FindByPk(ts, (t: Terapeuta) => t.pk, pk)
  }

  // ---------------------------------------------------------------------
  // Field validators and the check constraint
  // ---------------------------------------------------------------------

  /** `RegexValidator(r'^\d{10,11}$')`, which Django applies with
      `re.search`: `$` also matches just before one final "\n", so ten or
      eleven digits optionally followed by a single newline pass.  Without
      a line break the rule is exactly "10 or 11 digits". */
  predicate TelefoneValido(s: string)
    ensures TelefoneValido(s) ==> 10 <= |s| <= 12
    ensures (forall i :: 0 <= i < |s| ==> s[i] != '\n') ==>
      (TelefoneValido(s) <==> 10 <= |s| <= 11 && AllDigits(s))
  {
    (10 <= |s| <= 11 && AllDigits(s))
    || (11 <= |s| <= 12 && s[|s| - 1] == '\n' && AllDigits(s[..|s| - 1]))
  }

  /** The check constraint `vlr_pago >= 0`: SQL lets NULL through. */
  predicate VlrPagoOk(c: Consulta) {
    c.vlrPago.None? || c.vlrPago.value >= 0
  }

  // ---------------------------------------------------------------------
  // Deans
  // ---------------------------------------------------------------------

  /** The sector name contains "decano" case-insensitively (`setor__icontains`). */
  predicate SetorDecano(s: Setor) {
    ContainsIgnoreCase(s.setor, "decano")
  }

  /** `Associado.is_decano`: one of the associate's sectors matches, that
      is, the filtered sectors `exists()`. */
  predicate IsDecano(a: Associado)
    ensures IsDecano(a) <==> |Filter(a.setores, SetorDecano)| > 0
  {
    var f := Filter(a.setores, SetorDecano);
    assert |f| > 0 ==> f[0] in f;
    exists i :: 0 <= i < |a.setores| && SetorDecano(a.setores[i])
  }

  /** One copy of `a` per matching sector: the rows of the join
      `associados JOIN associados_setores JOIN setores` that survive the
      `setores__setor__icontains='decano'` filter, for one associate. */
  function DecanoRows(a: Associado, setores: seq<Setor>): (rows: seq<Associado>)
    ensures |rows| == |Filter(setores, SetorDecano)|
    ensures forall r :: r in rows ==> r == a
    ensures |rows| > 0 <==> exists i :: 0 <= i < |setores| && SetorDecano(setores[i])
    decreases |setores|
  {
    if |setores| == 0 then []
    else
      var rest := DecanoRows(a, setores[1..]);
      assert forall i :: 0 < i < |setores| ==> setores[i] == setores[1..][i - 1];
      if SetorDecano(setores[0]) then [a] + rest else rest
  }

  /** The filtered join over all associates, before `.distinct()`. */
  function DecanoJoin(associados: seq<Associado>): (rows: seq<Associado>)
    ensures forall r :: r in rows <==> r in associados && r.isActive && IsDecano(r)
    decreases |associados|
  {
    if |associados| == 0 then []
    else
      var a := associados[0];
      var head := if a.isActive then DecanoRows(a, a.setores) else [];
      assert |head| > 0 ==> head[0] in head;
      assert forall r :: r in head <==> r == a && a.isActive && IsDecano(a);
      assert forall r :: r in associados <==> r == associados[0] || r in associados[1..];
      head + DecanoJoin(associados[1..])
  }

  /** `Associado.get_decanos()`: the join, then `DISTINCT`. */
  function GetDecanos(associados: seq<Associado>): (r: seq<Associado>)
    ensures forall a :: a in r <==> a in associados && a.isActive && IsDecano(a)
    ensures NoDuplicates(r)
  {
    Dedup(DecanoJoin(associados))
  }

  // ---------------------------------------------------------------------
  // Lemmas
  // ---------------------------------------------------------------------

  /** `$` before a final newline: ten digits followed by "\n" pass the
      validator, although they are eleven characters. */
  lemma TelefoneComQuebraFinal(s: string)
    requires |s| == 10 && AllDigits(s)
    ensures TelefoneValido(s + "\n")
    ensures !AllDigits(s + "\n")
  {
    assert (s + "\n")[..|s|] == s;
    assert (s + "\n")[|s|] == '\n';
  }

  /** An associate is one row of the join per "decano" sector, so two such
      sectors make it two rows; only `.distinct()` makes it one. */
  lemma JoinRepeatsAndDistinctCollapses(a: Associado)
    requires a.isActive
    ensures |DecanoJoin([a])| == |Filter(a.setores, SetorDecano)|
    ensures forall r :: r in DecanoJoin([a]) ==> r == a
    ensures |Filter(a.setores, SetorDecano)| > 0 ==> GetDecanos([a]) == [a]
  {
    assert DecanoJoin([a][1..]) == [];
    var join := DecanoJoin([a]);
    assert join == DecanoRows(a, a.setores);
    if |Filter(a.setores, SetorDecano)| > 0 {
      assert join[0] in join;
      DedupConstant(join, a);
    }
  }
}
