/** principais/management/commands/importar_terapeutas.py: the
    `importar_terapeutas` command reads a CSV of therapists (NOME, USUARIO,
    SENHA) and creates or updates one staff user per row, putting each in
    the "Terapeuta" group.  The file system check is a parameter, the
    parsed CSV a sequence of rows; users are a map from username. */
module ImportarTerapeutas {
  import opened Text

  const GrupoTerapeuta := "Terapeuta"

  /** A CSV cell as pandas hands it over: a string; a number, when pandas
      typed the whole column as numeric; or `NaN` for an empty cell.
      `.strip()` raises on a number and on `NaN`. */
  datatype Cell = Value(s: string) | Numeric(text: string) | Empty

  datatype CsvRow = CsvRow(nome: Cell, usuario: Cell, senha: Cell)

  /** The text of a cell pandas parses as a number (unsigned integers). */
  predicate NumericText(s: string) {
    |s| > 0 && AllDigits(s)
  }

  /** pandas types a column as numeric when every non-empty cell of it
      parses as a number. */
  predicate NumericColumn(raw: seq<string>) {
    forall i :: 0 <= i < |raw| && raw[i] != "" ==> NumericText(raw[i])
  }

  /** `read_csv` on one column, given the raw text of its cells (`""` for
      an empty cell). */
  function ReadColumn(raw: seq<string>): (cells: seq<Cell>)
    ensures |cells| == |raw|
    ensures forall i :: 0 <= i < |raw| ==> (cells[i].Empty? <==> raw[i] == "")
    ensures forall i :: 0 <= i < |raw| && raw[i] != "" ==>
      cells[i] == (if NumericColumn(raw) then Numeric(raw[i]) else Value(raw[i]))
  {
    var numeric := NumericColumn(raw);
    seq(|raw|, i requires 0 <= i < |raw| =>
      if raw[i] == "" then Empty else if numeric then Numeric(raw[i]) else Value(raw[i]))
  }

  /** The data frame of the three columns, row by row. */
  function ReadCsv(nomes: seq<string>, usuarios: seq<string>, senhas: seq<string>): (rows: seq<CsvRow>)
    requires |nomes| == |usuarios| == |senhas|
    ensures |rows| == |nomes|
  {
    var n, u, p := ReadColumn(nomes), ReadColumn(usuarios), ReadColumn(senhas);
    seq(|nomes|, i requires 0 <= i < |nomes| => CsvRow(n[i], u[i], p[i]))
  }

  /** The fields of `auth.User` the command writes, and the names of the
      groups the user is in.  The password is kept as given: hashing is not
      modelled. */
  datatype UserRec = UserRec(
    firstName: string, lastName: string, password: string,
    isActive: bool, isStaff: bool, isSuperuser: bool,
    groups: set<string>)

  datatype Counters = Counters(criados: nat, atualizados: nat, erros: nat)

  datatype ImportState = ImportState(users: map<string, UserRec>, counters: Counters)

  datatype ImportReport =
    | ArquivoNaoEncontrado        // "Arquivo não encontrado", nothing read
    | ErroAoProcessar             // the outer `except`: "Erro ao processar o arquivo"
    | Concluido(counters: Counters)

  // ---------------------------------------------------------------------
  // The name split
  // ---------------------------------------------------------------------

  /** `partes_nome[0] if partes_nome else ''` of the stripped name. */
  function PrimeiroNome(nomeCompleto: string): string {
    var partes := Words(nomeCompleto);
    if |partes| > 0 then partes[0] else ""
  }

  /** `' '.join(partes_nome[1:]) if len(partes_nome) > 1 else ''`. */
  function Sobrenome(nomeCompleto: string): string {
    var partes := Words(nomeCompleto);
    if |partes| > 1 then JoinWords(partes[1..]) else ""
  }

  /** The split loses only the spacing: the first name is the first word,
      and the last name splits back into the remaining words. */
  lemma NameSplitKeepsWords(nomeCompleto: string)
    ensures Words(nomeCompleto) == [] ==> PrimeiroNome(nomeCompleto) == "" && Sobrenome(nomeCompleto) == ""
    ensures Words(nomeCompleto) != [] ==>
      [PrimeiroNome(nomeCompleto)] + Words(Sobrenome(nomeCompleto)) == Words(nomeCompleto)
    ensures NoSpace(PrimeiroNome(nomeCompleto))
  {
    var partes := Words(nomeCompleto);
    if |partes| > 1 {
      assert ProperWords(partes[1..]) by {
        forall i | 0 <= i < |partes[1..]|
          ensures |partes[1..][i]| > 0 && NoSpace(partes[1..][i])
        {
          assert partes[1..][i] == partes[i + 1];
        }
      }
      WordsOfJoin(partes[1..]);
      assert [partes[0]] + partes[1..] == partes;
    } else if |partes| == 1 {
      assert Words("") == [];
      assert [partes[0]] == partes;
    }
  }

  /** Any whitespace `str.split()` knows separates the first name from the
      last name, the no-break space (byte 0xA0 of a cp1252 file) among
      them. */
  lemma SpaceSeparatesNames(primeiro: string, c: char, sobrenome: string)
    requires |primeiro| > 0 && NoSpace(primeiro) && |sobrenome| > 0 && NoSpace(sobrenome)
    requires IsSpace(c)
    ensures IsSpace('\U{A0}')
    ensures PrimeiroNome(primeiro + [c] + sobrenome) == primeiro
    ensures Sobrenome(primeiro + [c] + sobrenome) == sobrenome
  {
    var rest := [c] + sobrenome;
    assert primeiro + [c] + sobrenome == primeiro + rest;
    TokenLenOfWordThenSpace(primeiro, rest);
    assert (primeiro + rest)[..|primeiro|] == primeiro && (primeiro + rest)[|primeiro|..] == rest;
    WordsSkipsSpace(rest);
    assert rest[1..] == sobrenome;
    SingleWord(sobrenome);
    assert Words(primeiro + rest) == [primeiro, sobrenome];
  }

  /** A word without spaces splits into itself. */
  lemma SingleWord(w: string)
    requires |w| > 0 && NoSpace(w)
    ensures Words(w) == [w]
  {
    TokenLenOfWordThenSpace(w, "");
    assert w + "" == w && w[..|w|] == w && w[|w|..] == "";
  }

  // ---------------------------------------------------------------------
  // One row
  // ---------------------------------------------------------------------

  /** All three cells can be stripped, so the row cannot raise. */
  predicate RowReadable(row: CsvRow) {
    row.nome.Value? && row.usuario.Value? && row.senha.Value?
  }

  function Username(row: CsvRow): string
    requires RowReadable(row)
  {
    Strip(row.usuario.s)
  }

  /** The user table after a readable row.  Only the row's username
      changes: an existing user gets the row's names and password, keeps
      its flags and joins the group; a new one is created active, staff and
      not superuser, in the group only. */
  function UpsertUser(users: map<string, UserRec>, row: CsvRow): (r: map<string, UserRec>)
    requires RowReadable(row)
    ensures var u := Username(row);
      var nome := Strip(row.nome.s);
      r.Keys == users.Keys + {u}
      && (forall k :: k in users && k != u ==> r[k] == users[k])
      && r[u].firstName == PrimeiroNome(nome) && r[u].lastName == Sobrenome(nome)
      && r[u].password == Strip(row.senha.s)
      && GrupoTerapeuta in r[u].groups
      && (u in users ==>
            r[u].isActive == users[u].isActive && r[u].isStaff == users[u].isStaff
            && r[u].isSuperuser == users[u].isSuperuser
            && r[u].groups == users[u].groups + {GrupoTerapeuta})
      && (u !in users ==> r[u].isActive && r[u].isStaff && !r[u].isSuperuser && r[u].groups == {GrupoTerapeuta})
  {
    var nome := Strip(row.nome.s);
    var username := Username(row);
    var senha := Strip(row.senha.s);
    if username in users then
      users[username := users[username].(
        firstName := PrimeiroNome(nome), lastName := Sobrenome(nome), password := senha,
        groups := users[username].groups + {GrupoTerapeuta})]
    else
      users[username := UserRec(PrimeiroNome(nome), Sobrenome(nome), senha, true, true, false, {GrupoTerapeuta})]
  }

  /** One iteration of the loop, as the per-row `except` intends it: a row
      that raises only counts an error.  Every row adds one to exactly one
      counter; users only come in, and a user in the group stays in it. */
  function Step(st: ImportState, row: CsvRow): (r: ImportState)
    ensures Total(r.counters) == Total(st.counters) + 1
    ensures !RowReadable(row) <==> r.counters == st.counters.(erros := st.counters.erros + 1)
    ensures !RowReadable(row) ==> r.users == st.users
    ensures RowReadable(row) ==>
      (r.counters.criados == st.counters.criados + 1 <==> Username(row) !in st.users)
    ensures st.users.Keys <= r.users.Keys
    ensures forall k :: k in st.users && GrupoTerapeuta in st.users[k].groups ==>
      GrupoTerapeuta in r.users[k].groups
  {
    if !RowReadable(row) then
      st.(counters := st.counters.(erros := st.counters.erros + 1))
    else if Username(row) in st.users then
      ImportState(UpsertUser(st.users, row), st.counters.(atualizados := st.counters.atualizados + 1))
    else
      ImportState(UpsertUser(st.users, row), st.counters.(criados := st.counters.criados + 1))
  }

  function ImportRows(st: ImportState, rows: seq<CsvRow>): ImportState
    decreases |rows|
  {
    if |rows| == 0 then st
    else Step(ImportRows(st, rows[..|rows| - 1]), rows[|rows| - 1])
  }

  function Total(c: Counters): nat {
    c.criados + c.atualizados + c.erros
  }

  const NoCounters := Counters(0, 0, 0)

  // ---------------------------------------------------------------------
  // The command as written
  // ---------------------------------------------------------------------

  /** `handle` as written: the result, the user table and the group
      names.  The error line of the per-row `except` prints
      `nome_completo`, which is unbound until some row's NOME has been
      stripped; when the first row's NOME is empty or numeric the handler itself
      raises `UnboundLocalError`, the atomic block rolls the users back and
      the outer `except` ends the command.  The group, created before the
      atomic block, stays. */
  function HandleAsWritten(arquivoExiste: bool, users: map<string, UserRec>, groups: set<string>, rows: seq<CsvRow>)
    : (r: (ImportReport, map<string, UserRec>, set<string>))
    ensures !arquivoExiste ==> r == (ArquivoNaoEncontrado, users, groups)
    ensures arquivoExiste ==> r.2 == groups + {GrupoTerapeuta}
    ensures r.0.ErroAoProcessar? <==> arquivoExiste && |rows| > 0 && !rows[0].nome.Value?
    ensures r.0.ErroAoProcessar? ==> r.1 == users
  {
    if !arquivoExiste then (ArquivoNaoEncontrado, users, groups)
    else if |rows| > 0 && !rows[0].nome.Value? then (ErroAoProcessar, users, groups + {GrupoTerapeuta})
    else
      var st := ImportRows(ImportState(users, NoCounters), rows);
      (Concluido(st.counters), st.users, groups + {GrupoTerapeuta})
  }

  /** The command and the database state it writes. */
  class ImportCommand {
    var users: map<string, UserRec>
    var groups: set<string>

    constructor(initialUsers: map<string, UserRec>, initialGroups: set<string>)
      ensures users == initialUsers && groups == initialGroups
    {
      users := initialUsers;
      groups := initialGroups;
    }

    /** `handle`, with a failing row counted as an error and the import
        going on, as the per-row `except` intends. */
    method Handle(arquivoExiste: bool, rows: seq<CsvRow>) returns (report: ImportReport)
      modifies this
      ensures !arquivoExiste ==>
        report == ArquivoNaoEncontrado && users == old(users) && groups == old(groups)
      ensures arquivoExiste ==>
        var st := ImportRows(ImportState(old(users), NoCounters), rows);
        report == Concluido(st.counters) && users == st.users
        && groups == old(groups) + {GrupoTerapeuta}
    {
      if !arquivoExiste {
        return ArquivoNaoEncontrado;
      }
      groups := groups + {GrupoTerapeuta};
      var usuariosCriados, usuariosAtualizados, erros := 0, 0, 0;
      ghost var start := ImportState(users, NoCounters);
      for i := 0 to |rows|
        invariant ImportState(users, Counters(usuariosCriados, usuariosAtualizados, erros))
               == ImportRows(start, rows[..i])
        invariant groups == old(groups) + {GrupoTerapeuta}
      {
        assert rows[..i + 1][..i] == rows[..i];
        ghost var before := users;
        var row := rows[i];
        if !RowReadable(row) {
          erros := erros + 1;
        } else {
          var nomeCompleto := Strip(row.nome.s);
          var username := Strip(row.usuario.s);
          var senha := Strip(row.senha.s);
          var primeiroNome := PrimeiroNome(nomeCompleto);
          var sobrenome := Sobrenome(nomeCompleto);
          if username in users {
            var usuario := users[username].(firstName := primeiroNome, lastName := sobrenome, password := senha);
            if GrupoTerapeuta !in usuario.groups {
              usuario := usuario.(groups := usuario.groups + {GrupoTerapeuta});
            }
            assert usuario.groups == before[username].groups + {GrupoTerapeuta};
            users := users[username := usuario];
            assert users == UpsertUser(before, row);
            usuariosAtualizados := usuariosAtualizados + 1;
          } else {
            users := users[username := UserRec(primeiroNome, sobrenome, senha, true, true, false, {GrupoTerapeuta})];
            usuariosCriados := usuariosCriados + 1;
          }
        }
      }
      assert rows[..|rows|] == rows;
      return Concluido(Counters(usuariosCriados, usuariosAtualizados, erros));
    }
  }

  // ---------------------------------------------------------------------
  // Lemmas
  // ---------------------------------------------------------------------

  /** Every row is counted exactly once: created + updated + errors is the
      number of rows processed. */
  lemma {:induction false} CountersAddUp(st: ImportState, rows: seq<CsvRow>)
    ensures Total(ImportRows(st, rows).counters) == Total(st.counters) + |rows|
    decreases |rows|
  {
    if |rows| > 0 {
      CountersAddUp(st, rows[..|rows| - 1]);
    }
  }

  /** Importing the same row again changes nothing more: the group is not
      added twice. */
  lemma ReimportIdempotent(users: map<string, UserRec>, row: CsvRow)
    requires RowReadable(row)
    ensures UpsertUser(UpsertUser(users, row), row) == UpsertUser(users, row)
  {
    var once := UpsertUser(users, row);
    var u := Username(row);
    assert once[u].groups + {GrupoTerapeuta} == once[u].groups;
    assert once[u].(firstName := once[u].firstName, lastName := once[u].lastName,
      password := once[u].password, groups := once[u].groups) == once[u];
  }

  /** After the import, the user of every readable row exists and is in
      the "Terapeuta" group. */
  lemma {:induction false} ImportedUsersInGroup(st: ImportState, rows: seq<CsvRow>, k: nat)
    requires k < |rows| && RowReadable(rows[k])
    ensures var u := Username(rows[k]);
      u in ImportRows(st, rows).users && GrupoTerapeuta in ImportRows(st, rows).users[u].groups
    decreases |rows|
  {
    var prefix := rows[..|rows| - 1];
    var before := ImportRows(st, prefix);
    if k < |rows| - 1 {
      assert prefix[k] == rows[k];
      ImportedUsersInGroup(st, prefix, k);
    }
  }

  /** As written, an empty or numeric NOME in the first row aborts the whole import:
      every user is rolled back and no counters are reported, while the
      intended handling counts every row once (and, by `ImportRowsOutcome`,
      imports every readable one). */
  lemma FirstRowWithoutNomeAbortsImport(users: map<string, UserRec>, groups: set<string>, rows: seq<CsvRow>)
    requires |rows| > 0 && !rows[0].nome.Value?
    ensures HandleAsWritten(true, users, groups, rows) == (ErroAoProcessar, users, groups + {GrupoTerapeuta})
    ensures Total(ImportRows(ImportState(users, NoCounters), rows).counters) == |rows|
  {
    CountersAddUp(ImportState(users, NoCounters), rows);
  }

  /** Processing every row counts each row once and leaves the user of
      every readable row in the group. */
  lemma ImportRowsOutcome(st: ImportState, rows: seq<CsvRow>)
    ensures Total(ImportRows(st, rows).counters) == Total(st.counters) + |rows|
    ensures forall k :: 0 <= k < |rows| && RowReadable(rows[k]) ==>
      Username(rows[k]) in ImportRows(st, rows).users
      && GrupoTerapeuta in ImportRows(st, rows).users[Username(rows[k])].groups
  {
    CountersAddUp(st, rows);
    forall k | 0 <= k < |rows| && RowReadable(rows[k])
      ensures Username(rows[k]) in ImportRows(st, rows).users
      ensures GrupoTerapeuta in ImportRows(st, rows).users[Username(rows[k])].groups
    {
      ImportedUsersInGroup(st, rows, k);
    }
  }

  /** Where the first row has a NOME, the command as written does what the
      corrected one does. */
  lemma AsWrittenAgreesOtherwise(users: map<string, UserRec>, groups: set<string>, rows: seq<CsvRow>)
    requires |rows| == 0 || rows[0].nome.Value?
    ensures var st := ImportRows(ImportState(users, NoCounters), rows);
      HandleAsWritten(true, users, groups, rows) == (Concluido(st.counters), st.users, groups + {GrupoTerapeuta})
  {
  }

  /** Rows that all raise only count errors: no user is created or
      changed. */
  lemma {:induction false} UnreadableRowsImportNothing(st: ImportState, rows: seq<CsvRow>)
    requires forall i :: 0 <= i < |rows| ==> !RowReadable(rows[i])
    ensures ImportRows(st, rows).users == st.users
    ensures ImportRows(st, rows).counters == st.counters.(erros := st.counters.erros + |rows|)
    decreases |rows|
  {
    if |rows| > 0 {
      var prefix := rows[..|rows| - 1];
      assert forall i :: 0 <= i < |prefix| ==> prefix[i] == rows[i];
      UnreadableRowsImportNothing(st, prefix);
    }
  }

  /** A column of digits only (numeric passwords, CPFs as usernames) is
      read as numbers, `.strip()` raises on every row, and the import
      creates and updates no user: every row is an error. */
  lemma NumericColumnImportsNobody(st: ImportState, nomes: seq<string>, usuarios: seq<string>, senhas: seq<string>)
    requires |nomes| == |usuarios| == |senhas|
    requires NumericColumn(nomes) || NumericColumn(usuarios) || NumericColumn(senhas)
    ensures var rows := ReadCsv(nomes, usuarios, senhas);
      ImportRows(st, rows).users == st.users
      && ImportRows(st, rows).counters == st.counters.(erros := st.counters.erros + |rows|)
  {
    var rows := ReadCsv(nomes, usuarios, senhas);
    forall i | 0 <= i < |rows|
      ensures !RowReadable(rows[i])
    {
      assert rows[i] == CsvRow(ReadColumn(nomes)[i], ReadColumn(usuarios)[i], ReadColumn(senhas)[i]);
    }
    UnreadableRowsImportNothing(st, rows);
  }
}
