/** The dashboard indicators of app/metrics.py.  Each ORM aggregate is a
    filter, count or sum over the tables of a `Db`; "today" is a parameter.
    Python's `/` on counts yields a float and is modelled as `real`
    division; money stays in integer cents. */
module Metrics {
  import opened Wrappers
  import opened Query
  import opened Calendar
  import opened Models

  // ---------------------------------------------------------------------
  // Shared formulas
  // ---------------------------------------------------------------------

  /** `(part / whole * 100) if whole > 0 else 0` */
  function Percentage(part: int, whole: int): (p: real)
    ensures whole <= 0 ==> p == 0.0
    ensures whole > 0 ==> p * (whole as real) == (part as real) * 100.0
    ensures 0 <= part <= whole ==> 0.0 <= p <= 100.0
    ensures 0 < part == whole ==> p == 100.0
  {
    if whole > 0 then
      assert (whole as real) / (whole as real) == 1.0;
      (part as real) / (whole as real) * 100.0
    else 0.0
  }

  /** `total / count if count > 0 else 0` (also `Avg`, whose `None` on no
      rows the caller turns into 0). */
  function Mean(total: int, count: int): (m: real)
    ensures count <= 0 ==> m == 0.0
    ensures count > 0 ==> m * (count as real) == total as real
  {
    if count > 0 then (total as real) / (count as real) else 0.0
  }

  predicate Realizada(c: Consulta) {
    c.isRealizado == Some(true)
  }

  /** `vlr_pago__gt=0` */
  predicate PagoPositivo(c: Consulta) {
    c.vlrPago.Some? && c.vlrPago.value > 0
  }

  /** `vlr_pago=0` (a NULL payment is not zero) */
  predicate PagoZero(c: Consulta) {
    c.vlrPago == Some(0)
  }

  /** The paid amount of a row that has one (the sums only read rows with
      `vlr_pago > 0`). */
  function ValorPago(c: Consulta): Cents {
    c.vlrPago.GetOr(0)
  }

  predicate PacienteAtivo(ps: seq<Paciente>, pk: nat) {
    var p := FindPaciente(ps, pk);
    p.Some? && p.value.isActive
  }

  /** `consulta__fk_paciente__vlr_sessao` of one consultation row. */
  function VlrSessaoDe(ps: seq<Paciente>, pk: nat): Cents {
    match FindPaciente(ps, pk)
    case Some(p) => p.vlrSessao
    case None => 0
  }

  // ---------------------------------------------------------------------
  // get_terapeuta_metrics
  // ---------------------------------------------------------------------

  /** One row of the annotated therapist query. */
  datatype TerapeutaStats = TerapeutaStats(
    nome: string, totalConsultas: nat, totalRealizadas: nat, pacientesAtivos: nat,
    valorRecebido: Cents, receitaAcordada: Cents)

  /** "positivo", "negativo" or "igual". */
  datatype StatusDiferenca = Positivo | Negativo | Igual

  /** One entry of `metricas_detalhadas` (before number formatting). */
  datatype TerapeutaMetric = TerapeutaMetric(
    nome: string, taxaAdesao: real, pacientesAtivos: nat, totalConsultas: nat,
    totalRealizadas: nat, valorRecebido: Cents, receitaAcordada: Cents,
    diferenca: nat, statusDiferenca: StatusDiferenca)

  function ConsultasDe(cs: seq<Consulta>, terapeuta: nat): (r: seq<Consulta>)
    ensures forall c :: c in r <==> c in cs && c.terapeuta == terapeuta
  {
    Filter(cs, (c: Consulta) => c.terapeuta == terapeuta)
  }

  /** The annotations of one therapist, each a fold over that therapist's
      consultations (the single `consulta` join all five share). */
  function StatsOf(db: Db, t: Terapeuta): (r: TerapeutaStats)
    ensures r.totalConsultas == |ConsultasDe(db.consultas, t.pk)|
    ensures r.totalRealizadas <= r.totalConsultas && r.pacientesAtivos <= r.totalConsultas
    ensures r.valorRecebido >= 0
  {
    var mine := ConsultasDe(db.consultas, t.pk);
    SumOfNonNegative(Filter(mine, PagoPositivo), ValorPago);
    var nome := match FindAssociado(db.associados, t.associado)
      case Some(a) => a.nome
      case None => "";
    TerapeutaStats(
      nome,
      |mine|,
      |Filter(mine, Realizada)|,
      |Dedup(Map(Filter(mine, (c: Consulta) => PacienteAtivo(db.pacientes, c.paciente)), (c: Consulta) => c.paciente))|,
      SumOf(Filter(mine, PagoPositivo), ValorPago),
      SumOf(mine, (c: Consulta) => VlrSessaoDe(db.pacientes, c.paciente)))
  }

  /** The `.filter(is_active=True)` of the therapist query. */
  function TerapeutasAtivos(db: Db): (r: seq<Terapeuta>)
    ensures forall t :: t in r <==> t in db.terapeutas && t.isActive
  {
    Filter(db.terapeutas, (t: Terapeuta) => t.isActive)
  }

  function StatusOf(diferenca: int): StatusDiferenca {
    if diferenca > 0 then Positivo else if diferenca < 0 then Negativo else Igual
  }

  function Abs(x: int): nat {
    if x < 0 then -x else x
  }

  /** The signed difference read back from the displayed absolute amount
      and its tag. */
  function SignedDiferenca(m: TerapeutaMetric): int {
    match m.statusDiferenca
    case Positivo => m.diferenca
    case Negativo => -(m.diferenca as int)
    case Igual => 0
  }

  /** The body of the loop over `terapeutas_stats`. */
  function MetricFromStats(s: TerapeutaStats): (m: TerapeutaMetric)
    ensures SignedDiferenca(m) == s.receitaAcordada - s.valorRecebido
    ensures m.statusDiferenca == Positivo <==> s.receitaAcordada > s.valorRecebido
    ensures m.statusDiferenca == Negativo <==> s.receitaAcordada < s.valorRecebido
    ensures m.statusDiferenca == Igual <==> s.receitaAcordada == s.valorRecebido
    ensures s.totalRealizadas <= s.totalConsultas ==> 0.0 <= m.taxaAdesao <= 100.0
  {
    var diferenca := s.receitaAcordada - s.valorRecebido;
    TerapeutaMetric(
      s.nome, Percentage(s.totalRealizadas, s.totalConsultas), s.pacientesAtivos,
      s.totalConsultas, s.totalRealizadas, s.valorRecebido, s.receitaAcordada,
      Abs(diferenca), StatusOf(diferenca))
  }

  /** `get_terapeuta_metrics`: the annotated query, one row per active
      therapist in query order, and the loop that builds the metrics. */
  method GetTerapeutaMetrics(db: Db) returns (metricas: seq<TerapeutaMetric>)
    ensures |metricas| == |TerapeutasAtivos(db)|
    ensures forall i :: 0 <= i < |metricas| ==>
      metricas[i] == MetricFromStats(StatsOf(db, TerapeutasAtivos(db)[i]))
  {
    var ativos := TerapeutasAtivos(db);
    var stats := Map(ativos, (t: Terapeuta) => StatsOf(db, t));
    metricas := MetricsFromStats(stats);
  }

  /** The loop over `terapeutas_stats`, appending one metric per row. */
  method MetricsFromStats(stats: seq<TerapeutaStats>) returns (metricas: seq<TerapeutaMetric>)
    ensures |metricas| == |stats|
    ensures forall i :: 0 <= i < |stats| ==> metricas[i] == MetricFromStats(stats[i])
  {
    metricas := [];
    var k := 0;
    while k < |stats|
      invariant 0 <= k <= |stats|
      invariant |metricas| == k
      invariant forall i :: 0 <= i < k ==> metricas[i] == MetricFromStats(stats[i])
    {
      metricas := metricas + [MetricFromStats(stats[k])];
      k := k + 1;
    }
  }

  /** Held consultations are a subset of all of them, so each therapist's
      adherence rate is a percentage, and the distinct active patients are
      no more than the consultations. */
  lemma TerapeutaMetricBounds(db: Db, t: Terapeuta)
    ensures var m := MetricFromStats(StatsOf(db, t));
      0.0 <= m.taxaAdesao <= 100.0 && m.totalRealizadas <= m.totalConsultas
      && m.pacientesAtivos <= m.totalConsultas
  {
  }

  /** Agreed revenue counts the session price once per consultation: a
      therapist whose `n` consultations are all with one patient agreed
      `n * vlr_sessao`. */
  lemma ReceitaAcordadaPacienteUnico(db: Db, t: Terapeuta, p: Paciente)
    requires FindPaciente(db.pacientes, p.pk) == Some(p)
    requires forall c :: c in db.consultas && c.terapeuta == t.pk ==> c.paciente == p.pk
    ensures StatsOf(db, t).receitaAcordada == StatsOf(db, t).totalConsultas * p.vlrSessao
  {
    var mine := ConsultasDe(db.consultas, t.pk);
    SumOfConstant(mine, (c: Consulta) => VlrSessaoDe(db.pacientes, c.paciente), p.vlrSessao);
  }

  // ---------------------------------------------------------------------
  // get_porcentagem_pacientes_com_consultas
  // ---------------------------------------------------------------------

  datatype PacientesComConsultas = PacientesComConsultas(
    pacientesComConsultas: nat, totalPacientesAtivos: nat, porcentagem: real)

  predicate TemConsultaDesde(cs: seq<Consulta>, paciente: nat, desde: Date) {
    exists c :: c in cs && c.paciente == paciente && c.datConsulta >= desde
  }

  /** Active patients, and those of them with a consultation in the last
      180 days (each patient row once, as `.distinct()` leaves it). */
  function GetPorcentagemPacientesComConsultas(db: Db, today: Date): (r: PacientesComConsultas)
    ensures r.pacientesComConsultas <= r.totalPacientesAtivos
    ensures 0.0 <= r.porcentagem <= 100.0
    ensures r.totalPacientesAtivos == 0 ==> r.porcentagem == 0.0
  {
    var desde := today - 180;
    var ativos := Filter(db.pacientes, (p: Paciente) => p.isActive);
    var com := Filter(ativos, (p: Paciente) => TemConsultaDesde(db.consultas, p.pk, desde));
    PacientesComConsultas(|com|, |ativos|, Percentage(|com|, |ativos|))
  }

  /** A patient with no consultation in the window does not count. */
  lemma PacienteSemConsultaRecenteNaoConta(db: Db, today: Date, p: Paciente)
    requires forall c :: c in db.consultas && c.paciente == p.pk ==> c.datConsulta < today - 180
    ensures var ativos := Filter(db.pacientes, (q: Paciente) => q.isActive);
      p !in Filter(ativos, (q: Paciente) => TemConsultaDesde(db.consultas, q.pk, today - 180))
  {
  }

  // ---------------------------------------------------------------------
  // get_consulta_metrics
  // ---------------------------------------------------------------------

  datatype ConsultaMetrics = ConsultaMetrics(
    taxaAdesao: real, consultasRealizadas: nat, consultasMarcadas: nat,
    receitaTotalRecebida: Cents, receitaAcordadaMensal: Cents,
    captacaoPacientesMes: nat, pacientesAtivos: nat, terapeutasAtivos: nat,
    precoMedioRealizado: real, tempoMedioMatch: real, porcentagemInadimplentes: real)

  /** The matches created since the first of the month whose patient row
      exists (`select_related` over a non-null foreign key is an inner
      join). */
  function MatchesDoMes(db: Db, primeiroDiaMes: Date): (r: seq<Match>)
    ensures forall m :: m in r <==>
      m in db.matches && m.createdAt >= primeiroDiaMes && FindPaciente(db.pacientes, m.paciente).Some?
  {
    Filter(db.matches, (m: Match) => m.createdAt >= primeiroDiaMes && FindPaciente(db.pacientes, m.paciente).Some?)
  }

  /** Whole days from the patient's registration to the match. */
  function DiasAteMatch(db: Db, m: Match): int {
    match FindPaciente(db.pacientes, m.paciente)
    case Some(p) => m.createdAt - p.createdAt
    case None => 0
  }

  /** The waits of the month's matches added up. */
  function DiasTotal(db: Db, mes: seq<Match>): int {
    SumOf(mes, (m: Match) => DiasAteMatch(db, m))
  }

  /** The mean the match loop computes. */
  function TempoMedioMatchOf(db: Db, primeiroDiaMes: Date): (media: real)
    ensures |MatchesDoMes(db, primeiroDiaMes)| == 0 ==> media == 0.0
    ensures |MatchesDoMes(db, primeiroDiaMes)| > 0 ==>
      media * (|MatchesDoMes(db, primeiroDiaMes)| as real)
      == DiasTotal(db, MatchesDoMes(db, primeiroDiaMes)) as real
  {
    var mes := MatchesDoMes(db, primeiroDiaMes);
    Mean(DiasTotal(db, mes), |mes|)
  }

  /** The loop that accumulates `tempo_total_dias` and `count_matches`.
      `match.fk_paciente.created_at` is always set (`auto_now_add`), so
      every match of the month counts. */
  method TempoMedioMatch(db: Db, primeiroDiaMes: Date) returns (media: real)
    ensures media == TempoMedioMatchOf(db, primeiroDiaMes)
  {
    var mes := MatchesDoMes(db, primeiroDiaMes);
    var tempoTotalDias := 0;
    var countMatches := 0;
    var k := 0;
    while k < |mes|
      invariant 0 <= k <= |mes|
      invariant countMatches == k
      invariant tempoTotalDias == SumOf(mes[..k], (m: Match) => DiasAteMatch(db, m))
    {
      var p := FindPaciente(db.pacientes, mes[k].paciente);
      var diferenca := mes[k].createdAt - p.value.createdAt;
      SumOfSnoc(mes[..k], (m: Match) => DiasAteMatch(db, m), mes[k]);
      assert mes[..k + 1] == mes[..k] + [mes[k]];
      tempoTotalDias := tempoTotalDias + diferenca;
      countMatches := countMatches + 1;
      k := k + 1;
    }
    assert mes[..k] == mes;
    media := if countMatches > 0 then (tempoTotalDias as real) / (countMatches as real) else 0.0;
  }

  /** The mean waiting time lies between the shortest and the longest wait
      of the month, and is 0 in a month without matches. */
  lemma TempoMedioMatchBounds(db: Db, primeiroDiaMes: Date, lo: int, hi: int)
    requires forall m :: m in MatchesDoMes(db, primeiroDiaMes) ==> lo <= DiasAteMatch(db, m) <= hi
    ensures |MatchesDoMes(db, primeiroDiaMes)| == 0 ==> TempoMedioMatchOf(db, primeiroDiaMes) == 0.0
    ensures |MatchesDoMes(db, primeiroDiaMes)| > 0 ==>
      lo as real <= TempoMedioMatchOf(db, primeiroDiaMes) <= hi as real
  {
    var mes := MatchesDoMes(db, primeiroDiaMes);
    SumOfBounds(mes, (m: Match) => DiasAteMatch(db, m), lo, hi);
    if |mes| > 0 {
      MeanBounds(DiasTotal(db, mes), |mes|, lo, hi);
    }
  }

  /** A total between `count * lo` and `count * hi` has its mean between
      `lo` and `hi`. */
  lemma MeanBounds(total: int, count: int, lo: int, hi: int)
    requires count > 0 && count * lo <= total <= count * hi
    ensures lo as real <= Mean(total, count) <= hi as real
  {
    var n := count as real;
    assert (count * lo) as real == n * (lo as real);
    assert (count * hi) as real == n * (hi as real);
    MeanBetween(Mean(total, count), n, lo as real, hi as real);
  }

  /** Dividing `n * lo <= m * n <= n * hi` by a positive `n`. */
  lemma MeanBetween(m: real, n: real, lo: real, hi: real)
    requires n > 0.0 && n * lo <= m * n <= n * hi
    ensures lo <= m <= hi
  {
  }

  /** The mean of a non-negative total is non-negative. */
  lemma MeanNonNegative(total: int, count: int)
    requires total >= 0
    ensures Mean(total, count) >= 0.0
  {
    if count > 0 {
      MeanBounds(total, count, 0, total);
    }
  }

  /** `porcentagem_inadimplentes`: zero-paid over zero-paid plus
      positive-paid. */
  function Inadimplencia(cs: seq<Consulta>): (r: real)
    ensures 0.0 <= r <= 100.0
    ensures |Filter(cs, PagoZero)| == 0 ==> r == 0.0
    ensures |Filter(cs, PagoZero)| > 0 && |Filter(cs, PagoPositivo)| == 0 ==> r == 100.0
  {
    var zero := |Filter(cs, PagoZero)|;
    var positivo := |Filter(cs, PagoPositivo)|;
    Percentage(zero, zero + positivo)
  }

  /** The aggregates of `get_consulta_metrics`, given the match mean. */
  function ConsultaMetricsOf(db: Db, hoje: Date, tempoMedioMatch: real): (m: ConsultaMetrics)
    ensures 0.0 <= m.taxaAdesao <= 100.0 && m.consultasRealizadas <= m.consultasMarcadas
    ensures 0.0 <= m.porcentagemInadimplentes <= 100.0
    ensures m.receitaTotalRecebida >= 0 && m.precoMedioRealizado >= 0.0
    ensures m.tempoMedioMatch == tempoMedioMatch
  {
    var cs := db.consultas;
    var marcadas := |cs|;
    var realizadas := |Filter(cs, Realizada)|;
    var pagasRealizadas := Filter(cs, (c: Consulta) => Realizada(c) && PagoPositivo(c));
    SumOfNonNegative(Filter(cs, PagoPositivo), ValorPago);
    SumOfNonNegative(pagasRealizadas, ValorPago);
    MeanNonNegative(SumOf(pagasRealizadas, ValorPago), |pagasRealizadas|);
    ConsultaMetrics(
      Percentage(realizadas, marcadas),
      realizadas,
      marcadas,
      SumOf(Filter(cs, PagoPositivo), ValorPago),
      SumOf(Filter(db.pacientes, (p: Paciente) => p.isActive), (p: Paciente) => p.vlrSessao),
      |Filter(db.pacientes, (p: Paciente) => SameMonth(p.createdAt, hoje))|,
      |Filter(db.pacientes, (p: Paciente) => p.isActive)|,
      |TerapeutasAtivos(db)|,
      Mean(SumOf(pagasRealizadas, ValorPago), |pagasRealizadas|),
      tempoMedioMatch,
      Inadimplencia(cs))
  }

  /** `get_consulta_metrics`. */
  method GetConsultaMetrics(db: Db, hoje: Date) returns (m: ConsultaMetrics)
    ensures m == ConsultaMetricsOf(db, hoje, TempoMedioMatchOf(db, FirstOfMonth(hoje)))
  {
    var primeiroDiaMes := FirstOfMonth(hoje);
    var tempoMedioMatch := TempoMedioMatch(db, primeiroDiaMes);
    m := ConsultaMetricsOf(db, hoje, tempoMedioMatch);
  }

  /** A consultation with no payment recorded (`vlr_pago` NULL) counts
      neither as defaulted nor as paid. */
  lemma InadimplenciaIgnoraNulos(cs: seq<Consulta>, c: Consulta)
    requires c.vlrPago.None?
    ensures Inadimplencia(cs + [c]) == Inadimplencia(cs)
  {
    FilterSnocSkips(cs, PagoZero, c);
    FilterSnocSkips(cs, PagoPositivo, c);
  }

  lemma {:induction false} FilterSnocSkips<T(!new)>(s: seq<T>, p: T -> bool, x: T)
    requires !p(x)
    ensures Filter(s + [x], p) == Filter(s, p)
    decreases |s|
  {
    if |s| == 0 {
      assert s + [x] == [x];
    } else {
      assert (s + [x])[1..] == s[1..] + [x];
      FilterSnocSkips(s[1..], p, x);
    }
  }

  // ---------------------------------------------------------------------
  // get_daily_consultas_data / get_daily_valor_data
  // ---------------------------------------------------------------------

  /** `[today - timedelta(days=i) for i in range(6, -1, -1)]` */
  function Last7Days(today: Date): (days: seq<Date>)
    ensures |days| == 7 && days[6] == today
    ensures forall i :: 0 <= i < 6 ==> days[i + 1] == days[i] + 1
  {
    seq(7, i requires 0 <= i < 7 => today - (6 - i))
  }

  function NoDia(cs: seq<Consulta>, d: Date): (r: seq<Consulta>)
    ensures forall c :: c in r <==> c in cs && c.datConsulta == d
  {
    Filter(cs, (c: Consulta) => c.datConsulta == d)
  }

  /** `{dat_consulta: Count(...)}` of the grouped query: only days that
      have rows appear. */
  function DailyCountDict(cs: seq<Consulta>, days: seq<Date>): map<Date, nat> {
    map d | d in days && |NoDia(cs, d)| > 0 :: |NoDia(cs, d)|
  }

  /** `{dat_consulta: Sum('vlr_consulta')}` of the grouped query. */
  function DailyValorDict(cs: seq<Consulta>, days: seq<Date>): map<Date, Cents> {
    map d | d in days && |NoDia(cs, d)| > 0 :: SumOf(NoDia(cs, d), (c: Consulta) => c.vlrConsulta)
  }

  datatype Series<V> = Series(dates: seq<Date>, values: seq<V>)

  /** `[daily_dict.get(date, 0) for date in last_7_days]` */
  function ZeroFilled(dict: map<Date, int>, days: seq<Date>): (vs: seq<int>)
    ensures |vs| == |days|
  {
    Map(days, (d: Date) => if d in dict then dict[d] else 0)
  }

  /** The count series covers the seven days ending today, and each value
      is that day's number of consultations: 0 exactly on days without any. */
  function GetDailyConsultasData(db: Db, today: Date): (r: Series<int>)
    ensures r.dates == Last7Days(today) && |r.values| == 7
    ensures forall i :: 0 <= i < 7 ==> r.values[i] == |NoDia(db.consultas, r.dates[i])|
  {
    var days := Last7Days(today);
    assert forall i :: 0 <= i < 7 ==> days[i] in days;
    var dict := DailyCountDict(db.consultas, days);
    Series(days, ZeroFilled(map d | d in dict :: dict[d] as int, days))
  }

  /** Each value of the amount series is that day's total of
      `vlr_consulta`; a day without consultations shows 0. */
  function GetDailyValorData(db: Db, today: Date): (r: Series<int>)
    ensures r.dates == Last7Days(today) && |r.values| == 7
    ensures forall i :: 0 <= i < 7 ==>
      r.values[i] == SumOf(NoDia(db.consultas, r.dates[i]), (c: Consulta) => c.vlrConsulta)
  {
    var days := Last7Days(today);
    assert forall i :: 0 <= i < 7 ==> days[i] in days;
    Series(days, ZeroFilled(DailyValorDict(db.consultas, days), days))
  }
}
