/** The admin statistics container: the dashboard aggregates (overview,
    financial figures, chart series, top clients, recent projects), the
    separately fetched financial report, one shared loading flag and one
    error slot. */
module StatsSlice {
  import opened Common
  import opened Entities

  datatype Overview = Overview(
    totalProjects: int, completedProjects: int, pendingProjects: int,
    inProgressProjects: int, activeEmployees: int, totalClients: int)

  datatype Financial = Financial(
    totalEarnings: int, totalBudget: int, pendingPayments: int,
    totalMonthlySalary: int, netProfit: int)

  /** The `_id` of a monthly group: a calendar year and a month 1..12. */
  datatype YearMonth = YearMonth(year: int, month: int)

  datatype MonthCount = MonthCount(id: YearMonth, count: int)
  datatype MonthEarnings = MonthEarnings(id: YearMonth, earnings: int)
  datatype LabelCount = LabelCount(name: string, count: int)

  datatype Charts = Charts(
    projectsByStatus: seq<LabelCount>,
    projectsByPriority: seq<LabelCount>,
    completedProjectsByMonth: seq<MonthCount>,
    earningsByMonth: seq<MonthEarnings>)

  datatype TopClient = TopClient(id: string, name: string, totalSpent: int)

  /** The `stats` object of a dashboard response. */
  datatype Aggregates = Aggregates(
    overview: Overview, financial: Financial, charts: Charts,
    topClients: seq<TopClient>, recentProjects: seq<Project>)

  /** The detailed financial report: one row per project. */
  datatype FinancialDetails = FinancialDetails(rows: seq<LabelCount>)

  datatype State = State(
    overview: Overview,
    financial: Financial,
    charts: Charts,
    topClients: seq<TopClient>,
    recentProjects: seq<Project>,
    financialDetails: Option<FinancialDetails>,
    loading: bool,
    error: Option<string>)

  const Initial := State(Overview(0, 0, 0, 0, 0, 0), Financial(0, 0, 0, 0, 0),
                         Charts([], [], [], []), [], [], None, false, None)

  datatype Action =
    | ClearError
    | FetchStats(Phase<Aggregates, ErrorBody>)
    | FetchFinancialDetails(Phase<FinancialDetails, ErrorBody>)

  /** The dashboard aggregates a state holds. */
  function AggregatesOf(s: State): Aggregates {
    Aggregates(s.overview, s.financial, s.charts, s.topClients, s.recentProjects)
  }

  function Reduce(s: State, a: Action): State {
    match a
    case ClearError => s.(error := None)
    case FetchStats(ph) =>
      (match ph
       case Pending => s.(loading := true, error := None)
       case Fulfilled(g) =>
         s.(loading := false, overview := g.overview, financial := g.financial,
            charts := g.charts, topClients := g.topClients, recentProjects := g.recentProjects)
       case Rejected(b) => s.(loading := false, error := Some(MessageOr(b, "Failed to fetch stats"))))
    case FetchFinancialDetails(ph) =>
      (match ph
       case Pending => s.(loading := true, error := None)
       case Fulfilled(d) => s.(loading := false, financialDetails := Some(d))
       case Rejected(b) =>
         s.(loading := false, error := Some(MessageOr(b, "Failed to fetch financial details"))))
  }

  // ---- properties ----

  /** A dashboard response replaces all five aggregates at once and keeps
      the financial report. */
  lemma FetchStatsReplacesAggregates(s: State, g: Aggregates)
    ensures var r := Reduce(s, FetchStats(Fulfilled(g)));
            && AggregatesOf(r) == g
            && r.financialDetails == s.financialDetails
            && !r.loading && r.error == s.error
  {
  }

  /** A financial report changes only the report and the flag. */
  lemma FinancialDetailsOnly(s: State, d: FinancialDetails)
    ensures var r := Reduce(s, FetchFinancialDetails(Fulfilled(d)));
            r == s.(financialDetails := Some(d), loading := false)
    ensures AggregatesOf(Reduce(s, FetchFinancialDetails(Fulfilled(d)))) == AggregatesOf(s)
  {
  }

  /** A failed fetch keeps every aggregate and the report and stores the
      message or its fallback. */
  lemma RejectedKeepsData(s: State, b: ErrorBody)
    ensures var r := Reduce(s, FetchStats(Rejected(b)));
            && AggregatesOf(r) == AggregatesOf(s) && r.financialDetails == s.financialDetails
            && !r.loading
            && r.error == Some(if Truthy(b.message) then b.message.value else "Failed to fetch stats")
    ensures var r := Reduce(s, FetchFinancialDetails(Rejected(b)));
            && AggregatesOf(r) == AggregatesOf(s) && r.financialDetails == s.financialDetails
            && r.error == Some(if Truthy(b.message) then b.message.value else "Failed to fetch financial details")
  {
  }

  /** Both fetches share the flag: with both outstanding, whichever settles
      first lowers it while the other is still in flight. */
  lemma SharedLoadingFlag(s: State, g: Aggregates)
    ensures var started := Reduce(Reduce(s, FetchStats(Pending)), FetchFinancialDetails(Pending));
            && started.loading && started.error == None
            && !Reduce(started, FetchStats(Fulfilled(g))).loading
  {
  }

  /** `clearError` changes only the error. */
  lemma ClearErrorOnly(s: State)
    ensures Reduce(s, ClearError) == s.(error := None)
    ensures AggregatesOf(Reduce(s, ClearError)) == AggregatesOf(s)
  {
  }
}
