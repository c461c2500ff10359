/** The client's own dashboard container: the client's projects, the open
    project with its updates grouped by employee, one open update, the
    project statistics and the dashboard summary, each fetched with its own
    loading flag. The thunks reject with a plain message string. */
module ClientDashboardSlice {
  import opened Common
  import opened Entities

  /** The updates of one employee on the open project. */
  datatype EmployeeUpdates = EmployeeUpdates(employeeId: string, updates: seq<ProjectUpdate>)

  datatype ProjectUpdates = ProjectUpdates(
    updatesByEmployee: seq<EmployeeUpdates>,
    allUpdates: seq<ProjectUpdate>,
    totalUpdates: int)

  datatype ProjectStatistics = ProjectStatistics(totalUpdates: int, designUpdates: int, developmentUpdates: int)

  datatype DashboardSummary = DashboardSummary(totalProjects: int, activeProjects: int, completedProjects: int)

  datatype State = State(
    projects: seq<Project>,
    currentProject: Option<Project>,
    projectUpdates: ProjectUpdates,
    currentUpdate: Option<ProjectUpdate>,
    projectStatistics: Option<ProjectStatistics>,
    dashboardSummary: Option<DashboardSummary>,
    loading: bool,
    error: Option<string>,
    projectsLoading: bool,
    projectDetailsLoading: bool,
    updatesLoading: bool,
    statisticsLoading: bool,
    summaryLoading: bool)

  const NoUpdates := ProjectUpdates([], [], 0)

  const Initial := State([], None, NoUpdates, None, None, None,
                         false, None, false, false, false, false, false)

  datatype Action =
    | ClearError
    | ClearCurrentProject
    | ClearCurrentUpdate
    | GetClientProjects(Phase<seq<Project>, string>)
    | GetProjectDetails(Phase<Project, string>)
    | GetProjectUpdates(Phase<ProjectUpdates, string>)
    | GetUpdateDetails(Phase<ProjectUpdate, string>)
    | GetProjectStatistics(Phase<ProjectStatistics, string>)
    | GetDashboardSummary(Phase<DashboardSummary, string>)

  /** The loading flags of the container. */
  datatype Flag = ProjectsFlag | DetailsFlag | UpdatesFlag | UpdateFlag | StatisticsFlag | SummaryFlag

  function Loading(s: State, f: Flag): bool {
    match f
    case ProjectsFlag => s.projectsLoading
    case DetailsFlag => s.projectDetailsLoading
    case UpdatesFlag => s.updatesLoading
    case UpdateFlag => s.loading
    case StatisticsFlag => s.statisticsLoading
    case SummaryFlag => s.summaryLoading
  }

  /** Everything the container holds besides its flags and error. */
  datatype Contents = Contents(
    projects: seq<Project>, currentProject: Option<Project>, projectUpdates: ProjectUpdates,
    currentUpdate: Option<ProjectUpdate>, projectStatistics: Option<ProjectStatistics>,
    dashboardSummary: Option<DashboardSummary>)

  function Data(s: State): Contents {
    Contents(s.projects, s.currentProject, s.projectUpdates, s.currentUpdate,
             s.projectStatistics, s.dashboardSummary)
  }

  function SetLoading(s: State, f: Flag, b: bool): (r: State)
    ensures Loading(r, f) == b
    ensures forall g :: g != f ==> Loading(r, g) == Loading(s, g)
    ensures Data(r) == Data(s) && r.error == s.error
  {
    match f
    case ProjectsFlag => s.(projectsLoading := b)
    case DetailsFlag => s.(projectDetailsLoading := b)
    case UpdatesFlag => s.(updatesLoading := b)
    case UpdateFlag => s.(loading := b)
    case StatisticsFlag => s.(statisticsLoading := b)
    case SummaryFlag => s.(summaryLoading := b)
  }

  /** The flag an asynchronous action drives; the synchronous ones drive
      none and are mapped to the update flag, which they leave alone. */
  function FlagOf(a: Action): Flag {
    match a
    case GetClientProjects(_) => ProjectsFlag
    case GetProjectDetails(_) => DetailsFlag
    case GetProjectUpdates(_) => UpdatesFlag
    case GetProjectStatistics(_) => StatisticsFlag
    case GetDashboardSummary(_) => SummaryFlag
    case _ => UpdateFlag
  }

  /** Shared `pending` and `rejected` cases of the six fetches. */
  function Step<P>(s: State, f: Flag, ph: Phase<P, string>, onData: P -> State): State {
    match ph
    case Pending => SetLoading(s, f, true).(error := None)
    case Fulfilled(x) => SetLoading(onData(x), f, false)
    case Rejected(msg) => SetLoading(s, f, false).(error := Some(msg))
  }

  function Reduce(s: State, a: Action): State {
    match a
    case ClearError => s.(error := None)
    case ClearCurrentProject =>
      s.(currentProject := None, projectUpdates := NoUpdates, currentUpdate := None,
         projectStatistics := None)
    case ClearCurrentUpdate => s.(currentUpdate := None)
    case GetClientProjects(ph) =>
      Step(s, ProjectsFlag, ph, (ps: seq<Project>) => s.(projects := ps))
    case GetProjectDetails(ph) =>
      Step(s, DetailsFlag, ph, (p: Project) => s.(currentProject := Some(p)))
    case GetProjectUpdates(ph) =>
      Step(s, UpdatesFlag, ph, (u: ProjectUpdates) => s.(projectUpdates := u))
    case GetUpdateDetails(ph) =>
      Step(s, UpdateFlag, ph, (u: ProjectUpdate) => s.(currentUpdate := Some(u)))
    case GetProjectStatistics(ph) =>
      Step(s, StatisticsFlag, ph, (st: ProjectStatistics) => s.(projectStatistics := Some(st)))
    case GetDashboardSummary(ph) =>
      Step(s, SummaryFlag, ph, (sm: DashboardSummary) => s.(dashboardSummary := Some(sm)))
  }

  predicate IsPending(a: Action) {
    match a
    case GetClientProjects(p) => p.Pending?
    case GetProjectDetails(p) => p.Pending?
    case GetProjectUpdates(p) => p.Pending?
    case GetUpdateDetails(p) => p.Pending?
    case GetProjectStatistics(p) => p.Pending?
    case GetDashboardSummary(p) => p.Pending?
    case _ => false
  }

  function Rejection(a: Action): Option<string> {
    match a
    case GetClientProjects(p) => if p.Rejected? then Some(p.reason) else None
    case GetProjectDetails(p) => if p.Rejected? then Some(p.reason) else None
    case GetProjectUpdates(p) => if p.Rejected? then Some(p.reason) else None
    case GetUpdateDetails(p) => if p.Rejected? then Some(p.reason) else None
    case GetProjectStatistics(p) => if p.Rejected? then Some(p.reason) else None
    case GetDashboardSummary(p) => if p.Rejected? then Some(p.reason) else None
    case _ => None
  }

  // ---- properties ----

  /** Every pending case raises only its own flag, clears the error and
      keeps all data. */
  lemma PendingRaisesOwnFlag(s: State, a: Action)
    requires IsPending(a)
    ensures var r := Reduce(s, a);
            && Loading(r, FlagOf(a))
            && (forall g :: g != FlagOf(a) ==> Loading(r, g) == Loading(s, g))
            && Data(r) == Data(s) && r.error == None
  {
  }

  /** Every rejected case lowers only its own flag, stores the rejection
      string as the error and keeps all data. */
  lemma RejectedStoresMessage(s: State, a: Action)
    requires Rejection(a).Some?
    ensures var r := Reduce(s, a);
            && !Loading(r, FlagOf(a))
            && (forall g :: g != FlagOf(a) ==> Loading(r, g) == Loading(s, g))
            && Data(r) == Data(s) && r.error == Rejection(a)
  {
  }

  /** A rejection carries the server's message or the fetch's fallback. */
  lemma RejectionFromResponse(s: State, data: Option<ErrorBody>)
    ensures var r := Reduce(s, GetClientProjects(Rejected(RejectMessage(data, "Failed to fetch projects"))));
            && r.error.Some? && r.error.value != ""
            && (data.None? ==> r.error == Some("Failed to fetch projects"))
  {
  }

  /** Closing the project resets everything scoped to it and keeps the
      project list, the summary, the flags and the error. */
  lemma ClearCurrentProjectScope(s: State)
    ensures var r := Reduce(s, ClearCurrentProject);
            && r.currentProject == None && r.projectUpdates == NoUpdates
            && r.currentUpdate == None && r.projectStatistics == None
            && r.projects == s.projects && r.dashboardSummary == s.dashboardSummary
            && (forall g :: Loading(r, g) == Loading(s, g)) && r.error == s.error
  {
  }

  /** Fetching the updates replaces all three of their parts together. */
  lemma UpdatesReplacedTogether(s: State, u: ProjectUpdates)
    ensures var r := Reduce(s, GetProjectUpdates(Fulfilled(u)));
            && r.projectUpdates == u && !r.updatesLoading
            && r.currentProject == s.currentProject && r.currentUpdate == s.currentUpdate
            && r.projectsLoading == s.projectsLoading
  {
  }

  /** The details of one project set only the open project: the project
      list and every other part are kept. */
  lemma DetailsSetCurrentProjectOnly(s: State, p: Project)
    ensures var r := Reduce(s, GetProjectDetails(Fulfilled(p)));
            && r.currentProject == Some(p) && !r.projectDetailsLoading
            && r == s.(currentProject := Some(p), projectDetailsLoading := false)
  {
  }

  /** `clearCurrentUpdate` changes only the open update. */
  lemma ClearCurrentUpdateOnly(s: State)
    ensures Reduce(s, ClearCurrentUpdate) == s.(currentUpdate := None)
    ensures Data(Reduce(s, ClearCurrentUpdate)).projects == s.projects
  {
  }
}
