/** The designer and developer project container: the assigned projects,
    the open project with its updates, two loading flags, and the list
    filters that the filtered-projects selector applies. */
module DesignerProjectSlice {
  import opened Common
  import opened Entities
  import Lists

  datatype Filters = Filters(status: Option<string>, priority: Option<Priority>, sortBy: Option<string>)

  /** A `setFilters` payload: a present key overrides, possibly with null. */
  datatype FilterPatch = FilterPatch(
    status: Option<Option<string>>,
    priority: Option<Option<Priority>>,
    sortBy: Option<Option<string>>)

  datatype State = State(
    projects: seq<DesignerProject>,
    selectedProject: Option<DesignerProject>,
    projectUpdates: seq<ProjectUpdate>,
    loading: bool,
    updateLoading: bool,
    error: Option<string>,
    success: bool,
    filters: Filters)

  const InitialFilters := Filters(None, None, Some("deadline"))

  const Initial := State([], None, [], false, false, None, false, InitialFilters)

  // ---- the asynchronous operations before they reach the reducer ----

  /** The fulfilled payload of fetchProjectDetails. */
  datatype Details = Details(project: DesignerProject, updates: seq<ProjectUpdate>)

  /** fetchProjectDetails issues both requests at once and fails with the
      first failure. Each failed request is `Err(data)`, `data` being the
      response body if any; which of two failures settles first is the
      parameter `projectFailsFirst`. */
  function FetchDetailsResult(project: Outcome<DesignerProject, Option<ErrorBody>>,
                              updates: Outcome<seq<ProjectUpdate>, Option<ErrorBody>>,
                              projectFailsFirst: bool): (r: Phase<Details, ErrorBody>)
    ensures !r.Pending?
    ensures r.Fulfilled? <==> project.Ok? && updates.Ok?
    ensures r.Fulfilled? ==> r.payload == Details(project.value, updates.value)
    ensures project.Err? && (updates.Ok? || projectFailsFirst) ==>
              r == Rejected(RejectValue(project.error, "Failed to fetch project details"))
    ensures updates.Err? && (project.Ok? || !projectFailsFirst) ==>
              r == Rejected(RejectValue(updates.error, "Failed to fetch project details"))
  {
    if project.Ok? && updates.Ok? then Fulfilled(Details(project.value, updates.value))
    else if project.Err? && (updates.Ok? || projectFailsFirst) then
      Rejected(RejectValue(project.error, "Failed to fetch project details"))
    else Rejected(RejectValue(updates.error, "Failed to fetch project details"))
  }

  /** The form fields the update form submits. */
  datatype UpdateDraft = UpdateDraft(
    title: string, description: string, remarks: Option<string>, status: Option<string>)

  /** The body posted to create an update. */
  datatype UpdateBody = UpdateBody(
    title: string, description: string, remarks: Option<string>, status: Option<string>,
    updateType: string, files: seq<UploadedFile>)

  function Uploaded(uploads: seq<Option<UploadedFile>>): (files: seq<UploadedFile>)
    requires forall i :: 0 <= i < |uploads| ==> uploads[i].Some?
    ensures |files| == |uploads|
    ensures forall i :: 0 <= i < |uploads| ==> files[i] == uploads[i].value
  {
    seq(|uploads|, i requires 0 <= i < |uploads| => uploads[i].value)
  }

  /** The first half of createProjectUpdate: every image is uploaded
      (`None` is an upload the image host refused); a single refusal
      rejects the whole operation with the fallback message, before anything
      is posted. Otherwise the body is the draft with the fixed update type
      and the uploaded files in image order. */
  function PrepareUpdate(draft: UpdateDraft, uploads: seq<Option<UploadedFile>>): (r: Outcome<UpdateBody, ErrorBody>)
    ensures r.Ok? <==> forall i :: 0 <= i < |uploads| ==> uploads[i].Some?
    ensures r.Err? ==> r.error == ErrorBody(Some("Failed to create update"))
    ensures r.Ok? ==> && r.value.updateType == "development_update"
                      && r.value.title == draft.title && r.value.description == draft.description
                      && r.value.remarks == draft.remarks && r.value.status == draft.status
                      && |r.value.files| == |uploads|
                      && forall i :: 0 <= i < |uploads| ==> r.value.files[i] == uploads[i].value
  {
    if forall i :: 0 <= i < |uploads| ==> uploads[i].Some? then
      Ok(UpdateBody(draft.title, draft.description, draft.remarks, draft.status,
                    "development_update", Uploaded(uploads)))
    else Err(ErrorBody(Some("Failed to create update")))
  }

  // ---- actions and reducer ----

  datatype Action =
    | ClearError
    | ClearSuccess
    | SetFilters(FilterPatch)
    | ClearSelectedProject
    | ResetProjects
    | FetchDesignerProjects(Phase<seq<DesignerProject>, ErrorBody>)
    | FetchProjectDetails(Phase<Details, ErrorBody>)
    | CreateProjectUpdate(Phase<ProjectUpdate, ErrorBody>)
    | UpdateProjectStatus(Phase<DesignerProject, ErrorBody>)

  function ProjectId(p: DesignerProject): string { p.id }

  function MergeFilters(f: Filters, p: FilterPatch): (r: Filters)
    ensures p.status.Some? ==> r.status == p.status.value
    ensures p.status.None? ==> r.status == f.status
    ensures p.priority.Some? ==> r.priority == p.priority.value
    ensures p.priority.None? ==> r.priority == f.priority
    ensures p.sortBy.Some? ==> r.sortBy == p.sortBy.value
    ensures p.sortBy.None? ==> r.sortBy == f.sortBy
  {
    Filters(p.status.GetOr(f.status), p.priority.GetOr(f.priority), p.sortBy.GetOr(f.sortBy))
  }

  /** `{ ...p, ...q }` of two `setFilters` payloads: the later key wins. */
  function ThenPatch(p: FilterPatch, q: FilterPatch): FilterPatch {
    FilterPatch(if q.status.Some? then q.status else p.status,
                if q.priority.Some? then q.priority else p.priority,
                if q.sortBy.Some? then q.sortBy else p.sortBy)
  }

  /** Merging is a patch application: applying a patch twice is applying it
      once, an empty patch changes nothing, and two patches in a row are
      the single patch in which the later key wins. */
  lemma MergeFiltersLaws(f: Filters, p: FilterPatch, q: FilterPatch)
    ensures MergeFilters(MergeFilters(f, p), p) == MergeFilters(f, p)
    ensures MergeFilters(f, FilterPatch(None, None, None)) == f
    ensures MergeFilters(MergeFilters(f, p), q) == MergeFilters(f, ThenPatch(p, q))
  {
  }

  function Reduce(s: State, a: Action): State {
    match a
    case ClearError => s.(error := None)
    case ClearSuccess => s.(success := false)
    case SetFilters(p) => s.(filters := MergeFilters(s.filters, p))
    case ClearSelectedProject => s.(selectedProject := None, projectUpdates := [])
    case ResetProjects => Initial
    case FetchDesignerProjects(ph) =>
      (match ph
       case Pending => s.(loading := true, error := None)
       case Fulfilled(ps) => s.(loading := false, projects := ps)
       case Rejected(b) =>
         s.(loading := false, error := Some(MessageOr(b, "Failed to fetch projects"))))
    case FetchProjectDetails(ph) =>
      (match ph
       case Pending => s.(loading := true, error := None)
       case Fulfilled(d) =>
         s.(loading := false, selectedProject := Some(d.project), projectUpdates := d.updates)
       case Rejected(b) =>
         s.(loading := false, error := Some(MessageOr(b, "Failed to fetch project details"))))
    case CreateProjectUpdate(ph) =>
      (match ph
       case Pending => s.(updateLoading := true, error := None)
       case Fulfilled(u) =>
         s.(updateLoading := false, success := true, projectUpdates := [u] + s.projectUpdates)
       case Rejected(b) =>
         s.(updateLoading := false, error := Some(MessageOr(b, "Failed to create update"))))
    case UpdateProjectStatus(ph) =>
      (match ph
       case Pending => s.(updateLoading := true, error := None)
       case Fulfilled(p) =>
         s.(updateLoading := false, success := true,
            projects := Lists.ReplaceFirstByKey(s.projects, ProjectId, p.id, p),
            selectedProject :=
              if s.selectedProject.Some? && s.selectedProject.value.id == p.id then Some(p)
              else s.selectedProject)
       case Rejected(b) =>
         s.(updateLoading := false, error := Some(MessageOr(b, "Failed to update status"))))
  }

  // ---- the filtered-projects selector ----

  /** `{ urgent: 0, high: 1, medium: 2, low: 3 }`. */
  function PriorityRank(p: Priority): (k: int)
    ensures 0 <= k <= 3
    ensures k == 0 <==> p == Urgent
    ensures k == 1 <==> p == High
    ensures k == 2 <==> p == Medium
    ensures k == 3 <==> p == Low
  {
    match p
    case Urgent => 0
    case High => 1
    case Medium => 2
    case Low => 3
  }

  function Deadline(p: DesignerProject): int { p.deadline }
  function Rank(p: DesignerProject): int { PriorityRank(p.priority) }
  /** Newest first: ascending in the negated creation time. */
  function Newness(p: DesignerProject): int { -p.createdAt }

  function HasStatus(st: string): DesignerProject -> bool {
    (p: DesignerProject) => p.status == st
  }

  function HasPriority(pr: Priority): DesignerProject -> bool {
    (p: DesignerProject) => p.priority == pr
  }

  /** Whether a project passes the truthy filters. */
  predicate Passes(f: Filters, p: DesignerProject) {
    (Truthy(f.status) ==> p.status == f.status.value)
    && (f.priority.Some? ==> p.priority == f.priority.value)
  }

  /** The two filter steps, in the order the selector applies them. */
  function FilterStep(projects: seq<DesignerProject>, f: Filters): (r: seq<DesignerProject>)
    ensures forall p :: multiset(r)[p] == if Passes(f, p) then multiset(projects)[p] else 0
    ensures Lists.IsSubsequence(r, projects)
  {
    var byStatus := if Truthy(f.status) then Lists.Filter(projects, HasStatus(f.status.value)) else projects;
    Lists.SubsequenceOfSelf(projects);
    var r := if f.priority.Some? then Lists.Filter(byStatus, HasPriority(f.priority.value)) else byStatus;
    Lists.SubsequenceOfSelf(byStatus);
    SubsequenceTrans(r, byStatus, projects);
    r
  }

  lemma {:induction false} SubsequenceTrans<T>(a: seq<T>, b: seq<T>, c: seq<T>)
    requires Lists.IsSubsequence(a, b) && Lists.IsSubsequence(b, c)
    ensures Lists.IsSubsequence(a, c)
    decreases |c|
  {
    if |a| > 0 {
      assert |b| > 0 && |c| > 0;
      if b[0] == c[0] {
        if a[0] == b[0] {
          SubsequenceTrans(a[1..], b[1..], c[1..]);
        } else {
          SubsequenceTrans(a, b[1..], c[1..]);
        }
      } else {
        SubsequenceTrans(a, b, c[1..]);
        Lists.SubsequenceWeaken(a, c);
      }
    }
  }

  /** selectFilteredProjects: the truthy filters applied, then a stable
      sort by the chosen order; an unknown or null `sortBy` keeps the list
      order. */
  function SelectFilteredProjects(s: State): (r: seq<DesignerProject>)
    ensures forall p :: multiset(r)[p] == if Passes(s.filters, p) then multiset(s.projects)[p] else 0
    ensures s.filters.sortBy == Some("deadline") ==> Lists.SortedByKey(r, Deadline)
    ensures s.filters.sortBy == Some("priority") ==> Lists.SortedByKey(r, Rank)
    ensures s.filters.sortBy == Some("createdAt") ==>
              forall i, j :: 0 <= i < j < |r| ==> r[i].createdAt >= r[j].createdAt
    ensures s.filters.sortBy !in {Some("deadline"), Some("priority"), Some("createdAt")} ==>
              Lists.IsSubsequence(r, s.projects)
  {
    var filtered := FilterStep(s.projects, s.filters);
    if s.filters.sortBy == Some("deadline") then Lists.SortByKey(filtered, Deadline)
    else if s.filters.sortBy == Some("priority") then Lists.SortByKey(filtered, Rank)
    else if s.filters.sortBy == Some("createdAt") then
      var r := Lists.SortByKey(filtered, Newness);
      assert forall i, j :: 0 <= i < j < |r| ==> Newness(r[i]) <= Newness(r[j]);
      r
    else filtered
  }

  /** The order the selector sorts by, as a key. */
  function SortKey(sortBy: string): DesignerProject -> int {
    if sortBy == "deadline" then Deadline
    else if sortBy == "priority" then Rank
    else Newness
  }

  /** The selector sorts stably: projects that tie on the sort key keep the
      relative order they have in the container. */
  lemma SelectorIsStable(s: State, k: int)
    requires s.filters.sortBy.Some? && s.filters.sortBy.value in {"deadline", "priority", "createdAt"}
    ensures var key := SortKey(s.filters.sortBy.value);
            Lists.Filter(SelectFilteredProjects(s), Lists.KeyIs(key, k))
            == Lists.Filter(FilterStep(s.projects, s.filters), Lists.KeyIs(key, k))
  {
    var key := SortKey(s.filters.sortBy.value);
    Lists.SortIsStable(FilterStep(s.projects, s.filters), key, k);
  }

  /** With no truthy filter the selector keeps every project, each as often
      as the container holds it. */
  lemma NoFilterKeepsAll(s: State)
    requires !Truthy(s.filters.status) && s.filters.priority.None?
    ensures multiset(SelectFilteredProjects(s)) == multiset(s.projects)
  {
    var r := SelectFilteredProjects(s);
    assert forall p :: multiset(r)[p] == multiset(s.projects)[p];
  }

  // ---- reducer properties ----

  /** A status update replaces the project in the list in place and the
      open project only when it has the same id. */
  lemma StatusUpdateInPlace(s: State, p: DesignerProject)
    ensures var r := Reduce(s, UpdateProjectStatus(Fulfilled(p)));
            var k := Lists.IndexOfKey(s.projects, ProjectId, p.id);
            && |r.projects| == |s.projects|
            && (k >= 0 ==> r.projects[k] == p)
            && (forall i :: 0 <= i < |s.projects| && i != k ==> r.projects[i] == s.projects[i])
            && (s.selectedProject.Some? && s.selectedProject.value.id == p.id ==> r.selectedProject == Some(p))
            && (s.selectedProject.None? || s.selectedProject.value.id != p.id ==> r.selectedProject == s.selectedProject)
            && r.success && !r.updateLoading && r.loading == s.loading
  {
  }

  /** A status change keeps one entry per project id in the list. */
  lemma IdsStayUnique(s: State, p: DesignerProject)
    requires Lists.UniqueKeys(s.projects, ProjectId)
    ensures Lists.UniqueKeys(Reduce(s, UpdateProjectStatus(Fulfilled(p))).projects, ProjectId)
  {
    Lists.ReplaceKeepsKeys(s.projects, ProjectId, p.id, p);
  }

  /** A new update goes in front of the open project's updates. */
  lemma CreateUpdatePrepends(s: State, u: ProjectUpdate)
    ensures var r := Reduce(s, CreateProjectUpdate(Fulfilled(u)));
            && r.projectUpdates == [u] + s.projectUpdates
            && r.projects == s.projects && r.selectedProject == s.selectedProject
            && r.success && !r.updateLoading
  {
  }

  /** Opening a project is all or nothing: when both requests succeed the
      project and its updates are set together; when either fails neither
      changes, the list stays, and a non-empty error is stored, the
      fallback when the failed request got no response. */
  lemma DetailsAllOrNothing(s: State, project: Outcome<DesignerProject, Option<ErrorBody>>,
                            updates: Outcome<seq<ProjectUpdate>, Option<ErrorBody>>, projectFailsFirst: bool)
    ensures var r := Reduce(s, FetchProjectDetails(FetchDetailsResult(project, updates, projectFailsFirst)));
            && !r.loading && r.projects == s.projects
            && (project.Ok? && updates.Ok? ==>
                  r.selectedProject == Some(project.value) && r.projectUpdates == updates.value
                  && r.error == s.error)
            && (!(project.Ok? && updates.Ok?) ==>
                  r.selectedProject == s.selectedProject && r.projectUpdates == s.projectUpdates
                  && r.error.Some? && r.error.value != "")
            && (!(project.Ok? && updates.Ok?) && (project.Err? ==> project.error.None?)
                && (updates.Err? ==> updates.error.None?) ==>
                  r.error == Some("Failed to fetch project details"))
  {
    var ph := FetchDetailsResult(project, updates, projectFailsFirst);
    if ph.Rejected? {
      MessageOrChoice(ph.reason, "Failed to fetch project details");
    }
  }

  /** The list operations drive `loading`, the update operations drive
      `updateLoading`. Each of the four rejections lowers its own flag,
      stores the body's message or that operation's fallback, and keeps the
      list, the open project and its updates. */
  lemma FlagsAndRejections(s: State, b: ErrorBody)
    ensures var r := Reduce(s, CreateProjectUpdate(Pending));
            r.updateLoading && r.loading == s.loading && r.error == None
    ensures var r := Reduce(s, FetchProjectDetails(Pending));
            r.loading && r.updateLoading == s.updateLoading && r.error == None
    ensures var r := Reduce(s, UpdateProjectStatus(Rejected(b)));
            && !r.updateLoading && r.projects == s.projects && r.selectedProject == s.selectedProject
            && r.projectUpdates == s.projectUpdates
            && r.error == Some(if Truthy(b.message) then b.message.value else "Failed to update status")
    ensures var r := Reduce(s, FetchDesignerProjects(Rejected(b)));
            && !r.loading && r.projects == s.projects && r.selectedProject == s.selectedProject
            && r.projectUpdates == s.projectUpdates
            && r.error == Some(if Truthy(b.message) then b.message.value else "Failed to fetch projects")
    ensures var r := Reduce(s, FetchProjectDetails(Rejected(b)));
            && !r.loading && r.projects == s.projects && r.selectedProject == s.selectedProject
            && r.projectUpdates == s.projectUpdates
            && r.error == Some(if Truthy(b.message) then b.message.value else "Failed to fetch project details")
    ensures var r := Reduce(s, CreateProjectUpdate(Rejected(b)));
            && !r.updateLoading && r.projects == s.projects && r.selectedProject == s.selectedProject
            && r.projectUpdates == s.projectUpdates
            && r.error == Some(if Truthy(b.message) then b.message.value else "Failed to create update")
  {
  }

  /** Closing the open project drops its updates too; a reset restores the
      initial state with its deadline ordering. */
  lemma ClearAndReset(s: State)
    ensures Reduce(s, ClearSelectedProject).selectedProject == None
    ensures Reduce(s, ClearSelectedProject).projectUpdates == []
    ensures Reduce(s, ClearSelectedProject).projects == s.projects
    ensures Reduce(s, ResetProjects) == Initial
    ensures Initial.filters.sortBy == Some("deadline")
  {
  }
}
