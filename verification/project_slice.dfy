/** The admin project list container: the list, one loading flag and one
    error slot. */
module ProjectSlice {
  import opened Common
  import opened Entities

  datatype State = State(list: seq<Project>, loading: bool, error: Option<string>)

  const Initial := State([], false, None)

  datatype Action =
    | FetchProjects(Phase<ListPayload<Project>, ErrorBody>)
    | CreateProject(Phase<Project, ErrorBody>)

  function Reduce(s: State, a: Action): State {
    match a
    case FetchProjects(ph) =>
      (match ph
       case Pending => s.(loading := true)
       case Fulfilled(p) => s.(loading := false, list := Normalize(p))
       case Rejected(b) => s.(loading := false, error := b.message))
    case CreateProject(ph) =>
      (match ph
       case Fulfilled(p) => s.(list := s.list + [p])
       case _ => s)
  }

  // ---- properties ----

  /** A created project is appended as returned: the list grows by one and
      its prefix is the old list. */
  lemma CreateAppends(s: State, p: Project)
    ensures var r := Reduce(s, CreateProject(Fulfilled(p)));
            && |r.list| == |s.list| + 1 && r.list[..|s.list|] == s.list && r.list[|s.list|] == p
            && r.loading == s.loading && r.error == s.error
  {
  }

  /** Creation has no pending or rejected case. */
  lemma CreateOtherPhases(s: State, b: ErrorBody)
    ensures Reduce(s, CreateProject(Pending)) == s
    ensures Reduce(s, CreateProject(Rejected(b))) == s
  {
  }

  /** The fetch normalises the payload, keeps an earlier error while
      pending, and keeps the list when it fails. */
  lemma FetchCases(s: State, xs: seq<Project>, b: ErrorBody)
    ensures Reduce(s, FetchProjects(Fulfilled(BareArray(xs)))).list == xs
    ensures Reduce(s, FetchProjects(Fulfilled(Wrapped(Some(xs))))).list == xs
    ensures Reduce(s, FetchProjects(Fulfilled(Wrapped(None)))).list == []
    ensures var r := Reduce(s, FetchProjects(Pending)); r.loading && r.error == s.error
    ensures var r := Reduce(s, FetchProjects(Rejected(b)));
            !r.loading && r.list == s.list && r.error == b.message
  {
  }
}
