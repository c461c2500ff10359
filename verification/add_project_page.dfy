/** The admin's project editor: the form filled from a project, the
    multi-select of designers and developers, the form reset, and the
    choice between creating and updating on save. */
module AddProjectPage {
  import opened Common
  import opened Entities
  import Text
  import Lists

  /** The editor's form. `budget` is `None` for the empty field; `paid` is
      `None` when the form has no such field at all (after a reset). */
  datatype ProjectForm = ProjectForm(
    name: string, description: string, client: string,
    designers: seq<string>, developers: seq<string>,
    status: string, priority: string, startDate: string, deadline: string,
    budget: Option<int>, progress: int, paid: Option<int>)

  /** The form the page starts with. */
  const InitialForm := ProjectForm("", "", "", [], [], "pending", "medium", "", "", None, 0, Some(0))

  /** `resetForm`: the starting values, but without the `paid` field. */
  const ResetForm := ProjectForm("", "", "", [], [], "pending", "medium", "", "", None, 0, None)

  /** The ids of a populated user list, `[]` when the list is missing. */
  function Ids(refs: Option<seq<Ref>>): (ids: seq<string>)
    ensures refs.None? ==> ids == []
    ensures refs.Some? ==> |ids| == |refs.value| && forall i :: 0 <= i < |ids| ==> ids[i] == refs.value[i].id
  {
    match refs
    case None => []
    case Some(rs) => seq(|rs|, i requires 0 <= i < |rs| => rs[i].id)
  }

  /** `x || 0` and `x || ''` on an optional number: a missing value and 0
      both give the fallback. */
  function NumberOr(x: Option<int>, fallback: int): int {
    if x.Some? && x.value != 0 then x.value else fallback
  }

  /** `d ? d.split('T')[0] : ''`: a stored date cut to its day. */
  function DayOf(d: string): (r: string)
    ensures 'T' !in r && Text.StartsWith(d, r)
    ensures r == d <==> 'T' !in d
    ensures |r| < |d| ==> d[|r|] == 'T'
  {
    if d == "" then "" else Text.DatePart(d)
  }

  /** `handleProjectClick`: the form filled from a fetched project. */
  function PopulateForm(p: Project): (f: ProjectForm)
    ensures f.status == (if p.status == "" then "pending" else p.status)
    ensures f.priority == (if p.priority == "" then "medium" else p.priority)
    ensures f.progress == (if p.progress.Some? then p.progress.value else 0)
    ensures f.paid == Some(if p.paid.Some? then p.paid.value else 0)
    ensures f.budget.Some? <==> p.budget.Some? && p.budget.value != 0
    ensures f.name == p.name && f.description == p.description
    ensures f.designers == Ids(p.designers) && f.developers == Ids(p.developers)
    ensures f.budget.Some? ==> f.budget == p.budget
    ensures 'T' !in f.startDate && 'T' !in f.deadline
    ensures Text.StartsWith(p.startDate, f.startDate) && Text.StartsWith(p.deadline, f.deadline)
    ensures f.startDate == p.startDate <==> 'T' !in p.startDate
    ensures f.deadline == p.deadline <==> 'T' !in p.deadline
    ensures |f.startDate| < |p.startDate| ==> p.startDate[|f.startDate|] == 'T'
    ensures |f.deadline| < |p.deadline| ==> p.deadline[|f.deadline|] == 'T'
    ensures f.client == (if p.client.Some? then p.client.value.id else "")
  {
    var startDate := DayOf(p.startDate);
    var deadline := DayOf(p.deadline);
    var designers := Ids(p.designers);
    var developers := Ids(p.developers);
    ProjectForm(p.name, p.description, if p.client.Some? then p.client.value.id else "",
                designers, developers,
                if p.status == "" then "pending" else p.status,
                if p.priority == "" then "medium" else p.priority,
                startDate, deadline,
                if p.budget.Some? && p.budget.value != 0 then p.budget else None,
                NumberOr(p.progress, 0), Some(NumberOr(p.paid, 0)))
  }

  /** A project with every field set and timestamp dates fills the form
      with exactly its own values, the dates cut to their day. */
  lemma PopulateCompleteProject(p: Project, sd: string, st: string, dd: string, dt: string)
    requires p.status != "" && p.priority != "" && p.client.Some?
    requires p.budget.Some? && p.budget.value != 0
    requires 'T' !in sd && p.startDate == sd + "T" + st
    requires 'T' !in dd && p.deadline == dd + "T" + dt
    ensures var f := PopulateForm(p);
            && f.status == p.status && f.priority == p.priority && f.client == p.client.value.id
            && f.budget == p.budget && f.startDate == sd && f.deadline == dd
  {
    Text.DatePartOfTimestamp(sd, st);
    Text.DatePartOfTimestamp(dd, dt);
  }

  /** An empty project fills the form with the page's starting values. */
  lemma PopulateEmptyProject(id: string)
    ensures PopulateForm(Project(id, "", "", None, None, None, "", "", "", "", None, None, None)) == InitialForm
  {
  }

  /** A reset gives the starting form except that `paid` is gone. */
  lemma ResetDropsPaid()
    ensures ResetForm == InitialForm.(paid := None)
    ensures ResetForm != InitialForm
  {
  }

  datatype MultiField = Designers | Developers

  /** `handleMultiSelect(name, value)`. */
  function MultiSelect(f: ProjectForm, field: MultiField, id: string): ProjectForm {
    match field
    case Designers => f.(designers := Lists.Toggle(f.designers, id))
    case Developers => f.(developers := Lists.Toggle(f.developers, id))
  }

  /** The selected list of a field. */
  function Selected(f: ProjectForm, field: MultiField): seq<string> {
    match field
    case Designers => f.designers
    case Developers => f.developers
  }

  /** A selection flips the membership of that id in that list only: a
      present id is removed everywhere and every other id stays, in order
      and as often as before; an absent one is appended at the end; every
      other id keeps its membership, and the other list and
      every other field are unchanged; a second selection restores the
      membership of every id. */
  lemma MultiSelectFlips(f: ProjectForm, field: MultiField, id: string)
    ensures var r := MultiSelect(f, field, id);
            && (id in Selected(r, field) <==> id !in Selected(f, field))
            && (id !in Selected(f, field) ==> Selected(r, field) == Selected(f, field) + [id])
            && (id in Selected(f, field) ==> Lists.IsSubsequence(Selected(r, field), Selected(f, field)))
            && (id in Selected(f, field) ==>
                  forall x :: x != id ==> multiset(Selected(r, field))[x] == multiset(Selected(f, field))[x])
            && (forall x :: x != id ==> (x in Selected(r, field) <==> x in Selected(f, field)))
            && (field == Designers ==> r.developers == f.developers)
            && (field == Developers ==> r.designers == f.designers)
            && r.(designers := f.designers, developers := f.developers) == f
    ensures forall x :: x in Selected(MultiSelect(MultiSelect(f, field, id), field, id), field)
                        <==> x in Selected(f, field)
  {
    Lists.ToggleTwice(Selected(f, field), id);
  }

  /** What saving does. */
  datatype SaveEffect =
    | CreateProject(form: ProjectForm)
    | UpdateProject(path: string, form: ProjectForm)
    /** an edit view without a selected project throws before the request
        and ends in the failure alert */
    | SaveFails

  /** `handleSave`. */
  function HandleSave(view: string, selected: Option<Project>, f: ProjectForm): (e: SaveEffect)
    ensures view == "create" <==> e.CreateProject?
  {
    if view == "create" then CreateProject(f)
    else if selected.Some? then UpdateProject("/admin/projects/" + selected.value.id, f)
    else SaveFails
  }

  /** Saving creates in the create view and otherwise updates the selected
      project at its own path, sending the form as it is. */
  lemma SaveChoice(view: string, p: Project, f: ProjectForm)
    requires view != "create"
    ensures HandleSave(view, Some(p), f).UpdateProject?
    ensures HandleSave(view, Some(p), f).form == f
    ensures Text.StartsWith(HandleSave(view, Some(p), f).path, "/admin/projects/")
    ensures HandleSave(view, Some(p), f).path[|"/admin/projects/"|..] == p.id
    ensures HandleSave(view, None, f) == SaveFails
    ensures HandleSave("create", Some(p), f) == HandleSave("create", None, f) == CreateProject(f)
  {
    var path := "/admin/projects/" + p.id;
    assert path[..|"/admin/projects/"|] == "/admin/projects/";
  }
}
