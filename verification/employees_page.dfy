/** The admin's employee list: the search, role and status filter, the role
    label and badge colour, and the edit form filled from an employee. The
    active/inactive status filter defined here is shared with the client
    list. */
module EmployeesPage {
  import opened Common
  import opened Entities
  import Text
  import Lists

  /** The status select: "all", "active", "inactive"; any other value
      matches nobody. */
  predicate MatchesStatus(filter: string, active: bool) {
    filter == "all" || (filter == "active" && active) || (filter == "inactive" && !active)
  }

  /** The search box: the lowered term inside the lowered name or e-mail. */
  predicate MatchesSearch(u: User, term: string) {
    Text.Contains(Text.ToLower(u.name), Text.ToLower(term))
    || Text.Contains(Text.ToLower(u.email), Text.ToLower(term))
  }

  function Keeps(term: string, role: string, status: string): User -> bool {
    (u: User) => MatchesSearch(u, term) && (role == "all" || u.role == role) && MatchesStatus(status, u.active)
  }

  /** `filteredEmployees`: the employees passing all three tests, in list
      order. */
  function FilterEmployees(users: seq<User>, term: string, role: string, status: string): (r: seq<User>)
    ensures Lists.IsSubsequence(r, users)
    ensures forall i :: 0 <= i < |r| ==>
              MatchesSearch(r[i], term) && (role != "all" ==> r[i].role == role)
              && (status == "active" ==> r[i].active) && (status == "inactive" ==> !r[i].active)
    ensures forall u :: (u in users && MatchesSearch(u, term) && (role == "all" || u.role == role)
                         && MatchesStatus(status, u.active)) ==> u in r
    ensures forall u :: multiset(r)[u] ==
              if MatchesSearch(u, term) && (role == "all" || u.role == role) && MatchesStatus(status, u.active)
              then multiset(users)[u] else 0
  {
    var r := Lists.Filter(users, Keeps(term, role, status));
    assert forall u :: u in r <==> multiset(r)[u] > 0;
    r
  }

  /** An empty search matches everybody, so with both selects on "all" the
      whole list is shown; a status value other than the three options
      shows nobody. */
  lemma EmptySearchKeepsAll(users: seq<User>, status: string)
    ensures FilterEmployees(users, "", "all", "all") == users
    ensures status != "all" && status != "active" && status != "inactive" ==>
              FilterEmployees(users, "", "all", status) == []
  {
    forall i | 0 <= i < |users|
      ensures Keeps("", "all", "all")(users[i])
    {
      Text.EmptyIsContained(Text.ToLower(users[i].name));
    }
    Lists.FilterAll(users, Keeps("", "all", "all"));
  }

  /** `formatRole`. */
  function FormatRole(role: string): string {
    Text.FormatLabel(role)
  }

  /** The administrator role reads "Super Admin". */
  lemma SuperAdminLabel()
    ensures FormatRole("super_admin") == "Super Admin"
  {
    assert "super_admin" == "super" + "_" + "admin";
    Text.ReplaceFirstAt("super", "admin", '_', ' ');
    assert "super" + " " + "admin" == "super admin";
    CapitalizeSuperAdmin();
    assert Text.FormatLabel("super_admin") == "Super Admin";
  }

  lemma CapitalizeSuperAdmin()
    ensures Text.CapitalizeWords("super admin") == "Super Admin"
  {
    var r := Text.CapitalizeWords("super admin");
    assert r[0] == 'S' && r[1] == 'u';
  }

  /** `getRoleBadgeColor`: the four known roles have their own colours,
      every other role gets the grey default. */
  function RoleBadgeColor(role: string): (c: string)
    ensures role !in {"super_admin", "sales", "designer", "developer"} ==> c == "bg-gray-100 text-gray-800"
  {
    if role == "super_admin" then "bg-purple-100 text-purple-800"
    else if role == "sales" then "bg-blue-100 text-blue-800"
    else if role == "designer" then "bg-pink-100 text-pink-800"
    else if role == "developer" then "bg-green-100 text-green-800"
    else "bg-gray-100 text-gray-800"
  }

  /** The badge tells the four known roles apart from each other and from
      any other role. */
  lemma BadgeColorsDistinct(a: string, b: string)
    requires a in {"super_admin", "sales", "designer", "developer"}
    requires a != b
    ensures RoleBadgeColor(a) != RoleBadgeColor(b)
  {
  }

  /** The edit form. */
  datatype EditForm = EditForm(
    name: string, email: string, phone: string, address: string, role: string,
    salary: int, joiningDate: string, active: bool)

  /** `handleEditClick`: the employee's fields with an empty role read as
      "developer", a missing salary as 0, and a set joining date
      re-serialised and cut to its date part. `iso` stands for
      `new Date(d).toISOString()`, which the browser computes. */
  function EditFormFor(u: User, iso: string -> string): (f: EditForm)
    ensures f.role == (if u.role == "" then "developer" else u.role)
    ensures f.salary == (if u.salary.Some? then u.salary.value else 0)
    ensures u.joiningDate == "" ==> f.joiningDate == ""
    ensures u.joiningDate != "" ==>
              Text.StartsWith(iso(u.joiningDate), f.joiningDate) && 'T' !in f.joiningDate
              && (|f.joiningDate| < |iso(u.joiningDate)| ==> iso(u.joiningDate)[|f.joiningDate|] == 'T')
    ensures f.name == u.name && f.email == u.email && f.phone == u.phone && f.address == u.address
    ensures f.active == u.active
  {
    var d := if u.joiningDate == "" then "" else Text.DatePart(iso(u.joiningDate));
    EditForm(u.name, u.email, u.phone, u.address, if u.role == "" then "developer" else u.role,
             u.salary.GetOr(0), d, u.active)
  }

  /** For an employee whose role and salary are set and whose joining date
      serialises to a timestamp, the form holds exactly the stored role,
      salary and the timestamp's day. */
  lemma EditFormOfCompleteUser(u: User, iso: string -> string, date: string, time: string)
    requires u.role != "" && u.salary.Some? && u.joiningDate != ""
    requires 'T' !in date && iso(u.joiningDate) == date + "T" + time
    ensures var f := EditFormFor(u, iso);
            f.role == u.role && f.salary == u.salary.value && f.joiningDate == date
  {
    Text.DatePartOfTimestamp(date, time);
  }
}
