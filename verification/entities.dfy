/** The records the backend returns and the state containers hold. Only the
    fields some reducer, selector or page helper reads are modelled; an
    optional text field read through `||` is a `string` whose empty value
    stands for "absent", an optional number is an `Option<int>`. */
module Entities {
  import opened Common

  /** An account: employee, sales person, designer, developer, admin. */
  datatype User = User(
    id: string,
    name: string,
    email: string,
    phone: string,
    address: string,
    role: string,
    salary: Option<int>,
    joiningDate: string,
    active: bool,
    isApproved: bool)

  /** A client account as the admin client list holds it. */
  datatype Client = Client(
    id: string,
    name: string,
    email: string,
    phone: string,
    active: bool,
    isApproved: bool,
    projectCount: Option<int>,
    projectIds: seq<string>)

  /** A client object returned by an update: the fields it carries replace
      the stored ones, the absent (`None`) ones leave them as they were. */
  datatype ClientPatch = ClientPatch(
    id: string,
    name: Option<string>,
    email: Option<string>,
    phone: Option<string>,
    active: Option<bool>,
    isApproved: Option<bool>,
    projectCount: Option<int>,
    projectIds: Option<seq<string>>)

  /** `{ ...c, ...p }` for a client and a response object of the same id. */
  function MergeClient(c: Client, p: ClientPatch): (r: Client)
    ensures r.id == p.id
    ensures p.name.Some? ==> r.name == p.name.value
    ensures p.name.None? ==> r.name == c.name
    ensures p.email.Some? ==> r.email == p.email.value
    ensures p.email.None? ==> r.email == c.email
    ensures p.phone.Some? ==> r.phone == p.phone.value
    ensures p.phone.None? ==> r.phone == c.phone
    ensures p.active.Some? ==> r.active == p.active.value
    ensures p.active.None? ==> r.active == c.active
    ensures p.isApproved.Some? ==> r.isApproved == p.isApproved.value
    ensures p.isApproved.None? ==> r.isApproved == c.isApproved
    ensures p.projectCount.Some? ==> r.projectCount == p.projectCount
    ensures p.projectCount.None? ==> r.projectCount == c.projectCount
    ensures p.projectIds.Some? ==> r.projectIds == p.projectIds.value
    ensures p.projectIds.None? ==> r.projectIds == c.projectIds
  {
    Client(p.id, p.name.GetOr(c.name), p.email.GetOr(c.email), p.phone.GetOr(c.phone),
           p.active.GetOr(c.active), p.isApproved.GetOr(c.isApproved),
           if p.projectCount.Some? then p.projectCount else c.projectCount,
           p.projectIds.GetOr(c.projectIds))
  }

  /** A sales lead. `company` is "" when the lead has none. */
  datatype Lead = Lead(
    id: string,
    clientName: string,
    clientEmail: string,
    clientPhone: string,
    company: string,
    description: string,
    category: string,
    status: string,
    priority: string,
    estimatedValue: int,
    actualValue: Option<int>,
    nextFollowUpDate: Option<int>,
    salesPersonId: Option<string>)

  /** The `user` field of an attendance record: either the populated user
      object or the bare id string. */
  datatype UserRef = Populated(user: User) | RawId(id: string)

  /** A day's attendance of one user. Dates and times are the ISO strings the
      backend stores; hours are whole numbers in this model. */
  datatype AttendanceRecord = AttendanceRecord(
    id: string,
    user: UserRef,
    date: string,
    status: string,
    checkIn: Option<string>,
    checkOut: Option<string>,
    totalHours: int,
    remarks: string)

  /** The fields an `updateLocalAttendance` payload may carry. */
  datatype AttendancePatch = AttendancePatch(
    id: string,
    status: Option<string>,
    checkIn: Option<Option<string>>,
    checkOut: Option<Option<string>>,
    totalHours: Option<int>,
    remarks: Option<string>)

  /** `{ ...a, ...p }` for an attendance record. */
  function MergeAttendance(a: AttendanceRecord, p: AttendancePatch): (r: AttendanceRecord)
    ensures r.id == p.id && r.user == a.user && r.date == a.date
    ensures p.status.Some? ==> r.status == p.status.value
    ensures p.status.None? ==> r.status == a.status
    ensures p.checkIn.Some? ==> r.checkIn == p.checkIn.value
    ensures p.checkIn.None? ==> r.checkIn == a.checkIn
    ensures p.checkOut.Some? ==> r.checkOut == p.checkOut.value
    ensures p.checkOut.None? ==> r.checkOut == a.checkOut
    ensures p.totalHours.Some? ==> r.totalHours == p.totalHours.value
    ensures p.totalHours.None? ==> r.totalHours == a.totalHours
    ensures p.remarks.Some? ==> r.remarks == p.remarks.value
    ensures p.remarks.None? ==> r.remarks == a.remarks
  {
    AttendanceRecord(p.id, a.user, a.date, p.status.GetOr(a.status),
                     p.checkIn.GetOr(a.checkIn), p.checkOut.GetOr(a.checkOut),
                     p.totalHours.GetOr(a.totalHours), p.remarks.GetOr(a.remarks))
  }

  /** Spreading the same response twice is spreading it once, and a
      response of the record's own id that carries nothing leaves the record
      as it was. */
  lemma MergesAreIdempotent(c: Client, p: ClientPatch, a: AttendanceRecord, q: AttendancePatch)
    ensures MergeClient(MergeClient(c, p), p) == MergeClient(c, p)
    ensures MergeClient(c, ClientPatch(c.id, None, None, None, None, None, None, None)) == c
    ensures MergeAttendance(MergeAttendance(a, q), q) == MergeAttendance(a, q)
    ensures MergeAttendance(a, AttendancePatch(a.id, None, None, None, None, None)) == a
  {
  }

  datatype Priority = Low | Medium | High | Urgent

  /** A project as the designer and developer dashboards hold it. Dates are
      timestamps. */
  datatype DesignerProject = DesignerProject(
    id: string,
    name: string,
    status: string,
    priority: Priority,
    progress: int,
    deadline: int,
    createdAt: int)

  /** An uploaded attachment of a project update. */
  datatype UploadedFile = UploadedFile(name: string, url: string, publicId: string)

  /** A progress report posted on a project. */
  datatype ProjectUpdate = ProjectUpdate(
    id: string,
    title: string,
    description: string,
    files: seq<UploadedFile>,
    remarks: Option<string>,
    updateType: string,
    status: Option<string>)

  /** A reference to a populated user inside a project. */
  datatype Ref = Ref(id: string)

  /** A project as the admin project list holds it. Dates are ISO strings,
      "" when absent. */
  datatype Project = Project(
    id: string,
    name: string,
    description: string,
    client: Option<Ref>,
    designers: Option<seq<Ref>>,
    developers: Option<seq<Ref>>,
    status: string,
    priority: string,
    startDate: string,
    deadline: string,
    budget: Option<int>,
    progress: Option<int>,
    paid: Option<int>)
}
