/** The attendance container: the record list, today's list, one user's
    month, the statistics of a selected employee, the list filters, and one
    loading flag with its error and success slots. */
module AttendanceSlice {
  import opened Common
  import opened Entities
  import Lists
  import Text

  /** The figures computed from one employee's records for a period. */
  datatype AttendanceStats = AttendanceStats(
    total: int,
    present: int,
    absent: int,
    halfDay: int,
    leave: int,
    workFromHome: int,
    totalHours: int,
    averageHours: real)

  datatype Filters = Filters(userId: Option<string>, startDate: Option<string>, endDate: Option<string>)

  /** A `setFilters` payload: a present key overrides, possibly with null. */
  datatype FilterPatch = FilterPatch(
    userId: Option<Option<string>>,
    startDate: Option<Option<string>>,
    endDate: Option<Option<string>>)

  datatype State = State(
    attendanceRecords: seq<AttendanceRecord>,
    todayAttendance: seq<AttendanceRecord>,
    monthlyAttendance: seq<AttendanceRecord>,
    selectedEmployeeAttendance: Option<seq<AttendanceRecord>>,
    statistics: Option<AttendanceStats>,
    loading: bool,
    error: Option<string>,
    success: bool,
    filters: Filters)

  const NoFilters := Filters(None, None, None)

  const Initial := State([], [], [], None, None, false, None, false, NoFilters)

  // ---- the statistics computed by fetchAttendanceStats ----

  function StatusIs(st: string): AttendanceRecord -> bool {
    (a: AttendanceRecord) => a.status == st
  }

  /** The hour total of fetchAttendanceStats. The source adds
      `totalHours || 0`; here every record carries whole hours, so no
      figure is missing. */
  function HoursSum(xs: seq<AttendanceRecord>): int {
    if |xs| == 0 then 0 else xs[0].totalHours + HoursSum(xs[1..])
  }

  /** The mean of `n` values summing to `total`, 0 when there are none. */
  function Average(total: int, n: nat): (avg: real)
    ensures n == 0 ==> avg == 0.0
    ensures n > 0 ==> avg * (n as real) == total as real
  {
    if n > 0 then (total as real) / (n as real) else 0.0
  }

  /** The statistics of fetchAttendanceStats for a list of records. */
  function ComputeStats(xs: seq<AttendanceRecord>): AttendanceStats {
    AttendanceStats(
      |xs|,
      Lists.Count(xs, StatusIs("present")),
      Lists.Count(xs, StatusIs("absent")),
      Lists.Count(xs, StatusIs("half_day")),
      Lists.Count(xs, StatusIs("leave")),
      Lists.Count(xs, StatusIs("work_from_home")),
      HoursSum(xs),
      Average(HoursSum(xs), |xs|))
  }

  /** The five status counts never exceed the number of records: a record
      has one status. */
  lemma {:induction false} StatusCountsBounded(xs: seq<AttendanceRecord>)
    ensures var st := ComputeStats(xs);
            st.present + st.absent + st.halfDay + st.leave + st.workFromHome <= st.total
    decreases |xs|
  {
    if |xs| > 0 {
      StatusCountsBounded(xs[1..]);
    }
  }

  /** With only the five known statuses, the counts add up to the total. */
  lemma {:induction false} StatusCountsExhaustive(xs: seq<AttendanceRecord>)
    requires forall i :: 0 <= i < |xs| ==>
               xs[i].status in {"present", "absent", "half_day", "leave", "work_from_home"}
    ensures var st := ComputeStats(xs);
            st.present + st.absent + st.halfDay + st.leave + st.workFromHome == st.total
    decreases |xs|
  {
    if |xs| > 0 {
      var t := xs[1..];
      StatusCountsExhaustive(t);
      var st, rest := ComputeStats(xs), ComputeStats(t);
      assert xs[0].status in {"present", "absent", "half_day", "leave", "work_from_home"};
      assert st.present == (if xs[0].status == "present" then 1 else 0) + rest.present;
      assert st.absent == (if xs[0].status == "absent" then 1 else 0) + rest.absent;
      assert st.halfDay == (if xs[0].status == "half_day" then 1 else 0) + rest.halfDay;
      assert st.leave == (if xs[0].status == "leave" then 1 else 0) + rest.leave;
      assert st.workFromHome == (if xs[0].status == "work_from_home" then 1 else 0) + rest.workFromHome;
    }
  }

  // ---- actions ----

  /** The fulfilled payload of fetchAttendanceStats. */
  datatype StatsResult = StatsResult(userId: string, stats: AttendanceStats, attendance: seq<AttendanceRecord>)

  datatype Action =
    | ClearError
    | ClearSuccess
    | SetFilters(FilterPatch)
    | ClearFilters
    | ResetAttendance
    | UpdateLocalAttendance(AttendancePatch)
    | MarkAttendance(Phase<AttendanceRecord, ErrorBody>)
    | FetchAttendance(Phase<seq<AttendanceRecord>, ErrorBody>)
    | UpdateAttendance(Phase<AttendanceRecord, ErrorBody>)
    | FetchTodayAttendance(Phase<seq<AttendanceRecord>, ErrorBody>)
    | FetchMonthlyAttendance(Phase<seq<AttendanceRecord>, ErrorBody>)
    | FetchAttendanceStats(Phase<StatsResult, ErrorBody>)
    | BulkMarkAttendance(Phase<seq<AttendanceRecord>, ErrorBody>)

  function RecordId(a: AttendanceRecord): string { a.id }

  /** `a.user._id`: the id of a populated user; a bare id string has no
      `_id` property, which reads as `undefined` (`None`). */
  function UserKey(a: AttendanceRecord): Option<string> {
    match a.user
    case Populated(u) => Some(u.id)
    case RawId(_) => None
  }

  function MergeFilters(f: Filters, p: FilterPatch): (r: Filters)
    ensures p.userId.Some? ==> r.userId == p.userId.value
    ensures p.userId.None? ==> r.userId == f.userId
    ensures p.startDate.Some? ==> r.startDate == p.startDate.value
    ensures p.startDate.None? ==> r.startDate == f.startDate
    ensures p.endDate.Some? ==> r.endDate == p.endDate.value
    ensures p.endDate.None? ==> r.endDate == f.endDate
  {
    Filters(p.userId.GetOr(f.userId), p.startDate.GetOr(f.startDate), p.endDate.GetOr(f.endDate))
  }

  /** `{ ...p, ...q }` of two `setFilters` payloads: the later key wins. */
  function ThenPatch(p: FilterPatch, q: FilterPatch): FilterPatch {
    FilterPatch(if q.userId.Some? then q.userId else p.userId,
                if q.startDate.Some? then q.startDate else p.startDate,
                if q.endDate.Some? then q.endDate else p.endDate)
  }

  /** Merging is a patch application: applying a patch twice is applying it
      once, an empty patch changes nothing, and two patches in a row are
      the single patch in which the later key wins. */
  lemma MergeFiltersLaws(f: Filters, p: FilterPatch, q: FilterPatch)
    ensures MergeFilters(MergeFilters(f, p), p) == MergeFilters(f, p)
    ensures MergeFilters(f, FilterPatch(None, None, None)) == f
    ensures MergeFilters(MergeFilters(f, p), q) == MergeFilters(f, ThenPatch(p, q))
  {
  }

  /** The `todayAttendance` update after a mark: only a record dated today
      is considered; it replaces the first entry of the same user or is
      appended. */
  function PlaceToday(today: seq<AttendanceRecord>, a: AttendanceRecord, todayDate: string): seq<AttendanceRecord> {
    if !Text.StartsWith(a.date, todayDate) then today
    else
      var k := Lists.IndexOfKey(today, UserKey, UserKey(a));
      if k != -1 then today[k := a] else today + [a]
  }

  /** The `forEach` of the bulk case: each record is put in front of the
      record list and behind the today list, one after the other. */
  function BulkApply(records: seq<AttendanceRecord>, today: seq<AttendanceRecord>,
                     xs: seq<AttendanceRecord>): (seq<AttendanceRecord>, seq<AttendanceRecord>)
    decreases |xs|
  {
    if |xs| == 0 then (records, today)
    else BulkApply([xs[0]] + records, today + [xs[0]], xs[1..])
  }

  function Started(s: State): State {
    s.(loading := true, error := None)
  }

  function Failed(s: State, body: ErrorBody, fallback: string): State {
    s.(loading := false, error := Some(MessageOr(body, fallback)))
  }

  /** The reducer. `todayDate` is the `YYYY-MM-DD` date of the clock at the
      moment a mark is reduced. */
  function Reduce(s: State, a: Action, todayDate: string): State {
    match a
    case ClearError => s.(error := None)
    case ClearSuccess => s.(success := false)
    case SetFilters(p) => s.(filters := MergeFilters(s.filters, p))
    case ClearFilters => s.(filters := NoFilters)
    case ResetAttendance => Initial
    case UpdateLocalAttendance(p) =>
      s.(todayAttendance := Lists.UpdateFirstByKey(s.todayAttendance, RecordId, p.id,
                                                   r => MergeAttendance(r, p)))
    case MarkAttendance(ph) =>
      (match ph
       case Pending => Started(s)
       case Fulfilled(rec) =>
         s.(loading := false, success := true,
            attendanceRecords := [rec] + s.attendanceRecords,
            todayAttendance := PlaceToday(s.todayAttendance, rec, todayDate))
       case Rejected(b) => Failed(s, b, "Failed to mark attendance"))
    case FetchAttendance(ph) =>
      (match ph
       case Pending => Started(s)
       case Fulfilled(xs) => s.(loading := false, attendanceRecords := xs)
       case Rejected(b) => Failed(s, b, "Failed to fetch attendance"))
    case UpdateAttendance(ph) =>
      (match ph
       case Pending => Started(s)
       case Fulfilled(rec) =>
         s.(loading := false, success := true,
            attendanceRecords := Lists.ReplaceFirstByKey(s.attendanceRecords, RecordId, rec.id, rec),
            todayAttendance := Lists.ReplaceFirstByKey(s.todayAttendance, RecordId, rec.id, rec),
            monthlyAttendance := Lists.ReplaceFirstByKey(s.monthlyAttendance, RecordId, rec.id, rec))
       case Rejected(b) => Failed(s, b, "Failed to update attendance"))
    case FetchTodayAttendance(ph) =>
      (match ph
       case Pending => Started(s)
       case Fulfilled(xs) => s.(loading := false, todayAttendance := xs)
       case Rejected(b) => Failed(s, b, "Failed to fetch today's attendance"))
    case FetchMonthlyAttendance(ph) =>
      (match ph
       case Pending => Started(s)
       case Fulfilled(xs) => s.(loading := false, monthlyAttendance := xs)
       case Rejected(b) => Failed(s, b, "Failed to fetch monthly attendance"))
    case FetchAttendanceStats(ph) =>
      (match ph
       case Pending => Started(s)
       case Fulfilled(res) =>
         s.(loading := false, statistics := Some(res.stats),
            selectedEmployeeAttendance := Some(res.attendance))
       case Rejected(b) => Failed(s, b, "Failed to fetch statistics"))
    case BulkMarkAttendance(ph) =>
      (match ph
       case Pending => Started(s)
       case Fulfilled(xs) =>
         var (records, today) := BulkApply(s.attendanceRecords, s.todayAttendance, xs);
         s.(loading := false, success := true, attendanceRecords := records, todayAttendance := today)
       case Rejected(b) => Failed(s, b, "Failed to mark bulk attendance"))
  }

  // ---- properties ----

  /** Every record of a bulk mark ends up in front of the record list in
      reverse order, and behind the today list in the given order, whatever
      the records' dates. */
  lemma {:induction false} BulkApplyOrder(records: seq<AttendanceRecord>, today: seq<AttendanceRecord>,
                                          xs: seq<AttendanceRecord>)
    ensures BulkApply(records, today, xs) == (Lists.Reverse(xs) + records, today + xs)
    decreases |xs|
  {
    if |xs| > 0 {
      BulkApplyOrder([xs[0]] + records, today + [xs[0]], xs[1..]);
      assert xs == [xs[0]] + xs[1..];
      assert Lists.Reverse(xs) == Lists.Reverse(xs[1..]) + [xs[0]];
      assert Lists.Reverse(xs[1..]) + ([xs[0]] + records) == Lists.Reverse(xs) + records;
      assert (today + [xs[0]]) + xs[1..] == today + xs;
    } else {
      assert Lists.Reverse(xs) + records == records && today + xs == today;
    }
  }

  lemma BulkMarkFulfilled(s: State, xs: seq<AttendanceRecord>, todayDate: string)
    ensures var r := Reduce(s, BulkMarkAttendance(Fulfilled(xs)), todayDate);
            && r.attendanceRecords == Lists.Reverse(xs) + s.attendanceRecords
            && r.todayAttendance == s.todayAttendance + xs
            && r.success && !r.loading
            && r.monthlyAttendance == s.monthlyAttendance
  {
    BulkApplyOrder(s.attendanceRecords, s.todayAttendance, xs);
  }

  /** A marked record goes in front of the record list; the today list
      changes only for a record dated today, where it replaces the first
      entry of the same user in place or is appended after the others. */
  lemma MarkAttendanceFulfilled(s: State, rec: AttendanceRecord, todayDate: string)
    ensures var r := Reduce(s, MarkAttendance(Fulfilled(rec)), todayDate);
            var k := Lists.IndexOfKey(s.todayAttendance, UserKey, UserKey(rec));
            && r.attendanceRecords == [rec] + s.attendanceRecords
            && r.success
            && (!Text.StartsWith(rec.date, todayDate) ==> r.todayAttendance == s.todayAttendance)
            && (Text.StartsWith(rec.date, todayDate) && k >= 0 ==>
                  |r.todayAttendance| == |s.todayAttendance| && r.todayAttendance[k] == rec
                  && forall i :: 0 <= i < |s.todayAttendance| && i != k ==>
                       r.todayAttendance[i] == s.todayAttendance[i])
            && (Text.StartsWith(rec.date, todayDate) && k == -1 ==>
                  r.todayAttendance == s.todayAttendance + [rec])
  {
  }

  /** Two records whose `user` is a bare id string share the key
      `undefined`, so a mark for one replaces today's entry of the other. */
  lemma RawIdUsersCollide(s: State, rec: AttendanceRecord, other: AttendanceRecord, todayDate: string)
    requires rec.user.RawId? && other.user.RawId? && rec.user.id != other.user.id
    requires s.todayAttendance == [other] && Text.StartsWith(rec.date, todayDate)
    ensures Reduce(s, MarkAttendance(Fulfilled(rec)), todayDate).todayAttendance == [rec]
  {
    assert UserKey(other) == UserKey(rec);
  }

  /** An update replaces the record of that id in all three lists, in
      place, and touches nothing else. */
  lemma UpdateAttendanceInPlace(s: State, rec: AttendanceRecord, todayDate: string)
    ensures var r := Reduce(s, UpdateAttendance(Fulfilled(rec)), todayDate);
            && r.attendanceRecords == Lists.ReplaceFirstByKey(s.attendanceRecords, RecordId, rec.id, rec)
            && r.todayAttendance == Lists.ReplaceFirstByKey(s.todayAttendance, RecordId, rec.id, rec)
            && r.monthlyAttendance == Lists.ReplaceFirstByKey(s.monthlyAttendance, RecordId, rec.id, rec)
            && |r.attendanceRecords| == |s.attendanceRecords|
            && (forall i :: 0 <= i < |s.todayAttendance| && RecordId(s.todayAttendance[i]) != rec.id ==>
                  r.todayAttendance[i] == s.todayAttendance[i])
            && r.selectedEmployeeAttendance == s.selectedEmployeeAttendance
            && r.statistics == s.statistics && r.filters == s.filters
  {
  }

  /** With one entry per record id, an update keeps that shape in all three
      lists and a local edit keeps it in today's list; a new mark keeps it
      in the record list exactly when its id is new. */
  lemma IdsStayUnique(s: State, rec: AttendanceRecord, p: AttendancePatch, todayDate: string)
    requires Lists.UniqueKeys(s.attendanceRecords, RecordId) && Lists.UniqueKeys(s.todayAttendance, RecordId)
    requires Lists.UniqueKeys(s.monthlyAttendance, RecordId)
    ensures var r := Reduce(s, UpdateAttendance(Fulfilled(rec)), todayDate);
            && Lists.UniqueKeys(r.attendanceRecords, RecordId) && Lists.UniqueKeys(r.todayAttendance, RecordId)
            && Lists.UniqueKeys(r.monthlyAttendance, RecordId)
    ensures Lists.UniqueKeys(Reduce(s, UpdateLocalAttendance(p), todayDate).todayAttendance, RecordId)
    ensures Lists.UniqueKeys(Reduce(s, MarkAttendance(Fulfilled(rec)), todayDate).attendanceRecords, RecordId) <==>
              forall i :: 0 <= i < |s.attendanceRecords| ==> s.attendanceRecords[i].id != rec.id
  {
    KeyedLists(s, rec, p, todayDate);
    Lists.ReplaceKeepsKeys(s.attendanceRecords, RecordId, rec.id, rec);
    Lists.ReplaceKeepsKeys(s.todayAttendance, RecordId, rec.id, rec);
    Lists.ReplaceKeepsKeys(s.monthlyAttendance, RecordId, rec.id, rec);
    Lists.UpdateKeepsKeys(s.todayAttendance, RecordId, p.id, MergeWith(p));
    Lists.AddKeepsUniqueKeys(s.attendanceRecords, RecordId, rec);
  }

  /** The local update's merge as a function of the record. */
  function MergeWith(p: AttendancePatch): AttendanceRecord -> AttendanceRecord {
    r => MergeAttendance(r, p)
  }

  /** The list each keyed action rebuilds, as a list operation. */
  lemma KeyedLists(s: State, rec: AttendanceRecord, p: AttendancePatch, todayDate: string)
    ensures var r := Reduce(s, UpdateAttendance(Fulfilled(rec)), todayDate);
            && r.attendanceRecords == Lists.ReplaceFirstByKey(s.attendanceRecords, RecordId, rec.id, rec)
            && r.todayAttendance == Lists.ReplaceFirstByKey(s.todayAttendance, RecordId, rec.id, rec)
            && r.monthlyAttendance == Lists.ReplaceFirstByKey(s.monthlyAttendance, RecordId, rec.id, rec)
    ensures Reduce(s, UpdateLocalAttendance(p), todayDate).todayAttendance
            == Lists.UpdateFirstByKey(s.todayAttendance, RecordId, p.id, MergeWith(p))
    ensures Reduce(s, MarkAttendance(Fulfilled(rec)), todayDate).attendanceRecords == [rec] + s.attendanceRecords
  {
  }

  /** A local update merges the patch into the first today entry with its
      id and leaves every other list alone. */
  lemma UpdateLocalMerges(s: State, p: AttendancePatch, todayDate: string)
    ensures var r := Reduce(s, UpdateLocalAttendance(p), todayDate);
            var k := Lists.IndexOfKey(s.todayAttendance, RecordId, p.id);
            && |r.todayAttendance| == |s.todayAttendance|
            && (k >= 0 ==> r.todayAttendance[k] == MergeAttendance(s.todayAttendance[k], p)
                           && r.todayAttendance[k].user == s.todayAttendance[k].user)
            && (k == -1 ==> r.todayAttendance == s.todayAttendance)
            && r.attendanceRecords == s.attendanceRecords
            && r.monthlyAttendance == s.monthlyAttendance
            && r.loading == s.loading && r.error == s.error
  {
  }

  /** Clearing the filters after any sequence of `setFilters` gives the
      initial filters back; resetting gives the initial state back. */
  lemma FiltersClearAndReset(s: State, p: FilterPatch, todayDate: string)
    ensures Reduce(Reduce(s, SetFilters(p), todayDate), ClearFilters, todayDate).filters == Initial.filters
    ensures Reduce(s, ResetAttendance, todayDate) == Initial
    ensures Reduce(s, SetFilters(FilterPatch(None, None, None)), todayDate) == s
  {
  }

  /** What the pending and rejected cases leave alone: every list, the
      statistics, the filters and the success flag. */
  datatype Contents = Contents(
    records: seq<AttendanceRecord>, today: seq<AttendanceRecord>, monthly: seq<AttendanceRecord>,
    selected: Option<seq<AttendanceRecord>>, statistics: Option<AttendanceStats>,
    success: bool, filters: Filters)

  function Data(s: State): Contents {
    Contents(s.attendanceRecords, s.todayAttendance, s.monthlyAttendance,
             s.selectedEmployeeAttendance, s.statistics, s.success, s.filters)
  }

  predicate IsPending(a: Action) {
    match a
    case MarkAttendance(p) => p.Pending?
    case FetchAttendance(p) => p.Pending?
    case UpdateAttendance(p) => p.Pending?
    case FetchTodayAttendance(p) => p.Pending?
    case FetchMonthlyAttendance(p) => p.Pending?
    case FetchAttendanceStats(p) => p.Pending?
    case BulkMarkAttendance(p) => p.Pending?
    case _ => false
  }

  /** The rejection value of a rejected operation, with the message its
      reducer falls back to. */
  function Rejection(a: Action): Option<(ErrorBody, string)> {
    match a
    case MarkAttendance(p) => if p.Rejected? then Some((p.reason, "Failed to mark attendance")) else None
    case FetchAttendance(p) => if p.Rejected? then Some((p.reason, "Failed to fetch attendance")) else None
    case UpdateAttendance(p) => if p.Rejected? then Some((p.reason, "Failed to update attendance")) else None
    case FetchTodayAttendance(p) =>
      if p.Rejected? then Some((p.reason, "Failed to fetch today's attendance")) else None
    case FetchMonthlyAttendance(p) =>
      if p.Rejected? then Some((p.reason, "Failed to fetch monthly attendance")) else None
    case FetchAttendanceStats(p) => if p.Rejected? then Some((p.reason, "Failed to fetch statistics")) else None
    case BulkMarkAttendance(p) => if p.Rejected? then Some((p.reason, "Failed to mark bulk attendance")) else None
    case _ => None
  }

  /** Every pending case raises the flag and clears the error, and keeps
      every list, the statistics, the filters and the success flag. */
  lemma PendingCases(s: State, a: Action, todayDate: string)
    requires IsPending(a)
    ensures var r := Reduce(s, a, todayDate);
            r.loading && r.error == None && Data(r) == Data(s)
  {
  }

  /** Every rejected case lowers the flag, keeps every list, the
      statistics, the filters and the success flag, and stores a non-empty
      error: the body's message when it has one, else the operation's
      fallback. */
  lemma RejectedCases(s: State, a: Action, todayDate: string)
    requires Rejection(a).Some?
    ensures var r := Reduce(s, a, todayDate);
            var b := Rejection(a).value.0;
            && !r.loading && Data(r) == Data(s)
            && r.error.Some? && r.error.value != ""
            && (Truthy(b.message) ==> r.error == b.message)
            && (!Truthy(b.message) ==> r.error == Some(Rejection(a).value.1))
  {
  }

  /** The fallbacks in the operations' own words: a bare rejection of a
      mark, a bulk mark or a statistics fetch reads as that operation's
      failure, and the other data stays. `RejectedCases` states the rule
      for every operation; this pins the literal messages shown. */
  lemma PendingAndRejected(s: State, b: ErrorBody, todayDate: string)
    ensures var r := Reduce(s, FetchAttendance(Pending), todayDate);
            r.loading && r.error == None && r.attendanceRecords == s.attendanceRecords
    ensures var r := Reduce(s, MarkAttendance(Rejected(b)), todayDate);
            && !r.loading && r.attendanceRecords == s.attendanceRecords
            && r.todayAttendance == s.todayAttendance
            && r.error == Some(if Truthy(b.message) then b.message.value else "Failed to mark attendance")
    ensures var r := Reduce(s, BulkMarkAttendance(Rejected(b)), todayDate);
            && !r.loading && r.attendanceRecords == s.attendanceRecords
            && r.todayAttendance == s.todayAttendance
            && r.error == Some(if Truthy(b.message) then b.message.value else "Failed to mark bulk attendance")
    ensures var r := Reduce(s, FetchAttendanceStats(Rejected(b)), todayDate);
            && r.statistics == s.statistics
            && r.error == Some(if Truthy(b.message) then b.message.value else "Failed to fetch statistics")
  {
  }
}
