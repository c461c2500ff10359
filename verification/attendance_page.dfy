/** The admin's attendance page: today's table that pairs every employee
    with their record of the day (or a placeholder row), the inline edit
    form and the request its save sends, and the CSV export of a month. */
module AttendancePage {
  import opened Common
  import opened Entities
  import Text
  import Lists

  // ---- today's table ----

  /** The key a record is filed under: `a.user._id || a.user`. A populated
      user without an id is filed under the object itself, which no
      employee id ever equals. */
  function RecordKey(a: AttendanceRecord): Option<string> {
    match a.user
    case Populated(u) => if u.id != "" then Some(u.id) else None
    case RawId(id) => Some(id)
  }

  /** `new Map(todayAttendance.map(a => [key(a), a]))`: entries are set in
      list order, so a later record of the same user replaces an earlier
      one. */
  function RecordMap(records: seq<AttendanceRecord>): (m: map<string, AttendanceRecord>)
    decreases |records|
  {
    if |records| == 0 then map[]
    else
      var m := RecordMap(records[..|records| - 1]);
      var a := records[|records| - 1];
      if RecordKey(a).Some? then m[RecordKey(a).value := a] else m
  }

  /** The map holds an id exactly when some record is filed under it, and
      then it holds the last such record. */
  lemma {:induction false} RecordMapIsLastWins(records: seq<AttendanceRecord>, id: string)
    ensures id !in RecordMap(records) <==> forall i :: 0 <= i < |records| ==> RecordKey(records[i]) != Some(id)
    ensures id in RecordMap(records) ==>
              exists i :: 0 <= i < |records| && RecordKey(records[i]) == Some(id)
                          && RecordMap(records)[id] == records[i]
                          && forall j :: i < j < |records| ==> RecordKey(records[j]) != Some(id)
    decreases |records|
  {
    if |records| > 0 {
      var n := |records|;
      var init := records[..n - 1];
      RecordMapIsLastWins(init, id);
      if RecordKey(records[n - 1]) == Some(id) {
        assert RecordMap(records)[id] == records[n - 1];
      } else {
        assert id in RecordMap(records) <==> id in RecordMap(init);
        if id in RecordMap(init) {
          var i :| 0 <= i < |init| && RecordKey(init[i]) == Some(id) && RecordMap(init)[id] == init[i]
                   && forall j :: i < j < |init| ==> RecordKey(init[j]) != Some(id);
          assert records[i] == init[i];
        }
      }
    }
  }

  /** The placeholder row of an employee without a record today. */
  function PlaceholderRow(emp: User, now: string): (a: AttendanceRecord)
    ensures Text.StartsWith(a.id, "temp-")
  {
    var id := "temp-" + emp.id;
    assert id[..5] == "temp-";
    AttendanceRecord(id, Populated(emp), now, "absent", None, None, 0, "")
  }

  /** `renderTodayAttendance`'s `displayData`. */
  function TodayRows(employees: seq<User>, today: seq<AttendanceRecord>, now: string): (rows: seq<AttendanceRecord>)
    ensures |rows| == |employees|
  {
    var m := RecordMap(today);
    seq(|employees|, i requires 0 <= i < |employees| =>
      if employees[i].id in m then m[employees[i].id] else PlaceholderRow(employees[i], now))
  }

  /** One row per employee, in employee order: the row of an employee with
      a record is that employee's last record of the day, verbatim; the row
      of one without is the placeholder, absent with no times and 0
      hours. */
  lemma TodayRowsPerEmployee(employees: seq<User>, today: seq<AttendanceRecord>, now: string, i: int)
    requires 0 <= i < |employees|
    ensures var row := TodayRows(employees, today, now)[i];
            var id := employees[i].id;
            && ((exists k :: 0 <= k < |today| && RecordKey(today[k]) == Some(id)) ==>
                  exists k :: 0 <= k < |today| && RecordKey(today[k]) == Some(id) && row == today[k]
                              && forall j :: k < j < |today| ==> RecordKey(today[j]) != Some(id))
            && ((forall k :: 0 <= k < |today| ==> RecordKey(today[k]) != Some(id)) ==>
                  row == AttendanceRecord("temp-" + id, Populated(employees[i]), now, "absent", None, None, 0, ""))
  {
    RecordMapIsLastWins(today, employees[i].id);
  }

  // ---- inline edit and save ----

  /** The edit form: check times as "HH:MM" or "", and the hours, which
      are absent until both times have been edited. */
  datatype EditForm = EditForm(
    status: string, checkIn: string, checkOut: string, totalHours: Option<int>, remarks: string)

  /** `handleStartEdit` as written. `hhmm` renders a stored timestamp as
      the local "HH:MM". The record's hours are not copied. */
  function StartEditAsWritten(a: AttendanceRecord, hhmm: string -> string): (f: EditForm)
    ensures f.status == a.status && f.remarks == a.remarks
    ensures f.checkIn == "" <==> a.checkIn.None? || a.checkIn.value == "" || hhmm(a.checkIn.value) == ""
    ensures Truthy(a.checkIn) ==> f.checkIn == hhmm(a.checkIn.value)
    ensures Truthy(a.checkOut) ==> f.checkOut == hhmm(a.checkOut.value)
    ensures !Truthy(a.checkOut) ==> f.checkOut == ""
    ensures f.totalHours.None?
  {
    EditForm(a.status,
             if Truthy(a.checkIn) then hhmm(a.checkIn.value) else "",
             if Truthy(a.checkOut) then hhmm(a.checkOut.value) else "",
             None, a.remarks)
  }

  /** The edit form with the record's hours carried over. */
  function StartEdit(a: AttendanceRecord, hhmm: string -> string): EditForm {
    StartEditAsWritten(a, hhmm).(totalHours := Some(a.totalHours))
  }

  /** Choosing a status in the form changes only the status. */
  function SetStatus(f: EditForm, status: string): EditForm {
    f.(status := status)
  }

  /** The body the save sends. */
  datatype SavePayload = SavePayload(
    userId: Option<string>, date: string, status: string,
    checkIn: Option<string>, checkOut: Option<string>, totalHours: int, remarks: string)

  /** `${today}T${time}:00`, or null for an empty time. */
  function Stamp(today: string, time: string): (s: Option<string>)
    ensures time == "" <==> s.None?
  {
    if time == "" then None else Some(today + "T" + time + ":00")
  }

  /** `attendanceData`: the row's user id (absent for a bare id), today's
      date, the form's values with empty times as null and missing hours
      as 0. */
  function Payload(a: AttendanceRecord, f: EditForm, today: string): (p: SavePayload)
    ensures p.totalHours == (if f.totalHours.Some? then f.totalHours.value else 0)
    ensures p.userId == (if a.user.Populated? then Some(a.user.user.id) else None)
    ensures p.date == today && p.status == f.status && p.remarks == f.remarks
    ensures p.checkIn == Stamp(today, f.checkIn) && p.checkOut == Stamp(today, f.checkOut)
  {
    SavePayload(if a.user.Populated? then Some(a.user.user.id) else None, today, f.status,
                Stamp(today, f.checkIn), Stamp(today, f.checkOut), f.totalHours.GetOr(0), f.remarks)
  }

  /** A filled check time is stamped on today's date with the minute the
      form shows. */
  lemma StampOnToday(today: string, time: string)
    requires 'T' !in today && time != ""
    ensures Text.DatePart(Stamp(today, time).value) == today
    ensures Text.StartsWith(Stamp(today, time).value, today + "T" + time)
    ensures |Stamp(today, time).value| == |today| + |time| + 4
    ensures Stamp(today, time).value[|today| + |time| + 1..] == ":00"
  {
    assert today + "T" + time + ":00" == today + "T" + (time + ":00");
    Text.DatePartOfTimestamp(today, time + ":00");
    var s := today + "T" + time + ":00";
    assert s[..|today + "T" + time|] == today + "T" + time;
  }

  /** What saving dispatches. */
  datatype SaveEffect =
    | UpdateAttendance(attendanceId: string, updates: SavePayload)
    | MarkAttendance(data: SavePayload)

  /** `handleSaveAttendance`: a row with a stored id updates that record,
      a placeholder row (or one without an id) marks new attendance. */
  function Save(a: AttendanceRecord, f: EditForm, today: string): (e: SaveEffect)
    ensures e.UpdateAttendance? <==> a.id != "" && !Text.StartsWith(a.id, "temp-")
    ensures e.UpdateAttendance? ==> e.attendanceId == a.id && e.updates == Payload(a, f, today)
    ensures e.MarkAttendance? ==> e.data == Payload(a, f, today)
  {
    if a.id != "" && !Text.StartsWith(a.id, "temp-") then UpdateAttendance(a.id, Payload(a, f, today))
    else MarkAttendance(Payload(a, f, today))
  }

  /** Saving a placeholder row of today's table marks new attendance for
      that employee; saving a stored record updates it. */
  lemma SaveFromTodayRows(employees: seq<User>, today: seq<AttendanceRecord>, now: string, i: int,
                          f: EditForm, date: string)
    requires 0 <= i < |employees|
    requires employees[i].id !in RecordMap(today)
    ensures var row := TodayRows(employees, today, now)[i];
            Save(row, f, date) == MarkAttendance(Payload(row, f, date))
            && Payload(row, f, date).userId == Some(employees[i].id)
  {
  }

  /** Editing only the status of a record and saving it, as written, sends
      0 hours: the hours the record had are lost. */
  lemma StatusOnlyEditDropsHours()
    ensures var a := AttendanceRecord("a1", RawId("u1"), "2024-01-02", "present", None, None, 8, "");
            var f := SetStatus(StartEditAsWritten(a, (t: string) => t), "late");
            Save(a, f, "2024-01-02").updates.totalHours == 0 && a.totalHours == 8
  {
  }

  /** With the hours carried into the form, a save that changes only the
      status keeps the record's hours, times and remarks. */
  lemma StatusOnlyEditKeepsHours(a: AttendanceRecord, hhmm: string -> string, status: string, today: string)
    requires a.id != "" && !Text.StartsWith(a.id, "temp-")
    ensures var e := Save(a, SetStatus(StartEdit(a, hhmm), status), today);
            && e.UpdateAttendance?
            && e.updates.totalHours == a.totalHours
            && e.updates.status == status
            && e.updates.remarks == a.remarks
            && e.updates.checkIn == (if Truthy(a.checkIn) then Stamp(today, hhmm(a.checkIn.value)) else None)
            && e.updates.checkOut == (if Truthy(a.checkOut) then Stamp(today, hhmm(a.checkOut.value)) else None)
  {
  }

  // ---- CSV export ----

  const CsvHeaders := ["Date", "Status", "Check In", "Check Out", "Total Hours", "Remarks"]

  /** One record's fields. `day` and `clock` are the locale renderings of
      a date and of a time of day. */
  function CsvFields(a: AttendanceRecord, day: string -> string, clock: string -> string): (fs: seq<string>)
    ensures |fs| == 6
  {
    [day(a.date), a.status,
     if Truthy(a.checkIn) then clock(a.checkIn.value) else "",
     if Truthy(a.checkOut) then clock(a.checkOut.value) else "",
     Text.IntToString(a.totalHours), a.remarks]
  }

  function CsvLines(records: seq<AttendanceRecord>, day: string -> string, clock: string -> string): (ls: seq<string>)
    ensures |ls| == |records| + 1
    ensures ls[0] == Text.Join(CsvHeaders, ",")
  {
    [Text.Join(CsvHeaders, ",")] + seq(|records|, i requires 0 <= i < |records| =>
                                         Text.Join(CsvFields(records[i], day, clock), ","))
  }

  /** `exportToCSV`: nothing for an empty month, else the lines joined by
      line breaks. Fields are not quoted. */
  function Csv(records: seq<AttendanceRecord>, day: string -> string, clock: string -> string): (r: Option<string>)
    ensures r.None? <==> |records| == 0
  {
    if |records| == 0 then None else Some(Text.Join(CsvLines(records, day, clock), "\n"))
  }

  lemma HeadersHaveNoSeparators()
    ensures forall j :: 0 <= j < |CsvHeaders| ==> ',' !in CsvHeaders[j] && '\n' !in CsvHeaders[j]
  {
    forall j | 0 <= j < |CsvHeaders|
      ensures ',' !in CsvHeaders[j] && '\n' !in CsvHeaders[j]
    {
      var h := CsvHeaders[j];
      assert forall k :: 0 <= k < |h| ==> h[k] != ',' && h[k] != '\n';
    }
  }

  /** When no field holds a line break, neither does any line. */
  lemma LinesHaveNoBreaks(records: seq<AttendanceRecord>, day: string -> string, clock: string -> string)
    requires forall k, j :: 0 <= k < |records| && 0 <= j < 6 ==> '\n' !in CsvFields(records[k], day, clock)[j]
    ensures forall k :: 0 <= k < |records| + 1 ==> '\n' !in CsvLines(records, day, clock)[k]
  {
    var ls := CsvLines(records, day, clock);
    HeadersHaveNoSeparators();
    forall k | 0 <= k < |ls|
      ensures '\n' !in ls[k]
    {
      if k == 0 {
        Text.NotInJoin(CsvHeaders, ",", '\n');
      } else {
        Text.NotInJoin(CsvFields(records[k - 1], day, clock), ",", '\n');
      }
    }
  }

  /** When no field holds a comma or a line break, the export reads back as
      one header line and one line per record, in order, each splitting
      into its six fields. */
  lemma CsvReadsBack(records: seq<AttendanceRecord>, day: string -> string, clock: string -> string, i: int)
    requires |records| > 0
    requires forall k, j :: 0 <= k < |records| && 0 <= j < 6 ==>
               ',' !in CsvFields(records[k], day, clock)[j] && '\n' !in CsvFields(records[k], day, clock)[j]
    requires 0 <= i < |records|
    ensures var lines := Text.Split(Csv(records, day, clock).value, '\n');
            && |lines| == |records| + 1
            && Text.Split(lines[0], ',') == CsvHeaders
            && Text.Split(lines[i + 1], ',') == CsvFields(records[i], day, clock)
  {
    var ls := CsvLines(records, day, clock);
    LinesHaveNoBreaks(records, day, clock);
    Text.SplitJoin(ls, '\n');
    HeadersHaveNoSeparators();
    Text.SplitJoin(CsvHeaders, ',');
    Text.SplitJoin(CsvFields(records[i], day, clock), ',');
  }
}
