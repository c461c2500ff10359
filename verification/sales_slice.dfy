/** The sales container: a sales person's own leads, today's pipeline, stats
    and targets, the focused lead, and the admin views of all leads and team
    performance, each list with its own loading flag and one shared error and
    success slot. */
module SalesSlice {
  import opened Common
  import opened Entities
  import Lists

  datatype Pipeline = Pipeline(
    followUpsToday: seq<Lead>,
    overdueFollowUps: seq<Lead>,
    newLeads: seq<Lead>,
    hotDeals: seq<Lead>)

  datatype Overview = Overview(
    totalLeads: int, newLeads: int, contacted: int, negotiation: int, converted: int,
    conversionRate: int)

  datatype SalesStats = SalesStats(
    overview: Overview,
    monthLeads: int, monthConverted: int, monthRevenue: int,
    weekLeads: int, weekConverted: int,
    revenueTotal: int, revenueThisMonth: int)

  datatype Target = Target(
    leadsTarget: int, leadsAchieved: int,
    conversionsTarget: int, conversionsAchieved: int,
    revenueTarget: int, revenueAchieved: int)

  /** One sales person's row of the team performance report. */
  datatype Performance = Performance(
    salesPersonId: string,
    salesPersonName: string,
    totalLeads: int,
    converted: int,
    conversionRate: real,
    revenue: int)

  datatype State = State(
    myLeads: seq<Lead>,
    pipeline: Pipeline,
    stats: SalesStats,
    targets: seq<Target>,
    currentLead: Option<Lead>,
    allLeads: seq<Lead>,
    teamPerformance: seq<Performance>,
    loading: bool,
    pipelineLoading: bool,
    statsLoading: bool,
    targetsLoading: bool,
    leadsLoading: bool,
    performanceLoading: bool,
    error: Option<string>,
    success: Option<string>)

  const EmptyPipeline := Pipeline([], [], [], [])
  const ZeroStats := SalesStats(Overview(0, 0, 0, 0, 0, 0), 0, 0, 0, 0, 0, 0, 0)

  const Initial := State([], EmptyPipeline, ZeroStats, [], None, [], [],
                         false, false, false, false, false, false, None, None)

  // ---- the query string of fetchMyLeads ----

  /** The optional filters `fetchMyLeads` is called with. */
  datatype LeadQuery = LeadQuery(
    status: Option<string>, category: Option<string>, priority: Option<string>,
    search: Option<string>)

  const QueryKeys: seq<string> := ["status", "category", "priority", "search"]

  function QueryField(f: LeadQuery, key: string): Option<string> {
    if key == "status" then f.status
    else if key == "category" then f.category
    else if key == "priority" then f.priority
    else if key == "search" then f.search
    else None
  }

  function KeyRank(key: string): int {
    if key == "status" then 0
    else if key == "category" then 1
    else if key == "priority" then 2
    else 3
  }

  function Param(f: LeadQuery, key: string): seq<(string, string)> {
    var v := QueryField(f, key);
    if Truthy(v) then [(key, v.value)] else []
  }

  /** The parameters for the given keys, in the order of the keys. */
  function ParamsOf(f: LeadQuery, keys: seq<string>): seq<(string, string)>
    decreases |keys|
  {
    if keys == [] then [] else Param(f, keys[0]) + ParamsOf(f, keys[1..])
  }

  /** The pair is one of the keys with its truthy value. */
  predicate SentAsIs(f: LeadQuery, keys: seq<string>, param: (string, string)) {
    param.0 in keys && Truthy(QueryField(f, param.0)) && param.1 == QueryField(f, param.0).value
  }

  predicate RankIncreasing(q: seq<(string, string)>) {
    forall i, j :: 0 <= i < j < |q| ==> KeyRank(q[i].0) < KeyRank(q[j].0)
  }

  /** Every parameter is one of the keys, with a truthy value, sent as it
      is. */
  lemma {:induction false} ParamsOfSound(f: LeadQuery, keys: seq<string>)
    ensures forall i :: 0 <= i < |ParamsOf(f, keys)| ==> SentAsIs(f, keys, ParamsOf(f, keys)[i])
    decreases |keys|
  {
    if keys != [] {
      ParamsOfSound(f, keys[1..]);
      var p, rest := Param(f, keys[0]), ParamsOf(f, keys[1..]);
      var q: seq<(string, string)> := p + rest;
      assert ParamsOf(f, keys) == q;
      forall i | 0 <= i < |q|
        ensures SentAsIs(f, keys, q[i])
      {
        if i >= |p| {
          assert q[i] == rest[i - |p|];
          assert SentAsIs(f, keys[1..], rest[i - |p|]);
        }
      }
    }
  }

  /** Every key with a truthy value has its parameter. */
  lemma {:induction false} ParamsOfCover(f: LeadQuery, keys: seq<string>, k: string)
    requires k in keys && Truthy(QueryField(f, k))
    ensures exists i :: 0 <= i < |ParamsOf(f, keys)| && ParamsOf(f, keys)[i].0 == k
    decreases |keys|
  {
    var p, rest := Param(f, keys[0]), ParamsOf(f, keys[1..]);
    var q: seq<(string, string)> := p + rest;
    assert ParamsOf(f, keys) == q;
    if keys[0] == k {
      assert q[0].0 == k;
    } else {
      assert k in keys[1..];
      ParamsOfCover(f, keys[1..], k);
      var i :| 0 <= i < |rest| && rest[i].0 == k;
      assert q[|p| + i].0 == k;
    }
  }

  /** Keys listed in increasing rank give parameters in increasing rank. */
  lemma {:induction false} ParamsOfOrdered(f: LeadQuery, keys: seq<string>)
    requires forall i, j :: 0 <= i < j < |keys| ==> KeyRank(keys[i]) < KeyRank(keys[j])
    ensures RankIncreasing(ParamsOf(f, keys))
    decreases |keys|
  {
    if keys != [] {
      var tail := keys[1..];
      assert forall i, j :: 0 <= i < j < |tail| ==> KeyRank(tail[i]) < KeyRank(tail[j]) by {
        forall i, j | 0 <= i < j < |tail|
          ensures KeyRank(tail[i]) < KeyRank(tail[j])
        {
          assert tail[i] == keys[i + 1] && tail[j] == keys[j + 1];
        }
      }
      ParamsOfOrdered(f, tail);
      ParamsOfSound(f, tail);
      var p, rest := Param(f, keys[0]), ParamsOf(f, tail);
      var q: seq<(string, string)> := p + rest;
      assert ParamsOf(f, keys) == q;
      forall m | 0 <= m < |rest|
        ensures KeyRank(keys[0]) < KeyRank(rest[m].0)
      {
        assert SentAsIs(f, tail, rest[m]);
        var t :| 0 <= t < |tail| && tail[t] == rest[m].0;
        assert tail[t] == keys[t + 1];
      }
      forall i, j | 0 <= i < j < |q|
        ensures KeyRank(q[i].0) < KeyRank(q[j].0)
      {
        assert q[j] == rest[j - |p|];
        assert KeyRank(keys[0]) < KeyRank(rest[j - |p|].0);
        if i >= |p| {
          assert q[i] == rest[i - |p|];
        } else {
          assert q[i] == p[i] && p[i].0 == keys[0];
        }
      }
    }
  }

  /** The parameters appended to the `my-leads` request: one per truthy
      filter, with its value, in the order status, category, priority,
      search. URL encoding of the pairs is not modelled. */
  function MyLeadsParams(f: LeadQuery): (q: seq<(string, string)>)
    ensures forall i :: 0 <= i < |q| ==>
              q[i].0 in QueryKeys && Truthy(QueryField(f, q[i].0))
              && q[i].1 == QueryField(f, q[i].0).value
    ensures forall k :: k in QueryKeys && Truthy(QueryField(f, k)) ==>
              exists i :: 0 <= i < |q| && q[i].0 == k
    ensures forall i, j :: 0 <= i < j < |q| ==> KeyRank(q[i].0) < KeyRank(q[j].0)
  {
    ParamsOfSound(f, QueryKeys);
    forall k | k in QueryKeys && Truthy(QueryField(f, k))
      ensures exists i :: 0 <= i < |ParamsOf(f, QueryKeys)| && ParamsOf(f, QueryKeys)[i].0 == k
    {
      ParamsOfCover(f, QueryKeys, k);
    }
    ParamsOfOrdered(f, QueryKeys);
    ParamsOf(f, QueryKeys)
  }

  // ---- actions ----

  datatype Action =
    | ClearError
    | ClearSuccess
    | ClearCurrentLead
    | FetchMyLeads(Phase<seq<Lead>, ErrorBody>)
    | FetchTodayPipeline(Phase<Pipeline, ErrorBody>)
    | FetchSalesStats(Phase<SalesStats, ErrorBody>)
    | FetchMyTargets(Phase<seq<Target>, ErrorBody>)
    | CreateLead(Phase<Lead, ErrorBody>)
    | UpdateLead(Phase<Lead, ErrorBody>)
    | AddActivity(Phase<Lead, ErrorBody>)
    | FetchLeadDetails(Phase<Lead, ErrorBody>)
    | FetchAllLeads(Phase<seq<Lead>, ErrorBody>)
    | AssignLead(Phase<Lead, ErrorBody>)
    | FetchTeamPerformance(Phase<seq<Performance>, ErrorBody>)
    | SetTarget(Phase<(), ErrorBody>)

  /** The loading flags of the container. */
  datatype Flag = General | PipelineFlag | StatsFlag | TargetsFlag | LeadsFlag | PerformanceFlag

  function Loading(s: State, f: Flag): bool {
    match f
    case General => s.loading
    case PipelineFlag => s.pipelineLoading
    case StatsFlag => s.statsLoading
    case TargetsFlag => s.targetsLoading
    case LeadsFlag => s.leadsLoading
    case PerformanceFlag => s.performanceLoading
  }

  function SetLoading(s: State, f: Flag, b: bool): (r: State)
    ensures Loading(r, f) == b
    ensures forall g :: g != f ==> Loading(r, g) == Loading(s, g)
    ensures Data(r) == Data(s) && r.error == s.error && r.success == s.success
  {
    match f
    case General => s.(loading := b)
    case PipelineFlag => s.(pipelineLoading := b)
    case StatsFlag => s.(statsLoading := b)
    case TargetsFlag => s.(targetsLoading := b)
    case LeadsFlag => s.(leadsLoading := b)
    case PerformanceFlag => s.(performanceLoading := b)
  }

  /** The flag an asynchronous action drives. */
  function FlagOf(a: Action): Flag {
    match a
    case FetchMyLeads(_) => LeadsFlag
    case FetchAllLeads(_) => LeadsFlag
    case FetchTodayPipeline(_) => PipelineFlag
    case FetchSalesStats(_) => StatsFlag
    case FetchMyTargets(_) => TargetsFlag
    case FetchTeamPerformance(_) => PerformanceFlag
    case _ => General
  }

  /** Everything the container holds besides its flags, error and success. */
  datatype Contents = Contents(
    myLeads: seq<Lead>, pipeline: Pipeline, stats: SalesStats, targets: seq<Target>,
    currentLead: Option<Lead>, allLeads: seq<Lead>, teamPerformance: seq<Performance>)

  function Data(s: State): Contents {
    Contents(s.myLeads, s.pipeline, s.stats, s.targets, s.currentLead, s.allLeads, s.teamPerformance)
  }

  function LeadId(l: Lead): string { l.id }

  /** The common `pending` case; only some operations clear the error. */
  function Started(s: State, f: Flag, clearsError: bool): State {
    var r := SetLoading(s, f, true);
    if clearsError then r.(error := None) else r
  }

  /** The common `rejected` case: `error = action.payload?.message`. */
  function Failed(s: State, f: Flag, body: ErrorBody): State {
    SetLoading(s, f, false).(error := body.message)
  }

  function Reduce(s: State, a: Action): State {
    match a
    case ClearError => s.(error := None)
    case ClearSuccess => s.(success := None)
    case ClearCurrentLead => s.(currentLead := None)
    case FetchMyLeads(p) =>
      (match p
       case Pending => Started(s, LeadsFlag, true)
       case Fulfilled(leads) => s.(leadsLoading := false, myLeads := leads)
       case Rejected(b) => Failed(s, LeadsFlag, b))
    case FetchTodayPipeline(p) =>
      (match p
       case Pending => Started(s, PipelineFlag, false)
       case Fulfilled(pl) => s.(pipelineLoading := false, pipeline := pl)
       case Rejected(b) => Failed(s, PipelineFlag, b))
    case FetchSalesStats(p) =>
      (match p
       case Pending => Started(s, StatsFlag, false)
       case Fulfilled(st) => s.(statsLoading := false, stats := st)
       case Rejected(b) => Failed(s, StatsFlag, b))
    case FetchMyTargets(p) =>
      (match p
       case Pending => Started(s, TargetsFlag, false)
       case Fulfilled(ts) => s.(targetsLoading := false, targets := ts)
       case Rejected(b) => Failed(s, TargetsFlag, b))
    case CreateLead(p) =>
      (match p
       case Pending => Started(s, General, true)
       case Fulfilled(lead) =>
         s.(loading := false, myLeads := [lead] + s.myLeads,
            success := Some("Lead created successfully"))
       case Rejected(b) => Failed(s, General, b))
    case UpdateLead(p) =>
      (match p
       case Pending => Started(s, General, false)
       case Fulfilled(lead) =>
         s.(loading := false,
            myLeads := Lists.ReplaceFirstByKey(s.myLeads, LeadId, lead.id, lead),
            currentLead := Some(lead),
            success := Some("Lead updated successfully"))
       case Rejected(b) => Failed(s, General, b))
    case AddActivity(p) =>
      (match p
       case Pending => Started(s, General, false)
       case Fulfilled(lead) =>
         s.(loading := false,
            myLeads := Lists.ReplaceFirstByKey(s.myLeads, LeadId, lead.id, lead),
            success := Some("Activity added successfully"))
       case Rejected(b) => Failed(s, General, b))
    case FetchLeadDetails(p) =>
      (match p
       case Pending => Started(s, General, false)
       case Fulfilled(lead) => s.(loading := false, currentLead := Some(lead))
       case Rejected(b) => Failed(s, General, b))
    case FetchAllLeads(p) =>
      (match p
       case Pending => Started(s, LeadsFlag, false)
       case Fulfilled(leads) => s.(leadsLoading := false, allLeads := leads)
       case Rejected(b) => Failed(s, LeadsFlag, b))
    case AssignLead(p) =>
      (match p
       case Pending => Started(s, General, false)
       case Fulfilled(lead) =>
         s.(loading := false,
            allLeads := Lists.ReplaceFirstByKey(s.allLeads, LeadId, lead.id, lead),
            success := Some("Lead assigned successfully"))
       case Rejected(b) => Failed(s, General, b))
    case FetchTeamPerformance(p) =>
      (match p
       case Pending => Started(s, PerformanceFlag, false)
       case Fulfilled(perf) => s.(performanceLoading := false, teamPerformance := perf)
       case Rejected(b) => Failed(s, PerformanceFlag, b))
    case SetTarget(p) =>
      (match p
       case Pending => Started(s, General, false)
       case Fulfilled(_) => s.(loading := false, success := Some("Target set successfully"))
       case Rejected(b) => Failed(s, General, b))
  }

  // ---- classification of actions by phase ----

  predicate IsPending(a: Action) {
    match a
    case FetchMyLeads(p) => p.Pending?
    case FetchTodayPipeline(p) => p.Pending?
    case FetchSalesStats(p) => p.Pending?
    case FetchMyTargets(p) => p.Pending?
    case CreateLead(p) => p.Pending?
    case UpdateLead(p) => p.Pending?
    case AddActivity(p) => p.Pending?
    case FetchLeadDetails(p) => p.Pending?
    case FetchAllLeads(p) => p.Pending?
    case AssignLead(p) => p.Pending?
    case FetchTeamPerformance(p) => p.Pending?
    case SetTarget(p) => p.Pending?
    case _ => false
  }

  /** The rejection body of a rejected action. */
  function Rejection(a: Action): Option<ErrorBody> {
    match a
    case FetchMyLeads(p) => if p.Rejected? then Some(p.reason) else None
    case FetchTodayPipeline(p) => if p.Rejected? then Some(p.reason) else None
    case FetchSalesStats(p) => if p.Rejected? then Some(p.reason) else None
    case FetchMyTargets(p) => if p.Rejected? then Some(p.reason) else None
    case CreateLead(p) => if p.Rejected? then Some(p.reason) else None
    case UpdateLead(p) => if p.Rejected? then Some(p.reason) else None
    case AddActivity(p) => if p.Rejected? then Some(p.reason) else None
    case FetchLeadDetails(p) => if p.Rejected? then Some(p.reason) else None
    case FetchAllLeads(p) => if p.Rejected? then Some(p.reason) else None
    case AssignLead(p) => if p.Rejected? then Some(p.reason) else None
    case FetchTeamPerformance(p) => if p.Rejected? then Some(p.reason) else None
    case SetTarget(p) => if p.Rejected? then Some(p.reason) else None
    case _ => None
  }

  // ---- properties ----

  /** A list refresh replaces `myLeads` wholesale: applying the same
      response twice gives the state applying it once gives. */
  lemma FetchMyLeadsIdempotent(s: State, leads: seq<Lead>)
    ensures var a := FetchMyLeads(Fulfilled(leads));
            Reduce(Reduce(s, a), a) == Reduce(s, a)
    ensures Reduce(s, FetchMyLeads(Fulfilled(leads))).myLeads == leads
  {
  }

  /** A created lead goes in front; every earlier lead moves one place back. */
  lemma CreateLeadPrepends(s: State, lead: Lead)
    ensures var r := Reduce(s, CreateLead(Fulfilled(lead)));
            && |r.myLeads| == |s.myLeads| + 1
            && r.myLeads[0] == lead
            && (forall i :: 0 <= i < |s.myLeads| ==> r.myLeads[i + 1] == s.myLeads[i])
            && r.success == Some("Lead created successfully")
            && !r.loading && r.allLeads == s.allLeads
  {
    var r := Reduce(s, CreateLead(Fulfilled(lead)));
    assert r.myLeads == [lead] + s.myLeads;
  }

  /** Creating A then B leaves B first and A second. */
  lemma CreateTwiceOrder(s: State, a: Lead, b: Lead)
    ensures var r := Reduce(Reduce(s, CreateLead(Fulfilled(a))), CreateLead(Fulfilled(b)));
            |r.myLeads| >= 2 && r.myLeads[0] == b && r.myLeads[1] == a
  {
  }

  /** An updated lead replaces the first lead with its id, in place; the
      focused lead is set to it even when no lead has that id. */
  lemma UpdateLeadInPlace(s: State, lead: Lead)
    ensures var r := Reduce(s, UpdateLead(Fulfilled(lead)));
            var k := Lists.IndexOfKey(s.myLeads, LeadId, lead.id);
            && |r.myLeads| == |s.myLeads|
            && (forall i :: 0 <= i < |s.myLeads| && i != k ==> r.myLeads[i] == s.myLeads[i])
            && (k >= 0 ==> r.myLeads[k] == lead)
            && (k == -1 ==> r.myLeads == s.myLeads)
            && r.currentLead == Some(lead)
            && r.allLeads == s.allLeads
  {
  }

  /** With one entry per id, updates, activities and assignments keep that
      shape in the lists they touch; a created lead keeps it exactly when
      its id is new, since the prepend does not check. */
  lemma IdsStayUnique(s: State, lead: Lead)
    requires Lists.UniqueKeys(s.myLeads, LeadId) && Lists.UniqueKeys(s.allLeads, LeadId)
    ensures Lists.UniqueKeys(Reduce(s, UpdateLead(Fulfilled(lead))).myLeads, LeadId)
    ensures Lists.UniqueKeys(Reduce(s, AddActivity(Fulfilled(lead))).myLeads, LeadId)
    ensures Lists.UniqueKeys(Reduce(s, AssignLead(Fulfilled(lead))).allLeads, LeadId)
    ensures Lists.UniqueKeys(Reduce(s, CreateLead(Fulfilled(lead))).myLeads, LeadId) <==>
              forall i :: 0 <= i < |s.myLeads| ==> s.myLeads[i].id != lead.id
  {
    KeyedLists(s, lead);
    Lists.ReplaceKeepsKeys(s.myLeads, LeadId, lead.id, lead);
    Lists.ReplaceKeepsKeys(s.allLeads, LeadId, lead.id, lead);
    Lists.AddKeepsUniqueKeys(s.myLeads, LeadId, lead);
  }

  /** The list each keyed fulfilment rebuilds, as a list operation. */
  lemma KeyedLists(s: State, lead: Lead)
    ensures Reduce(s, UpdateLead(Fulfilled(lead))).myLeads == Lists.ReplaceFirstByKey(s.myLeads, LeadId, lead.id, lead)
    ensures Reduce(s, AddActivity(Fulfilled(lead))).myLeads == Lists.ReplaceFirstByKey(s.myLeads, LeadId, lead.id, lead)
    ensures Reduce(s, AssignLead(Fulfilled(lead))).allLeads == Lists.ReplaceFirstByKey(s.allLeads, LeadId, lead.id, lead)
    ensures Reduce(s, CreateLead(Fulfilled(lead))).myLeads == [lead] + s.myLeads
  {
  }

  /** Recording an activity replaces the lead in `myLeads` but leaves the
      focused lead as it was. */
  lemma AddActivityKeepsCurrentLead(s: State, lead: Lead)
    ensures var r := Reduce(s, AddActivity(Fulfilled(lead)));
            var k := Lists.IndexOfKey(s.myLeads, LeadId, lead.id);
            && |r.myLeads| == |s.myLeads|
            && (forall i :: 0 <= i < |s.myLeads| && i != k ==> r.myLeads[i] == s.myLeads[i])
            && (k >= 0 ==> r.myLeads[k] == lead)
            && r.currentLead == s.currentLead
  {
  }

  /** Assigning a lead updates it only in the admin list. */
  lemma AssignLeadOnlyAllLeads(s: State, lead: Lead)
    ensures var r := Reduce(s, AssignLead(Fulfilled(lead)));
            var k := Lists.IndexOfKey(s.allLeads, LeadId, lead.id);
            && r.myLeads == s.myLeads
            && |r.allLeads| == |s.allLeads|
            && (forall i :: 0 <= i < |s.allLeads| && i != k ==> r.allLeads[i] == s.allLeads[i])
            && (k >= 0 ==> r.allLeads[k] == lead)
  {
  }

  /** A pending case raises its own flag, leaves the other flags and all data
      alone, and clears the error only for fetchMyLeads and createLead. */
  lemma PendingCases(s: State, a: Action)
    requires IsPending(a)
    ensures var r := Reduce(s, a);
            && Loading(r, FlagOf(a))
            && (forall g :: g != FlagOf(a) ==> Loading(r, g) == Loading(s, g))
            && Data(r) == Data(s)
            && r.error == (if a.FetchMyLeads? || a.CreateLead? then None else s.error)
  {
  }

  /** A rejected case lowers its own flag, stores the body's message and
      leaves every collection and the focused lead unchanged. */
  lemma RejectedCases(s: State, a: Action)
    requires Rejection(a).Some?
    ensures var r := Reduce(s, a);
            && !Loading(r, FlagOf(a))
            && (forall g :: g != FlagOf(a) ==> Loading(r, g) == Loading(s, g))
            && Data(r) == Data(s)
            && r.error == Rejection(a).value.message
            && r.success == s.success
  {
  }
}
