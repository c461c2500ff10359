/** The sales person's lead page: the list filter of the "All Leads" tab,
    the overdue marker of a follow-up date, and the percentage shown on a
    target card. */
module LeadsPage {
  import opened Common
  import opened Entities
  import Text
  import Lists

  /** The filter bar: each select holds a value or "all"; `search` is the
      free text, "" when empty. */
  datatype LeadFilters = LeadFilters(status: string, category: string, priority: string, search: string)

  const NoFilters := LeadFilters("all", "all", "all", "")

  /** The free-text test: the lowered query inside the lowered name, the
      lowered e-mail, the raw phone, or the lowered company when there is
      one. */
  predicate MatchesSearch(l: Lead, query: string) {
    var q := Text.ToLower(query);
    Text.Contains(Text.ToLower(l.clientName), q)
    || Text.Contains(Text.ToLower(l.clientEmail), q)
    || Text.Contains(l.clientPhone, q)
    || (l.company != "" && Text.Contains(Text.ToLower(l.company), q))
  }

  /** The three select filters; "all" imposes nothing. */
  predicate MatchesSelects(f: LeadFilters, l: Lead) {
    (f.status == "all" || l.status == f.status)
    && (f.category == "all" || l.category == f.category)
    && (f.priority == "all" || l.priority == f.priority)
  }

  /** The filter callback: selects first, then the search when it is
      non-empty. */
  function Keeps(f: LeadFilters): Lead -> bool {
    (l: Lead) => MatchesSelects(f, l) && (f.search == "" || MatchesSearch(l, f.search))
  }

  /** `filteredLeads`. */
  function FilterLeads(leads: seq<Lead>, f: LeadFilters): (r: seq<Lead>)
    ensures Lists.IsSubsequence(r, leads)
    ensures forall i :: 0 <= i < |r| ==>
              && (f.status != "all" ==> r[i].status == f.status)
              && (f.category != "all" ==> r[i].category == f.category)
              && (f.priority != "all" ==> r[i].priority == f.priority)
              && (f.search != "" ==> MatchesSearch(r[i], f.search))
    ensures forall l :: l in leads && MatchesSelects(f, l) && (f.search == "" || MatchesSearch(l, f.search))
                        ==> l in r
    ensures forall l :: multiset(r)[l] ==
              if MatchesSelects(f, l) && (f.search == "" || MatchesSearch(l, f.search)) then multiset(leads)[l] else 0
  {
    var r := Lists.Filter(leads, Keeps(f));
    assert forall l :: l in r <==> multiset(r)[l] > 0;
    r
  }

  /** With every select on "all" and no search the list comes back
      unchanged. */
  lemma NoFiltersKeepsAll(leads: seq<Lead>)
    ensures FilterLeads(leads, NoFilters) == leads
  {
    Lists.FilterAll(leads, Keeps(NoFilters));
  }

  /** With a non-empty search, a lead passing the selects is kept exactly
      when the search matches it; without a company only the name, the
      e-mail and the phone are searched; and a query found verbatim in the
      name matches whatever its letter case. */
  lemma SearchSemantics(leads: seq<Lead>, f: LeadFilters, l: Lead)
    requires l in leads && MatchesSelects(f, l) && f.search != ""
    ensures l in FilterLeads(leads, f) <==> MatchesSearch(l, f.search)
    ensures l.company == "" ==>
              (MatchesSearch(l, f.search) <==>
                 Text.Contains(Text.ToLower(l.clientName), Text.ToLower(f.search))
                 || Text.Contains(Text.ToLower(l.clientEmail), Text.ToLower(f.search))
                 || Text.Contains(l.clientPhone, Text.ToLower(f.search)))
    ensures Text.Contains(l.clientName, f.search) ==> l in FilterLeads(leads, f)
  {
    if Text.Contains(l.clientName, f.search) {
      Text.ContainsLowered(l.clientName, f.search);
    }
  }

  /** `isOverdue`: a follow-up date before the current time; a missing date
      is never overdue. */
  function IsOverdue(date: Option<int>, now: int): (b: bool)
    ensures date.None? ==> !b
  {
    date.Some? && date.value < now
  }

  /** Once overdue, a date stays overdue as time passes, and it becomes
      overdue exactly when the clock passes it. */
  lemma OverdueIsMonotone(date: Option<int>, now: int, later: int)
    requires now <= later
    ensures IsOverdue(date, now) ==> IsOverdue(date, later)
    ensures date.Some? ==> (IsOverdue(date, now) <==> now > date.value)
  {
  }

  /** The target card's percentage, before the one-decimal rounding of the
      display; a target that is zero or negative shows 0. */
  function TargetPercentage(achieved: int, target: int): (p: real)
    ensures target <= 0 ==> p == 0.0
  {
    if target > 0 then (achieved as real / target as real) * 100.0 else 0.0
  }

  /** The card reads "achieved" (percentage at least 100) exactly when the
      target is positive and reached. */
  lemma AchievedIffReached(achieved: int, target: int)
    ensures TargetPercentage(achieved, target) >= 100.0 <==> target > 0 && achieved >= target
  {
    if target > 0 {
      var t := target as real;
      var p := TargetPercentage(achieved, target);
      assert p == achieved as real * 100.0 / t;
      assert p >= 100.0 <==> achieved as real * 100.0 >= 100.0 * t;
    }
  }
}
