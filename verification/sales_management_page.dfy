/** The admin's sales management page: the figures of the overview tab,
    the top performers and recent leads it lists, the filter of the leads
    tab, and the assign-lead dialog that either reassigns an existing lead
    or creates a new one for the chosen sales person. */
module SalesManagementPage {
  import opened Common
  import opened Entities
  import Text
  import Lists
  import SalesSlice

  // ---- overview tab ----

  predicate IsConverted(l: Lead) {
    l.status == "converted"
  }

  function ConvertedFilter(): Lead -> bool {
    (l: Lead) => IsConverted(l)
  }

  /** `l.actualValue || 0`. */
  function ActualOrZero(l: Lead): int {
    l.actualValue.GetOr(0)
  }

  /** `totalConverted`. */
  function TotalConverted(leads: seq<Lead>): (n: nat)
    ensures n <= |leads|
    ensures n == |Lists.Filter(leads, ConvertedFilter())|
  {
    Lists.Count(leads, ConvertedFilter())
  }

  /** `totalRevenue`: the actual values of the converted leads. */
  function TotalRevenue(leads: seq<Lead>): int {
    Lists.SumBy(Lists.Filter(leads, ConvertedFilter()), (l: Lead) => ActualOrZero(l))
  }

  /** A lead's share of the revenue: its actual value when converted,
      nothing otherwise. */
  function RevenueShare(l: Lead): int {
    if IsConverted(l) then ActualOrZero(l) else 0
  }

  /** The revenue is the sum, over every lead, of its share: converted
      leads count with their actual value (missing counts as 0) and no
      other lead counts at all. */
  lemma RevenueOverConverted(leads: seq<Lead>)
    ensures TotalRevenue(leads) == Lists.SumBy(leads, (l: Lead) => RevenueShare(l))
    ensures (forall i :: 0 <= i < |leads| ==> ActualOrZero(leads[i]) >= 0) ==> TotalRevenue(leads) >= 0
  {
    Lists.SumOfFilter(leads, ConvertedFilter(), (l: Lead) => ActualOrZero(l), (l: Lead) => RevenueShare(l));
    if forall i :: 0 <= i < |leads| ==> ActualOrZero(leads[i]) >= 0 {
      var kept := Lists.Filter(leads, ConvertedFilter());
      forall i | 0 <= i < |kept|
        ensures ActualOrZero(kept[i]) >= 0
      {
        assert multiset(kept)[kept[i]] > 0;
        assert kept[i] in leads;
      }
      Lists.SumNonNegative(kept, (l: Lead) => ActualOrZero(l));
    }
  }

  function RateSum(perf: seq<SalesSlice.Performance>): real {
    if |perf| == 0 then 0.0 else perf[0].conversionRate + RateSum(perf[1..])
  }

  /** `avgConversionRate`, before the two-decimal rounding of the display:
      the mean of the rates, or 0 for an empty team. */
  function AverageConversionRate(perf: seq<SalesSlice.Performance>): (avg: real)
    ensures |perf| == 0 ==> avg == 0.0
    ensures |perf| > 0 ==> avg * (|perf| as real) == RateSum(perf)
  {
    if |perf| > 0 then RateSum(perf) / (|perf| as real) else 0.0
  }

  lemma {:induction false} RateSumBounds(perf: seq<SalesSlice.Performance>)
    requires forall i :: 0 <= i < |perf| ==> 0.0 <= perf[i].conversionRate <= 100.0
    ensures 0.0 <= RateSum(perf) <= 100.0 * (|perf| as real)
    decreases |perf|
  {
    if |perf| > 0 {
      RateSumBounds(perf[1..]);
    }
  }

  /** When every rate is a percentage, so is their average. */
  lemma AverageIsPercentage(perf: seq<SalesSlice.Performance>)
    requires forall i :: 0 <= i < |perf| ==> 0.0 <= perf[i].conversionRate <= 100.0
    ensures 0.0 <= AverageConversionRate(perf) <= 100.0
  {
    RateSumBounds(perf);
  }

  /** The sort key of "highest revenue first". */
  function RevenueDescending(): SalesSlice.Performance -> int {
    (p: SalesSlice.Performance) => -p.revenue
  }

  /** The top-performer cards: the team sorted by revenue, highest first
      (ties keep their order), cut to the first three. */
  function TopPerformers(perf: seq<SalesSlice.Performance>): (r: seq<SalesSlice.Performance>)
    ensures |r| == if |perf| < 3 then |perf| else 3
    ensures forall i, j :: 0 <= i < j < |r| ==> r[i].revenue >= r[j].revenue
    ensures forall i :: 0 <= i < |r| ==> r[i] in perf
    ensures multiset(r) <= multiset(perf)
  {
    var sorted := Lists.SortByKey(perf, RevenueDescending());
    var r := Lists.Take(sorted, 3);
    Lists.TakeIsSubMultiset(sorted, 3);
    assert forall i :: 0 <= i < |r| ==> r[i] == sorted[i];
    forall i | 0 <= i < |r|
      ensures r[i] in perf
    {
      assert r[i] in multiset(r);
    }
    r
  }

  /** Nobody left off the cards earns more than anybody on them. */
  lemma TopPerformersDominate(perf: seq<SalesSlice.Performance>, x: SalesSlice.Performance)
    requires x in perf && x !in TopPerformers(perf)
    ensures forall i :: 0 <= i < |TopPerformers(perf)| ==> TopPerformers(perf)[i].revenue >= x.revenue
  {
    var sorted := Lists.SortByKey(perf, RevenueDescending());
    var r := TopPerformers(perf);
    assert multiset(sorted)[x] > 0;
    assert x in sorted;
    var j :| 0 <= j < |sorted| && sorted[j] == x;
    assert r == sorted[..|r|];
    assert j >= |r|;
    forall i | 0 <= i < |r|
      ensures r[i].revenue >= x.revenue
    {
      assert r[i] == sorted[i];
      assert RevenueDescending()(sorted[i]) <= RevenueDescending()(sorted[j]);
    }
  }

  /** The recent-leads table: the first five leads in list order. */
  function RecentLeads(leads: seq<Lead>): (r: seq<Lead>)
    ensures |r| == if |leads| < 5 then |leads| else 5
    ensures forall i :: 0 <= i < |r| ==> r[i] == leads[i]
  {
    Lists.Take(leads, 5)
  }

  // ---- leads tab ----

  /** The leads tab's filter bar: a sales person's id or "all", a status or
      "all", and the free text. */
  datatype TabFilters = TabFilters(salesPerson: string, status: string, search: string)

  /** The free text of this tab searches the lowered name, e-mail and
      company, but not the phone. */
  predicate TabSearchMatches(l: Lead, query: string) {
    var q := Text.ToLower(query);
    Text.Contains(Text.ToLower(l.clientName), q)
    || Text.Contains(Text.ToLower(l.clientEmail), q)
    || (l.company != "" && Text.Contains(Text.ToLower(l.company), q))
  }

  /** `lead.salesPerson?._id !== filters.salesPerson` rejects the lead; an
      unassigned lead has no id and so differs from every chosen one. */
  predicate AssignedTo(l: Lead, sp: string) {
    sp == "all" || (l.salesPersonId.Some? && l.salesPersonId.value == sp)
  }

  function TabKeeps(f: TabFilters): Lead -> bool {
    (l: Lead) => AssignedTo(l, f.salesPerson) && (f.status == "all" || l.status == f.status)
                 && (f.search == "" || TabSearchMatches(l, f.search))
  }

  /** The leads tab's `filteredLeads`. */
  function FilterTabLeads(leads: seq<Lead>, f: TabFilters): (r: seq<Lead>)
    ensures Lists.IsSubsequence(r, leads)
    ensures forall i :: 0 <= i < |r| ==>
              && (f.salesPerson != "all" ==> r[i].salesPersonId == Some(f.salesPerson))
              && (f.status != "all" ==> r[i].status == f.status)
              && (f.search != "" ==> TabSearchMatches(r[i], f.search))
    ensures forall l :: l in leads && TabKeeps(f)(l) ==> l in r
    ensures forall l :: multiset(r)[l] == if TabKeeps(f)(l) then multiset(leads)[l] else 0
  {
    var r := Lists.Filter(leads, TabKeeps(f));
    assert forall l :: l in r <==> multiset(r)[l] > 0;
    r
  }

  /** With a sales person chosen, unassigned leads are not shown; and a
      lead found only through its phone number is not shown either. */
  lemma TabFilterExclusions(leads: seq<Lead>, f: TabFilters, l: Lead)
    ensures f.salesPerson != "all" && l.salesPersonId.None? ==> l !in FilterTabLeads(leads, f)
    ensures f.search != "" && !TabSearchMatches(l, f.search) ==> l !in FilterTabLeads(leads, f)
  {
    var r := FilterTabLeads(leads, f);
    if l in r {
      var i :| 0 <= i < |r| && r[i] == l;
    }
  }

  // ---- assign-lead dialog ----

  /** The dialog's form; `estimatedValue` is `None` for the empty field. */
  datatype AssignForm = AssignForm(
    clientName: string, clientEmail: string, clientPhone: string,
    company: string, estimatedValue: Option<int>, description: string)

  /** The form's initial contents: each field from the lead being
      reassigned, or empty (`lead?.x || ''`); an estimated value of 0 is
      falsy and also shows empty. */
  function InitialForm(lead: Option<Lead>): (f: AssignForm)
    ensures lead.None? ==> f == AssignForm("", "", "", "", None, "")
    ensures lead.Some? ==> f.clientName == lead.value.clientName && f.clientEmail == lead.value.clientEmail
                           && f.clientPhone == lead.value.clientPhone && f.company == lead.value.company
                           && f.description == lead.value.description
    ensures f.estimatedValue.Some? <==> lead.Some? && lead.value.estimatedValue != 0
    ensures f.estimatedValue.Some? ==> f.estimatedValue.value == lead.value.estimatedValue
  {
    match lead
    case None => AssignForm("", "", "", "", None, "")
    case Some(l) =>
      AssignForm(l.clientName, l.clientEmail, l.clientPhone, l.company,
                 if l.estimatedValue != 0 then Some(l.estimatedValue) else None, l.description)
  }

  /** Whether the assign button is enabled. */
  function CanAssign(selected: string, lead: Option<Lead>, f: AssignForm): bool {
    !(selected == "" || (lead.None? && (f.clientName == "" || f.clientEmail == "" || f.clientPhone == "")))
  }

  /** The button is enabled exactly when a sales person is chosen and, for
      a new lead, name, e-mail and phone are all filled in; for an existing
      lead the form does not matter. */
  lemma CanAssignIff(selected: string, lead: Option<Lead>, f: AssignForm, g: AssignForm)
    ensures CanAssign(selected, lead, f) <==>
              selected != "" && (lead.Some? || (f.clientName != "" && f.clientEmail != "" && f.clientPhone != ""))
    ensures lead.Some? ==> CanAssign(selected, lead, f) == CanAssign(selected, lead, g)
  {
  }

  /** What pressing the button does. */
  datatype AssignEffect =
    | Reassign(leadId: string, salesPerson: string)
    | CreateLead(form: AssignForm, salesPerson: string)

  function HandleAssign(lead: Option<Lead>, f: AssignForm, selected: string): (e: AssignEffect)
    ensures lead.Some? <==> e.Reassign?
    ensures e.salesPerson == selected
  {
    if lead.Some? then Reassign(lead.value.id, selected) else CreateLead(f, selected)
  }

  /** An existing lead is reassigned by its id whatever the form holds; a
      new lead is created from the form as typed, carrying the chosen
      sales person. */
  lemma AssignChoice(lead: Option<Lead>, f: AssignForm, g: AssignForm, selected: string)
    ensures lead.Some? ==> HandleAssign(lead, f, selected) == HandleAssign(lead, g, selected)
                           && HandleAssign(lead, f, selected).leadId == lead.value.id
    ensures lead.None? ==> HandleAssign(lead, f, selected) == CreateLead(f, selected)
  {
  }
}
