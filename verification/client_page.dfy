/** The admin's client list: the search and status filter, the totals shown
    above the table, the status label and the per-client project count
    label. */
module ClientPage {
  import opened Common
  import opened Entities
  import Text
  import Lists
  import EmployeesPage

  /** The search box: the lowered term inside the lowered name or e-mail,
      or the term exactly as typed inside the phone when there is one. */
  predicate MatchesSearch(c: Client, term: string) {
    Text.Contains(Text.ToLower(c.name), Text.ToLower(term))
    || Text.Contains(Text.ToLower(c.email), Text.ToLower(term))
    || (c.phone != "" && Text.Contains(c.phone, term))
  }

  function Keeps(term: string, status: string): Client -> bool {
    (c: Client) => MatchesSearch(c, term) && EmployeesPage.MatchesStatus(status, c.active)
  }

  /** `filteredClients`. */
  function FilterClients(clients: seq<Client>, term: string, status: string): (r: seq<Client>)
    ensures Lists.IsSubsequence(r, clients)
    ensures forall i :: 0 <= i < |r| ==>
              MatchesSearch(r[i], term) && (status == "active" ==> r[i].active)
              && (status == "inactive" ==> !r[i].active)
    ensures forall c :: (c in clients && MatchesSearch(c, term) && EmployeesPage.MatchesStatus(status, c.active))
                        ==> c in r
    ensures forall c :: multiset(r)[c] ==
              if MatchesSearch(c, term) && EmployeesPage.MatchesStatus(status, c.active) then multiset(clients)[c] else 0
  {
    var r := Lists.Filter(clients, Keeps(term, status));
    assert forall c :: c in r <==> multiset(r)[c] > 0;
    r
  }

  /** The phone is searched with the term as typed: a client whose name and
      e-mail do not hold the term is still found by a phone containing it. */
  lemma PhoneSearchIsRaw(clients: seq<Client>, c: Client, term: string, status: string)
    requires c in clients && c.phone != "" && Text.Contains(c.phone, term)
    requires EmployeesPage.MatchesStatus(status, c.active)
    ensures c in FilterClients(clients, term, status)
  {
  }

  /** An empty search with the status on "all" shows every client. */
  lemma EmptySearchKeepsAll(clients: seq<Client>)
    ensures FilterClients(clients, "", "all") == clients
  {
    forall i | 0 <= i < |clients|
      ensures Keeps("", "all")(clients[i])
    {
      Text.EmptyIsContained(Text.ToLower(clients[i].name));
    }
    Lists.FilterAll(clients, Keeps("", "all"));
  }

  /** `client.projectCount || 0`. */
  function ProjectCountOrZero(c: Client): int {
    c.projectCount.GetOr(0)
  }

  /** The two totals above the table: how many clients are shown, and the
      sum of their project counts. */
  datatype Totals = Totals(clients: nat, projects: int)

  function ComputeTotals(clients: seq<Client>, term: string, status: string): (t: Totals)
    ensures t.clients == |FilterClients(clients, term, status)|
    ensures t.clients <= |clients|
  {
    var shown := FilterClients(clients, term, status);
    Totals(|shown|, Lists.SumBy(shown, (c: Client) => ProjectCountOrZero(c)))
  }

  /** The project total counts only the shown clients, a missing count as
      0: it equals the sum over all clients of the count of those shown. */
  lemma TotalProjectsOverShown(clients: seq<Client>, term: string, status: string)
    ensures ComputeTotals(clients, term, status).projects ==
              Lists.SumBy(clients, (c: Client) => if Keeps(term, status)(c) then ProjectCountOrZero(c) else 0)
  {
    Lists.SumOfFilter(clients, Keeps(term, status), (c: Client) => ProjectCountOrZero(c),
                      (c: Client) => if Keeps(term, status)(c) then ProjectCountOrZero(c) else 0);
  }

  /** `formatStatus`, the same label formatting as the role label. */
  function FormatStatus(status: string): string {
    Text.FormatLabel(status)
  }

  lemma CapitalizeInProgress()
    ensures Text.CapitalizeWords("in progress") == "In Progress"
  {
    var r := Text.CapitalizeWords("in progress");
    assert r[0] == 'I' && r[1] == 'n';
  }

  /** "in_progress" reads "In Progress". */
  lemma InProgressLabel()
    ensures FormatStatus("in_progress") == "In Progress"
  {
    assert "in_progress" == "in" + "_" + "progress";
    Text.ReplaceFirstAt("in", "progress", '_', ' ');
    assert "in" + " " + "progress" == "in progress";
    CapitalizeInProgress();
  }

  /** Only the first underscore turns into a space: "on_hold_x" keeps its
      second one. */
  lemma FirstUnderscoreOnly()
    ensures FormatStatus("on_hold_x")[2] == ' ' && FormatStatus("on_hold_x")[7] == '_'
  {
    assert "on_hold_x" == "on" + "_" + "hold_x";
    Text.ReplaceFirstAt("on", "hold_x", '_', ' ');
    var t := "on" + " " + "hold_x";
    assert t[2] == ' ' && t[6] == 'd' && t[7] == '_';
    assert !Text.StartsWord(t, 7);
  }

  /** The project-count cell: the count (0 when missing) and "Project" or
      "Projects". */
  function ProjectCountLabel(c: Client): (s: string)
    ensures Text.StartsWith(s, Text.IntToString(ProjectCountOrZero(c)) + " ")
  {
    var n := Text.IntToString(ProjectCountOrZero(c)) + " ";
    var s := n + (if c.projectCount == Some(1) then "Project" else "Projects");
    assert s[..|n|] == n;
    s
  }

  /** The singular is used exactly when the count is 1; a missing count
      reads "0 Projects". */
  lemma ProjectCountLabelNumber(c: Client)
    ensures var s := ProjectCountLabel(c);
            var n := |Text.IntToString(ProjectCountOrZero(c))| + 1;
            (s[n..] == "Project" <==> c.projectCount == Some(1))
    ensures c.projectCount.None? ==> ProjectCountLabel(c) == "0 Projects"
  {
  }
}
