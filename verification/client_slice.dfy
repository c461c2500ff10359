/** The admin's client container: the approved client list, the clients
    awaiting approval, the client opened for details, three loading flags
    and one error slot. */
module ClientSlice {
  import opened Common
  import opened Entities
  import Lists

  datatype State = State(
    list: seq<Client>,
    pendingClients: seq<Client>,
    selectedClient: Option<Client>,
    loading: bool,
    pendingLoading: bool,
    detailsLoading: bool,
    error: Option<string>)

  const Initial := State([], [], None, false, false, false, None)

  datatype Action =
    | ClearError
    | ClearSelectedClient
    | FetchClients(Phase<ListPayload<Client>, ErrorBody>)
    | FetchPendingClients(Phase<ListPayload<Client>, ErrorBody>)
    | ApproveClient(Phase<Client, ErrorBody>)
    | UpdateClient(Phase<ClientPatch, ErrorBody>)
    | UpdateClientStatus(Phase<ClientPatch, ErrorBody>)
    | FetchClientDetails(Phase<Client, ErrorBody>)

  function ClientId(c: Client): string { c.id }

  function IdIsNot(id: string): Client -> bool {
    (c: Client) => c.id != id
  }

  /** The entry an approval adds to the list: the returned client with an
      empty project list and a zero project count. */
  function Approved(c: Client): (e: Client)
    ensures e.id == c.id && e.name == c.name && e.isApproved == c.isApproved
    ensures e.email == c.email && e.phone == c.phone && e.active == c.active
    ensures e.projectIds == [] && e.projectCount == Some(0)
  {
    c.(projectIds := [], projectCount := Some(0))
  }

  /** Approving an already-approved entry changes nothing, and an entry is
      its own approval exactly when it has no projects and a zero count. */
  lemma ApprovedIsIdempotent(c: Client)
    ensures Approved(Approved(c)) == Approved(c)
    ensures Approved(c) == c <==> c.projectIds == [] && c.projectCount == Some(0)
  {
  }

  /** `{ ...list[i], ...client }` on the first entry with the patch's id. */
  function MergeInto(list: seq<Client>, p: ClientPatch): seq<Client> {
    Lists.UpdateFirstByKey(list, ClientId, p.id, (c: Client) => MergeClient(c, p))
  }

  function Reduce(s: State, a: Action): State {
    match a
    case ClearError => s.(error := None)
    case ClearSelectedClient => s.(selectedClient := None)
    case FetchClients(ph) =>
      (match ph
       case Pending => s.(loading := true, error := None)
       case Fulfilled(p) => s.(loading := false, list := Normalize(p))
       case Rejected(b) => s.(loading := false, error := Some(MessageOr(b, "Failed to fetch clients"))))
    case FetchPendingClients(ph) =>
      (match ph
       case Pending => s.(pendingLoading := true, error := None)
       case Fulfilled(p) => s.(pendingLoading := false, pendingClients := Normalize(p))
       case Rejected(b) =>
         s.(pendingLoading := false, error := Some(MessageOr(b, "Failed to fetch pending clients"))))
    case ApproveClient(ph) =>
      (match ph
       case Fulfilled(c) =>
         s.(pendingClients := Lists.Filter(s.pendingClients, IdIsNot(c.id)),
            list := if c.isApproved then s.list + [Approved(c)] else s.list)
       case _ => s)
    case UpdateClient(ph) =>
      (match ph
       case Fulfilled(p) => s.(list := MergeInto(s.list, p))
       case _ => s)
    case UpdateClientStatus(ph) =>
      (match ph
       case Fulfilled(p) => s.(list := MergeInto(s.list, p))
       case _ => s)
    case FetchClientDetails(ph) =>
      (match ph
       case Pending => s.(detailsLoading := true, error := None)
       case Fulfilled(c) => s.(detailsLoading := false, selectedClient := Some(c))
       case Rejected(b) =>
         s.(detailsLoading := false, error := Some(MessageOr(b, "Failed to fetch client details"))))
  }

  // ---- properties ----

  /** An approval decision removes every pending entry of that client; an
      approved client is appended to the list with no projects, a refused
      one is not added anywhere. */
  lemma ApprovalMigrates(s: State, c: Client)
    ensures var r := Reduce(s, ApproveClient(Fulfilled(c)));
            && (forall i :: 0 <= i < |r.pendingClients| ==> r.pendingClients[i].id != c.id)
            && (forall x: Client :: x.id != c.id ==> multiset(r.pendingClients)[x] == multiset(s.pendingClients)[x])
            && (c.isApproved ==> r.list == s.list + [Approved(c)])
            && (!c.isApproved ==> r.list == s.list)
            && r.loading == s.loading && r.error == s.error
  {
  }

  /** With one entry per id, edits and status changes keep that shape:
      the merged entry takes the response's id, which is the id it was
      found by. */
  lemma IdsStayUnique(s: State, p: ClientPatch)
    requires Lists.UniqueKeys(s.list, ClientId)
    ensures Lists.UniqueKeys(Reduce(s, UpdateClient(Fulfilled(p))).list, ClientId)
    ensures Lists.UniqueKeys(Reduce(s, UpdateClientStatus(Fulfilled(p))).list, ClientId)
  {
    Lists.UpdateKeepsKeys(s.list, ClientId, p.id, (x: Client) => MergeClient(x, p));
    var edited := MergeInto(s.list, p);
    assert Lists.UniqueKeys(edited, ClientId);
    assert Reduce(s, UpdateClient(Fulfilled(p))).list == edited;
    assert Reduce(s, UpdateClientStatus(Fulfilled(p))).list == edited;
  }

  /** An approval decision keeps the pending list at one entry per id; the
      main list keeps that shape exactly when the client was not listed yet
      (or was refused), since the append does not check. */
  lemma ApprovalKeepsIdsUnique(s: State, c: Client)
    requires Lists.UniqueKeys(s.list, ClientId) && Lists.UniqueKeys(s.pendingClients, ClientId)
    ensures Lists.UniqueKeys(Reduce(s, ApproveClient(Fulfilled(c))).pendingClients, ClientId)
    ensures Lists.UniqueKeys(Reduce(s, ApproveClient(Fulfilled(c))).list, ClientId) <==>
              !c.isApproved || forall i :: 0 <= i < |s.list| ==> s.list[i].id != c.id
  {
    ApprovalState(s, c);
    ApprovedListsUnique(s.list, s.pendingClients, c);
  }

  /** The two lists an approval rebuilds, as list operations. */
  lemma ApprovalState(s: State, c: Client)
    ensures Reduce(s, ApproveClient(Fulfilled(c))).pendingClients == Lists.Filter(s.pendingClients, IdIsNot(c.id))
    ensures Reduce(s, ApproveClient(Fulfilled(c))).list == if c.isApproved then s.list + [Approved(c)] else s.list
  {
  }

  /** Filtering keeps ids unique; appending keeps them so iff the id is new. */
  lemma ApprovedListsUnique(list: seq<Client>, pending: seq<Client>, c: Client)
    requires Lists.UniqueKeys(list, ClientId) && Lists.UniqueKeys(pending, ClientId)
    ensures Lists.UniqueKeys(Lists.Filter(pending, IdIsNot(c.id)), ClientId)
    ensures Lists.UniqueKeys(list + [Approved(c)], ClientId) <==>
              forall i :: 0 <= i < |list| ==> list[i].id != c.id
  {
    Lists.FilterKeepsUniqueKeys(pending, IdIsNot(c.id), ClientId);
    Lists.AddKeepsUniqueKeys(list, ClientId, Approved(c));
  }

  /** Approving a client that is already listed adds a second entry: the
      list is not deduplicated. */
  lemma ApprovalDoesNotDeduplicate(s: State, c: Client)
    requires c.isApproved && Approved(c) in s.list
    ensures var r := Reduce(s, ApproveClient(Fulfilled(c)));
            multiset(r.list)[Approved(c)] == multiset(s.list)[Approved(c)] + 1
  {
  }

  /** Approvals and edits have no pending or rejected case: those phases
      leave the container as it was, so no flag or error reflects them. */
  lemma MutationsIgnoreOtherPhases(s: State, b: ErrorBody)
    ensures Reduce(s, ApproveClient(Pending)) == s && Reduce(s, ApproveClient(Rejected(b))) == s
    ensures Reduce(s, UpdateClient(Pending)) == s && Reduce(s, UpdateClient(Rejected(b))) == s
    ensures Reduce(s, UpdateClientStatus(Pending)) == s && Reduce(s, UpdateClientStatus(Rejected(b))) == s
  {
  }

  /** An edit merges the returned fields into the first listed client with
      that id, in place; fields the response lacks are kept; the pending
      list is not touched. */
  lemma UpdateMergesInPlace(s: State, p: ClientPatch)
    ensures var r := Reduce(s, UpdateClient(Fulfilled(p)));
            var k := Lists.IndexOfKey(s.list, ClientId, p.id);
            && |r.list| == |s.list|
            && (k >= 0 ==> r.list[k] == MergeClient(s.list[k], p))
            && (k >= 0 && p.name.None? ==> r.list[k].name == s.list[k].name)
            && (forall i :: 0 <= i < |s.list| && i != k ==> r.list[i] == s.list[i])
            && (k == -1 ==> r.list == s.list)
            && r.pendingClients == s.pendingClients
  {
  }

  /** A status change uses the same merge as an edit. */
  lemma StatusChangeIsMerge(s: State, p: ClientPatch)
    ensures Reduce(s, UpdateClientStatus(Fulfilled(p))) == Reduce(s, UpdateClient(Fulfilled(p)))
    ensures var r := Reduce(s, UpdateClientStatus(Fulfilled(p)));
            var k := Lists.IndexOfKey(s.list, ClientId, p.id);
            k >= 0 && p.active.Some? ==> r.list[k].active == p.active.value
  {
  }

  /** Both list fetches accept a bare array or a wrapper object, and an
      absent wrapped list empties the list. */
  lemma FetchNormalizes(s: State, xs: seq<Client>)
    ensures Reduce(s, FetchClients(Fulfilled(BareArray(xs)))).list == xs
    ensures Reduce(s, FetchClients(Fulfilled(Wrapped(Some(xs))))).list == xs
    ensures Reduce(s, FetchClients(Fulfilled(Wrapped(None)))).list == []
    ensures Reduce(s, FetchPendingClients(Fulfilled(Wrapped(Some(xs))))).pendingClients == xs
    ensures Reduce(s, FetchPendingClients(Fulfilled(Wrapped(None)))).pendingClients == []
  {
  }

  /** The three fetches drive separate flags; each rejection stores the
      message or its fallback. */
  lemma FetchFlags(s: State, b: ErrorBody)
    ensures var r := Reduce(s, FetchPendingClients(Pending));
            r.pendingLoading && r.loading == s.loading && r.detailsLoading == s.detailsLoading
            && r.error == None
    ensures var r := Reduce(s, FetchClientDetails(Rejected(b)));
            && !r.detailsLoading && r.selectedClient == s.selectedClient
            && r.error == Some(if Truthy(b.message) then b.message.value else "Failed to fetch client details")
    ensures var r := Reduce(s, FetchClients(Rejected(b)));
            && !r.loading && r.list == s.list
            && r.error == Some(if Truthy(b.message) then b.message.value else "Failed to fetch clients")
  {
  }

  /** The focused client is set and cleared without touching either list. */
  lemma SelectedClientIndependent(s: State, c: Client)
    ensures var r := Reduce(s, FetchClientDetails(Fulfilled(c)));
            && r.selectedClient == Some(c) && !r.detailsLoading
            && r.list == s.list && r.pendingClients == s.pendingClients
    ensures Reduce(s, ClearSelectedClient) == s.(selectedClient := None)
  {
  }
}
