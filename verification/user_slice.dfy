/** The admin's user container: the approved users, the users awaiting
    approval, two loading flags and one error slot. */
module UserSlice {
  import opened Common
  import opened Entities
  import Lists

  datatype State = State(
    list: seq<User>,
    pendingUsers: seq<User>,
    loading: bool,
    pendingLoading: bool,
    error: Option<string>)

  const Initial := State([], [], false, false, None)

  datatype Action =
    | ClearError
    | FetchUsers(Phase<ListPayload<User>, ErrorBody>)
    | FetchPendingUsers(Phase<ListPayload<User>, ErrorBody>)
    | ApproveUser(Phase<User, ErrorBody>)
    | UpdateUser(Phase<User, ErrorBody>)

  function UserId(u: User): string { u.id }

  function IdIsNot(id: string): User -> bool {
    (u: User) => u.id != id
  }

  function Reduce(s: State, a: Action): State {
    match a
    case ClearError => s.(error := None)
    case FetchUsers(ph) =>
      (match ph
       case Pending => s.(loading := true, error := None)
       case Fulfilled(p) => s.(loading := false, list := Normalize(p))
       case Rejected(b) => s.(loading := false, error := Some(MessageOr(b, "Failed to fetch users"))))
    case FetchPendingUsers(ph) =>
      (match ph
       case Pending => s.(pendingLoading := true, error := None)
       case Fulfilled(p) => s.(pendingLoading := false, pendingUsers := Normalize(p))
       case Rejected(b) =>
         s.(pendingLoading := false, error := Some(MessageOr(b, "Failed to fetch pending users"))))
    case ApproveUser(ph) =>
      (match ph
       case Fulfilled(u) =>
         s.(pendingUsers := Lists.Filter(s.pendingUsers, IdIsNot(u.id)),
            list := if u.isApproved then s.list + [u] else s.list)
       case _ => s)
    case UpdateUser(ph) =>
      (match ph
       case Fulfilled(u) => s.(list := Lists.ReplaceFirstByKey(s.list, UserId, u.id, u))
       case _ => s)
  }

  // ---- properties ----

  /** An approval decision removes the user from the pending list; an
      approved user is appended to the list as returned, without checking
      for an existing entry. */
  lemma ApprovalMigrates(s: State, u: User)
    ensures var r := Reduce(s, ApproveUser(Fulfilled(u)));
            && (forall i :: 0 <= i < |r.pendingUsers| ==> r.pendingUsers[i].id != u.id)
            && (forall x: User :: x.id != u.id ==> multiset(r.pendingUsers)[x] == multiset(s.pendingUsers)[x])
            && (u.isApproved ==> r.list == s.list + [u] && |r.list| == |s.list| + 1)
            && (!u.isApproved ==> r.list == s.list)
  {
  }

  /** With one entry per id in both lists, an edit keeps that shape and the
      pending list keeps it through an approval decision; the main list
      keeps it through an approval exactly when the user was not listed
      yet (or was refused), since the append does not check. */
  lemma IdsStayUnique(s: State, u: User)
    requires Lists.UniqueKeys(s.list, UserId) && Lists.UniqueKeys(s.pendingUsers, UserId)
    ensures Lists.UniqueKeys(Reduce(s, UpdateUser(Fulfilled(u))).list, UserId)
    ensures var r := Reduce(s, ApproveUser(Fulfilled(u)));
            && Lists.UniqueKeys(r.pendingUsers, UserId)
            && (Lists.UniqueKeys(r.list, UserId) <==>
                  !u.isApproved || forall i :: 0 <= i < |s.list| ==> s.list[i].id != u.id)
  {
    Lists.ReplaceKeepsKeys(s.list, UserId, u.id, u);
    var edited := Lists.ReplaceFirstByKey(s.list, UserId, u.id, u);
    assert Lists.UniqueKeys(edited, UserId);
    assert Reduce(s, UpdateUser(Fulfilled(u))).list == edited;
    var r := Reduce(s, ApproveUser(Fulfilled(u)));
    assert r.pendingUsers == Lists.Filter(s.pendingUsers, IdIsNot(u.id));
    assert r.list == if u.isApproved then s.list + [u] else s.list;
    Lists.FilterKeepsUniqueKeys(s.pendingUsers, IdIsNot(u.id), UserId);
    Lists.AddKeepsUniqueKeys(s.list, UserId, u);
  }

  /** An approval followed by the same approval again lists the user twice. */
  lemma DoubleApprovalDuplicates(s: State, u: User)
    requires u.isApproved
    ensures var r := Reduce(Reduce(s, ApproveUser(Fulfilled(u))), ApproveUser(Fulfilled(u)));
            r.list == s.list + [u, u]
  {
    var r1 := Reduce(s, ApproveUser(Fulfilled(u)));
    assert r1.list + [u] == s.list + [u, u];
  }

  /** An edit replaces the first user with that id wholesale: fields the
      response lacks are not kept from the old entry. */
  lemma UpdateReplacesWholesale(s: State, u: User)
    ensures var r := Reduce(s, UpdateUser(Fulfilled(u)));
            var k := Lists.IndexOfKey(s.list, UserId, u.id);
            && |r.list| == |s.list|
            && (k >= 0 ==> r.list[k] == u)
            && (forall i :: 0 <= i < |s.list| && i != k ==> r.list[i] == s.list[i])
            && (k == -1 ==> r.list == s.list)
            && r.pendingUsers == s.pendingUsers
  {
  }

  /** Approvals and edits have no pending or rejected case. */
  lemma MutationsIgnoreOtherPhases(s: State, b: ErrorBody)
    ensures Reduce(s, ApproveUser(Pending)) == s && Reduce(s, ApproveUser(Rejected(b))) == s
    ensures Reduce(s, UpdateUser(Pending)) == s && Reduce(s, UpdateUser(Rejected(b))) == s
  {
  }

  /** The two fetches drive separate flags and normalise the payload. */
  lemma FetchCases(s: State, xs: seq<User>, b: ErrorBody)
    ensures Reduce(s, FetchUsers(Fulfilled(Wrapped(Some(xs))))).list == xs
    ensures Reduce(s, FetchPendingUsers(Fulfilled(Wrapped(None)))).pendingUsers == []
    ensures var r := Reduce(s, FetchPendingUsers(Pending));
            r.pendingLoading && r.loading == s.loading && r.error == None
    ensures var r := Reduce(s, FetchUsers(Rejected(b)));
            && !r.loading && r.list == s.list
            && r.error == Some(if Truthy(b.message) then b.message.value else "Failed to fetch users")
  {
  }
}
