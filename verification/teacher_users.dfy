/** The teacher's student table (src/components/teacher-users.tsx): search
    with role and group filters, deleting and editing, and the active and
    inactive counters. Role and group are free strings here. */
module TeacherUsers {
  import opened Wrappers
  import Lists
  import UserTable

  datatype Status = Active | Inactive

  datatype User = User(id: int, name: string, email: string, role: string, group: string,
                       status: Status, lastAccess: string)

  /** The value of a filter select box; `all` lets everything through. */
  const AllValues := "all"

  function IdOf(u: User): int {
    u.id
  }

  predicate Shown(u: User, term: string, role: string, group: string) {
    && UserTable.MatchesSearch(u.name, u.email, term)
    && (role == AllValues || u.role == role)
    && (group == AllValues || u.group == group)
  }

  /** The rows listed, in their original order. */
  function FilteredUsers(users: seq<User>, term: string, role: string, group: string): (r: seq<User>)
    ensures forall u :: u in r <==> u in users && UserTable.MatchesSearch(u.name, u.email, term)
                                     && (role == "all" || u.role == role)
                                     && (group == "all" || u.group == group)
    ensures Lists.IsSubsequence(r, users)
    ensures |r| == Lists.Count(users, (u: User) => Shown(u, term, role, group))
  {
    Lists.Filter(users, (u: User) => Shown(u, term, role, group))
  }

  /** With an empty search and both filters on `all`, every user is listed. */
  lemma NoFilterListsEveryone(users: seq<User>)
    ensures FilteredUsers(users, "", AllValues, AllValues) == users
  {
    forall u | u in users ensures Shown(u, "", AllValues, AllValues) {
      UserTable.EmptySearchMatches(u.name, u.email);
    }
  }

  /** A stricter filter lists a subset: narrowing the group never adds a
      row. */
  lemma NarrowingGroupShrinks(users: seq<User>, term: string, role: string, group: string)
    ensures forall u :: u in FilteredUsers(users, term, role, group) ==> u in FilteredUsers(users, term, role, AllValues)
  {
  }

  /** Deleting removes exactly the users with that id; the others keep
      their order. */
  function Delete(users: seq<User>, id: int): (r: seq<User>)
    ensures forall u :: u in r <==> u in users && u.id != id
    ensures Lists.IsSubsequence(r, users)
    ensures |r| + Lists.Count(users, UserTable.HasId(id, IdOf)) == |users|
  {
    UserTable.DeleteById(users, id, IdOf)
  }

  /** The confirm button of the delete dialog: like the administrator's, it
      acts only on a truthy id, so an id of 0 is never deleted. */
  function ConfirmDelete(users: seq<User>, dialog: Option<int>): (r: seq<User>)
    ensures dialog.None? || dialog == Some(0) ==> r == users
    ensures dialog.Some? && dialog.value != 0 ==> r == Delete(users, dialog.value)
  {
    if dialog.Some? && dialog.value != 0 then Delete(users, dialog.value) else users
  }

  /** Saving the edit dialog replaces only the user with the edited id. */
  function EditSave(users: seq<User>, edit: Option<User>): (r: seq<User>)
    ensures |r| == |users|
    ensures edit.None? ==> r == users
    ensures edit.Some? ==> forall k :: 0 <= k < |users| ==>
              r[k] == (if users[k].id == edit.value.id then edit.value else users[k])
  {
    UserTable.SaveEdit(users, edit, IdOf)
  }

  /** With unique ids, saving an edit changes at most one row, and the ids
      stay unique. */
  lemma EditKeepsIdsUnique(users: seq<User>, e: User)
    requires UserTable.IdsUnique(users, IdOf)
    ensures UserTable.IdsUnique(EditSave(users, Some(e)), IdOf)
    ensures forall a, b :: 0 <= a < b < |users| && EditSave(users, Some(e))[a] != users[a]
              ==> EditSave(users, Some(e))[b] == users[b]
  {
    var r := EditSave(users, Some(e));
    forall a, b | 0 <= a < b < |r| ensures IdOf(r[a]) != IdOf(r[b]) {
      assert IdOf(r[a]) == IdOf(users[a]);
      assert IdOf(r[b]) == IdOf(users[b]);
    }
  }

  function HasStatus(s: Status): User -> bool {
    (u: User) => u.status == s
  }

  /** The active and inactive counters add up to the total. */
  lemma {:induction false} StatusCountsCoverAll(users: seq<User>)
    ensures Lists.Count(users, HasStatus(Active)) + Lists.Count(users, HasStatus(Inactive)) == |users|
  {
    Lists.CountComplement(users, HasStatus(Active), HasStatus(Inactive));
  }
}
