/** The administrator's user table (src/components/admin-users.tsx): search
    and filters, deleting and editing users, the role and status counters,
    and the guard that keeps the last administrator from being deleted. */
module AdminUsers {
  import opened Wrappers
  import Lists
  import UserTable

  datatype Role = Student | Teacher | Admin

  datatype Status = Active | Inactive

  datatype User = User(id: int, name: string, email: string, role: Role, status: Status,
                       createdAt: string, lastAccess: string)

  /** A select box: `all`, or one value. */
  datatype Choice<T> = All | Only(value: T)

  predicate Accepts<T(==)>(c: Choice<T>, v: T) {
    c.All? || c.value == v
  }

  function IdOf(u: User): int {
    u.id
  }

  predicate Shown(u: User, term: string, role: Choice<Role>, status: Choice<Status>) {
    UserTable.MatchesSearch(u.name, u.email, term) && Accepts(role, u.role) && Accepts(status, u.status)
  }

  /** The rows listed: users matching the search, the role filter and the
      status filter, in their original order. */
  function FilteredUsers(users: seq<User>, term: string, role: Choice<Role>, status: Choice<Status>)
    : (r: seq<User>)
    ensures forall u :: u in r <==> u in users && UserTable.MatchesSearch(u.name, u.email, term)
                                     && (role.All? || u.role == role.value)
                                     && (status.All? || u.status == status.value)
    ensures Lists.IsSubsequence(r, users)
    ensures |r| == Lists.Count(users, (u: User) => Shown(u, term, role, status))
  {
    Lists.Filter(users, (u: User) => Shown(u, term, role, status))
  }

  /** With an empty search and both filters on `all`, every user is listed. */
  lemma NoFilterListsEveryone(users: seq<User>)
    ensures FilteredUsers(users, "", All, All) == users
  {
    forall u | u in users ensures Shown(u, "", All, All) {
      UserTable.EmptySearchMatches(u.name, u.email);
    }
  }

  /** Deleting removes exactly the users with that id. */
  function Delete(users: seq<User>, id: int): (r: seq<User>)
    ensures forall u :: u in r <==> u in users && u.id != id
    ensures Lists.IsSubsequence(r, users)
    ensures |r| + Lists.Count(users, UserTable.HasId(id, IdOf)) == |users|
  {
    UserTable.DeleteById(users, id, IdOf)
  }

  /** The confirm button of the delete dialog: it acts only when the dialog
      holds a truthy id, so an id of 0 is never deleted. */
  function ConfirmDelete(users: seq<User>, dialog: Option<int>): (r: seq<User>)
    ensures dialog.None? || dialog == Some(0) ==> r == users
    ensures dialog.Some? && dialog.value != 0 ==> r == Delete(users, dialog.value)
  {
    if dialog.Some? && dialog.value != 0 then Delete(users, dialog.value) else users
  }

  /** Saving the edit dialog replaces the user with the edited one's id. */
  function EditSave(users: seq<User>, edit: Option<User>): (r: seq<User>)
    ensures |r| == |users|
    ensures edit.None? ==> r == users
    ensures edit.Some? ==> forall k :: 0 <= k < |users| ==>
              r[k] == (if users[k].id == edit.value.id then edit.value else users[k])
  {
    UserTable.SaveEdit(users, edit, IdOf)
  }

  function HasRole(role: Role): User -> bool {
    (u: User) => u.role == role
  }

  function RoleCount(users: seq<User>, role: Role): nat {
    Lists.Count(users, HasRole(role))
  }

  /** The three role counters add up to the total. */
  lemma {:induction false} RoleCountsCoverAll(users: seq<User>)
    ensures RoleCount(users, Student) + RoleCount(users, Teacher) + RoleCount(users, Admin) == |users|
    decreases |users|
  {
    if users != [] {
      RoleCountsCoverAll(users[1..]);
    }
  }

  /** The delete button is enabled unless the user is the only admin. */
  predicate DeleteEnabled(users: seq<User>, u: User) {
    !(u.role == Admin && RoleCount(users, Admin) <= 1)
  }

  /** With unique ids, deleting through an enabled button never removes the
      last administrator. */
  lemma LastAdminSurvives(users: seq<User>, u: User)
    requires UserTable.IdsUnique(users, IdOf)
    requires u in users && DeleteEnabled(users, u)
    requires RoleCount(users, Admin) >= 1
    ensures RoleCount(Delete(users, u.id), Admin) >= 1
  {
    var sameId := UserTable.HasId(u.id, IdOf);
    var lost := Lists.And(sameId, HasRole(Admin));
    UserTable.DeleteKeepsOthers(users, u.id, IdOf, HasRole(Admin));
    UserTable.AtMostOneWithId(users, u.id, IdOf);
    Lists.CountMonotone(users, lost, sameId);
    if u.role != Admin {
      var k :| 0 <= k < |users| && users[k] == u;
      forall j | 0 <= j < |users| ensures !lost(users[j]) {
        if j < k {
          assert users[j].id != users[k].id;
        } else if j > k {
          assert users[k].id != users[j].id;
        }
      }
      Lists.CountNone(users, lost);
    }
  }

  /** The edit dialog has no such guard: it can demote the only
      administrator. */
  lemma EditCanDemoteLastAdmin()
    ensures var before := [User(5, "Admin López", "admin.lopez@school.com", Admin, Active, "", "")];
      var after := EditSave(before, Some(User(5, "Admin López", "admin.lopez@school.com", Student, Active, "", "")));
      RoleCount(before, Admin) == 1 && RoleCount(after, Admin) == 0
  {
    var before := [User(5, "Admin López", "admin.lopez@school.com", Admin, Active, "", "")];
    var after := EditSave(before, Some(User(5, "Admin López", "admin.lopez@school.com", Student, Active, "", "")));
    assert after[0].role == Student;
    assert after[1..] == [];
  }
}
