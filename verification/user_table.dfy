/** The list operations the two user-management screens
    (src/components/admin-users.tsx and src/components/teacher-users.tsx)
    share: the search box, deleting by id and saving an edited user. Both
    screens key users by a numeric id; `idOf` reads it. */
module UserTable {
  import opened Wrappers
  import opened Text
  import Lists

  /** The search box: the lower-cased name or email contains the lower-cased
      term. */
  predicate MatchesSearch(name: string, email: string, term: string) {
    Contains(Lower(name), Lower(term)) || Contains(Lower(email), Lower(term))
  }

  /** An empty search matches everybody. */
  lemma EmptySearchMatches(name: string, email: string)
    ensures MatchesSearch(name, email, "")
  {
    ContainsEmpty(Lower(name));
  }

  /** The search ignores the letter case of the term. */
  lemma SearchIgnoresCase(name: string, email: string, term: string)
    ensures MatchesSearch(name, email, term) == MatchesSearch(name, email, Lower(term))
  {
    LowerIdempotent(term);
  }

  function HasId<T>(id: int, idOf: T -> int): T -> bool {
    u => idOf(u) == id
  }

  function OtherId<T>(id: int, idOf: T -> int): T -> bool {
    u => idOf(u) != id
  }

  /** `users.filter(u => u.id !== id)`: every user with that id goes, the
      others stay in order. */
  function DeleteById<T(!new)>(users: seq<T>, id: int, idOf: T -> int): (r: seq<T>)
    ensures forall u :: u in r <==> u in users && idOf(u) != id
    ensures Lists.IsSubsequence(r, users)
    ensures |r| + Lists.Count(users, HasId(id, idOf)) == |users|
    ensures (forall u :: u in users ==> idOf(u) != id) ==> r == users
  {
    Lists.CountComplement(users, OtherId(id, idOf), HasId(id, idOf));
    Lists.Filter(users, OtherId(id, idOf))
  }

  /** `users.map(u => u.id === edit.id ? edit : u)` when an edit is open; no
      change otherwise. */
  function SaveEdit<T>(users: seq<T>, edit: Option<T>, idOf: T -> int): (r: seq<T>)
    ensures |r| == |users|
    ensures edit.None? ==> r == users
    ensures edit.Some? ==> forall k :: 0 <= k < |users| ==>
              r[k] == (if idOf(users[k]) == idOf(edit.value) then edit.value else users[k])
  {
    match edit
    case None => users
    case Some(e) =>
      seq(|users|, k requires 0 <= k < |users| => if idOf(users[k]) == idOf(e) then e else users[k])
  }

  /** No two users share an id. */
  ghost predicate IdsUnique<T>(users: seq<T>, idOf: T -> int) {
    forall a, b :: 0 <= a < b < |users| ==> idOf(users[a]) != idOf(users[b])
  }

  /** With unique ids, at most one user carries a given id. */
  lemma {:induction false} AtMostOneWithId<T>(users: seq<T>, id: int, idOf: T -> int)
    requires IdsUnique(users, idOf)
    ensures Lists.Count(users, HasId(id, idOf)) <= 1
    decreases |users|
  {
    if users != [] {
      var rest := users[1..];
      assert forall k :: 0 <= k < |rest| ==> rest[k] == users[k + 1];
      if idOf(users[0]) == id {
        Lists.CountNone(rest, HasId(id, idOf));
      } else {
        AtMostOneWithId(rest, id, idOf);
      }
    }
  }

  /** Deleting by id loses, of the users satisfying `q`, exactly those that
      carry the id. */
  lemma DeleteKeepsOthers<T(!new)>(users: seq<T>, id: int, idOf: T -> int, q: T -> bool)
    ensures Lists.Count(DeleteById(users, id, idOf), q)
            + Lists.Count(users, Lists.And(HasId(id, idOf), q)) == Lists.Count(users, q)
  {
    Lists.CountFilter(users, OtherId(id, idOf), q);
    Lists.CountSplit(users, OtherId(id, idOf), q);
    var p := OtherId(id, idOf);
    var np := (x: T) => !p(x);
    assert forall k :: 0 <= k < |users| ==>
      Lists.And(np, q)(users[k]) == Lists.And(HasId(id, idOf), q)(users[k]);
    Lists.CountSame(users, Lists.And(np, q), Lists.And(HasId(id, idOf), q));
  }
}
