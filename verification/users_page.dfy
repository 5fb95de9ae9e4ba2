// The admin's user table: a case-insensitive search over name and e-mail,
// and a delete that asks for confirmation first.

module UsersPage {
  import opened Common

  datatype UserRow = UserRow(id: int, name: string, email: string, role: string, status: string, lastLogin: string)

  /** The table's starting rows. */
  const MockUsers: seq<UserRow> := [
    UserRow(1, "Tejas User", "tejas@example.com", "user", "active", "2023-05-15T10:30:00Z"),
    UserRow(2, "Admin User", "admin@example.com", "admin", "active", "2023-05-16T14:45:00Z")
  ]

  /** The search box's test: the term occurs in the name or in the e-mail. */
  predicate MatchesSearch(u: UserRow, searchTerm: string) {
    ContainsIgnoreCase(u.name, searchTerm) || ContainsIgnoreCase(u.email, searchTerm)
  }

  /** `filteredUsers` */
  function FilteredUsers(users: seq<UserRow>, searchTerm: string): (r: seq<UserRow>)
    ensures forall u :: u in r <==> u in users && MatchesSearch(u, searchTerm)
    ensures IsSubsequence(r, users)
    ensures |r| == CountWhere(users, (u: UserRow) => MatchesSearch(u, searchTerm))
  {
    FilterIsSubsequence(users, (u: UserRow) => MatchesSearch(u, searchTerm));
    Filter(users, (u: UserRow) => MatchesSearch(u, searchTerm))
  }

  /** An empty search lists every row, in order. */
  lemma EmptySearchListsAll(users: seq<UserRow>)
    ensures FilteredUsers(users, "") == users
  {
    forall u | u in users
      ensures MatchesSearch(u, "")
    {
      EmptySearchMatches(u.name);
    }
    FilterKeepsAll(users, (u: UserRow) => MatchesSearch(u, ""));
  }

  /** `users.filter(user => user.id !== userId)` */
  function WithoutUser(users: seq<UserRow>, userId: int): (r: seq<UserRow>)
    ensures forall u :: u in r <==> u in users && u.id != userId
    ensures IsSubsequence(r, users)
    ensures |r| == CountWhere(users, (u: UserRow) => u.id != userId)
  {
    FilterIsSubsequence(users, (u: UserRow) => u.id != userId);
    Filter(users, (u: UserRow) => u.id != userId)
  }

  /**
   * Deleting an id nobody has changes nothing; in particular deleting the
   * same id twice is the same as deleting it once.
   */
  lemma {:induction false} DeleteAbsentIsNoOp(users: seq<UserRow>, userId: int)
    ensures (forall u :: u in users ==> u.id != userId) ==> WithoutUser(users, userId) == users
    ensures WithoutUser(WithoutUser(users, userId), userId) == WithoutUser(users, userId)
  {
    if forall u :: u in users ==> u.id != userId {
      FilterKeepsAll(users, (u: UserRow) => u.id != userId);
    }
    var once := WithoutUser(users, userId);
    FilterKeepsAll(once, (u: UserRow) => u.id != userId);
  }

  class UsersTable {
    var users: seq<UserRow>
    var searchTerm: string

    constructor()
      ensures users == MockUsers && searchTerm == ""
    {
      users, searchTerm := MockUsers, "";
    }

    /** The search box's `onChange`. */
    method SetSearchTerm(term: string)
      modifies this
      ensures searchTerm == term && users == old(users)
    {
      searchTerm := term;
    }

    /** The rows currently shown. */
    function Shown(): (r: seq<UserRow>)
      reads this
      ensures forall u :: u in r <==> u in users && MatchesSearch(u, searchTerm)
    {
      FilteredUsers(users, searchTerm)
    }

    /**
     * `handleDelete(userId)`, where `confirmed` is the answer the browser's
     * confirmation dialog gave.
     */
    method HandleDelete(userId: int, confirmed: bool)
      modifies this
      ensures confirmed ==> users == WithoutUser(old(users), userId)
      ensures !confirmed ==> users == old(users)
      ensures forall u :: u in users <==> u in old(users) && (!confirmed || u.id != userId)
      ensures IsSubsequence(users, old(users))
      ensures searchTerm == old(searchTerm)
    {
      if confirmed {
        users := WithoutUser(users, userId);
      } else {
        SubsequenceRefl(users);
      }
    }
  }
}
