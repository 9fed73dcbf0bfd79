// The user list filter of book-store-app/src/pages/UserManagementPage.jsx:
// search on username or full name, exact role, and active/inactive status.
module UserManagementPage {
  import opened Wrappers
  import opened Text
  import opened Lists

  /** The fields of a user row the page filters on; a null full name is `None`. */
  datatype UserRow = UserRow(username: string, fullName: Option<string>, role: string, isActive: bool)

  /**
   * The search: the username, or the full name when there is one, contains
   * the term, ignoring case. `full_name?.toLowerCase()` is undefined for a
   * null name, which is falsy.
   */
  predicate SearchMatches(u: UserRow, term: string) {
    term == ""
    || Contains(ToLower(u.username), ToLower(term))
    || (u.fullName.Some? && Contains(ToLower(u.fullName.value), ToLower(term)))
  }

  predicate RoleMatches(u: UserRow, role: string) {
    role == "" || u.role == role
  }

  /** The status filter; a value other than '', 'active' or 'inactive' keeps nobody. */
  predicate StatusMatches(u: UserRow, status: string) {
    status == "" || (status == "active" && u.isActive) || (status == "inactive" && !u.isActive)
  }

  /** `filteredUsers`: one filter by the conjunction of the three predicates. */
  function FilteredUsers(users: seq<UserRow>, search: string, role: string, status: string): seq<UserRow> {
    Filter(users, (u: UserRow) => SearchMatches(u, search) && RoleMatches(u, role) && StatusMatches(u, status))
  }

  /** The result keeps the users' order, and holds exactly the users every set filter accepts. */
  lemma {:induction false} FilteredUsersOutcome(users: seq<UserRow>, search: string, role: string, status: string)
    ensures Subsequence(FilteredUsers(users, search, role, status), users)
    ensures forall u :: u in FilteredUsers(users, search, role, status) <==>
      u in users
      && (search == "" || Contains(ToLower(u.username), ToLower(search))
          || (u.fullName.Some? && Contains(ToLower(u.fullName.value), ToLower(search))))
      && (role == "" || u.role == role)
      && (status == "" || (status == "active" && u.isActive) || (status == "inactive" && !u.isActive))
  {
    var p := (u: UserRow) => SearchMatches(u, search) && RoleMatches(u, role) && StatusMatches(u, status);
    FilterSubsequence(users, p);
    FilterMembers(users, p);
  }

  /** With every filter empty the whole list is shown, in order. */
  lemma {:induction false} NoFiltersShowAll(users: seq<UserRow>)
    ensures FilteredUsers(users, "", "", "") == users
  {
    FilterAll(users, (u: UserRow) => SearchMatches(u, "") && RoleMatches(u, "") && StatusMatches(u, ""));
  }

  /** The 'active' and 'inactive' views split the list: every user is in exactly one of them. */
  lemma {:induction false} StatusViewsPartition(users: seq<UserRow>, search: string, role: string)
    ensures |FilteredUsers(users, search, role, "active")| + |FilteredUsers(users, search, role, "inactive")|
      == |FilteredUsers(users, search, role, "")|
  {
    var all := (u: UserRow) => SearchMatches(u, search) && RoleMatches(u, role) && StatusMatches(u, "");
    var active := (u: UserRow) => SearchMatches(u, search) && RoleMatches(u, role) && StatusMatches(u, "active");
    var inactive := (u: UserRow) => SearchMatches(u, search) && RoleMatches(u, role) && StatusMatches(u, "inactive");
    var isActive := (u: UserRow) => u.isActive;
    var isInactive := (u: UserRow) => !u.isActive;
    var shown := Filter(users, all);
    FilterBoth(users, all, isActive, active);
    FilterBoth(users, all, isInactive, inactive);
    FilterSplit(shown, isActive, isInactive);
  }

  /** An unknown status value hides every user. */
  lemma {:induction false} UnknownStatusHidesAll(users: seq<UserRow>, search: string, role: string, status: string)
    requires status != "" && status != "active" && status != "inactive"
    ensures FilteredUsers(users, search, role, status) == []
  {
    FilterNone(users, (u: UserRow) => SearchMatches(u, search) && RoleMatches(u, role) && StatusMatches(u, status));
  }
}
