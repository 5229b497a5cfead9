/**
 * The admin's user table page: the search, role and status filters over the
 * loaded users, and the active/inactive toggle.
 */
module AdminUsersPage {
  import opened Text
  import opened Lists
  import opened Records
  import opened Users
  import opened DataService

  /** The lower-cased name or email contains the lower-cased query. */
  function Matches(query: string): UserData -> bool {
    (u: UserData) => Contains(Lower(u.fullName), query) || Contains(Lower(u.email), query)
  }

  function HasRole(role: string): UserData -> bool {
    (u: UserData) => u.role == role
  }

  function HasActivity(isActive: bool): UserData -> bool {
    (u: UserData) => u.isActive == isActive
  }

  /** The search step: with a query, the users matching it lower-cased. */
  function BySearch(users: seq<UserData>, searchQuery: string): seq<UserData> {
    if searchQuery != "" then Filter(users, Matches(Lower(searchQuery))) else users
  }

  /** The role step. */
  function ByRole(users: seq<UserData>, roleFilter: string): seq<UserData> {
    if roleFilter != "" then Filter(users, HasRole(roleFilter)) else users
  }

  /** The status step: `'active'` keeps the active users, any other non-empty value the inactive ones. */
  function ByStatus(users: seq<UserData>, statusFilter: string): seq<UserData> {
    if statusFilter != "" then Filter(users, HasActivity(statusFilter == "active")) else users
  }

  /** What `applyFilters` leaves: each non-empty filter applied in turn. */
  function Filtered(users: seq<UserData>, searchQuery: string, roleFilter: string, statusFilter: string): seq<UserData> {
    ByStatus(ByRole(BySearch(users, searchQuery), roleFilter), statusFilter)
  }

  /** A user passes the search filter. */
  predicate PassesSearch(u: UserData, searchQuery: string) {
    searchQuery == "" || Contains(Lower(u.fullName), Lower(searchQuery)) || Contains(Lower(u.email), Lower(searchQuery))
  }

  /** A user passes all of the non-empty filters. */
  predicate Passes(u: UserData, searchQuery: string, roleFilter: string, statusFilter: string) {
    PassesSearch(u, searchQuery) &&
    (roleFilter == "" || u.role == roleFilter) &&
    (statusFilter == "" || u.isActive == (statusFilter == "active"))
  }

  lemma SearchStep(users: seq<UserData>, searchQuery: string)
    ensures IsSubsequence(BySearch(users, searchQuery), users)
    ensures forall u :: u in BySearch(users, searchQuery) <==> u in users && PassesSearch(u, searchQuery)
  {
    if searchQuery != "" {
      FilterMembers(users, Matches(Lower(searchQuery)));
      FilterIsSubsequence(users, Matches(Lower(searchQuery)));
    } else {
      SubsequenceRefl(users);
    }
  }

  lemma RoleStep(users: seq<UserData>, roleFilter: string)
    ensures IsSubsequence(ByRole(users, roleFilter), users)
    ensures forall u :: u in ByRole(users, roleFilter) <==> u in users && (roleFilter == "" || u.role == roleFilter)
  {
    if roleFilter != "" {
      FilterMembers(users, HasRole(roleFilter));
      FilterIsSubsequence(users, HasRole(roleFilter));
    } else {
      SubsequenceRefl(users);
    }
  }

  lemma StatusStep(users: seq<UserData>, statusFilter: string)
    ensures IsSubsequence(ByStatus(users, statusFilter), users)
    ensures forall u :: u in ByStatus(users, statusFilter) <==>
      u in users && (statusFilter == "" || u.isActive == (statusFilter == "active"))
  {
    if statusFilter != "" {
      FilterMembers(users, HasActivity(statusFilter == "active"));
      FilterIsSubsequence(users, HasActivity(statusFilter == "active"));
    } else {
      SubsequenceRefl(users);
    }
  }

  /**
   * The filtered list keeps the users' order and holds exactly the users
   * that pass every non-empty filter: a query matched case-insensitively in
   * the name or email, the exact role, and activity `'active'` or, for any
   * other non-empty status, inactivity. With no filter it is the whole list.
   */
  lemma FilteredCorrect(users: seq<UserData>, searchQuery: string, roleFilter: string, statusFilter: string)
    ensures IsSubsequence(Filtered(users, searchQuery, roleFilter, statusFilter), users)
    ensures forall u :: u in Filtered(users, searchQuery, roleFilter, statusFilter) <==>
      u in users && Passes(u, searchQuery, roleFilter, statusFilter)
    ensures searchQuery == "" && roleFilter == "" && statusFilter == "" ==> Filtered(users, searchQuery, roleFilter, statusFilter) == users
  {
    var bySearch := BySearch(users, searchQuery);
    var byRole := ByRole(bySearch, roleFilter);
    var r := ByStatus(byRole, statusFilter);
    SearchStep(users, searchQuery);
    RoleStep(bySearch, roleFilter);
    StatusStep(byRole, statusFilter);
    SubsequenceTransitive(byRole, bySearch, users);
    SubsequenceTransitive(r, byRole, users);
  }

  /** Filtering the filtered list again with the same filters changes nothing. */
  lemma FilteredIdempotent(users: seq<UserData>, searchQuery: string, roleFilter: string, statusFilter: string)
    ensures var r := Filtered(users, searchQuery, roleFilter, statusFilter);
      Filtered(r, searchQuery, roleFilter, statusFilter) == r
  {
    var r := Filtered(users, searchQuery, roleFilter, statusFilter);
    FilteredCorrect(users, searchQuery, roleFilter, statusFilter);
    assert forall i :: 0 <= i < |r| ==> r[i] in r;
    if searchQuery != "" {
      FilterAll(r, Matches(Lower(searchQuery)));
    }
    if roleFilter != "" {
      FilterAll(r, HasRole(roleFilter));
    }
    if statusFilter != "" {
      FilterAll(r, HasActivity(statusFilter == "active"));
    }
  }

  /** `user.isActive = !user.isActive` */
  function Toggled(u: UserData): (r: UserData)
    ensures r.isActive == !u.isActive && r.(isActive := u.isActive) == u
  {
    u.(isActive := !u.isActive)
  }

  class AdminUsersComponent {
    var users: seq<UserData>
    var filteredUsers: seq<UserData>
    var searchQuery: string
    var roleFilter: string
    var statusFilter: string

    constructor()
      ensures users == [] && filteredUsers == [] && searchQuery == "" && roleFilter == "" && statusFilter == ""
    {
      users := [];
      filteredUsers := [];
      searchQuery := "";
      roleFilter := "";
      statusFilter := "";
    }

    method ApplyFilters()
      modifies this
      ensures filteredUsers == Filtered(users, searchQuery, roleFilter, statusFilter)
      ensures users == old(users) && searchQuery == old(searchQuery) && roleFilter == old(roleFilter) && statusFilter == old(statusFilter)
    {
      var filtered := users;
      if searchQuery != "" {
        var query := Lower(searchQuery);
        filtered := Filter(filtered, Matches(query));
      }
      if roleFilter != "" {
        filtered := Filter(filtered, HasRole(roleFilter));
      }
      if statusFilter != "" {
        var isActive := statusFilter == "active";
        filtered := Filter(filtered, HasActivity(isActive));
      }
      filteredUsers := filtered;
    }

    method LoadUsers(service: DataService)
      modifies this
      ensures users == service.users && filteredUsers == Filtered(users, searchQuery, roleFilter, statusFilter)
      ensures searchQuery == old(searchQuery) && roleFilter == old(roleFilter) && statusFilter == old(statusFilter)
    {
      users := service.users;
      ApplyFilters();
    }

    /** Saves the user with `isActive` flipped and every other field as it was, then reloads the table. */
    method ToggleUserStatus(user: UserData, service: DataService)
      requires service.Valid()
      modifies this, service
      ensures service.users == SavedUsers(old(service.users), Toggled(user)) && service.sales == old(service.sales) && service.Valid()
      ensures users == service.users && filteredUsers == Filtered(users, searchQuery, roleFilter, statusFilter)
      ensures searchQuery == old(searchQuery) && roleFilter == old(roleFilter) && statusFilter == old(statusFilter)
    {
      var toggled := user.(isActive := !user.isActive);
      service.SaveUser(toggled);
      LoadUsers(service);
    }
  }
}
