/** The user list filter of app/admin/users/UsersTable.tsx: a case-insensitive
    search on email or name, combined with a plan or ban filter. */
module UsersTable {
  import opened Text
  import opened Lists

  /** One row of the table; `name` is already `user.name || 'N/A'`. */
  datatype UserRow = UserRow(id: string, email: string, name: string, isPremium: bool, isBanned: bool)

  datatype PlanFilter = All | PremiumOnly | FreeOnly | BannedOnly

  /** The search text occurs, ignoring case, in the email or the name. */
  predicate MatchesSearch(u: UserRow, search: string): (b: bool)
    ensures Includes(u.email, search) || Includes(u.name, search) ==> b
    ensures search == "" ==> b
  {
    IncludesLower(u.email, search);
    IncludesLower(u.name, search);
    IncludesEmpty(Lower(u.email));
    Includes(Lower(u.email), Lower(search)) || Includes(Lower(u.name), Lower(search))
  }

  predicate MatchesFilter(u: UserRow, filter: PlanFilter): (b: bool)
    ensures filter == All ==> b
    ensures filter == PremiumOnly ==> (b <==> u.isPremium)
    ensures filter == FreeOnly ==> (b <==> !u.isPremium)
  {
    match filter
    case All => true
    case PremiumOnly => u.isPremium
    case FreeOnly => !u.isPremium
    case BannedOnly => u.isBanned
  }

  /** `filteredUsers`. */
  function FilteredUsers(users: seq<UserRow>, search: string, filter: PlanFilter): (r: seq<UserRow>)
    ensures |r| <= |users|
    ensures forall i :: 0 <= i < |r| ==> MatchesSearch(r[i], search) && MatchesFilter(r[i], filter)
  {
    Filter(users, u => MatchesSearch(u, search) && MatchesFilter(u, filter))
  }

  /** The count shown under the table. */
  function ShownCount(users: seq<UserRow>, search: string, filter: PlanFilter): (n: nat)
    ensures n <= |users|
  {
    |FilteredUsers(users, search, filter)|
  }

  /** The result keeps rows of the list, in the list's order, and keeps a row
      exactly when it matches both the search and the filter. */
  lemma FilteredIsSelection(users: seq<UserRow>, search: string, filter: PlanFilter, u: UserRow)
    ensures SubsequenceOf(FilteredUsers(users, search, filter), users)
    ensures u in FilteredUsers(users, search, filter) <==> u in users && MatchesSearch(u, search) && MatchesFilter(u, filter)
  {
    FilterIsSubsequence(users, u => MatchesSearch(u, search) && MatchesFilter(u, filter));
    FilterMembers(users, u => MatchesSearch(u, search) && MatchesFilter(u, filter), u);
  }

  /** Only the letters of the search matter, not their case: a search and its
      lower-case form select the same rows, and a capital in the search finds
      the small letter in a name. */
  lemma SearchIgnoresCase(users: seq<UserRow>, search: string, filter: PlanFilter)
    ensures FilteredUsers(users, Lower(search), filter) == FilteredUsers(users, search, filter)
    ensures MatchesSearch(UserRow("1", "x", "\U{E9}", false, false), "\U{C9}")
  {
    LowerIdempotent(search);
    FilterCongruent(users, u => MatchesSearch(u, Lower(search)) && MatchesFilter(u, filter),
                    u => MatchesSearch(u, search) && MatchesFilter(u, filter));
    assert Lower("\U{C9}") == "\U{E9}" == Lower("\U{E9}");
    assert OccursAt("\U{E9}", "\U{E9}", 0);
  }

  /** An empty search matches every row, so 'all' with no search shows the whole list. */
  lemma EmptySearchShowsAll(users: seq<UserRow>)
    ensures FilteredUsers(users, "", All) == users
  {
    forall u: UserRow ensures MatchesSearch(u, "") {
      IncludesEmpty(Lower(u.email));
    }
    FilterAcceptAll(users, u => MatchesSearch(u, "") && MatchesFilter(u, All));
  }

  /** For any search, 'premium' and 'free' split what 'all' shows. */
  lemma PremiumFreePartition(users: seq<UserRow>, search: string)
    ensures multiset(FilteredUsers(users, search, PremiumOnly)) + multiset(FilteredUsers(users, search, FreeOnly))
      == multiset(FilteredUsers(users, search, All))
    ensures ShownCount(users, search, PremiumOnly) + ShownCount(users, search, FreeOnly) == ShownCount(users, search, All)
  {
    var all := FilteredUsers(users, search, All);
    var matching := (u: UserRow) => MatchesSearch(u, search) && MatchesFilter(u, All);
    var premium := (u: UserRow) => MatchesSearch(u, search) && MatchesFilter(u, PremiumOnly);
    var free := (u: UserRow) => MatchesSearch(u, search) && MatchesFilter(u, FreeOnly);
    var isPremium := (u: UserRow) => u.isPremium;
    var isFree := (u: UserRow) => !u.isPremium;
    FilterFilter(users, matching, isPremium, premium);
    FilterFilter(users, matching, isFree, free);
    FilterPartition(all, isPremium, isFree);
  }
}
