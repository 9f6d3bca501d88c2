/** `CRMUsersVM` (Views/CRMView.swift): the server's user list and its search. */
module CrmView {
  import opened Common
  import opened Text
  import opened Users
  import opened Api

  /** The search text trimmed of whitespace and newlines, then lowercased. */
  function Query(searchText: string): string
  {
    Lower(Trim(searchText, IsWhitespaceOrNewline))
  }

  /** A query left empty by trimming is a blank search text. */
  lemma EmptyQuery(searchText: string)
    ensures Query(searchText) == [] <==> forall k :: 0 <= k < |searchText| ==> IsWhitespaceOrNewline(searchText[k])
  {
  }

  /** The search matches a user when the lowercased full name, email or phone contains it. */
  predicate Matches(u: CRMUser, q: string)
  {
    Contains(Lower(FullName(u)), q) || Contains(Lower(u.email), q) || Contains(Lower(u.phone), q)
  }

  /** `users.filter { ... }`: the matching users in list order, each as often as in the list. */
  function FilterUsers(users: seq<CRMUser>, q: string): (r: seq<CRMUser>)
    ensures IsSubsequence(r, users)
    ensures forall u :: multiset(r)[u] == if Matches(u, q) then multiset(users)[u] else 0
    decreases |users|
  {
    if users == [] then []
    else
      var rest := FilterUsers(users[1..], q);
      assert users == [users[0]] + users[1..];
      assert multiset(users) == multiset{users[0]} + multiset(users[1..]);
      if Matches(users[0], q) then [users[0]] + rest else rest
  }

  /** A user is listed exactly when it is in the list and matches. */
  lemma FilterMembership(users: seq<CRMUser>, q: string, u: CRMUser)
    ensures u in FilterUsers(users, q) <==> u in users && Matches(u, q)
  {
    var r := FilterUsers(users, q);
    assert u in r <==> multiset(r)[u] > 0;
    assert u in users <==> multiset(users)[u] > 0;
  }

  class CrmUsersVm {
    var users: seq<CRMUser>
    var searchText: string
    var isLoading: bool
    var errorMessage: Option<string>

    constructor()
      ensures users == [] && searchText == "" && !isLoading && errorMessage.None?
    {
      users := [];
      searchText := "";
      isLoading := false;
      errorMessage := None;
    }

    /** `filtered`: every user for a blank search, otherwise the users that match it. */
    function Filtered(): (r: seq<CRMUser>)
      reads this
      ensures Query(searchText) == [] ==> r == users
      ensures Query(searchText) != [] ==> r == FilterUsers(users, Query(searchText))
      ensures IsSubsequence(r, users)
    {
      var q := Query(searchText);
      if q == [] then
        SubsequenceOfItself(users);
        users
      else FilterUsers(users, q)
    }

    /**
     * `load`: nothing happens while a load is running. Otherwise fetch the first hundred users;
     * success replaces the list, failure keeps it and shows the error's localized description,
     * and loading ends either way. `fetched` is what `getUsers` returned, when it was called.
     */
    method Load(api: UsersApi, outcome: Exchange, decodeUsers: Bytes -> Option<seq<CRMUser>>,
                utf8Text: Bytes -> Option<string>, systemText: NSError -> string)
      returns (fetched: Option<Result<seq<CRMUser>, NSError>>)
      modifies this`users, this`isLoading, this`errorMessage
      ensures old(isLoading) ==> fetched.None? && users == old(users) && errorMessage == old(errorMessage) && isLoading
      ensures !old(isLoading) ==> fetched.Some? && !isLoading
      ensures fetched.Some? ==> fetched.value == UsersAttempt(outcome, decodeUsers, utf8Text)
      ensures fetched.Some? && fetched.value.Success? ==>
        Some(users) == decodeUsers(outcome.data) && errorMessage == old(errorMessage)
      ensures fetched.Some? && fetched.value.Failure? ==>
        users == old(users) && errorMessage == Some(LocalizedDescription(fetched.value.error, systemText))
    {
      if isLoading {
        return None;
      }
      isLoading := true;
      var req, result := api.GetUsers(outcome, decodeUsers, utf8Text, 0, 100);
      match result {
        case Success(list) =>
          users := list;
        case Failure(e) =>
          errorMessage := Some(LocalizedDescription(e, systemText));
      }
      isLoading := false;
      fetched := Some(result);
    }
  }
}
