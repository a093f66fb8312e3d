/** The application-wide session that the pages read and write: the
    `isAuthenticated` flag and `profile` of the app context, and the keys of the
    cached queries of the query client. */
module Session {
  import opened Forms

  /** The signed-in user as the server returns it; `roleId` 2 is a customer. */
  datatype User = User(email: string, roleId: int)

  /** A query-cache key, such as `["purchases", status]`. */
  type QueryKey = seq<string>

  /** A key filter matches every key that it is a prefix of (the query client's
      default, non-exact matching). */
  predicate Matches(filter: QueryKey, key: QueryKey)
  {
    |filter| <= |key| && key[..|filter|] == filter
  }

  /** A snapshot of the session as its readers see it. */
  datatype SessionState = SessionState(isAuthenticated: bool, profile: Option<User>, queries: set<QueryKey>)

  class Store {
    var isAuthenticated: bool
    var profile: Option<User>
    var queries: set<QueryKey>

    function State(): SessionState
      reads this
    {
      SessionState(isAuthenticated, profile, queries)
    }

    constructor (isAuthenticated: bool, profile: Option<User>, queries: set<QueryKey>)
      ensures State() == SessionState(isAuthenticated, profile, queries)
    {
      this.isAuthenticated := isAuthenticated;
      this.profile := profile;
      this.queries := queries;
    }

    method SetIsAuthenticated(value: bool)
      modifies this`isAuthenticated
      ensures State() == old(State()).(isAuthenticated := value)
    {
      isAuthenticated := value;
    }

    method SetProfile(value: Option<User>)
      modifies this`profile
      ensures State() == old(State()).(profile := value)
    {
      profile := value;
    }

    /** `queryClient.removeQueries({ queryKey: filter })`. */
    method RemoveQueries(filter: QueryKey)
      modifies this`queries
      ensures State() == old(State()).(queries := set q | q in old(queries) && !Matches(filter, q))
    {
      queries := set q | q in queries && !Matches(filter, q);
    }
  }
}
