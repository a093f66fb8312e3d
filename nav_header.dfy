/** The header bar: the user menu whose entries depend on the role, the switch
    between the user menu and the register/login links, and logout. */
module NavHeader {
  import opened Forms
  import opened Session

  /** What a menu entry does: open a page, or log out. */
  datatype Target = Link(path: string) | LogoutAction

  datatype MenuItem = MenuItem(key: string, target: Target)

  /** The body of a logout request. */
  datatype LogoutBody = LogoutBody(refreshToken: string)

  /** The cached queries that logout drops. */
  const PurchasesKey: QueryKey := ["purchases"]

  /** `profile?.roleId === 2`: a signed-in customer. */
  predicate IsCustomer(profile: Option<User>)
  {
    profile.Some? && profile.value.roleId == 2
  }

  /** The keys of a menu, in order. */
  function Keys(items: seq<MenuItem>): (keys: seq<string>)
    ensures |keys| == |items| && forall i :: 0 <= i < |items| ==> keys[i] == items[i].key
  {
    if items == [] then [] else [items[0].key] + Keys(items[1..])
  }

  /** The dropdown's entries: profile and orders first, the management page for
      everyone but a customer (a missing profile included), logout last. */
  method BuildMenu(profile: Option<User>) returns (items: seq<MenuItem>)
    ensures Keys(items) == if IsCustomer(profile) then ["1", "2", "4"] else ["1", "2", "3", "4"]
    ensures items[0] == MenuItem("1", Link("/profile")) && items[1] == MenuItem("2", Link("/orders"))
    ensures items[|items| - 1] == MenuItem("4", LogoutAction)
    ensures forall i :: 0 <= i < |items| && items[i].target == LogoutAction ==> i == |items| - 1
    ensures !IsCustomer(profile) ==> items[2] == MenuItem("3", Link("/manage/profile"))
  {
    items := [MenuItem("1", Link("/profile")), MenuItem("2", Link("/orders"))];
    if !IsCustomer(profile) {
      items := items + [MenuItem("3", Link("/manage/profile")), MenuItem("4", LogoutAction)];
    } else {
      items := items + [MenuItem("4", LogoutAction)];
    }
  }

  /** The session after a successful logout: signed out, no profile, and no
      cached query under `["purchases"]`; every other query is kept. */
  function LoggedOut(s: SessionState): (r: SessionState)
    ensures !r.isAuthenticated && r.profile == None
    ensures forall q :: q in r.queries <==> q in s.queries && !Matches(PurchasesKey, q)
  {
    SessionState(false, None, set q | q in s.queries && !Matches(PurchasesKey, q))
  }

  /** Logging out twice ends where logging out once does. */
  lemma LoggedOutIdempotent(s: SessionState)
    ensures LoggedOut(LoggedOut(s)) == LoggedOut(s)
  {
  }

  /** Logging out of a session that is already signed out and holds no
      purchases changes nothing. */
  lemma LoggedOutOfSignedOut(s: SessionState)
    requires !s.isAuthenticated && s.profile == None
    requires forall q :: q in s.queries ==> !Matches(PurchasesKey, q)
    ensures LoggedOut(s) == s
  {
  }

  /** What the right of the header shows. */
  datatype HeaderView = UserMenu(greeting: Option<string>) | GuestLinks

  /** The user menu, greeting `profile?.email`, exactly when signed in; the
      register and login links exactly when not. */
  function View(s: SessionState): (v: HeaderView)
    ensures v.UserMenu? <==> s.isAuthenticated
    ensures v.GuestLinks? <==> !s.isAuthenticated
    ensures v.UserMenu? ==> (v.greeting.Some? <==> s.profile.Some?)
    ensures v.UserMenu? && s.profile.Some? ==> v.greeting == Some(s.profile.value.email)
  {
    if s.isAuthenticated then UserMenu(if s.profile.Some? then Some(s.profile.value.email) else None)
    else GuestLinks
  }

  /** After a logout the header offers the register and login links. */
  lemma LoggedOutShowsGuestLinks(s: SessionState)
    ensures View(LoggedOut(s)) == GuestLinks
  {
  }

  class Header {
    const store: Store

    constructor (store: Store)
      ensures this.store == store
    {
      this.store := store;
    }

    /** `handleLogout`: sends the stored refresh token (given here, as the
        storage is not modelled); only a successful response changes the
        session, which it signs out. */
    method HandleLogout(refreshToken: string, succeeded: bool) returns (body: LogoutBody)
      modifies store
      ensures body == LogoutBody(refreshToken)
      ensures store.State() == if succeeded then LoggedOut(old(store.State())) else old(store.State())
    {
      body := LogoutBody(refreshToken);
      if succeeded {
        store.SetIsAuthenticated(false);
        store.SetProfile(None);
        store.RemoveQueries(PurchasesKey);
      }
    }
  }
}
