/**
 * The page header (src/components/header.tsx): the avatar initials, when the
 * user menu is shown, and logout.
 */
module Header {
  import opened Types
  import Ascii
  import Browser
  import Auth
  import Login
  import ProtectedRoute

  function Min(a: nat, b: nat): nat {
    if a <= b then a else b
  }

  /** `getInitials`: "A" without an id, otherwise its first (up to) two characters
      in upper case. */
  function Initials(id: Option<string>): (r: string)
    ensures !Truthy(id) ==> r == "A"
    ensures Truthy(id) ==> (|r| == Min(2, |id.value|) &&
      forall i :: 0 <= i < |r| ==> r[i] == Ascii.UpperChar(id.value[i]))
  {
    if !Truthy(id) then "A" else Ascii.Upper(id.value[..Min(2, |id.value|)])
  }

  lemma InitialsOfAgents()
    ensures Initials(Some("ZN001")) == "ZN" && Initials(Some("zn002")) == "ZN"
    ensures Initials(Some("x")) == "X" && Initials(Some("")) == "A" && Initials(None) == "A"
  {
    assert Initials(Some("zn002"))[0] == 'Z' && Initials(Some("zn002"))[1] == 'N';
  }

  /** The avatar menu needs both a user and a non-empty agent id. */
  predicate MenuVisible(user: Option<User>, agentId: Option<string>)
    ensures MenuVisible(user, agentId) <==> ProtectedRoute.Guard(false, user, agentId).rendersChildren
  {
    user.Some? && Truthy(agentId)
  }

  /** Whenever the menu is shown, the avatar shows the agent id's own initials. */
  lemma MenuShowsAgentInitials(user: Option<User>, agentId: Option<string>)
    requires MenuVisible(user, agentId)
    ensures 1 <= |Initials(agentId)| <= 2
    ensures Initials(agentId)[0] == Ascii.UpperChar(agentId.value[0])
  {
  }

  /** `handleLogout`; `signOutOk` is whether `signOut` succeeds. On success its auth
      callback is taken to fire before the await returns; then the agent id and the admin
      flag are cleared and the route goes to /login. A failed `signOut` rejects the
      handler before any of that, so nothing changes and no navigation happens. */
  method Logout(auth: Auth.AuthProvider, signOutOk: bool) returns (target: Option<Route>)
    modifies auth, auth.storage
    ensures signOutOk ==> target == Some(LoginRoute)
    ensures signOutOk ==> auth.user == None && auth.agentId == None && !auth.loading
    ensures signOutOk ==> Auth.AgentIdKey !in auth.storage.local
    ensures signOutOk ==> auth.storage.local == old(auth.storage.local) - {Auth.AgentIdKey}
    ensures signOutOk ==> auth.storage.session == old(auth.storage.session) - {Login.AdminFlagKey}
    ensures signOutOk ==> !MenuVisible(auth.user, auth.agentId)
    ensures !signOutOk ==> (target == None && auth.user == old(auth.user) && auth.agentId == old(auth.agentId)
      && auth.loading == old(auth.loading) && auth.storage.local == old(auth.storage.local)
      && auth.storage.session == old(auth.storage.session))
  {
    if !signOutOk {
      return None;
    }
    auth.OnAuthStateChanged(None);
    auth.SetAgentId(None);
    auth.storage.session := auth.storage.session - {Login.AdminFlagKey};
    target := Some(LoginRoute);
  }

  /** After logout the login page redirects nowhere: neither session survives. */
  method LogoutEndsBothSessions(local0: map<string, string>, session0: map<string, string>, u: User)
    returns (target: Option<Route>)
    ensures target == None
  {
    var s := new Browser.Storage(local0, session0);
    var a := new Auth.AuthProvider(s);
    a.OnAuthStateChanged(Some(u));
    var route := Logout(a, true);
    target := Login.RedirectTarget(a.loading, a.user, a.agentId, Browser.Lookup(s.session, Login.AdminFlagKey));
  }

  /** A failed sign-out keeps the visitor signed in with their menu still shown. */
  method FailedLogoutKeepsSession(local0: map<string, string>, session0: map<string, string>, u: User)
    returns (target: Option<Route>, menu: bool)
    requires Truthy(Browser.Lookup(local0, Auth.AgentIdKey))
    ensures target == None && menu
  {
    var s := new Browser.Storage(local0, session0);
    var a := new Auth.AuthProvider(s);
    a.OnAuthStateChanged(Some(u));
    target := Logout(a, false);
    menu := MenuVisible(a.user, a.agentId);
  }
}
