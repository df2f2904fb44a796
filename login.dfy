/**
 * The login page (src/app/login/page.tsx): agent sign-in, the admin secret
 * code, and the redirect chosen once authentication has settled.
 */
module Login {
  import opened Types
  import Browser
  import Auth

  const AdminSecretCode := "BPCS2030"
  const AdminFlagKey := "isAdminAuthenticated"
  const InvalidCodeMessage := "Invalid secret code. Please try again."

  /** The redirect effect: an agent session wins over an admin session. */
  function RedirectTarget(loading: bool, user: Option<User>, agentId: Option<string>, adminFlag: Option<string>): (r: Option<Route>)
    ensures r == Some(DashboardRoute) <==> !loading && user.Some? && Truthy(agentId)
    ensures r == Some(AdminDashboardRoute) <==> !loading && user.Some? && !Truthy(agentId) && adminFlag == Some("true")
    ensures r.Some? ==> r.value != LoginRoute
    ensures r.None? <==> loading || user.None? || (!Truthy(agentId) && adminFlag != Some("true"))
  {
    if loading then None
    else if user.Some? && Truthy(agentId) then Some(DashboardRoute)
    else if user.Some? && adminFlag == Some("true") then Some(AdminDashboardRoute)
    else None
  }

  /** A signed-in agent who also holds the admin flag still lands on the agent dashboard. */
  lemma AgentSessionTakesPrecedence(user: User, agentId: string)
    requires agentId != ""
    ensures RedirectTarget(false, Some(user), Some(agentId), Some("true")) == Some(DashboardRoute)
  {
  }

  /** The admin code is compared exactly: case and length matter. */
  lemma AdminCodeIsCaseSensitive()
    ensures "bpcs2030" != AdminSecretCode && "BPCS2030 " != AdminSecretCode
  {
    assert "bpcs2030"[0] != AdminSecretCode[0];
  }

  class LoginPage {
    const auth: Auth.AuthProvider
    /** Which button shows a spinner: an agent code, "admin", or none. */
    var busy: Option<string>
    var adminDialogOpen: bool
    var secretCode: string
    var secretCodeError: string

    constructor (a: Auth.AuthProvider)
      ensures auth == a && busy == None && !adminDialogOpen && secretCode == "" && secretCodeError == ""
    {
      auth := a;
      busy := None;
      adminDialogOpen := false;
      secretCode := "";
      secretCodeError := "";
    }

    method TypeSecretCode(code: string)
      modifies this`secretCode
      ensures secretCode == code
    {
      secretCode := code;
    }

    /** `handleAdminLogin`; `signInOk` is whether the anonymous sign-in succeeds. */
    method HandleAdminLogin(signInOk: bool) returns (flagWritten: bool)
      modifies this, auth.storage
      ensures flagWritten <==> old(secretCode) == AdminSecretCode && signInOk
      ensures secretCode == old(secretCode)
      ensures flagWritten ==>
        auth.storage.session == old(auth.storage.session)[AdminFlagKey := "true"] && !adminDialogOpen
      ensures !flagWritten ==> auth.storage.session == old(auth.storage.session)
      ensures !flagWritten ==> adminDialogOpen == old(adminDialogOpen)
      ensures auth.storage.local == old(auth.storage.local)
      ensures secretCodeError == (if secretCode == AdminSecretCode then "" else InvalidCodeMessage)
      ensures secretCode != AdminSecretCode ==> busy == old(busy) && adminDialogOpen == old(adminDialogOpen)
      ensures secretCode == AdminSecretCode ==> busy == if signInOk then Some("admin") else None
    {
      secretCodeError := "";
      flagWritten := false;
      if secretCode == AdminSecretCode {
        busy := Some("admin");
        if signInOk {
          auth.storage.session := auth.storage.session[AdminFlagKey := "true"];
          adminDialogOpen := false;
          flagWritten := true;
        } else {
          busy := None;
        }
      } else {
        secretCodeError := InvalidCodeMessage;
      }
    }

    /** `handleAgentLogin`: the agent id is set only once the sign-in succeeds. */
    method HandleAgentLogin(agent: Agent, signInOk: bool)
      modifies this, auth, auth.storage
      ensures auth.user == old(auth.user) && auth.loading == old(auth.loading)
      ensures signInOk ==> (auth.agentId == Some(AgentCode(agent)) && busy == Some(AgentCode(agent))
        && auth.storage.local == old(auth.storage.local)[Auth.AgentIdKey := AgentCode(agent)])
      ensures !signInOk ==> (auth.agentId == old(auth.agentId) && auth.storage.local == old(auth.storage.local)
        && busy == None)
      ensures auth.storage.session == old(auth.storage.session)
      ensures secretCode == old(secretCode) && secretCodeError == old(secretCodeError)
      ensures adminDialogOpen == old(adminDialogOpen)
    {
      busy := Some(AgentCode(agent));
      if signInOk {
        auth.SetAgentId(Some(AgentCode(agent)));
      } else {
        busy := None;
      }
    }
  }

  /** A successful agent login followed by the auth callback redirects to the agent dashboard. */
  method AgentLoginReachesDashboard(agent: Agent, u: User) returns (target: Option<Route>)
    ensures target == Some(DashboardRoute)
  {
    var s := new Browser.Storage(map[], map[]);
    var a := new Auth.AuthProvider(s);
    var page := new LoginPage(a);
    page.HandleAgentLogin(agent, true);
    a.OnAuthStateChanged(Some(u));
    target := RedirectTarget(a.loading, a.user, a.agentId, Browser.Lookup(s.session, AdminFlagKey));
  }

  /** Starting signed out (so that the anonymous sign-in fires the auth callback), the
      right admin code and a successful sign-in lead to the admin dashboard when no agent
      id is stored in the tab. */
  method AdminLoginReachesAdminDashboard(u: User) returns (target: Option<Route>)
    ensures target == Some(AdminDashboardRoute)
  {
    var s := new Browser.Storage(map[], map[]);
    var a := new Auth.AuthProvider(s);
    a.OnAuthStateChanged(None);
    var page := new LoginPage(a);
    page.TypeSecretCode(AdminSecretCode);
    var written := page.HandleAdminLogin(true);
    a.OnAuthStateChanged(Some(u));
    target := RedirectTarget(a.loading, a.user, a.agentId, Browser.Lookup(s.session, AdminFlagKey));
  }

  /** A wrong admin code, whether the visitor is signed out or already signed in without an
      agent id, leaves them on the login page with an error and the session untouched, even
      after the auth state is delivered again. */
  method WrongAdminCodeStays(local0: map<string, string>, session0: map<string, string>, u: Option<User>,
                             code: string, signInOk: bool)
    returns (error: string, target: Option<Route>, session: map<string, string>)
    requires code != AdminSecretCode
    requires u.Some? ==> !Truthy(Browser.Lookup(local0, Auth.AgentIdKey))
    requires Browser.Lookup(session0, AdminFlagKey) != Some("true")
    ensures error == InvalidCodeMessage && target == None && session == session0
  {
    var s := new Browser.Storage(local0, session0);
    var a := new Auth.AuthProvider(s);
    a.OnAuthStateChanged(u);
    var page := new LoginPage(a);
    page.TypeSecretCode(code);
    var written := page.HandleAdminLogin(signInOk);
    a.OnAuthStateChanged(u);
    error, session := page.secretCodeError, s.session;
    target := RedirectTarget(a.loading, a.user, a.agentId, Browser.Lookup(s.session, AdminFlagKey));
  }
}
