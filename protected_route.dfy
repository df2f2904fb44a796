/**
 * The guard around the agent pages (src/components/protected-route.tsx).
 */
module ProtectedRoute {
  import opened Types

  /** What the guard does: render its children, and/or replace the route with /login. */
  datatype GuardView = GuardView(rendersChildren: bool, redirectsToLogin: bool)

  function Guard(loading: bool, user: Option<User>, agentId: Option<string>): (v: GuardView)
    ensures v.rendersChildren <==> !loading && user.Some? && Truthy(agentId)
    ensures v.redirectsToLogin <==> !loading && (user.None? || !Truthy(agentId))
    ensures !(v.rendersChildren && v.redirectsToLogin)
    ensures loading ==> !v.rendersChildren && !v.redirectsToLogin
    ensures !loading ==> v.rendersChildren != v.redirectsToLogin
  {
    var shouldRedirect := !loading && (user.None? || !Truthy(agentId));
    var showsSpinner := loading || user.None? || !Truthy(agentId);
    GuardView(!showsSpinner, shouldRedirect)
  }

  /** A signed-in user who has not picked an agent (or picked "") never sees the pages. */
  lemma NoAgentNoContent(loading: bool, user: User, agentId: Option<string>)
    requires !Truthy(agentId)
    ensures !Guard(loading, Some(user), agentId).rendersChildren
    ensures !loading ==> Guard(loading, Some(user), agentId).redirectsToLogin
  {
  }
}
