/**
 * The authentication context (src/components/auth-provider.tsx): the
 * signed-in user, the agent id kept in step with `localStorage['agentId']`,
 * and the loading flag that ends with the first auth callback.
 */
module Auth {
  import opened Types
  import Browser

  const AgentIdKey := "agentId"

  class AuthProvider {
    const storage: Browser.Storage
    var user: Option<User>
    var agentId: Option<string>
    var loading: bool

    /** The agent id state agrees with what the tab has stored; the one exception is
        `setAgentId("")`, which keeps "" in state while nothing is stored. */
    ghost predicate Synced()
      reads this, storage
    {
      agentId == Browser.Lookup(storage.local, AgentIdKey)
      || (agentId == Some("") && AgentIdKey !in storage.local)
    }

    /** Until the first auth callback nothing is known; after it, the state is synced. */
    ghost predicate Valid()
      reads this, storage
    {
      loading || Synced()
    }

    constructor (s: Browser.Storage)
      ensures storage == s && user == None && agentId == None && loading
      ensures Valid()
    {
      storage := s;
      user := None;
      agentId := None;
      loading := true;
    }

    /** `setAgentId`: a non-empty id is stored, anything else removes the key; the
        state takes the argument either way. */
    method SetAgentId(id: Option<string>)
      modifies this, storage
      ensures Valid() && Synced()
      ensures agentId == id && user == old(user) && loading == old(loading)
      ensures storage.local == if Truthy(id) then old(storage.local)[AgentIdKey := id.value]
                               else old(storage.local) - {AgentIdKey}
      ensures storage.session == old(storage.session)
      ensures id != Some("") ==> agentId == Browser.Lookup(storage.local, AgentIdKey)
    {
      if Truthy(id) {
        storage.local := storage.local[AgentIdKey := id.value];
      } else {
        storage.local := storage.local - {AgentIdKey};
      }
      agentId := id;
    }

    /** The `onAuthStateChanged` callback: a signed-in user picks up the stored id, a
        sign-out removes it; loading ends for good. */
    method OnAuthStateChanged(u: Option<User>)
      modifies this, storage
      ensures Valid() && !loading && user == u
      ensures u.Some? ==> storage.local == old(storage.local) && agentId == Browser.Lookup(old(storage.local), AgentIdKey)
      ensures u.None? ==> storage.local == old(storage.local) - {AgentIdKey} && agentId == None
      ensures agentId == Browser.Lookup(storage.local, AgentIdKey)
      ensures storage.session == old(storage.session)
    {
      user := u;
      if u.Some? {
        var storedAgentId := Browser.Lookup(storage.local, AgentIdKey);
        agentId := storedAgentId;
      } else {
        storage.local := storage.local - {AgentIdKey};
        agentId := None;
      }
      loading := false;
    }
  }

  /** Signing in as an agent sets the id and fires the auth callback; whichever of the
      two lands first, the provider ends with the same user, id and stored value. */
  method SignInEitherOrder(local0: map<string, string>, session0: map<string, string>, u: User, id: string)
    returns (agentA: Option<string>, agentB: Option<string>, localA: map<string, string>, localB: map<string, string>)
    requires id != ""
    ensures agentA == agentB == Some(id)
    ensures localA == localB == local0[AgentIdKey := id]
  {
    var sa := new Browser.Storage(local0, session0);
    var a := new AuthProvider(sa);
    a.OnAuthStateChanged(Some(u));
    a.SetAgentId(Some(id));
    agentA, localA := a.agentId, sa.local;

    var sb := new Browser.Storage(local0, session0);
    var b := new AuthProvider(sb);
    b.SetAgentId(Some(id));
    b.OnAuthStateChanged(Some(u));
    agentB, localB := b.agentId, sb.local;
  }

  /** A returning visitor: a signed-in user with an id stored from an earlier session
      gets that id back, and one with nothing stored gets none. */
  method RestoreSession(local0: map<string, string>, u: User) returns (restored: Option<string>, loading: bool)
    ensures restored == Browser.Lookup(local0, AgentIdKey) && !loading
  {
    var s := new Browser.Storage(local0, map[]);
    var a := new AuthProvider(s);
    a.OnAuthStateChanged(Some(u));
    restored, loading := a.agentId, a.loading;
  }
}
