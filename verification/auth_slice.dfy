/** The auth slice of the Redux store (`store/slices/authSlice.ts`): the
    signed-in user and access token, the authenticated flag, and the
    loading flag, under three reducers. */
module AuthSlice {
  import opened Base
  import AuthService

  datatype AuthState = AuthState(
    user: Option<AuthService.User>,
    accessToken: Option<string>,
    isAuthenticated: bool,
    isLoading: bool)

  /** `initialState`: signed out, loading. */
  const Initial := AuthState(None, None, false, true)

  datatype Action =
    | SetSession(user: AuthService.User, accessToken: string)
    | ClearSession
    | SetLoading(loading: bool)

  /** The session fields agree: authenticated exactly when a user and a
      token are both held. */
  predicate Consistent(s: AuthState) {
    && (s.isAuthenticated <==> s.user.Some?)
    && (s.user.Some? <==> s.accessToken.Some?)
  }

  /** The slice's reducer. */
  function Reduce(s: AuthState, a: Action): (t: AuthState)
    ensures a.SetSession? ==> t.user == Some(a.user) && t.accessToken == Some(a.accessToken) && t.isAuthenticated
    ensures a.ClearSession? ==> t.user.None? && t.accessToken.None? && !t.isAuthenticated
    ensures !a.SetLoading? ==> t.isLoading == s.isLoading
    ensures a.SetLoading? ==> t == s.(isLoading := a.loading)
    ensures Consistent(s) || !a.SetLoading? ==> Consistent(t)
  {
    match a
    case SetSession(u, token) => s.(user := Some(u), accessToken := Some(token), isAuthenticated := true)
    case ClearSession => s.(user := None, accessToken := None, isAuthenticated := false)
    case SetLoading(b) => s.(isLoading := b)
  }

  /** The state after dispatching `actions` in order from `s`. */
  function ReduceAll(s: AuthState, actions: seq<Action>): AuthState
    decreases |actions|
  {
    if actions == [] then s
    else Reduce(ReduceAll(s, actions[..|actions| - 1]), actions[|actions| - 1])
  }

  /** The last action that touched the session, if any. */
  function LastSessionAction(actions: seq<Action>): (r: Option<Action>)
    ensures r.Some? ==> r.value in actions && !r.value.SetLoading?
    decreases |actions|
  {
    if actions == [] then None
    else if !actions[|actions| - 1].SetLoading? then Some(actions[|actions| - 1])
    else
      var r := LastSessionAction(actions[..|actions| - 1]);
      assert r.Some? ==> r.value in actions[..|actions| - 1];
      r
  }

  /** The last loading flag set, if any. */
  function LastLoading(actions: seq<Action>): Option<bool>
    decreases |actions|
  {
    if actions == [] then None
    else if actions[|actions| - 1].SetLoading? then Some(actions[|actions| - 1].loading)
    else LastLoading(actions[..|actions| - 1])
  }

  /** Every state the store can reach keeps the session fields consistent. */
  lemma {:induction false} ReachableConsistent(actions: seq<Action>)
    ensures Consistent(ReduceAll(Initial, actions))
    decreases |actions|
  {
    if actions != [] {
      ReachableConsistent(actions[..|actions| - 1]);
    }
  }

  /** What the store holds after any run: the session of the last session
      action (signed out when there is none or it was a clear), and the last
      loading flag set (loading when none was). */
  lemma {:induction false} ReachableState(actions: seq<Action>)
    ensures var s := ReduceAll(Initial, actions);
      var last := LastSessionAction(actions);
      && (s.isAuthenticated <==> last.Some? && last.value.SetSession?)
      && (last.Some? && last.value.SetSession? ==>
            s.user == Some(last.value.user) && s.accessToken == Some(last.value.accessToken))
      && s.isLoading == LastLoading(actions).GetOr(true)
    decreases |actions|
  {
    if actions != [] {
      ReachableState(actions[..|actions| - 1]);
    }
  }

  /** Signing out after any run returns the session fields to the initial
      ones, keeping the loading flag. */
  lemma ClearSessionSignsOut(s: AuthState)
    ensures Reduce(s, ClearSession) == Initial.(isLoading := s.isLoading)
  {
  }

  /** Storing the session a login returns signs that user in with its
      access token. */
  lemma StoringLoginSession(s: AuthState, username: Option<string>, now: nat)
    ensures var session := AuthService.Login(username, now).session;
      var t := Reduce(s, SetSession(session.user, session.tokens.accessToken));
      && Consistent(t) && t.isAuthenticated
      && t.user.value.username == AuthService.LoginName(username)
  {
  }
}
