/**
 * The session state machine of src/auth/AuthProvider.tsx. Every transition
 * replaces the whole `AuthState` in one update and writes the token store; the
 * pure `Next` below says what each transition does, the class methods do it.
 */
module AuthSession {
  import opened Wrappers
  import opened AuthTypes
  import opened Http
  import AuthApi

  /** `{user: null, tokens: null, isLoading: true}` */
  const InitialState := AuthState(None, None, true)

  /** The state together with the token store, as one observable value. */
  datatype Snapshot = Snapshot(state: AuthState, token: Option<string>)

  const InitialSnapshot := Snapshot(InitialState, None)

  /** The signed-in state `setTokensAndUser` installs. */
  function SignedIn(s: Session): AuthState
  {
    AuthState(Some(s.user), Some(s.tokens), false)
  }

  /** The snapshot `setTokensAndUser` leaves: the session installed and its token stored. */
  function Installed(session: Session): Snapshot
  {
    Snapshot(SignedIn(session), Some(session.tokens.accessToken))
  }

  /** One transition of the provider, with the network outcomes it depends on. */
  datatype Transition =
    | Install(session: Session)
      // `setTokensAndUser(tokens, user)`
    | SignOut
      // `logout()`, whatever the server answered
    | Login(outcome: Result<Session, AuthApi.AuthError>)
      // `loginWithEmailPassword`, given what the gateway resolved with
    | Bootstrapped(refreshed: Result<AuthTokens, AuthApi.AuthError>, profile: Result<AuthUser, AuthApi.AuthError>, cancelled: bool)
      // the mount effect: `refresh`, then `me` (only if refresh resolved), then the `cancelled` check

  /** The token store after the bootstrap's gateway calls: `refresh` installs its token itself. */
  function TokenAfterRefresh(token: Option<string>, refreshed: Result<AuthTokens, AuthApi.AuthError>): Option<string>
  {
    if refreshed.Success? then Some(refreshed.value.accessToken) else token
  }

  /** The state and token store after transition `t`. */
  function Next(s: Snapshot, t: Transition): Snapshot
  {
    match t
    case Install(session) => Installed(session)
    case SignOut => Snapshot(AuthState(None, None, false), None)
    case Login(outcome) =>
      if outcome.Success? then Installed(outcome.value) else s
    case Bootstrapped(refreshed, profile, cancelled) =>
      if cancelled then Snapshot(s.state, TokenAfterRefresh(s.token, refreshed))
      else if refreshed.Success? && profile.Success? then Installed(Session(refreshed.value, profile.value))
      else Snapshot(s.state.(isLoading := false), None)
  }

  /** The snapshot after a sequence of transitions, applied in order. */
  function Replay(s: Snapshot, ts: seq<Transition>): Snapshot
    decreases |ts|
  {
    if ts == [] then s else Replay(Next(s, ts[0]), ts[1..])
  }

  /** A transition that leaves `isLoading` as it found it (all others set it to false). */
  predicate KeepsLoading(t: Transition)
  {
    (t.Login? && t.outcome.Failure?) || (t.Bootstrapped? && t.cancelled)
  }

  /** Every transition keeps user and tokens both set or both cleared. */
  lemma NextKeepsPaired(s: Snapshot, t: Transition)
    requires Paired(s.state)
    ensures Paired(Next(s, t).state)
  {
  }

  /** `isLoading` never goes back to true, and only the two kinds of no-op transition leave it set. */
  lemma NextSettlesLoading(s: Snapshot, t: Transition)
    ensures Next(s, t).state.isLoading ==> s.state.isLoading && KeepsLoading(t)
  {
  }

  /** Over any run of transitions, user and tokens stay paired. */
  lemma {:induction false} ReplayKeepsPaired(s: Snapshot, ts: seq<Transition>)
    requires Paired(s.state)
    ensures Paired(Replay(s, ts).state)
    decreases |ts|
  {
    if ts != [] {
      NextKeepsPaired(s, ts[0]);
      ReplayKeepsPaired(Next(s, ts[0]), ts[1..]);
    }
  }

  /**
   * Over any run from the initial state, `isLoading` is still true only if
   * every transition was a failed login or a cancelled bootstrap; once false it stays false.
   */
  lemma {:induction false} ReplaySettlesLoading(s: Snapshot, ts: seq<Transition>)
    ensures Replay(s, ts).state.isLoading ==> s.state.isLoading && forall i :: 0 <= i < |ts| ==> KeepsLoading(ts[i])
    decreases |ts|
  {
    if ts != [] {
      NextSettlesLoading(s, ts[0]);
      ReplaySettlesLoading(Next(s, ts[0]), ts[1..]);
      if Replay(s, ts).state.isLoading {
        forall i | 0 <= i < |ts| ensures KeepsLoading(ts[i]) {
          if i > 0 { assert ts[i] == ts[1..][i - 1]; }
        }
      }
    }
  }

  /** A cancelled bootstrap never touches the state; the token store sees only `refresh`'s own write. */
  lemma CancelledBootstrapKeepsState(s: Snapshot, refreshed: Result<AuthTokens, AuthApi.AuthError>,
                                     profile: Result<AuthUser, AuthApi.AuthError>)
    ensures Next(s, Bootstrapped(refreshed, profile, true)).state == s.state
    ensures refreshed.Failure? ==> Next(s, Bootstrapped(refreshed, profile, true)) == s
  {
  }

  /**
   * A failed bootstrap from the initial state ends logged out: no token, no user,
   * no tokens, not loading; a token without a profile is not kept.
   */
  lemma FailedBootstrapLogsOut(refreshed: Result<AuthTokens, AuthApi.AuthError>, profile: Result<AuthUser, AuthApi.AuthError>)
    requires refreshed.Failure? || profile.Failure?
    ensures Next(InitialSnapshot, Bootstrapped(refreshed, profile, false)) == Snapshot(AuthState(None, None, false), None)
  {
  }

  // ---------------------------------------------------------------- hasRole

  /** `hasRole`'s argument: one role, or an array of roles. */
  datatype RoleQuery = One(role: Role) | AnyOf(roles: seq<Role>)

  /** `Array.isArray(role) ? role : [role]` */
  function Requested(q: RoleQuery): seq<Role>
  {
    match q
    case One(r) => [r]
    case AnyOf(rs) => rs
  }

  /** `requested.some((r) => held.includes(r))` */
  function AnyHeld(requested: seq<Role>, held: seq<Role>): bool
  {
    if requested == [] then false else requested[0] in held || AnyHeld(requested[1..], held)
  }

  /** Some requested role is among the held ones. */
  predicate SharesRole(requested: seq<Role>, held: seq<Role>)
  {
    exists r :: r in requested && r in held
  }

  /** The scan of `some` finds a held role exactly when one exists (an OR over the requested roles). */
  lemma {:induction false} AnyHeldIffShares(requested: seq<Role>, held: seq<Role>)
    ensures AnyHeld(requested, held) <==> SharesRole(requested, held)
  {
    if requested != [] {
      AnyHeldIffShares(requested[1..], held);
      if SharesRole(requested, held) && requested[0] !in held {
        var r :| r in requested && r in held;
        assert r in requested[1..];
      }
      if SharesRole(requested[1..], held) {
        var r :| r in requested[1..] && r in held;
        assert r in requested;
      }
    }
  }

  /** `hasRole` on a given user: false without a user, otherwise an any-of check. */
  function HasRoleFor(user: Option<AuthUser>, q: RoleQuery): (r: bool)
    ensures r <==> user.Some? && SharesRole(Requested(q), user.value.roles)
    ensures q.AnyOf? && q.roles == [] ==> !r
  {
    if user.None? then false
    else
      AnyHeldIffShares(Requested(q), user.value.roles);
      AnyHeld(Requested(q), user.value.roles)
  }

  /**
   * The end-to-end example: a login whose payload carries the role "landlord"
   * gives `hasRole("landlord")` and not `hasRole("admin")`.
   */
  lemma LoginExampleRoles(isEmail: string -> bool)
    requires isEmail("a@b.com")
    ensures var u := AuthUser("u1", "a@b.com", "Ann", ["landlord"], "landlord");
            var session := Session(AuthTokens("tok1"), u);
            var after := Next(InitialSnapshot, Login(AuthApi.ParseLoginResponse(AuthApi.LoginJson(session, map[], map[]), isEmail)));
            && after.token == Some("tok1")
            && HasRoleFor(after.state.user, One("landlord"))
            && !HasRoleFor(after.state.user, One("admin"))
  {
    var u := AuthUser("u1", "a@b.com", "Ann", ["landlord"], "landlord");
    AuthApi.ParseLoginRoundTrip(Session(AuthTokens("tok1"), u), map[], map[], isEmail);
  }

  // ---------------------------------------------------------------- the provider

  class AuthProvider {
    var state: AuthState
    /** The gateway's module-level token store. */
    const store: TokenStore
    /** zod's email check, used by the gateway's schema. */
    const isEmail: string -> bool

    predicate Valid()
      reads this
    {
      Paired(state)
    }

    /** What a reader of the context observes. */
    function Snap(): Snapshot
      reads this, store
    {
      Snapshot(state, store.token)
    }

    constructor (store: TokenStore, isEmail: string -> bool)
      ensures this.store == store && this.isEmail == isEmail
      ensures state == InitialState && Valid()
    {
      this.store := store;
      this.isEmail := isEmail;
      state := InitialState;
    }

    /** `setTokensAndUser`: writes the token store, then replaces the state in one update. */
    method SetTokensAndUser(tokens: AuthTokens, user: AuthUser)
      modifies this, store
      ensures Valid()
      ensures Snap() == Next(old(Snap()), Install(Session(tokens, user)))
    {
      store.SetAccessToken(Some(tokens.accessToken));
      state := AuthState(Some(user), Some(tokens), false);
    }

    /**
     * `logout`: the server call, then (in `finally`) local cleanup; a rejection
     * of the server call is passed on after the cleanup.
     */
    method Logout(response: Result<AuthApi.Json, HttpError>) returns (sent: Call, r: Result<(), AuthApi.AuthError>)
      modifies this, store
      ensures Valid()
      ensures Snap() == Next(old(Snap()), SignOut)
      ensures sent == Call(Post, "/auth/logout", None, WithBearer(map[], old(store.token)))
      ensures response.Success? ==> r == Success(())
      ensures response.Failure? ==> r == Failure(AuthApi.Transport(response.error))
    {
      sent, r := AuthApi.Logout(store, response);
      store.SetAccessToken(None);
      state := AuthState(None, None, false);
    }

    /** `loginWithEmailPassword`: the gateway call, then `setTokensAndUser` on success. */
    method LoginWithEmailPassword(email: string, password: string, response: Result<AuthApi.Json, HttpError>)
      returns (sent: Call, r: Result<(), AuthApi.AuthError>)
      requires Valid()
      modifies this, store
      ensures Valid()
      ensures Snap() == Next(old(Snap()), Login(AuthApi.SessionOutcome(response, isEmail)))
      ensures r.Success? <==> AuthApi.SessionOutcome(response, isEmail).Success?
      ensures r.Failure? ==> r.error == AuthApi.SessionOutcome(response, isEmail).error
      ensures sent.path == "/auth/login"
    {
      var outcome;
      sent, outcome := AuthApi.LoginWithEmailPassword(store, isEmail, email, password, response);
      if outcome.Success? {
        SetTokensAndUser(outcome.value.tokens, outcome.value.user);
        r := Success(());
      } else {
        r := Failure(outcome.error);
      }
    }

    /** `hasRole` against the current user. */
    function HasRole(q: RoleQuery): (r: bool)
      reads this
      ensures r <==> state.user.Some? && SharesRole(Requested(q), state.user.value.roles)
    {
      HasRoleFor(state.user, q)
    }

    /**
     * The mount effect: `refresh`, then `me` only once `refresh` resolved; the
     * `cancelled` flag (set by the effect's cleanup) is read only after both, and
     * a cancelled run touches neither the state nor the token store itself.
     * `issued` lists the requests in the order they were sent.
     */
    method Bootstrap(refreshResponse: Result<AuthApi.Json, HttpError>, meResponse: Result<AuthApi.Json, HttpError>,
                     cancelled: bool)
      returns (issued: seq<Call>)
      requires Valid()
      modifies this, store
      ensures Valid()
      ensures var refreshed := AuthApi.RefreshOutcome(refreshResponse);
              Snap() == Next(old(Snap()), Bootstrapped(refreshed, AuthApi.ProfileOutcome(meResponse, isEmail), cancelled))
      ensures |issued| == (if AuthApi.RefreshOutcome(refreshResponse).Success? then 2 else 1)
      ensures issued[0] == Call(Post, "/auth/refresh", None, WithBearer(map[], old(store.token)))
      ensures |issued| == 2 ==>
                issued[1] == Call(Get, "/auth/me", None, WithBearer(map[], Some(AuthApi.RefreshOutcome(refreshResponse).value.accessToken)))
    {
      var refreshCall, refreshed := AuthApi.Refresh(store, refreshResponse);
      issued := [refreshCall];
      if refreshed.Success? {
        var meCall, profile := AuthApi.Me(store, isEmail, meResponse);
        issued := issued + [meCall];
        if profile.Success? {
          if !cancelled {
            SetTokensAndUser(refreshed.value, profile.value);
          }
          return;
        }
      }
      if !cancelled {
        store.SetAccessToken(None);
        state := state.(isLoading := false);
      }
    }
  }
}
