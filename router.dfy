/**
 * The route guard of src/router/index.tsx: the protected layout route's
 * `beforeLoad` (a bounded wait, then a redirect decision), its component's
 * loading decision, and the route table.
 */
module Router {
  import opened Wrappers
  import opened AuthTypes

  const MaxAttempts := 50
  /** Each attempt sleeps this many milliseconds. */
  const PollIntervalMs := 100
  const LoginPath := "/login"

  datatype GuardDecision = Proceed | RedirectTo(path: string)

  /**
   * `beforeLoad`: `isLoading` is copied once from `context.auth` at entry, so the
   * loop runs either not at all or all 50 times; afterwards `context.auth.user`
   * is read again (`userAfterWait`) and a missing user redirects to the login page.
   */
  method BeforeLoad(auth: AuthState, userAfterWait: Option<AuthUser>)
    returns (attempts: nat, waitedMs: nat, decision: GuardDecision)
    ensures attempts <= MaxAttempts
    ensures attempts == if auth.isLoading then MaxAttempts else 0
    ensures waitedMs == attempts * PollIntervalMs
    ensures decision == if userAfterWait.None? then RedirectTo(LoginPath) else Proceed
  {
    var isLoading := auth.isLoading;
    attempts := 0;
    waitedMs := 0;
    while isLoading && attempts < MaxAttempts
      invariant attempts <= MaxAttempts
      invariant !isLoading ==> attempts == 0
      invariant waitedMs == attempts * PollIntervalMs
    {
      waitedMs := waitedMs + PollIntervalMs;
      attempts := attempts + 1;
    }
    if userAfterWait.None? {
      decision := RedirectTo(LoginPath);
    } else {
      decision := Proceed;
    }
  }

  datatype ProtectedView = WaitingIndicator | Outlet

  /** The protected component: never the outlet while the session is still loading. */
  function ProtectedComponent(isLoading: bool): (v: ProtectedView)
    ensures v == Outlet <==> !isLoading
  {
    if isLoading then WaitingIndicator else Outlet
  }

  const RootId := "__root__"
  const ProtectedId := "protected"

  /** A page route and the id of the route it hangs under (`getParentRoute`). */
  datatype Route = Route(path: string, parent: string)

  /** The route tree: the login page under the root, every other page under the protected route. */
  const Routes: seq<Route> := [
    Route("/login", RootId),
    Route("/", ProtectedId),
    Route("/contracts", ProtectedId),
    Route("/contracts/$contractId", ProtectedId),
    Route("/contracts/new", ProtectedId),
    Route("/payments", ProtectedId),
    Route("/notices", ProtectedId),
    Route("/conflict-prevention", ProtectedId),
    Route("/settings", ProtectedId)
  ]

  /** A page whose loading passes through the protected route's guard. */
  predicate IsGuarded(path: string)
  {
    exists i :: 0 <= i < |Routes| && Routes[i].path == path && Routes[i].parent == ProtectedId
  }

  /** Every route other than the login page is behind the guard, and the login page is not. */
  lemma OnlyLoginUnguarded()
    ensures forall i :: 0 <= i < |Routes| ==> (Routes[i].parent == ProtectedId <==> Routes[i].path != LoginPath)
    ensures !IsGuarded(LoginPath)
  {
  }
}
