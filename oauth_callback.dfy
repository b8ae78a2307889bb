/**
 * The OAuth redirect target, src/shared/pages/OAuthCallbackPage.tsx: checks the
 * authorization code, then the CSRF `state` against the stored challenge, then
 * consumes the challenge, then exchanges the code (section 4.1.3 of RFC 6749)
 * and installs the session. The page is processing until it fails (terminal
 * error view) or navigates to the dashboard.
 */
module OAuthCallback {
  import opened Wrappers
  import opened AuthTypes
  import opened Http
  import opened Browser
  import opened AuthApi
  import opened AuthSession
  import OAuthInitiation

  const NoCodeMessage := "No authorization code received from OAuth provider"
  const StateMismatchMessage := "State parameter mismatch - possible CSRF attack"
  /** Shown when the rejection value is not an `Error`. */
  const GenericMessage := "Failed to complete OAuth login"
  /** Stands for the message of zod's `ZodError`, whose text the model does not compute. */
  const ValidationMessage := "Invalid server response"
  const DefaultProvider := "google"
  const LandingPath := "/dashboard"
  const LoginPath := "/login"

  /**
   * `searchParams.get(key)` on the redirect's query string, taken as its ordered
   * list of pairs: the first value under `key`, so a repeated parameter reads as
   * its first occurrence.
   */
  function QueryGet(query: OAuthInitiation.Params, key: string): Option<string>
  {
    OAuthInitiation.Lookup(query, key)
  }

  /** The message the page shows for a failed exchange: `err.message` for an `Error`, else the generic text. */
  function ErrorMessage(e: AuthError): string
  {
    match e
    case Transport(RequestFailed(message)) => message
    case Transport(NonErrorRejection) => GenericMessage
    case Invalid => ValidationMessage
  }

  /** What the handler decides before any network call. */
  datatype Plan = MissingCode | StateMismatch | Exchange(provider: string, code: string, state: Option<string>)

  /**
   * The checks in order: a truthy `code`, then strict equality of the nullable
   * query `state` with the stored challenge (two absent values are equal). The
   * provider defaults to "google"; an empty `state` is passed on as absent.
   */
  function PlanCallback(query: OAuthInitiation.Params, stored: Option<string>): (p: Plan)
    ensures p.MissingCode? <==> !Truthy(QueryGet(query, "code"))
    ensures p.StateMismatch? <==> Truthy(QueryGet(query, "code")) && QueryGet(query, "state") != stored
    ensures p.Exchange? ==> QueryGet(query, "code") == Some(p.code) && p.code != ""
    ensures p.Exchange? ==> p.provider == if Truthy(QueryGet(query, "provider")) then QueryGet(query, "provider").value else DefaultProvider
    ensures p.Exchange? ==> p.state == if Truthy(stored) then stored else None
  {
    var code := QueryGet(query, "code");
    var state := QueryGet(query, "state");
    var provider := QueryGet(query, "provider");
    if !Truthy(code) then MissingCode
    else if state != stored then StateMismatch
    else Exchange(if Truthy(provider) then provider.value else DefaultProvider, code.value, if Truthy(state) then state else None)
  }

  /** A returned state of "xyz" against a stored "abc" is rejected before any exchange. */
  lemma MismatchExample(query: OAuthInitiation.Params)
    requires QueryGet(query, "code") == Some("c1") && QueryGet(query, "state") == Some("xyz")
    ensures PlanCallback(query, Some("abc")) == StateMismatch
  {
  }

  /** No stored challenge and no returned state pass the check (strict equality of two nulls). */
  lemma AbsentStatesPass(query: OAuthInitiation.Params, code: string)
    requires code != "" && QueryGet(query, "code") == Some(code)
    requires QueryGet(query, "state") == None && QueryGet(query, "provider") == None
    ensures PlanCallback(query, None) == Exchange(DefaultProvider, code, None)
  {
  }

  /**
   * With a repeated `state` parameter only the first value is compared with the
   * stored challenge: a matching first value passes whatever follows it, and a
   * matching later value does not rescue a differing first one.
   */
  lemma RepeatedStateReadsFirst(code: string, stored: string, other: string)
    requires code != "" && stored != other
    ensures PlanCallback([("code", code), ("state", stored), ("state", other)], Some(stored))
            == Exchange(DefaultProvider, code, if stored != "" then Some(stored) else None)
    ensures PlanCallback([("code", code), ("state", other), ("state", stored)], Some(stored)) == StateMismatch
  {
    var passing: OAuthInitiation.Params := [("code", code), ("state", stored), ("state", other)];
    OAuthInitiation.LookupFirst(passing, "code", 0);
    OAuthInitiation.LookupFirst(passing, "state", 1);
    OAuthInitiation.LookupAbsent(passing, "provider");
    var failing: OAuthInitiation.Params := [("code", code), ("state", other), ("state", stored)];
    OAuthInitiation.LookupFirst(failing, "code", 0);
    OAuthInitiation.LookupFirst(failing, "state", 1);
  }

  /** Observable steps of one run of the handler, in order. */
  datatype Step =
    | ReadChallenge              // sessionStorage.getItem("oauth_state")
    | RemoveChallenge            // sessionStorage.removeItem("oauth_state")
    | Exchanged(call: Call)      // authApi.oauthCallback
    | InstalledSession           // setTokensAndUser
    | Navigated(to: string)      // navigate
    | Failed(message: string)    // setError + setIsProcessing(false)

  /** What the page renders. */
  datatype View = ProcessingView | ErrorView(message: string) | Blank

  class CallbackPage {
    var error: Option<string>
    var isProcessing: bool
    /** The target of the last `navigate` call. */
    var navigation: Option<string>

    constructor ()
      ensures error == None && isProcessing && navigation == None
    {
      error := None;
      isProcessing := true;
      navigation := None;
    }

    /** The spinner while processing, the error card when an error is set, nothing otherwise. */
    function View(): (v: View)
      reads this
      ensures v.ProcessingView? <==> isProcessing
      ensures v.ErrorView? <==> !isProcessing && Truthy(error)
    {
      if isProcessing then ProcessingView else if Truthy(error) then ErrorView(error.value) else Blank
    }

    /** The catch block: record the message and stop processing. */
    method Fail(message: string)
      modifies this`error, this`isProcessing
      ensures error == Some(message) && !isProcessing
    {
      error := Some(message);
      isProcessing := false;
    }

    /** `handleCallback`, run once on mount (while the page is still processing). */
    method HandleCallback(query: OAuthInitiation.Params, storage: SessionStorage, auth: AuthProvider,
                          response: Result<Json, HttpError>)
      returns (trace: seq<Step>)
      requires isProcessing && error == None
      requires auth.Valid()
      modifies this, storage, auth, auth.store
      ensures auth.Valid()
      ensures match PlanCallback(query, old(storage.GetItem(OAuthInitiation.StateKey)))
        case MissingCode =>
          && trace == [Failed(NoCodeMessage)]
          && storage.items == old(storage.items) && auth.Snap() == old(auth.Snap())
          && error == Some(NoCodeMessage) && !isProcessing && navigation == old(navigation)
        case StateMismatch =>
          && trace == [ReadChallenge, Failed(StateMismatchMessage)]
          && storage.items == old(storage.items) && auth.Snap() == old(auth.Snap())
          && error == Some(StateMismatchMessage) && !isProcessing && navigation == old(navigation)
        case Exchange(provider, code, state) =>
          var outcome := SessionOutcome(response, auth.isEmail);
          var call := Call(Post, "/auth/" + provider + "/callback", Some(OAuthCallbackBody(code, state)),
                           WithBearer(map[], old(auth.store.token)));
          && storage.items == old(storage.items) - {OAuthInitiation.StateKey}
          && (outcome.Success? ==>
                && trace == [ReadChallenge, RemoveChallenge, Exchanged(call), InstalledSession, Navigated(LandingPath)]
                && auth.Snap() == Next(old(auth.Snap()), Install(outcome.value))
                && isProcessing && error == None && navigation == Some(LandingPath))
          && (outcome.Failure? ==>
                && trace == [ReadChallenge, RemoveChallenge, Exchanged(call), Failed(ErrorMessage(outcome.error))]
                && auth.Snap() == old(auth.Snap())
                && error == Some(ErrorMessage(outcome.error)) && !isProcessing && navigation == old(navigation))
    {
      ghost var plan := PlanCallback(query, storage.GetItem(OAuthInitiation.StateKey));
      var code := QueryGet(query, "code");
      var state := QueryGet(query, "state");
      var provider := if Truthy(QueryGet(query, "provider")) then QueryGet(query, "provider").value else DefaultProvider;
      if !Truthy(code) {
        Fail(NoCodeMessage);
        return [Failed(NoCodeMessage)];
      }
      var stored := storage.GetItem(OAuthInitiation.StateKey);
      if state != stored {
        Fail(StateMismatchMessage);
        return [ReadChallenge, Failed(StateMismatchMessage)];
      }
      assert plan == Exchange(provider, code.value, if Truthy(state) then state else None);
      storage.RemoveItem(OAuthInitiation.StateKey);
      var rest := ExchangeAndInstall(auth, provider, code.value, if Truthy(state) then state else None, response);
      trace := [ReadChallenge, RemoveChallenge] + rest;
    }

    /** The steps after the challenge is consumed: the exchange, then install and navigate, or fail. */
    method ExchangeAndInstall(auth: AuthProvider, provider: string, code: string, state: Option<string>,
                              response: Result<Json, HttpError>)
      returns (trace: seq<Step>)
      requires auth.Valid()
      modifies this, auth, auth.store
      ensures auth.Valid()
      ensures var outcome := SessionOutcome(response, auth.isEmail);
              var call := Call(Post, "/auth/" + provider + "/callback", Some(OAuthCallbackBody(code, state)),
                               WithBearer(map[], old(auth.store.token)));
              && (outcome.Success? ==>
                    && trace == [Exchanged(call), InstalledSession, Navigated(LandingPath)]
                    && auth.Snap() == Next(old(auth.Snap()), Install(outcome.value))
                    && isProcessing == old(isProcessing) && error == old(error) && navigation == Some(LandingPath))
              && (outcome.Failure? ==>
                    && trace == [Exchanged(call), Failed(ErrorMessage(outcome.error))]
                    && auth.Snap() == old(auth.Snap())
                    && error == Some(ErrorMessage(outcome.error)) && !isProcessing && navigation == old(navigation))
    {
      var call, outcome := AuthApi.OAuthCallback(auth.store, auth.isEmail, provider, code, state, response);
      if outcome.Failure? {
        Fail(ErrorMessage(outcome.error));
        return [Exchanged(call), Failed(ErrorMessage(outcome.error))];
      }
      auth.SetTokensAndUser(outcome.value.tokens, outcome.value.user);
      navigation := Some(LandingPath);
      trace := [Exchanged(call), InstalledSession, Navigated(LandingPath)];
    }

    /** The error card's only action: navigate back to the login page (there is no retry). */
    method BackToLogin()
      requires View().ErrorView?
      modifies this`navigation
      ensures navigation == Some(LoginPath)
    {
      navigation := Some(LoginPath);
    }
  }
}
