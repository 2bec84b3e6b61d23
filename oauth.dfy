/**
  * The GitHub sign-in flow of the backend: the single-use, time-bounded
  * `state` store that guards the OAuth 2.0 authorization-code grant against
  * cross-site request forgery (RFC 6749, sections 4.1 and 10.12), the start
  * route that issues a state, and the callback route with its order of checks.
  *
  * The clock is the `now` parameter (milliseconds), the random state token is
  * the `token` parameter, and the two requests to GitHub are abstract replies.
  */
module OAuth {
  import opened Wrappers
  import opened Text

  /** `STATE_TTL_MS`: ten minutes. */
  const StateTtlMs: int := 10 * 60 * 1000

  // ---------------------------------------------------------------------------
  // The state store
  // ---------------------------------------------------------------------------

  /** `if (!createdAt) return false`: an absent entry, or a stored timestamp of 0, is falsy. */
  predicate Known(states: map<string, int>, state: string) {
    state in states && states[state] != 0
  }

  /** Whether `validateOAuthState(state)` answers true at time `now`. */
  predicate Accepts(states: map<string, int>, state: string, now: int) {
    Known(states, state) && now - states[state] <= StateTtlMs
  }

  /** The store after `validateOAuthState(state)`: a known state is deleted whatever the verdict. */
  function AfterValidate(states: map<string, int>, state: string): (r: map<string, int>)
    ensures state !in r || !Known(states, state)
    ensures forall s :: s in r ==> s in states && r[s] == states[s]
    ensures forall s :: s in states && s != state ==> s in r
  {
    if Known(states, state) then states - {state} else states
  }

  /** `oauthStateStore`, a map from issued state to its creation time. */
  class StateStore {
    var states: map<string, int>

    constructor ()
      ensures states == map[]
    {
      states := map[];
    }

    /** `createOAuthState`: records the token with the current time and hands it out. */
    method Create(token: string, now: int) returns (state: string)
      modifies this
      ensures state == token
      ensures states == old(states)[token := now]
    {
      states := states[token := now];
      state := token;
    }

    /** `validateOAuthState`. */
    method Validate(state: string, now: int) returns (ok: bool)
      modifies this
      ensures ok == Accepts(old(states), state, now)
      ensures states == AfterValidate(old(states), state)
    {
      if !(state in states && states[state] != 0) {
        return false;
      }
      var createdAt := states[state];
      var isExpired := now - createdAt > StateTtlMs;
      states := states - {state};
      ok := !isExpired;
    }
  }

  /** A state is good for one validation only: once validated, whatever the verdict,
      it is rejected at every later time. */
  lemma SecondUseFails(states: map<string, int>, state: string, later: int)
    ensures !Accepts(AfterValidate(states, state), state, later)
  {
    if Known(states, state) {
      assert state !in AfterValidate(states, state);
    }
  }

  /** An unknown state is rejected and leaves the store as it was. */
  lemma UnknownStateUntouched(states: map<string, int>, state: string, now: int)
    requires state !in states
    ensures !Accepts(states, state, now)
    ensures AfterValidate(states, state) == states
  {
  }

  /** A state issued at a non-zero time `t0` is accepted at `t1` exactly when at most ten minutes
      have passed, and validating it touches no other state. */
  lemma IssuedStateWindow(states: map<string, int>, token: string, t0: int, t1: int)
    requires t0 != 0
    ensures Accepts(states[token := t0], token, t1) <==> t1 - t0 <= 600000
    ensures AfterValidate(states[token := t0], token) == states - {token}
  {
    var issued := states[token := t0];
    assert Known(issued, token);
    assert AfterValidate(issued, token) == states - {token} by {
      forall s ensures s in AfterValidate(issued, token) <==> s in states - {token} {
      }
    }
  }

  // ---------------------------------------------------------------------------
  // Configuration and the result page
  // ---------------------------------------------------------------------------

  /** The GitHub application credentials, each "" when its environment variable is unset. */
  datatype Config = Config(clientId: string, clientSecret: string, callbackUrl: string)

  predicate Configured(c: Config) {
    c.clientId != "" && c.clientSecret != ""
  }

  /** `FRONTEND_ORIGIN`: the environment value or the local development origin. */
  function FrontendOrigin(env: Option<string>): (r: string)
    ensures r != ""
  {
    Or(env, "http://localhost:5173")
  }

  /** The `postMessage` target of the result page: `FRONTEND_ORIGIN || "*"`. */
  function TargetOrigin(env: Option<string>): string {
    Or(Some(FrontendOrigin(env)), "*")
  }

  /** The wildcard fallback is dead: the page always posts to the configured or default frontend origin. */
  lemma TargetOriginIsFrontend(env: Option<string>)
    ensures TargetOrigin(env) == FrontendOrigin(env)
    ensures Truthy(env) ==> TargetOrigin(env) == env.value
    ensures !Truthy(env) ==> TargetOrigin(env) == "http://localhost:5173"
  {
  }

  /** What the result page carries to the opener window. */
  datatype AuthPayload =
    | Profile(username: string, avatar: string)
    | Failure(message: string)

  /** An HTTP answer of the two auth routes. */
  datatype Response =
    | Plain(status: int, text: string)
    | Page(status: int, kind: string, payload: AuthPayload, targetOrigin: string)
    | Redirect(clientId: string, redirectUri: string, scope: string, state: string)

  // ---------------------------------------------------------------------------
  // GET /auth/github
  // ---------------------------------------------------------------------------

  /** The start route: refuse when unconfigured, otherwise issue a state and redirect to GitHub. */
  method HandleStart(store: StateStore, config: Config, token: string, now: int) returns (resp: Response)
    modifies store
    ensures !Configured(config) ==> resp == Plain(500, "GitHub OAuth is not configured.")
    ensures !Configured(config) ==> store.states == old(store.states)
    ensures Configured(config) ==>
              resp == Redirect(config.clientId, config.callbackUrl, "read:user user:email", token)
    ensures Configured(config) ==> store.states == old(store.states)[token := now]
  {
    if config.clientId == "" || config.clientSecret == "" {
      return Plain(500, "GitHub OAuth is not configured.");
    }
    var state := store.Create(token, now);
    resp := Redirect(config.clientId, config.callbackUrl, "read:user user:email", state);
  }

  // ---------------------------------------------------------------------------
  // GET /auth/github/callback
  // ---------------------------------------------------------------------------

  /** The query string of the callback; either parameter may be absent or empty. */
  datatype Query = Query(code: Option<string>, state: Option<string>)

  /** A request to GitHub: it either throws (network failure, unparsable body) with a message,
      or answers. */
  datatype Fetched<T> = Threw(message: string) | Answered(reply: T)

  /** The token endpoint's answer: `tokenResponse.ok` and the fields of its JSON body. */
  datatype TokenReply = TokenReply(ok: bool, error: Option<string>, errorDescription: Option<string>,
                                   accessToken: Option<string>)

  /** The profile endpoint's answer: `userResponse.ok`, `login` and `avatar_url`. */
  datatype UserReply = UserReply(ok: bool, login: string, avatarUrl: string)

  /** The requests the callback sends upstream, in order. */
  datatype Upstream = TokenExchange(code: string, state: string) | ProfileFetch(accessToken: string)

  /** The token exchange succeeded: the reply is ok, carries no error and carries a token. */
  predicate TokenGranted(t: Fetched<TokenReply>) {
    t.Answered? && t.reply.ok && !Truthy(t.reply.error) && Truthy(t.reply.accessToken)
  }

  /** `error.message || "GitHub authentication failed."`. */
  function FailureText(message: string): (r: string)
    ensures r != ""
  {
    Or(Some(message), "GitHub authentication failed.")
  }

  /** The `try` block of the callback and its `catch`: exchange the code, fetch the profile,
      render the result page, which posts to the origin `env` (`FRONTEND_ORIGIN`) configures. */
  function Exchange(code: string, state: string, token: Fetched<TokenReply>, user: Fetched<UserReply>,
                    env: Option<string>): (r: (Response, seq<Upstream>))
    ensures |r.1| >= 1 && r.1[0] == TokenExchange(code, state)
    ensures |r.1| == 2 <==> TokenGranted(token)
    ensures |r.1| <= 2
    ensures TokenGranted(token) ==> r.1[1] == ProfileFetch(token.reply.accessToken.value)
    ensures r.0.Page? && r.0.targetOrigin == TargetOrigin(env) == FrontendOrigin(env)
    ensures r.0.status == 200 <==> TokenGranted(token) && user.Answered? && user.reply.ok
    ensures r.0.status == 200 ==>
              r.0 == Page(200, "armsx2/github-auth", Profile(user.reply.login, user.reply.avatarUrl), TargetOrigin(env))
    ensures r.0.status != 200 ==> r.0.status == 500 && r.0.kind == "armsx2/github-auth-error"
    ensures r.0.status != 200 ==> r.0.payload.Failure? && r.0.payload.message != ""
    ensures token.Answered? && !TokenGranted(token) ==>
              r.0.payload == Failure(Or(token.reply.errorDescription, "Unable to exchange GitHub code for token."))
  {
    TargetOriginIsFrontend(env);
    var origin := TargetOrigin(env);
    var first := [TokenExchange(code, state)];
    if token.Threw? then
      (Page(500, "armsx2/github-auth-error", Failure(FailureText(token.message)), origin), first)
    else if !TokenGranted(token) then
      var message := Or(token.reply.errorDescription, "Unable to exchange GitHub code for token.");
      (Page(500, "armsx2/github-auth-error", Failure(FailureText(message)), origin), first)
    else
      var calls := first + [ProfileFetch(token.reply.accessToken.value)];
      if user.Threw? then
        (Page(500, "armsx2/github-auth-error", Failure(FailureText(user.message)), origin), calls)
      else if !user.reply.ok then
        (Page(500, "armsx2/github-auth-error", Failure(FailureText("Failed to fetch GitHub user profile.")), origin), calls)
      else
        (Page(200, "armsx2/github-auth", Profile(user.reply.login, user.reply.avatarUrl), origin), calls)
  }

  /** The callback route. Its guards run in a fixed order: the query parameters, then the state
      (which consumes it), then the configuration, and only then any request to GitHub. `env` is
      the `FRONTEND_ORIGIN` environment variable. */
  method HandleCallback(store: StateStore, config: Config, q: Query, token: Fetched<TokenReply>,
                        user: Fetched<UserReply>, env: Option<string>, now: int)
    returns (resp: Response, calls: seq<Upstream>)
    modifies store
    ensures !Truthy(q.code) || !Truthy(q.state) ==>
              resp == Plain(400, "Missing code or state.") && calls == [] && store.states == old(store.states)
    ensures Truthy(q.code) && Truthy(q.state) ==>
              store.states == AfterValidate(old(store.states), q.state.value)
    ensures Truthy(q.code) && Truthy(q.state) && !Accepts(old(store.states), q.state.value, now) ==>
              resp == Plain(400, "Invalid or expired state.") && calls == []
    ensures Truthy(q.code) && Truthy(q.state) && Accepts(old(store.states), q.state.value, now)
            && !Configured(config) ==>
              resp == Plain(500, "GitHub OAuth is not configured.") && calls == []
    ensures Truthy(q.code) && Truthy(q.state) && Accepts(old(store.states), q.state.value, now)
            && Configured(config) ==>
              (resp, calls) == Exchange(q.code.value, q.state.value, token, user, env)
    ensures calls != [] ==> Accepts(old(store.states), q.state.value, now) && Configured(config)
  {
    if !Truthy(q.code) || !Truthy(q.state) {
      return Plain(400, "Missing code or state."), [];
    }
    var valid := store.Validate(q.state.value, now);
    if !valid {
      return Plain(400, "Invalid or expired state."), [];
    }
    if config.clientId == "" || config.clientSecret == "" {
      return Plain(500, "GitHub OAuth is not configured."), [];
    }
    var outcome := Exchange(q.code.value, q.state.value, token, user, env);
    resp, calls := outcome.0, outcome.1;
  }
}
