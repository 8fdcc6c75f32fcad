/** The session held by `AuthProvider` (src/context/AuthContext.jsx): the
    signed-in user, the access and refresh tokens, the access token's expiry
    instant, the loading flag, the last error, and the persisted
    `'authTokens'` storage slot. The clock and every network answer are
    parameters of the operations; the token response mirrors the access-token
    response of section 5.1 of RFC 6749. */
module Auth {
  import opened Wrappers
  import opened JsonValues
  import Client

  /** The expiry is stored this many milliseconds early. */
  const SafetyMarginMs: int := 5000
  const LoginFallback: string := "Error al iniciar sesión"
  const RegisterFallback: string := "Error al registrarse"

  /** `access_token`, `refresh_token`, `expires_in` (seconds) and `scope`;
      all but the access token may be missing. */
  datatype TokenResponse = TokenResponse(
    accessToken: string,
    refreshToken: Option<string>,
    expiresIn: Option<int>,
    scope: Option<string>)

  /** What the outside world supplies to one authentication round: the token
      endpoint's answer, the clock when it arrives, and the answer of the
      `/me` request made with the new access token (only used when the first
      answer succeeded). */
  datatype Exchange = Exchange(
    response: Result<TokenResponse, Client.Error>,
    clock: nat,
    profile: Result<Json, Client.Error>)

  /** The text in the `'authTokens'` slot, as `JSON.parse` and the restore
      effect see it: the empty string, text that fails to parse (or parses to
      `null`), or a value whose token fields are read. */
  datatype Persisted =
    | Blank
    | Unparsable
    | Tokens(accessToken: Option<string>, refreshToken: Option<string>, expiresAt: Option<int>)

  /** The network requests the session makes. */
  datatype Call =
    | LoginCall
    | RegisterCall
    | RefreshCall(refreshToken: string)
    | MeCall(accessToken: string)

  /** `Date.now() + expires_in * 1000 - 5000`, a missing `expires_in`
      counting as 0: the token's lifetime in milliseconds, cut short by the
      safety margin. */
  function ExpiresAt(issuedAt: int, expiresIn: Option<int>): (expiresAt: int)
    ensures expiresIn.Some? ==> expiresAt + SafetyMarginMs == issuedAt + 1000 * expiresIn.value
    ensures expiresIn.None? ==> expiresAt == issuedAt - SafetyMarginMs
    ensures expiresIn.Some? && expiresIn.value >= 5 ==> expiresAt >= issuedAt
  {
    issuedAt + expiresIn.GetOr(0) * 1000 - SafetyMarginMs
  }

  /** A token is truthy: present and not the empty string. */
  predicate Present(token: Option<string>) {
    token.Some? && token.value != ""
  }

  /** `accessTokenExpiresAt && Date.now() < accessTokenExpiresAt`: an expiry
      of 0 is falsy and counts as expired. */
  predicate Unexpired(expiresAt: Option<int>, now: int)
    ensures Unexpired(expiresAt, now) ==> expiresAt.Some? && now < expiresAt.value
    ensures expiresAt.Some? && expiresAt.value == 0 ==> !Unexpired(expiresAt, now)
    ensures expiresAt.Some? && expiresAt.value != 0 && now < expiresAt.value ==> Unexpired(expiresAt, now)
  {
    expiresAt.Some? && expiresAt.value != 0 && now < expiresAt.value
  }

  /** A token issued at `issuedAt` is handed out unchanged exactly while less
      than its lifetime minus the 5-second margin has passed. */
  lemma UsableUntilMargin(issuedAt: nat, expiresIn: Option<int>, now: nat)
    ensures Unexpired(Some(ExpiresAt(issuedAt, expiresIn)), now)
            <==> now - issuedAt < 1000 * expiresIn.GetOr(0) - 5000
  {
  }

  /** A token response without `expires_in` is already expired when stored. */
  lemma MissingLifetimeIsExpired(issuedAt: nat, now: nat)
    requires issuedAt <= now
    ensures !Unexpired(Some(ExpiresAt(issuedAt, None)), now)
  {
  }

  /** `err.body?.message`. */
  function BodyMessage(err: Client.Error): Option<Json> {
    if err.HttpError? then GetOpt(Some(err.body), "message") else None
  }

  /** The error recorded by a failed login or registration:
      `err.body?.message || err.message || fallback`. It is never falsy. */
  function FailureMessage(err: Client.Error, fallback: string): (m: Json)
    requires fallback != ""
    ensures Truthy(m)
    ensures TruthyOpt(BodyMessage(err)) ==> m == BodyMessage(err).value
    ensures !TruthyOpt(BodyMessage(err)) && err.message != "" ==> m == JStr(err.message)
    ensures !TruthyOpt(BodyMessage(err)) && err.message == "" ==> m == JStr(fallback)
  {
    if TruthyOpt(BodyMessage(err)) then BodyMessage(err).value
    else if err.message != "" then JStr(err.message)
    else JStr(fallback)
  }

  /** The slot holds an access token the restore effect loads. */
  predicate Loadable(slot: Option<Persisted>) {
    slot.Some? && slot.value.Tokens? && Present(slot.value.accessToken)
  }

  class Session {
    var user: Json
    var accessToken: Option<string>
    var refreshToken: Option<string>
    var accessTokenExpiresAt: Option<int>
    var loading: bool
    var error: Json
    /** The `'authTokens'` slot of `localStorage`. */
    var storage: Option<Persisted>
    /** Every request the session has made, in order. */
    ghost var calls: seq<Call>

    /** No user, no tokens, no expiry, and the slot removed. */
    predicate SignedOut()
      reads this
    {
      user.JNull? && accessToken.None? && refreshToken.None? && accessTokenExpiresAt.None? && storage.None?
    }

    /** The slot holds exactly the tokens and expiry held in memory. */
    predicate StorageAgrees()
      reads this
    {
      storage == Some(Tokens(accessToken, refreshToken, accessTokenExpiresAt))
    }

    /** The state `handleAuthSuccess` leaves after `response` arrived at
      `clock`: its tokens and expiry in memory and in the slot. */
    predicate HoldsTokens(response: TokenResponse, clock: int)
      reads this
    {
      && accessToken == Some(response.accessToken)
      && refreshToken == response.refreshToken
      && accessTokenExpiresAt == Some(ExpiresAt(clock, response.expiresIn))
      && StorageAgrees()
    }

    /** The provider's first render: everything null, loading, and whatever
      the slot holds from an earlier visit. */
    constructor(stored: Option<Persisted>)
      ensures user.JNull? && accessToken.None? && refreshToken.None? && accessTokenExpiresAt.None?
      ensures loading && error.JNull? && storage == stored && calls == []
    {
      user := JNull;
      accessToken, refreshToken, accessTokenExpiresAt := None, None, None;
      loading := true;
      error := JNull;
      storage := stored;
      calls := [];
    }

    /** The five setters every failure path runs. */
    method ClearSession()
      modifies this
      ensures SignedOut()
      ensures loading == old(loading) && error == old(error) && calls == old(calls)
    {
      user := JNull;
      accessToken := None;
      refreshToken := None;
      accessTokenExpiresAt := None;
      storage := None;
    }

    /** The restore effect. With no slot, an empty slot, or no truthy stored
      access token, nothing is loaded; an unparsable slot is removed. Otherwise
      the stored tokens are loaded (refresh token and expiry defaulting to
      null) and `/me` is asked with the stored access token: its user is kept
      on success, and on failure the session is cleared and the slot removed.
      Loading always ends false. */
    method Restore(profile: Result<Json, Client.Error>)
      modifies this
      ensures !loading && error == old(error)
      ensures !Loadable(old(storage)) ==>
        && user == old(user) && accessToken == old(accessToken) && refreshToken == old(refreshToken)
        && accessTokenExpiresAt == old(accessTokenExpiresAt) && calls == old(calls)
        && storage == if old(storage) == Some(Unparsable) then None else old(storage)
      ensures Loadable(old(storage)) ==>
        calls == old(calls) + [MeCall(old(storage).value.accessToken.value)]
      ensures Loadable(old(storage)) && profile.Success? ==>
        && user == profile.value && storage == old(storage)
        && accessToken == old(storage).value.accessToken
        && refreshToken == old(storage).value.refreshToken
        && accessTokenExpiresAt == old(storage).value.expiresAt
        && StorageAgrees()
      ensures Loadable(old(storage)) && profile.Failure? ==> SignedOut()
    {
      if storage.None? || storage.value.Blank? {
        loading := false;
        return;
      }
      if storage.value.Unparsable? {
        storage := None;
        loading := false;
        return;
      }
      var parsed := storage.value;
      if !Present(parsed.accessToken) {
        loading := false;
        return;
      }
      accessToken := parsed.accessToken;
      refreshToken := parsed.refreshToken;
      accessTokenExpiresAt := parsed.expiresAt;
      calls := calls + [MeCall(parsed.accessToken.value)];
      match profile {
        case Success(me) =>
          user := me;
        case Failure(_) =>
          ClearSession();
      }
      loading := false;
    }

    /** `handleAuthSuccess`: the new tokens and expiry go to memory and to the
      slot, then `/me` is asked with the new access token and its user kept.
      A failed `/me` is reported to the caller, with the tokens already
      stored. */
    method HandleAuthSuccess(clock: nat, response: TokenResponse, profile: Result<Json, Client.Error>)
      returns (outcome: Outcome<Client.Error>)
      modifies this
      ensures HoldsTokens(response, clock)
      ensures calls == old(calls) + [MeCall(response.accessToken)]
      ensures outcome == if profile.Success? then Pass else Fail(profile.error)
      ensures user == if profile.Success? then profile.value else old(user)
      ensures loading == old(loading) && error == old(error)
    {
      var access := response.accessToken;
      var refresh := response.refreshToken;
      var expiresAt := ExpiresAt(clock, response.expiresIn);
      accessToken := Some(access);
      refreshToken := refresh;
      accessTokenExpiresAt := Some(expiresAt);
      storage := Some(Tokens(Some(access), refresh, Some(expiresAt)));
      calls := calls + [MeCall(access)];
      match profile
      case Success(me) =>
        user := me;
        outcome := Pass;
      case Failure(e) =>
        outcome := Fail(e);
    }

    /** `ensureValidAccessToken()` at instant `now`. Without both tokens it
      gives null; with an unexpired access token it gives that token; both
      without a request and without any change. Otherwise it makes exactly
      one refresh request with the stored refresh token: on success the new
      access token is returned and stored through `handleAuthSuccess`; if the
      refresh or the following `/me` fails, the session is cleared, the slot
      removed and the error passed on. */
    method EnsureValidAccessToken(now: nat, refresh: Exchange) returns (r: Result<Option<string>, Client.Error>)
      modifies this
      ensures !Present(old(accessToken)) || !Present(old(refreshToken)) ==>
        r == Success(None) && unchanged(this)
      ensures Present(old(accessToken)) && Present(old(refreshToken)) && Unexpired(old(accessTokenExpiresAt), now) ==>
        r == Success(old(accessToken)) && unchanged(this)
      ensures Present(old(accessToken)) && Present(old(refreshToken)) && !Unexpired(old(accessTokenExpiresAt), now) ==>
        && |calls| > |old(calls)|
        && calls[..|old(calls)| + 1] == old(calls) + [RefreshCall(old(refreshToken).value)]
        && loading == old(loading) && error == old(error)
        && match refresh.response
           case Failure(e) =>
             r == Failure(e) && SignedOut() && calls == old(calls) + [RefreshCall(old(refreshToken).value)]
           case Success(response) =>
             && calls == old(calls) + [RefreshCall(old(refreshToken).value), MeCall(response.accessToken)]
             && match refresh.profile
                case Success(me) =>
                  r == Success(Some(response.accessToken)) && HoldsTokens(response, refresh.clock) && user == me
                case Failure(e) =>
                  r == Failure(e) && SignedOut()
    {
      if !Present(accessToken) || !Present(refreshToken) {
        return Success(None);
      }
      if Unexpired(accessTokenExpiresAt, now) {
        return Success(accessToken);
      }
      calls := calls + [RefreshCall(refreshToken.value)];
      match refresh.response
      case Failure(e) =>
        ClearSession();
        r := Failure(e);
      case Success(response) =>
        var outcome := HandleAuthSuccess(refresh.clock, response, refresh.profile);
        if outcome.Fail? {
          ClearSession();
          r := Failure(outcome.error);
        } else {
          r := Success(Some(response.accessToken));
        }
    }

    /** The body shared by `login` and `register`: `call` is the request made,
      `fallback` the message used when the error carries none. */
    method SignIn(call: Call, fallback: string, exchange: Exchange) returns (outcome: Outcome<Client.Error>)
      requires fallback != ""
      modifies this
      ensures !loading
      ensures match exchange.response
        case Failure(e) =>
          && outcome == Fail(e) && SignedOut() && error == FailureMessage(e, fallback)
          && calls == old(calls) + [call]
        case Success(response) =>
          && calls == old(calls) + [call, MeCall(response.accessToken)]
          && match exchange.profile
             case Success(me) =>
               outcome == Pass && error.JNull? && HoldsTokens(response, exchange.clock) && user == me
             case Failure(e) =>
               outcome == Fail(e) && SignedOut() && error == FailureMessage(e, fallback)
    {
      loading := true;
      error := JNull;
      calls := calls + [call];
      match exchange.response {
        case Failure(e) =>
          outcome := Fail(e);
        case Success(response) =>
          outcome := HandleAuthSuccess(exchange.clock, response, exchange.profile);
      }
      if outcome.Fail? {
        ClearSession();
        error := FailureMessage(outcome.error, fallback);
      }
      loading := false;
    }

    /** `login(credentials)`: on success the session holds the new tokens,
      mirrored in the slot, and the user; on failure it is cleared, the slot
      removed, and the error message recorded; the error is passed on. */
    method Login(exchange: Exchange) returns (outcome: Outcome<Client.Error>)
      modifies this
      ensures !loading
      ensures match exchange.response
        case Failure(e) =>
          && outcome == Fail(e) && SignedOut() && error == FailureMessage(e, LoginFallback)
          && calls == old(calls) + [LoginCall]
        case Success(response) =>
          && calls == old(calls) + [LoginCall, MeCall(response.accessToken)]
          && match exchange.profile
             case Success(me) =>
               outcome == Pass && error.JNull? && HoldsTokens(response, exchange.clock) && user == me
             case Failure(e) =>
               outcome == Fail(e) && SignedOut() && error == FailureMessage(e, LoginFallback)
    {
      outcome := SignIn(LoginCall, LoginFallback, exchange);
    }

    /** `register(data)`: as `login`, with its own request and default
      message. */
    method Register(exchange: Exchange) returns (outcome: Outcome<Client.Error>)
      modifies this
      ensures !loading
      ensures match exchange.response
        case Failure(e) =>
          && outcome == Fail(e) && SignedOut() && error == FailureMessage(e, RegisterFallback)
          && calls == old(calls) + [RegisterCall]
        case Success(response) =>
          && calls == old(calls) + [RegisterCall, MeCall(response.accessToken)]
          && match exchange.profile
             case Success(me) =>
               outcome == Pass && error.JNull? && HoldsTokens(response, exchange.clock) && user == me
             case Failure(e) =>
               outcome == Fail(e) && SignedOut() && error == FailureMessage(e, RegisterFallback)
    {
      outcome := SignIn(RegisterCall, RegisterFallback, exchange);
    }

    /** `logout()`: the session is cleared, the error too, and the slot
      removed, with no request. Logging out again changes nothing. */
    method Logout()
      modifies this
      ensures SignedOut() && error.JNull?
      ensures loading == old(loading) && calls == old(calls)
      ensures old(SignedOut() && error.JNull?) ==>
        user == old(user) && accessToken == old(accessToken) && refreshToken == old(refreshToken)
        && accessTokenExpiresAt == old(accessTokenExpiresAt) && error == old(error) && storage == old(storage)
    {
      ClearSession();
      error := JNull;
    }
  }

  /** What a page reload finds: a new provider restoring from the slot this
      session left. When the slot agrees with the session and holds a truthy
      access token, the reload comes back with the same tokens and expiry and
      the user `/me` returns; when `/me` fails, with nothing. */
  method RestoreAfterReload(s: Session, profile: Result<Json, Client.Error>)
    returns (accessToken: Option<string>, refreshToken: Option<string>, expiresAt: Option<int>, user: Json)
    ensures s.StorageAgrees() && Present(s.accessToken) && profile.Success? ==>
      accessToken == s.accessToken && refreshToken == s.refreshToken && expiresAt == s.accessTokenExpiresAt
      && user == profile.value
    ensures s.StorageAgrees() && Present(s.accessToken) && profile.Failure? ==>
      accessToken.None? && refreshToken.None? && expiresAt.None? && user.JNull?
    ensures s.storage.None? ==>
      accessToken.None? && refreshToken.None? && expiresAt.None? && user.JNull?
  {
    var reloaded := new Session(s.storage);
    reloaded.Restore(profile);
    accessToken, refreshToken, expiresAt, user :=
      reloaded.accessToken, reloaded.refreshToken, reloaded.accessTokenExpiresAt, reloaded.user;
  }
}
