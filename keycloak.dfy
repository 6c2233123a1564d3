/** The Keycloak token cache of pkg/services/keycloak.go: a manager holding an
    optional cached token that it refreshes through an OAuth2 client-credentials
    exchange (section 4.4 of RFC 6749) whenever the cached token is absent or
    no longer valid.

    Time is an integer clock in seconds. The HTTP exchange is an oracle
    `TokenRequest -> ExchangeOutcome`: the model builds the request the source
    builds, and the oracle says how building, sending, the status check and
    JSON decoding turned out. */
module Keycloak {
  import opened Wrappers

  datatype Credentials = Credentials(clientId: string, clientSecret: string)

  datatype KeycloakConfig = KeycloakConfig(credentials: Credentials, tokenUrl: string)

  /** A cached token; `expiration` is a reading of the clock. */
  datatype KeycloakToken = KeycloakToken(raw: string, expiration: int)

  /** `(*KeycloakToken).IsValid` on a possibly nil token. */
  predicate IsValid(token: Option<KeycloakToken>, now: int)
  {
    match token
    case None => false
    case Some(t) => t.expiration > now
  }

  /** What `fetchAndStoreToken` asks for: method, URL, content type and the form
      fields in the order they are added. Percent-encoding and the key order of
      `url.Values.Encode` are not modelled. */
  datatype TokenRequest = TokenRequest(
    httpMethod: string,
    url: string,
    contentType: string,
    form: seq<(string, string)>)

  const GrantType := "client_credentials"
  const FormContentType := "application/x-www-form-urlencoded"
  const StatusOK := 200

  function TokenRequestFor(config: KeycloakConfig): TokenRequest
  {
    TokenRequest(
      "POST", config.tokenUrl, FormContentType,
      [("grant_type", GrantType),
       ("client_id", config.credentials.clientId),
       ("client_secret", config.credentials.clientSecret)])
  }

  /** `url.Values.Get`: the first value stored under `key`, or "" when there is none. */
  function FormGet(form: seq<(string, string)>, key: string): string
  {
    if form == [] then "" else if form[0].0 == key then form[0].1 else FormGet(form[1..], key)
  }

  /** The decoded JSON body of a 200 response, or the decoder's error. Missing
      JSON fields decode to Go's zero values, so `Decoded` covers them. */
  datatype TokenPayload =
    | Decoded(accessToken: string, expiresIn: int)
    | Malformed(decodeError: string)

  /** How one exchange attempt ended. */
  datatype ExchangeOutcome =
    | BuildFailed(error: string)          // http.NewRequest returned an error
    | TransportFailed(error: string)      // client.Do returned an error
    | Responded(status: int, body: string, payload: TokenPayload)

  /** The state after one call: what it returned, the cached token, and
      whether it attempted an exchange. */
  datatype Step = Step(result: Result<string>, token: Option<KeycloakToken>, exchanged: bool)

  /** `fetchAndStoreToken` as a function of the cached token, the clock reading
      taken after the response, and the exchange outcome. */
  function FetchAndStore(token: Option<KeycloakToken>, storeTime: int, outcome: ExchangeOutcome): Step
  {
    match outcome
    case BuildFailed(e) => Step(Err(e), token, true)
    case TransportFailed(e) => Step(Err(e), token, true)
    case Responded(status, body, payload) =>
      if status != StatusOK then Step(Err("failed to get token: " + body), token, true)
      else
        match payload
        case Malformed(e) => Step(Err(e), token, true)
        case Decoded(access, expiresIn) =>
          Step(Ok(access), Some(KeycloakToken(access, storeTime + expiresIn)), true)
  }

  /** `GetValidToken` as a function: `checkTime` is the clock reading of the
      validity check, `storeTime` the later one taken when a new token is stored. */
  function Serve(token: Option<KeycloakToken>, checkTime: int, storeTime: int, outcome: ExchangeOutcome): Step
  {
    if IsValid(token, checkTime) then Step(Ok(token.value.raw), token, false)
    else FetchAndStore(token, storeTime, outcome)
  }

  // ---------------------------------------------------------------------------
  // Properties of the cache

  /** Validity is a strict comparison: a nil token is never valid, and a token
      stops being valid at the very instant of its expiration. */
  lemma ValidityIsStrict(t: KeycloakToken, now: int)
    ensures !IsValid(None, now)
    ensures IsValid(Some(t), now) <==> now < t.expiration
    ensures !IsValid(Some(t), t.expiration)
  {
  }

  /** A token valid at some instant was valid at every earlier one, and an
      invalid one stays invalid. */
  lemma ValidityIsMonotone(token: Option<KeycloakToken>, earlier: int, later: int)
    requires earlier <= later
    ensures IsValid(token, later) ==> IsValid(token, earlier)
    ensures !IsValid(token, earlier) ==> !IsValid(token, later)
  {
  }

  /** The exchange is a form POST to the configured URL carrying exactly the
      client-credentials grant and the configured client id and secret. */
  lemma TokenRequestCarriesCredentials(config: KeycloakConfig)
    ensures TokenRequestFor(config).httpMethod == "POST"
    ensures TokenRequestFor(config).url == config.tokenUrl
    ensures TokenRequestFor(config).contentType == FormContentType
    ensures |TokenRequestFor(config).form| == 3
    ensures FormGet(TokenRequestFor(config).form, "grant_type") == "client_credentials"
    ensures FormGet(TokenRequestFor(config).form, "client_id") == config.credentials.clientId
    ensures FormGet(TokenRequestFor(config).form, "client_secret") == config.credentials.clientSecret
    ensures forall k :: 0 <= k < 3 ==>
      TokenRequestFor(config).form[k].0 in {"grant_type", "client_id", "client_secret"}
  {
    var form := TokenRequestFor(config).form;
    assert form[1..][1..] == [("client_secret", config.credentials.clientSecret)];
    assert "grant_type" != "client_secret" && "client_id" != "client_secret";
    assert FormGet(form, "client_secret") == FormGet(form[1..], "client_secret")
        == FormGet(form[1..][1..], "client_secret");
  }

  /** A valid cached token is returned as is: no exchange, cache unchanged. */
  lemma ValidTokenIsServedFromCache(token: Option<KeycloakToken>, checkTime: int, storeTime: int, outcome: ExchangeOutcome)
    requires IsValid(token, checkTime)
    ensures Serve(token, checkTime, storeTime, outcome) == Step(Ok(token.value.raw), token, false)
  {
  }

  /** An absent or invalid token costs exactly one exchange, whose result is returned. */
  lemma InvalidTokenIsRefreshed(token: Option<KeycloakToken>, checkTime: int, storeTime: int, outcome: ExchangeOutcome)
    requires !IsValid(token, checkTime)
    ensures Serve(token, checkTime, storeTime, outcome).exchanged
    ensures Serve(token, checkTime, storeTime, outcome) == FetchAndStore(token, storeTime, outcome)
  {
  }

  /** Every failure of the exchange is an error that leaves the cache as it was;
      only a 200 response that decodes succeeds. */
  lemma FailedExchangeKeepsCache(token: Option<KeycloakToken>, storeTime: int, outcome: ExchangeOutcome)
    ensures FetchAndStore(token, storeTime, outcome).result.Ok?
        <==> outcome.Responded? && outcome.status == StatusOK && outcome.payload.Decoded?
    ensures FetchAndStore(token, storeTime, outcome).result.Err? ==> FetchAndStore(token, storeTime, outcome).token == token
    ensures outcome.Responded? && outcome.status != StatusOK ==>
      FetchAndStore(token, storeTime, outcome).result == Err("failed to get token: " + outcome.body)
  {
  }

  /** A successful exchange stores the access token with expiration
      `storeTime + expires_in` and returns the access token. */
  lemma SuccessfulExchangeStoresToken(token: Option<KeycloakToken>, storeTime: int, access: string, expiresIn: int, body: string)
    ensures var s := FetchAndStore(token, storeTime, Responded(StatusOK, body, Decoded(access, expiresIn)));
      s.result == Ok(access) && s.token == Some(KeycloakToken(access, storeTime + expiresIn))
  {
  }

  /** A response with `expires_in <= 0` stores a token that is already invalid
      when it is stored, and at any later time. */
  lemma NonPositiveLifetimeIsStale(token: Option<KeycloakToken>, storeTime: int, later: int, access: string, expiresIn: int, body: string)
    requires expiresIn <= 0 && storeTime <= later
    ensures !IsValid(FetchAndStore(token, storeTime, Responded(StatusOK, body, Decoded(access, expiresIn))).token, later)
  {
  }

  /** With `expires_in > 0`, a later call checked strictly before the expiration
      returns the same token without a new exchange. */
  lemma FreshTokenIsReused(
    token: Option<KeycloakToken>, storeTime: int, access: string, expiresIn: int, body: string,
    checkTime: int, nextStore: int, next: ExchangeOutcome)
    requires expiresIn > 0 && checkTime < storeTime + expiresIn
    ensures var stored := FetchAndStore(token, storeTime, Responded(StatusOK, body, Decoded(access, expiresIn))).token;
      Serve(stored, checkTime, nextStore, next) == Step(Ok(access), stored, false)
  {
  }

  // ---------------------------------------------------------------------------
  // Sequences of calls

  /** One `GetValidToken` call: its two clock readings and the outcome the
      exchange would have if the call made one. */
  datatype Call = Call(checkTime: int, storeTime: int, outcome: ExchangeOutcome)

  datatype Run = Run(results: seq<Result<string>>, final: Option<KeycloakToken>, exchanges: nat)

  /** Successive `GetValidToken` calls on one manager. */
  function RunCalls(token: Option<KeycloakToken>, calls: seq<Call>): (run: Run)
    ensures |run.results| == |calls|
    ensures run.exchanges <= |calls|
    decreases |calls|
  {
    if calls == [] then Run([], token, 0)
    else
      var s := Serve(token, calls[0].checkTime, calls[0].storeTime, calls[0].outcome);
      var rest := RunCalls(s.token, calls[1..]);
      Run([s.result] + rest.results, rest.final, (if s.exchanged then 1 else 0) + rest.exchanges)
  }

  /** Calls made while the cached token is valid perform no exchange, keep the
      cache, and all return the cached token. */
  lemma {:induction false} NoExchangeWhileValid(t: KeycloakToken, calls: seq<Call>)
    requires forall i :: 0 <= i < |calls| ==> calls[i].checkTime < t.expiration
    ensures RunCalls(Some(t), calls).exchanges == 0
    ensures RunCalls(Some(t), calls).final == Some(t)
    ensures RunCalls(Some(t), calls).results == seq(|calls|, _ => Ok(t.raw))
  {
    if calls != [] {
      NoExchangeWhileValid(t, calls[1..]);
    }
  }

  /** Within the validity window of the token a refresh obtained, at most one
      exchange happens: the first call refreshes and every later call checked
      before the new expiration is served from the cache with the same token. */
  lemma {:induction false} AtMostOneExchangeInWindow(token: Option<KeycloakToken>, calls: seq<Call>)
    requires |calls| > 0
    requires Serve(token, calls[0].checkTime, calls[0].storeTime, calls[0].outcome).result.Ok?
    requires var s := Serve(token, calls[0].checkTime, calls[0].storeTime, calls[0].outcome);
      forall i :: 1 <= i < |calls| ==> calls[i].checkTime < s.token.value.expiration
    ensures RunCalls(token, calls).exchanges <= 1
    ensures forall i :: 0 <= i < |calls| ==> RunCalls(token, calls).results[i] == RunCalls(token, calls).results[0]
  {
    var s := Serve(token, calls[0].checkTime, calls[0].storeTime, calls[0].outcome);
    assert s.token.Some? && s.result == Ok(s.token.value.raw);
    NoExchangeWhileValid(s.token.value, calls[1..]);
  }

  // ---------------------------------------------------------------------------
  // The manager object

  /** `KeycloakTokenManager`. Its `httpClient` field is never set by the
      modelled code, so the default client is always used; the exchange oracle
      stands for it. */
  class KeycloakTokenManager {
    var config: KeycloakConfig
    var token: Option<KeycloakToken>

    /** `NewKeycloakTokenManager`: the given configuration and no cached token. */
    constructor (config: KeycloakConfig)
      ensures this.config == config && token == None
    {
      this.config := config;
      token := None;
    }

    /** Returns the cached token while it is valid at `checkTime`; otherwise
        performs one exchange (recorded in `attempts`) and returns its result. */
    method GetValidToken(checkTime: int, storeTime: int, exchange: TokenRequest -> ExchangeOutcome)
      returns (r: Result<string>, attempts: seq<TokenRequest>)
      modifies this
      ensures config == old(config)
      ensures var s := Serve(old(token), checkTime, storeTime, exchange(TokenRequestFor(config)));
        r == s.result && token == s.token
        && attempts == (if s.exchanged then [TokenRequestFor(config)] else [])
    {
      if IsValid(token, checkTime) {
        return Ok(token.value.raw), [];
      }
      r, attempts := FetchAndStoreToken(storeTime, exchange);
    }

    /** `fetchAndStoreToken`: one exchange; the cache is written only on success. */
    method FetchAndStoreToken(storeTime: int, exchange: TokenRequest -> ExchangeOutcome)
      returns (r: Result<string>, attempts: seq<TokenRequest>)
      modifies this
      ensures config == old(config)
      ensures attempts == [TokenRequestFor(config)]
      ensures var s := FetchAndStore(old(token), storeTime, exchange(TokenRequestFor(config)));
        r == s.result && token == s.token
    {
      var request := TokenRequestFor(config);
      attempts := [request];
      var outcome := exchange(request);
      if outcome.BuildFailed? || outcome.TransportFailed? {
        return Err(outcome.error), attempts;
      }
      if outcome.status != StatusOK {
        return Err("failed to get token: " + outcome.body), attempts;
      }
      if outcome.payload.Malformed? {
        return Err(outcome.payload.decodeError), attempts;
      }
      token := Some(KeycloakToken(outcome.payload.accessToken, storeTime + outcome.payload.expiresIn));
      r := Ok(outcome.payload.accessToken);
    }
  }
}
