/** main.go: the two variables `main` shares with its closures (the
    port-forward handle and the bearer token), the request modifier that
    rewrites every outgoing request, the one-time session hook that opens the
    tunnel and fetches the token, and the deferred shutdown.

    The package-level settings (namespace, service name and port, Keycloak
    client and realm, custom header) are a `Settings` value. */
module K8snake {
  import opened Wrappers
  import opened Text
  import opened Keycloak
  import opened K8s

  datatype Settings = Settings(
    namespace: string,
    serviceName: string,
    servicePort: int,
    clientSecretId: string,
    realmName: string,
    keycloakUrl: string,
    customHeaderName: string,
    customHeaderValue: string)

  /** The values main.go ships with: placeholders and port 8080. */
  const Placeholder := "TO_COMPLETE"
  const ShippedSettings := Settings(Placeholder, Placeholder, 8080, Placeholder, Placeholder,
                                    Placeholder, Placeholder, Placeholder)

  /** The variables `commChannel` and `authToken` of `main`, which both
      closures reach through pointers. */
  class Session {
    var commChannel: PFCommunication
    var authToken: string

    /** Both start at their Go zero values. */
    constructor ()
      ensures commChannel == ZeroCommunication && authToken == ""
    {
      commChannel := ZeroCommunication;
      authToken := "";
    }

    /** A started handle has a stop channel with room for the stop signal. */
    ghost predicate Valid()
      reads this, commChannel.stopChan
    {
      commChannel.IsStarted() ==>
        commChannel.stopChan != null && commChannel.stopChan.queued < commChannel.stopChan.capacity
    }
  }

  // ---------------------------------------------------------------------------
  // The request modifier

  /** `http.Header`: canonical key to its list of values. */
  type Header = map<string, seq<string>>

  /** `Header.Get`: the first value, or "" when the key is absent or has none. */
  function HeaderGet(h: Header, key: string): string
  {
    if key in h && |h[key]| > 0 then h[key][0] else ""
  }

  /** `Header.Set`: replaces every value of `key` with the single `value`. */
  function HeaderSet(h: Header, key: string, value: string): Header
  {
    h[key := [value]]
  }

  const AuthorizationKey := "Authorization"
  const ContentTypeKey := "Content-Type"
  const JsonContentType := "application/json"

  /** The header table after the modifier: bearer token, JSON content type,
      and the custom header filled in only when it reads as empty. */
  function RewriteHeader(h: Header, token: string, customName: string, customValue: string): (r: Header)
    ensures AuthorizationKey in r && r[AuthorizationKey] == ["Bearer " + token]
    ensures ContentTypeKey in r && r[ContentTypeKey] == [JsonContentType]
    ensures customName != AuthorizationKey && customName != ContentTypeKey ==>
      customName in r && r[customName] == (if HeaderGet(h, customName) == "" then [customValue] else h[customName])
    ensures forall k :: k != AuthorizationKey && k != ContentTypeKey && k != customName ==>
      (k in r <==> k in h) && (k in h ==> r[k] == h[k])
  {
    var h' := HeaderSet(HeaderSet(h, AuthorizationKey, "Bearer " + token), ContentTypeKey, JsonContentType);
    if HeaderGet(h', customName) == "" then HeaderSet(h', customName, customValue) else h'
  }

  /** A custom header that already has a non-empty value keeps it. */
  lemma CustomHeaderIsNeverReplaced(h: Header, token: string, customName: string, customValue: string)
    requires HeaderGet(h, customName) != ""
    ensures customName != AuthorizationKey && customName != ContentTypeKey ==>
      RewriteHeader(h, token, customName, customValue)[customName] == h[customName]
  {
  }

  /** Rewriting a second time with the same token changes nothing. */
  lemma RewriteHeaderIsIdempotent(h: Header, token: string, customName: string, customValue: string)
    ensures var once := RewriteHeader(h, token, customName, customValue);
      RewriteHeader(once, token, customName, customValue) == once
  {
  }

  /** The host every request is redirected to: `localhost:<port>`. */
  function LocalHost(localPort: int): string
  {
    "localhost:" + FormatInt(localPort)
  }

  /** The local host names the tunnel's port, and only that port. */
  lemma LocalHostNamesPort(localPort: int)
    ensures |LocalHost(localPort)| > 10 && LocalHost(localPort)[..10] == "localhost:"
    ensures ParseInt(LocalHost(localPort)[10..]) == Some(localPort)
  {
    FormatIntAlphabet(localPort);
    assert LocalHost(localPort)[10..] == FormatInt(localPort);
    FormatIntRoundTrip(localPort);
  }

  class Url {
    var scheme: string
    var host: string
    var path: string
    var rawQuery: string

    constructor (scheme: string, host: string, path: string, rawQuery: string)
      ensures this.scheme == scheme && this.host == host && this.path == path && this.rawQuery == rawQuery
    {
      this.scheme, this.host, this.path, this.rawQuery := scheme, host, path, rawQuery;
    }
  }

  /** The fields of an `http.Request` the modifier can reach. */
  class Request {
    var httpMethod: string
    var host: string
    var url: Url
    var header: Header
    var body: string

    constructor (httpMethod: string, url: Url, header: Header, body: string)
      ensures this.httpMethod == httpMethod && this.url == url && this.header == header && this.body == body
      ensures host == url.host
    {
      this.httpMethod, this.url, this.header, this.body := httpMethod, url, header, body;
      host := url.host;
    }
  }

  /** The closure of `getRequestModifier`, reading the shared cells at call time. */
  method ModifyRequest(settings: Settings, session: Session, req: Request) returns (err: Option<string>)
    modifies req, req.url
    ensures req.url == old(req.url)
    ensures req.host == LocalHost(session.commChannel.localPort) && req.url.host == req.host
    ensures req.header == RewriteHeader(old(req.header), session.authToken,
                                        settings.customHeaderName, settings.customHeaderValue)
    ensures req.httpMethod == old(req.httpMethod) && req.body == old(req.body)
    ensures req.url.scheme == old(req.url.scheme) && req.url.path == old(req.url.path)
      && req.url.rawQuery == old(req.url.rawQuery)
    ensures err == None
  {
    req.host := "localhost:" + FormatInt(session.commChannel.localPort);
    req.url.host := req.host;
    req.header := HeaderSet(req.header, AuthorizationKey, "Bearer " + session.authToken);
    req.header := HeaderSet(req.header, ContentTypeKey, JsonContentType);
    var sub := HeaderGet(req.header, settings.customHeaderName);
    if sub == "" {
      req.header := HeaderSet(req.header, settings.customHeaderName, settings.customHeaderValue);
    }
    err := None;
  }

  /** Applying the modifier twice leaves the request as one application does. */
  method ModifyRequestTwice(settings: Settings, session: Session, req: Request)
    modifies req, req.url
    ensures req.url == old(req.url)
    ensures req.host == LocalHost(session.commChannel.localPort) && req.url.host == req.host
    ensures req.header == RewriteHeader(old(req.header), session.authToken,
                                        settings.customHeaderName, settings.customHeaderValue)
    ensures req.httpMethod == old(req.httpMethod) && req.body == old(req.body)
    ensures req.url.scheme == old(req.url.scheme) && req.url.path == old(req.url.path)
      && req.url.rawQuery == old(req.url.rawQuery)
  {
    var _ := ModifyRequest(settings, session, req);
    RewriteHeaderIsIdempotent(old(req.header), session.authToken,
                              settings.customHeaderName, settings.customHeaderValue);
    var _ := ModifyRequest(settings, session, req);
  }

  // ---------------------------------------------------------------------------
  // The session hook

  /** What the cluster answers during the hook. */
  datatype ClusterEnv = ClusterEnv(
    clientError: Option<string>,   // services.NewK8sService
    apiHost: string,               // the API server address of the loaded configuration
    service: Lookup<Service>,
    pods: Result<seq<Pod>>,        // GetPodsForSvc
    forward: ForwardEnv,
    secret: Lookup<Secret>)

  /** How the hook ends: it returns nil, returns an error, or panics. */
  datatype HookOutcome = Completed | Failed(error: string) | Aborted(panicMessage: string)

  function NoPodsError(settings: Settings): string
  {
    "no pods found for service " + settings.serviceName + " in namespace " + settings.namespace
  }

  /** Steps one to four of the hook: client, service, pods, and the choice of
      the first pod. */
  function TargetPod(settings: Settings, env: ClusterEnv): Result<Pod>
  {
    if env.clientError.Some? then Err(env.clientError.value)
    else
      var svc := GetService(settings.namespace, settings.serviceName, env.service);
      if svc.Err? then Err(svc.error)
      else if env.pods.Err? then Err(env.pods.error)
      else if |env.pods.value| == 0 then Err(NoPodsError(settings))
      else Ok(env.pods.value[0])
  }

  /** The pod is the first one listed, and an empty list is an error naming the
      service and the namespace. */
  lemma TargetPodIsFirstListed(settings: Settings, env: ClusterEnv)
    ensures TargetPod(settings, env).Ok? <==>
      env.clientError.None? && env.service.LookupFound? && env.pods.Ok? && |env.pods.value| > 0
    ensures TargetPod(settings, env).Ok? ==> TargetPod(settings, env).value == env.pods.value[0]
    ensures env.clientError.None? && env.service.LookupFound? && env.pods == Ok([]) ==>
      TargetPod(settings, env) == Err(NoPodsError(settings))
  {
  }

  const SecretPrefix := "keycloak-client-secret-"

  /** The name of the Keycloak client secret. */
  function SecretName(clientSecretId: string, realmName: string): string
  {
    SecretPrefix + clientSecretId + "-" + realmName
  }

  /** Reads the client id and realm back out of a secret name; the id ends at
      the first '-'. */
  function ParseSecretName(name: string): Option<(string, string)>
  {
    if |name| >= |SecretPrefix| && name[..|SecretPrefix|] == SecretPrefix then
      var rest := name[|SecretPrefix|..];
      var k := IndexOf(rest, '-');
      if k < |rest| then Some((rest[..k], rest[k + 1..])) else None
    else None
  }

  lemma SecretNameRoundTrip(clientSecretId: string, realmName: string)
    requires '-' !in clientSecretId
    ensures ParseSecretName(SecretName(clientSecretId, realmName)) == Some((clientSecretId, realmName))
  {
    var name := SecretName(clientSecretId, realmName);
    var rest := clientSecretId + ['-'] + realmName;
    assert name == SecretPrefix + rest;
    assert name[..|SecretPrefix|] == SecretPrefix;
    assert name[|SecretPrefix|..] == rest;
    IndexOfSeparator(clientSecretId, '-', realmName);
    assert rest[..|clientSecretId|] == clientSecretId;
    assert rest[|clientSecretId| + 1..] == realmName;
  }

  function SecretPanic(settings: Settings, secretName: string, error: string): string
  {
    "failed to get secret " + secretName + " in namespace " + settings.namespace + ": " + error
  }

  /** `sec.Data[key]` converted to a string: "" when the key is missing. */
  function SecretField(data: map<string, string>, key: string): string
  {
    if key in data then data[key] else ""
  }

  function KeycloakConfigFor(settings: Settings, secret: Secret): KeycloakConfig
  {
    KeycloakConfig(
      Credentials(SecretField(secret.data, "CLIENT_ID"), SecretField(secret.data, "CLIENT_SECRET")),
      settings.keycloakUrl)
  }

  /** The second half of the hook, once the handle is published: look up the
      client secret (a failure panics), build a fresh token manager, and store
      the token it returns. */
  method PublishToken(
    settings: Settings, session: Session, secretReply: Lookup<Secret>,
    checkTime: int, storeTime: int, exchange: TokenRequest -> ExchangeOutcome)
    returns (outcome: HookOutcome, attempts: seq<TokenRequest>)
    modifies session`authToken
    ensures
      var secName := SecretName(settings.clientSecretId, settings.realmName);
      var sec := GetSecret(settings.namespace, secName, secretReply);
      && (sec.Err? ==>
            outcome == Aborted(SecretPanic(settings, secName, sec.error)) && attempts == []
            && session.authToken == old(session.authToken))
      && (sec.Ok? ==>
            var request := TokenRequestFor(KeycloakConfigFor(settings, sec.value));
            var fetched := FetchAndStore(None, storeTime, exchange(request));
            && attempts == [request]
            && (fetched.result.Ok? ==> outcome == Completed && session.authToken == fetched.result.value)
            && (fetched.result.Err? ==>
                  outcome == Failed(fetched.result.error) && session.authToken == old(session.authToken)))
  {
    var secName := SecretName(settings.clientSecretId, settings.realmName);
    var sec := GetSecret(settings.namespace, secName, secretReply);
    if sec.Err? {
      return Aborted(SecretPanic(settings, secName, sec.error)), [];
    }

    var manager := new KeycloakTokenManager(KeycloakConfigFor(settings, sec.value));
    var tokenVal;
    tokenVal, attempts := manager.GetValidToken(checkTime, storeTime, exchange);
    if tokenVal.Err? {
      return Failed(tokenVal.error), attempts;
    }
    session.authToken := tokenVal.value;
    outcome := Completed;
  }

  /** The closure of `getHookFn`. `forwardedPod` records the pod the port-forward
      targeted and `attempts` the token exchanges performed. */
  method RunHook(
    settings: Settings, session: Session, env: ClusterEnv,
    checkTime: int, storeTime: int, exchange: TokenRequest -> ExchangeOutcome)
    returns (outcome: HookOutcome, forwardedPod: Option<string>, attempts: seq<TokenRequest>)
    modifies session
    ensures old(session.Valid()) ==> session.Valid()
    ensures forwardedPod == (if TargetPod(settings, env).Ok? then Some(TargetPod(settings, env).value.name) else None)
    ensures TargetPod(settings, env).Err? ==>
      outcome == Failed(TargetPod(settings, env).error) && attempts == [] && unchanged(session)
    ensures forwardedPod.Some? && ForwardOutcome(env.forward).Err? ==>
      outcome == Failed(ForwardOutcome(env.forward).error) && attempts == [] && unchanged(session)
    ensures forwardedPod.Some? && ForwardOutcome(env.forward).Ok? ==>
      && session.commChannel.IsStarted()
      && session.commChannel.localPort == ForwardOutcome(env.forward).value
      && session.commChannel.stopChan != null && fresh(session.commChannel.stopChan)
    ensures forwardedPod.Some? && ForwardOutcome(env.forward).Ok? ==>
      var secName := SecretName(settings.clientSecretId, settings.realmName);
      var sec := GetSecret(settings.namespace, secName, env.secret);
      && (sec.Err? ==>
            outcome == Aborted(SecretPanic(settings, secName, sec.error)) && attempts == []
            && session.authToken == old(session.authToken))
      && (sec.Ok? ==>
            var request := TokenRequestFor(KeycloakConfigFor(settings, sec.value));
            var fetched := FetchAndStore(None, storeTime, exchange(request));
            && attempts == [request]
            && (fetched.result.Ok? ==> outcome == Completed && session.authToken == fetched.result.value)
            && (fetched.result.Err? ==>
                  outcome == Failed(fetched.result.error) && session.authToken == old(session.authToken)))
  {
    attempts := [];
    forwardedPod := None;
    if env.clientError.Some? {
      return Failed(env.clientError.value), forwardedPod, attempts;
    }
    var svc := GetService(settings.namespace, settings.serviceName, env.service);
    if svc.Err? {
      return Failed(svc.error), forwardedPod, attempts;
    }
    if env.pods.Err? {
      return Failed(env.pods.error), forwardedPod, attempts;
    }
    var pods := env.pods.value;
    if |pods| == 0 {
      return Failed(NoPodsError(settings)), forwardedPod, attempts;
    }

    forwardedPod := Some(pods[0].name);
    var newChannel, _, _ :=
      PortForwardSVC(env.apiHost, settings.namespace, pods[0].name, settings.servicePort, env.forward);
    if newChannel.Err? {
      return Failed(newChannel.error), forwardedPod, attempts;
    }
    session.commChannel := newChannel.value;
    outcome, attempts := PublishToken(settings, session, env.secret, checkTime, storeTime, exchange);
  }

  /** The deferred function of `main`: closes the handle only when it reports
      started. A session whose handle came from `PortForwardSVC` delivers the
      stop signal without blocking; a zero handle is left alone. */
  method Shutdown(session: Session) returns (closed: bool, blocked: bool)
    modifies session.commChannel.stopChan
    ensures closed == session.commChannel.IsStarted()
    ensures !closed ==> !blocked
    ensures !closed && session.commChannel.stopChan != null ==>
      session.commChannel.stopChan.queued == old(session.commChannel.stopChan.queued)
    ensures old(session.Valid()) && closed ==>
      !blocked && session.commChannel.stopChan.queued == old(session.commChannel.stopChan.queued) + 1
  {
    closed, blocked := false, false;
    if session.commChannel.IsStarted() {
      closed := true;
      blocked := Close(session.commChannel);
    }
  }
}
