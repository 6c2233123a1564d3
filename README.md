# k8snake core in Dafny

This project models the core of k8snake, a command-line client that reaches a
service inside a Kubernetes cluster through a port-forward tunnel and
authenticates with a Keycloak token:

- **Token cache** (`pkg/services/keycloak.go`): a `KeycloakTokenManager` holds an
  optional cached `KeycloakToken {Raw, Expiration}`. `GetValidToken` returns the
  cached token while its expiration lies strictly after "now". Otherwise it runs
  an OAuth2 client-credentials exchange (section 4.4 of RFC 6749) and caches the
  result with expiration `now + expires_in`.
- **Kubernetes helpers** (`pkg/services/k8s.go`): the port-forward handle
  `PFCommunication` with `IsStarted` and `Close`; the `GetService` and
  `GetSecret` lookups; and `PortForwardSVC`. That function derives the API path,
  the API host and the `"local:remote"` port mapping, creates the forwarder and
  waits for readiness or a 10-second timeout.
- **main.go**: the two variables `main` shares with its closures (the handle
  and the token string), the request modifier, the one-time session hook and
  the deferred close.

Modules: `Wrappers` (Option, Result with Go error text), `Text` (Go's
`strings.TrimLeft` and `%d`, plus parsers used as their inverses), `Keycloak`,
`K8s` and `K8snake` (main.go).

Inputs replace everything outside the core:
- The integer clock is a parameter. `GetValidToken` takes two readings: one
  for the validity check and a later one for storing a new token. The source
  calls `time.Now()` at both points.
- The token endpoint is an oracle `TokenRequest -> ExchangeOutcome`. The
  outcome is a request-build failure, a transport failure, or a response with
  a status, a body and a decoded payload (or a decode error).
- Every cluster call is an input: service, pod list and secret lookups, client
  construction, round-tripper, free port, forwarder creation, readiness versus
  timeout, and the captured error output.
- Go channels are the class `Chan`, a buffer of signals with a capacity. A nil
  channel is `null`.

## Model

| member | source | states |
|---|---|---|
| Keycloak.ValidityIsStrict | pkg/services/keycloak.go:39-44 | a nil token is never valid; a token is valid iff its expiration is strictly after now; at expiration == now it is invalid |
| Keycloak.ValidityIsMonotone | pkg/services/keycloak.go:43 | a token valid at some time was valid at every earlier time; an invalid one stays invalid later |
| Keycloak.TokenRequestCarriesCredentials | pkg/services/keycloak.go:55-66 | the exchange is a POST to the configured TokenURL with the form content type, carrying exactly three fields: grant_type=client_credentials and the configured client_id and client_secret |
| Keycloak.ValidTokenIsServedFromCache | pkg/services/keycloak.go:46-49 | with a valid cached token, GetValidToken returns its Raw value, performs no exchange and keeps the cache |
| Keycloak.InvalidTokenIsRefreshed | pkg/services/keycloak.go:46-52 | with an absent or invalid token, GetValidToken performs one exchange and returns exactly what fetchAndStoreToken yields |
| Keycloak.FailedExchangeKeepsCache | pkg/services/keycloak.go:62-91 | the fetch succeeds iff the response is 200 and decodes; every failure leaves the cache untouched; a non-200 error reads "failed to get token: " + body |
| Keycloak.SuccessfulExchangeStoresToken | pkg/services/keycloak.go:93-98 | on success the cache holds Raw = access_token and Expiration = store time + expires_in, and access_token is returned |
| Keycloak.NonPositiveLifetimeIsStale | pkg/services/keycloak.go:93-96 | a token stored with expires_in <= 0 is already invalid at its store time and at every later time |
| Keycloak.FreshTokenIsReused | pkg/services/keycloak.go:46-49 | with expires_in > 0, a later call checked strictly before the expiration returns the same token with no new exchange |
| Keycloak.RunCalls | pkg/services/keycloak.go:46-52 | a sequence of GetValidToken calls yields one result per call and at most one exchange per call |
| Keycloak.NoExchangeWhileValid | pkg/services/keycloak.go:46-49 | calls checked before the cached token's expiration perform no exchange, keep the cache and all return the cached token |
| Keycloak.AtMostOneExchangeInWindow | pkg/services/keycloak.go:46-98 | after a successful refresh, calls checked inside the new token's validity window add no exchange: at most one in total, and all return the same token |
| Keycloak.KeycloakTokenManager.constructor | pkg/services/keycloak.go:33-37 | NewKeycloakTokenManager keeps the configuration and starts with no cached token |
| Keycloak.KeycloakTokenManager.GetValidToken | pkg/services/keycloak.go:46-52 | the result, the new cache and the exchanges attempted (none on a hit, the one request of the config on a miss) are those of the cache rules |
| Keycloak.KeycloakTokenManager.FetchAndStoreToken | pkg/services/keycloak.go:54-99 | exactly one exchange with the request built from the config; the cache is written only after the status and decode checks pass |
| K8s.Close | pkg/services/k8s.go:67-69 | Close is one send on the stop channel: it blocks on a nil channel or a full buffer, otherwise it queues exactly one signal |
| K8s.GetService | pkg/services/k8s.go:149-159 | a lookup error becomes "error getting svc: " + error; a nil result becomes "service <name> not found in namespace <ns>"; otherwise the service is returned |
| K8s.GetSecret | pkg/services/k8s.go:75-84 | a lookup error becomes "error getting secret: " + error; a nil result becomes "secret <name> not found in namespace <ns>"; otherwise the secret is returned |
| K8s.ForwardPathRoundTrip | pkg/services/k8s.go:92 | the path "/api/v1/namespaces/" + namespace + "/pods/" + pod + "/portforward" can be parsed back to its namespace and pod |
| Text.TrimLeft | pkg/services/k8s.go:93 | the derived host is a suffix of the configured host; every removed leading character is in the cutset; the result is empty or starts outside it |
| K8s.HostAfterScheme | pkg/services/k8s.go:93 | for a host proper that does not start with h, t, p, s, ':' or '/', the trim removes exactly "https://" or "http://" |
| K8s.HostTrimEatsHostLetters | pkg/services/k8s.go:93 | when the host proper starts with a cutset character the trim also removes host characters ("https://server.example" gives "erver.example") |
| K8s.PortSpecRoundTrip | pkg/services/k8s.go:106 | the port mapping decimal(local) + ":" + decimal(remote) parses back to both ports |
| Text.FormatIntRoundTrip | pkg/services/k8s.go:106 | Go's %d rendering of an int reads back as the same int |
| K8s.ForwardOutcomeClassification | pkg/services/k8s.go:120-139 | forwarding succeeds iff every setup step succeeds, readiness beats the timeout and the error output is empty; a timeout and readiness with error output are errors; success carries the free port |
| K8s.PortForwardSVC | pkg/services/k8s.go:86-140 | round-tripper, free-port and forwarder failures return before the forwarder starts; the forwarder gets the derived URL and port mapping; a returned handle is started, holds the free port and fresh stop/ready channels |
| K8s.ZeroHandleIsNotStarted | pkg/services/k8s.go:71-73 | the zero-value handle is not started |
| K8snake.Session.constructor | main.go:48-53 | the shared token and handle start at their zero values |
| K8snake.RewriteHeader | main.go:88-93 | Authorization becomes "Bearer " + token and Content-Type "application/json", replacing old values; the custom header gets the default only when it reads empty; no other header changes |
| K8snake.CustomHeaderIsNeverReplaced | main.go:90-93 | an existing non-empty custom header value is preserved |
| K8snake.RewriteHeaderIsIdempotent | main.go:88-93 | rewriting the headers a second time with the same token changes nothing |
| K8snake.LocalHostNamesPort | main.go:86 | the new host is "localhost:" followed by the decimal local port, which reads back as that port |
| K8snake.ModifyRequest | main.go:84-96 | Host and URL.Host become "localhost:<port>", the headers are rewritten, no other request field changes, and the modifier returns nil |
| K8snake.ModifyRequestTwice | main.go:85-95 | applying the modifier twice with the same handle and token leaves the request as one application does |
| K8snake.TargetPodIsFirstListed | main.go:100-121 | the hook targets the first listed pod; an empty list is the error "no pods found for service <svc> in namespace <ns>" |
| K8snake.SecretNameRoundTrip | main.go:127 | the secret name "keycloak-client-secret-" + clientSecretID + "-" + realmName parses back to the id and realm when the id has no '-' |
| K8snake.PublishToken | main.go:127-151 | a failed secret lookup panics with the secret and namespace named and stores nothing; otherwise one exchange with the secret's CLIENT_ID/CLIENT_SECRET; the token cell is written only when it succeeds |
| K8snake.RunHook | main.go:98-153 | errors before the pod choice return and touch nothing; the port-forward targets the first pod; the handle cell is written only after forwarding succeeds, the token cell only after the token is obtained |
| K8snake.Shutdown | main.go:54-59 | the deferred function closes the handle iff it is started; for a handle from PortForwardSVC the stop signal is queued without blocking |

## Where the code and its design description differ

The model follows the code in each case:

- The cache has no lock and no single-flight refresh. Calls are modelled one
  after another.
- The hook builds its token manager locally and discards it. The modifier reads
  the token string fixed when the hook ran, so the bearer token is never
  refreshed after it expires.
- On a timeout, and on readiness with error output, `PortForwardSVC` returns an
  error but never signals the forwarder to stop (`started` is true, no handle
  comes back).
- `Close` is a plain send on a stop channel of capacity one. It is not
  idempotent: with nothing draining the channel, the second call blocks. See
  `K8s.CloseTwiceBlocks`.
- The custom header is filled in when it reads as the empty string, so a
  header present with an empty first value is overwritten too.
- The API host is derived with a cutset trim. A host proper starting with h,
  t, p, s, ':' or '/' loses those characters.

## Left out

- Kubeconfig loading and flag parsing in `NewK8sService`: only its failure and
  the API host are modelled (`ClusterEnv.clientError`, `ClusterEnv.apiHost`).
- client-go calls (service get, pod list by label selector, secret get): their
  results are inputs. The label selector is not modelled.
- The SPDY dialer, the `ForwardPorts` goroutine and the 10-second `select`: these
  are concurrency. Readiness (`Ready` or `TimedOut`) and the error output are
  inputs. The forwarder closing the ready channel and draining the stop channel
  are not modelled, and the standard output, which is only logged, is omitted.
- `utils.GetFreePort` is not part of this model; its result is an input.
- The HTTP client, `url.Values` percent-encoding and key order, and JSON
  decoding: the response is the `ExchangeOutcome` datatype. The ignored
  `io.ReadAll` error is covered by taking the body as given.
- Keycloak.SuccessfulExchangeStoresToken: the expiration is `store time +
  expires_in` over unbounded integers. Go's `time.Duration` product overflows for
  expires_in beyond about 9.2e9 seconds, and that is not modelled.
- Header-name canonicalisation in `http.Header`: keys are assumed canonical.
- Logging, the generated command and configuration plumbing, and `app.Run`:
  this is generated code that is not part of this model. The hook and the
  modifier are therefore modelled as operations, not as registrations.
