/** The Kubernetes helpers of pkg/services/k8s.go: the port-forward handle, the
    service and secret lookups, and `PortForwardSVC`.

    Calls into client-go, the SPDY dialer, `utils.GetFreePort` and the
    forwarder goroutine are replaced by their observable results, given as
    inputs (`Lookup`, `ForwardEnv`). */
module K8s {
  import opened Wrappers
  import opened Text

  /** A buffered Go channel of empty structs; `queued` counts the signals
      waiting in its buffer. */
  class Chan {
    const capacity: nat
    var queued: nat

    constructor (capacity: nat)
      ensures this.capacity == capacity && queued == 0
    {
      this.capacity := capacity;
      queued := 0;
    }
  }

  /** `PFCommunication`, a struct value that holds two channel references; a
      nil channel is `null`. */
  datatype PFCommunication = PFCommunication(stopChan: Chan?, startChan: Chan?, localPort: int) {
    /** `IsStarted`: the start channel is set. */
    predicate IsStarted() { startChan != null }
  }

  /** The zero value of `PFCommunication`. */
  const ZeroCommunication := PFCommunication(null, null, 0)

  /** The zero value is not started, so the guarded close leaves it alone. */
  lemma ZeroHandleIsNotStarted()
    ensures !ZeroCommunication.IsStarted()
  {
  }

  /** `Close` sends one signal on the stop channel. A send on a nil channel
      blocks forever and a send on a full buffer blocks until some receiver
      takes a signal; in both cases the model reports `blocked` and changes
      nothing instead of waiting. */
  method Close(comm: PFCommunication) returns (blocked: bool)
    modifies comm.stopChan
    ensures comm.stopChan == null ==> blocked
    ensures comm.stopChan != null ==>
      blocked == (old(comm.stopChan.queued) >= comm.stopChan.capacity)
      && comm.stopChan.queued == (if blocked then old(comm.stopChan.queued) else old(comm.stopChan.queued) + 1)
  {
    if comm.stopChan == null {
      return true;
    }
    blocked := comm.stopChan.queued >= comm.stopChan.capacity;
    if !blocked {
      comm.stopChan.queued := comm.stopChan.queued + 1;
    }
  }

  /** `Close` is not idempotent: on a handle whose stop channel has capacity
      one and nothing has drained it, the second call blocks. */
  method CloseTwiceBlocks()
  {
    var stop := new Chan(1);
    var start := new Chan(1);
    var comm := PFCommunication(stop, start, 4242);
    var first := Close(comm);
    assert !first;
    var second := Close(comm);
    assert second;
  }

  // ---------------------------------------------------------------------------
  // Lookups

  datatype Service = Service(name: string, selector: map<string, string>)
  datatype Pod = Pod(name: string)
  datatype Secret = Secret(name: string, data: map<string, string>)

  /** What a client-go `Get` returned: an error, a nil object, or an object. */
  datatype Lookup<T> = LookupFailed(error: string) | LookupNil | LookupFound(obj: T)

  /** `GetService`. */
  function GetService(namespace: string, name: string, reply: Lookup<Service>): (r: Result<Service>)
    ensures r.Ok? <==> reply.LookupFound?
    ensures r.Ok? ==> r.value == reply.obj
    ensures reply.LookupFailed? ==> r.error == "error getting svc: " + reply.error
    ensures reply.LookupNil? ==> r.error == "service " + name + " not found in namespace " + namespace
  {
    match reply
    case LookupFailed(e) => Err("error getting svc: " + e)
    case LookupNil => Err("service " + name + " not found in namespace " + namespace)
    case LookupFound(svc) => Ok(svc)
  }

  /** `GetSecret`. */
  function GetSecret(namespace: string, name: string, reply: Lookup<Secret>): (r: Result<Secret>)
    ensures r.Ok? <==> reply.LookupFound?
    ensures r.Ok? ==> r.value == reply.obj
    ensures reply.LookupFailed? ==> r.error == "error getting secret: " + reply.error
    ensures reply.LookupNil? ==> r.error == "secret " + name + " not found in namespace " + namespace
  {
    match reply
    case LookupFailed(e) => Err("error getting secret: " + e)
    case LookupNil => Err("secret " + name + " not found in namespace " + namespace)
    case LookupFound(sec) => Ok(sec)
  }

  // ---------------------------------------------------------------------------
  // Derivations of PortForwardSVC

  const PathPrefix := "/api/v1/namespaces/"
  const PodsInfix := "/pods/"
  const PathSuffix := "/portforward"

  /** The API path of a pod's port-forward subresource. */
  function ForwardPath(namespace: string, podName: string): string
  {
    PathPrefix + namespace + PodsInfix + podName + PathSuffix
  }

  /** Reads a namespace and a pod name back out of a port-forward path; the
      namespace ends at the first '/'. */
  function ParseForwardPath(p: string): Option<(string, string)>
  {
    if |p| >= |PathPrefix| + |PathSuffix|
       && p[..|PathPrefix|] == PathPrefix && p[|p| - |PathSuffix|..] == PathSuffix
    then
      var mid := p[|PathPrefix|..|p| - |PathSuffix|];
      var k := IndexOf(mid, '/');
      if |mid| - k >= |PodsInfix| && mid[k..k + |PodsInfix|] == PodsInfix
      then Some((mid[..k], mid[k + |PodsInfix|..]))
      else None
    else None
  }

  /** A namespace (Kubernetes names contain no '/') and pod name are recovered
      from the path, so distinct targets give distinct paths. */
  lemma ForwardPathRoundTrip(namespace: string, podName: string)
    requires '/' !in namespace
    ensures ParseForwardPath(ForwardPath(namespace, podName)) == Some((namespace, podName))
  {
    var p := ForwardPath(namespace, podName);
    var rest := "pods/" + podName;
    var mid := namespace + ['/'] + rest;
    assert p == PathPrefix + mid + PathSuffix;
    assert p[..|PathPrefix|] == PathPrefix;
    assert p[|p| - |PathSuffix|..] == PathSuffix;
    assert p[|PathPrefix|..|p| - |PathSuffix|] == mid;
    IndexOfSeparator(namespace, '/', rest);
    assert mid[|namespace|..|namespace| + |PodsInfix|] == PodsInfix;
    assert mid[..|namespace|] == namespace;
    assert mid[|namespace| + |PodsInfix|..] == podName;
  }

  /** The characters `strings.TrimLeft` strips from the configured API host. */
  const SchemeCutset := "htps:/"

  /** The host of the port-forward URL: `strings.TrimLeft(host, "htps:/")`. */
  function HostFromConfig(host: string): string
  {
    TrimLeft(host, SchemeCutset)
  }

  datatype ServerUrl = ServerUrl(scheme: string, host: string, path: string)

  function ServerUrlFor(configHost: string, namespace: string, podName: string): ServerUrl
  {
    ServerUrl("https", HostFromConfig(configHost), ForwardPath(namespace, podName))
  }

  lemma {:induction false} TrimLeftSkipsCutsetPrefix(a: string, b: string, cutset: string)
    requires forall i :: 0 <= i < |a| ==> a[i] in cutset
    ensures TrimLeft(a + b, cutset) == TrimLeft(b, cutset)
  {
    if a != [] {
      assert (a + b)[0] == a[0] && (a + b)[1..] == a[1..] + b;
      TrimLeftSkipsCutsetPrefix(a[1..], b, cutset);
    } else {
      assert a + b == b;
    }
  }

  /** The derived host equals the configured host with its "https://" (or
      "http://") scheme removed, provided the host proper does not start with
      one of the characters h, t, p, s, ':' or '/'. */
  lemma HostAfterScheme(h: string)
    requires h == [] || h[0] !in SchemeCutset
    ensures HostFromConfig("https://" + h) == h
    ensures HostFromConfig("http://" + h) == h
  {
    assert TrimLeft(h, SchemeCutset) == h;
    SchemeCharsInCutset("https://");
    TrimLeftSkipsCutsetPrefix("https://", h, SchemeCutset);
    SchemeCharsInCutset("http://");
    TrimLeftSkipsCutsetPrefix("http://", h, SchemeCutset);
  }

  lemma SchemeCharsInCutset(a: string)
    requires a in {"https://", "http://", "https://s"}
    ensures forall i :: 0 <= i < |a| ==> a[i] in SchemeCutset
  {
  }

  /** The trim works on a set of characters, not on a prefix: when the host
      proper starts with one of h, t, p, s, ':' or '/', those leading
      characters are lost too: "https://server.example" gives "erver.example". */
  lemma HostTrimEatsHostLetters(scheme: string, h: string)
    requires scheme in {"https://", "http://"}
    requires h != [] && h[0] in SchemeCutset
    ensures |HostFromConfig(scheme + h)| < |h|
    ensures |h| > 1 && h[1] !in SchemeCutset ==> HostFromConfig(scheme + h) == h[1..]
  {
    SchemeCharsInCutset(scheme);
    TrimLeftSkipsCutsetPrefix(scheme, h, SchemeCutset);
    assert TrimLeft(h, SchemeCutset) == TrimLeft(h[1..], SchemeCutset);
  }

  /** The `"local:remote"` port mapping handed to the forwarder. */
  function PortSpec(localPort: int, remotePort: int): string
  {
    FormatInt(localPort) + ":" + FormatInt(remotePort)
  }

  /** Splits a port mapping at its first ':' and reads both numbers. */
  function ParsePortSpec(s: string): Option<(int, int)>
  {
    var k := IndexOf(s, ':');
    if k == |s| then None
    else
      match (ParseInt(s[..k]), ParseInt(s[k + 1..]))
      case (Some(local), Some(remote)) => Some((local, remote))
      case _ => None
  }

  lemma PortSpecRoundTrip(localPort: int, remotePort: int)
    ensures ParsePortSpec(PortSpec(localPort, remotePort)) == Some((localPort, remotePort))
  {
    var a, b := FormatInt(localPort), FormatInt(remotePort);
    FormatIntAlphabet(localPort);
    assert ':' !in a by {
      forall i | 0 <= i < |a| ensures a[i] != ':' {
        assert IsDigit(a[i]) || a[i] == '-';
      }
    }
    IndexOfSeparator(a, ':', b);
    assert PortSpec(localPort, remotePort) == a + [':'] + b;
    assert (a + [':'] + b)[..|a|] == a;
    assert (a + [':'] + b)[|a| + 1..] == b;
    FormatIntRoundTrip(localPort);
    FormatIntRoundTrip(remotePort);
  }

  // ---------------------------------------------------------------------------
  // PortForwardSVC

  /** Which `select` case fires first: the ready channel or the 10-second timer. */
  datatype Readiness = Ready | TimedOut

  /** The results of the external steps of one `PortForwardSVC` call. */
  datatype ForwardEnv = ForwardEnv(
    roundTripperError: Option<string>,  // spdy.RoundTripperFor
    freePort: Result<int>,              // utils.GetFreePort
    forwarderError: Option<string>,     // portforward.New
    readiness: Readiness,
    errOut: string)                     // the forwarder's error output once ready

  /** The URL and port mappings `portforward.New` is called with. */
  datatype ForwarderSetup = ForwarderSetup(url: ServerUrl, ports: seq<string>)

  const TimeoutError := "timeout waiting for port forwarding to be ready"
  const InitErrorPrefix := "error found during init port-forward : "

  /** The outcome of `PortForwardSVC`: the local port on success, else the
      error text. */
  function ForwardOutcome(env: ForwardEnv): Result<int>
  {
    if env.roundTripperError.Some? then Err(env.roundTripperError.value)
    else if env.freePort.Err? then Err(env.freePort.error)
    else if env.forwarderError.Some? then Err(env.forwarderError.value)
    else if env.readiness == TimedOut then Err(TimeoutError)
    else if |env.errOut| != 0 then Err(InitErrorPrefix + env.errOut)
    else Ok(env.freePort.value)
  }

  /** Forwarding succeeds exactly when every setup step succeeds, readiness
      comes before the timeout and no error output was captured; the handle then
      carries the free port. A timeout, or readiness with error output, is an
      error. */
  lemma ForwardOutcomeClassification(env: ForwardEnv)
    ensures ForwardOutcome(env).Ok? <==>
      env.roundTripperError.None? && env.freePort.Ok? && env.forwarderError.None?
      && env.readiness == Ready && env.errOut == ""
    ensures ForwardOutcome(env).Ok? ==> ForwardOutcome(env).value == env.freePort.value
    ensures env.roundTripperError.None? && env.freePort.Ok? && env.forwarderError.None? && env.readiness == TimedOut
      ==> ForwardOutcome(env) == Err(TimeoutError)
    ensures env.roundTripperError.None? && env.freePort.Ok? && env.forwarderError.None? && env.readiness == Ready
      && env.errOut != ""
      ==> ForwardOutcome(env) == Err(InitErrorPrefix + env.errOut)
  {
  }

  /** `PortForwardSVC`. `setup` records the call of `portforward.New` and
      `started` the launch of the forwarding goroutine. */
  method PortForwardSVC(configHost: string, namespace: string, podName: string, port: int, env: ForwardEnv)
    returns (r: Result<PFCommunication>, setup: Option<ForwarderSetup>, started: bool)
    ensures setup == (if env.roundTripperError.None? && env.freePort.Ok?
                      then Some(ForwarderSetup(ServerUrlFor(configHost, namespace, podName),
                                               [PortSpec(env.freePort.value, port)]))
                      else None)
    ensures started <==> setup.Some? && env.forwarderError.None?
    ensures r.Err? <==> ForwardOutcome(env).Err?
    ensures r.Err? ==> r.error == ForwardOutcome(env).error
    ensures r.Ok? ==> r.value.localPort == ForwardOutcome(env).value && r.value.IsStarted()
    ensures r.Ok? ==>
      && r.value.stopChan != null && r.value.startChan != null
      && fresh(r.value.stopChan) && fresh(r.value.startChan) && r.value.stopChan != r.value.startChan
      && r.value.stopChan.capacity == 1 && r.value.stopChan.queued == 0
  {
    setup, started := None, false;
    if env.roundTripperError.Some? {
      return Err(env.roundTripperError.value), setup, started;
    }
    var path := ForwardPath(namespace, podName);
    var hostIP := TrimLeft(configHost, SchemeCutset);
    var serverUrl := ServerUrl("https", hostIP, path);

    var stopChan := new Chan(1);
    var readyChan := new Chan(1);

    if env.freePort.Err? {
      return Err(env.freePort.error), setup, started;
    }
    var localPort := env.freePort.value;
    var portStr := PortSpec(localPort, port);

    setup := Some(ForwarderSetup(serverUrl, [portStr]));
    if env.forwarderError.Some? {
      return Err(env.forwarderError.value), setup, started;
    }
    started := true;

    if env.readiness == TimedOut {
      return Err(TimeoutError), setup, started;
    }
    if |env.errOut| != 0 {
      return Err(InitErrorPrefix + env.errOut), setup, started;
    }
    r := Ok(PFCommunication(stopChan, readyChan, localPort));
  }
}
