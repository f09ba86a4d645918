/** The direct connection path of `HugeClientHolder.create`: address,
    username and trust-store resolution, then one library build whose
    failure goes through the classifier. */
module Direct {
  import opened Base
  import opened Text
  import opened Decimal
  import opened LoadModel
  import opened Classifier

  /** TLS is on iff the protocol option equals the HTTPS schema; the host's
      own prefix plays no part. */
  function UseHttps(protocol: Option<string>): (r: bool)
    ensures r <==> protocol == Some(HTTPS_SCHEMA)
  {
    protocol.Some? && protocol.value == HTTPS_SCHEMA
  }

  /** The host already names a scheme. */
  predicate HasScheme(host: string) {
    StartsWith(host, HTTP_PREFIX) || StartsWith(host, HTTPS_PREFIX)
  }

  /** The two prefixes differ at their fifth character, so no address that
      begins with the HTTP prefix begins with the HTTPS one. */
  lemma HttpPrefixIsNotHttps(rest: string)
    ensures !StartsWith(HTTP_PREFIX + rest, HTTPS_PREFIX)
  {
    assert (HTTP_PREFIX + rest)[4] == ':' != HTTPS_PREFIX[4];
  }

  /** Appending text keeps a prefix. */
  lemma StartsWithExtends(s: string, t: string, prefix: string)
    ensures StartsWith(s, prefix) ==> StartsWith(s + t, prefix)
  {
    if |prefix| <= |s| {
      assert (s + t)[..|prefix|] == s[..|prefix|];
    }
  }

  /** `host:port`, with a scheme put in front when the host has none: the
      HTTPS prefix when TLS is on, the HTTP prefix otherwise. */
  function ResolveAddress(host: string, port: int, useHttps: bool): (a: string)
    ensures HasScheme(a)
    ensures HasScheme(host) ==> a == host + ":" + IntToString(port)
    ensures !HasScheme(host) ==> (StartsWith(a, HTTPS_PREFIX) <==> useHttps)
    ensures !HasScheme(host) && useHttps ==> a == HTTPS_PREFIX + host + ":" + IntToString(port)
    ensures !HasScheme(host) && !useHttps ==> a == HTTP_PREFIX + host + ":" + IntToString(port)
  {
    var address := host + ":" + IntToString(port);
    StartsWithExtends(host, ":" + IntToString(port), HTTP_PREFIX);
    StartsWithExtends(host, ":" + IntToString(port), HTTPS_PREFIX);
    if !HasScheme(host) then
      if useHttps then
        StartsWithExtends(HTTPS_PREFIX, address, HTTPS_PREFIX);
        HTTPS_PREFIX + address
      else
        StartsWithExtends(HTTP_PREFIX, address, HTTP_PREFIX);
        HttpPrefixIsNotHttps(address);
        HTTP_PREFIX + address
    else
      address
  }

  /** The text after the last ':' (all of `s` when there is none). */
  function AfterLastColon(s: string): (tail: string)
    decreases |s|
  {
    if |s| == 0 || s[|s| - 1] == ':' then "" else AfterLastColon(s[..|s| - 1]) + [s[|s| - 1]]
  }

  /** The port a reader of the address recovers: the text after its last
      colon, read as a decimal number. */
  function PortOf(address: string): (port: Option<int>) {
    ParseInt(AfterLastColon(address))
  }

  lemma {:induction false} AfterLastColonOfSuffix(x: string, p: string)
    requires ':' !in p
    ensures AfterLastColon(x + ":" + p) == p
    decreases |p|
  {
    var s := x + ":" + p;
    if |p| > 0 {
      var q := p[..|p| - 1];
      assert s[..|s| - 1] == x + ":" + q;
      AfterLastColonOfSuffix(x, q);
      assert q + [p[|p| - 1]] == p;
    } else {
      assert s[|s| - 1] == ':';
    }
  }

  /** Whatever the host holds (a scheme, a port of its own), the resolved
      address ends with the configured port. */
  lemma AddressCarriesPort(host: string, port: int, useHttps: bool)
    ensures PortOf(ResolveAddress(host, port, useHttps)) == Some(port)
  {
    var p := IntToString(port);
    var x := if HasScheme(host) then host else if useHttps then HTTPS_PREFIX + host else HTTP_PREFIX + host;
    assert ResolveAddress(host, port, useHttps) == x + ":" + p;
    AfterLastColonOfSuffix(x, p);
    ParseIntToString(port);
  }

  /** The user the client logs in as: the username when set, else the
      graph name. */
  function EffectiveUsername(o: LoadOptions): (u: string)
    ensures o.username.Some? ==> u == o.username.value
    ensures o.username.None? ==> u == o.graph
  {
    o.username.GetOr(o.graph)
  }

  /** `Paths.get(dir, file).toString()` with the separator of a POSIX file
      system; no normalisation. */
  function Join(dir: string, file: string): (path: string) {
    dir + "/" + file
  }

  const HOME_PATH_MESSAGE: string :=
    "The system property 'loader.home.path' can't be null or empty when enable https protocol"

  /** Trust-store file and password for a TLS connection. */
  datatype SslConfig = SslConfig(trustFile: string, trustToken: string)

  /** Trust-material resolution, given the `loader.home.path` system
      property. Nothing is resolved without TLS. */
  function ResolveTrustStore(o: LoadOptions, homePath: Option<string>): (r: Result<Option<SslConfig>, Failure>)
    ensures !UseHttps(o.protocol) ==> r == Success(None)
    ensures r.Failure? <==> UseHttps(o.protocol) && o.trustStoreFile.None? && !IsNotEmpty(homePath)
    ensures r.Failure? ==> r.error == IllegalArgument(HOME_PATH_MESSAGE)
    ensures r.Success? && UseHttps(o.protocol) ==> r.value.Some?
    ensures r.Success? && r.value.Some? ==> r.value.value.trustToken == o.trustStoreToken.GetOr(DEFAULT_TRUST_STORE_TOKEN)
    ensures r.Success? && r.value.Some? && o.trustStoreFile.Some? ==> r.value.value.trustFile == o.trustStoreFile.value
    ensures r.Success? && r.value.Some? && o.trustStoreFile.None? ==>
              homePath.Some? && r.value.value.trustFile == Join(homePath.value, TRUST_STORE_FILE)
  {
    if !UseHttps(o.protocol) then
      Success(None)
    else
      var token := o.trustStoreToken.GetOr(DEFAULT_TRUST_STORE_TOKEN);
      match o.trustStoreFile
      case Some(file) => Success(Some(SslConfig(file, token)))
      case None =>
        if IsNotEmpty(homePath) then Success(Some(SslConfig(Join(homePath.value, TRUST_STORE_FILE), token)))
        else Failure(IllegalArgument(HOME_PATH_MESSAGE))
  }

  /** Everything handed to the client builder before `build()`. */
  datatype ClientConfig = ClientConfig(
    address: string,
    graphSpace: string,
    graph: string,
    timeout: int,
    token: Option<string>,
    username: string,
    password: Option<string>,
    maxConnections: int,
    maxConnectionsPerRoute: int,
    ssl: Option<SslConfig>
  )

  /** The builder's configuration, or the configuration error raised before
      any connection is attempted. */
  function PlanDirect(o: LoadOptions, homePath: Option<string>): (r: Result<ClientConfig, Failure>)
    ensures r.Failure? <==> ResolveTrustStore(o, homePath).Failure?
    ensures r.Failure? ==> r.error == IllegalArgument(HOME_PATH_MESSAGE)
    ensures r.Success? ==> PortOf(r.value.address) == Some(o.port)
    ensures r.Success? ==> r.value.address == ResolveAddress(o.host, o.port, UseHttps(o.protocol))
    ensures r.Success? ==> r.value.username == EffectiveUsername(o)
    ensures r.Success? ==> (r.value.ssl.Some? <==> UseHttps(o.protocol))
    ensures r.Success? ==> r.value.ssl == ResolveTrustStore(o, homePath).value
    ensures r.Success? ==> r.value.graphSpace == o.graphSpace && r.value.graph == o.graph
    ensures r.Success? ==> r.value.timeout == o.timeout && r.value.token == o.token && r.value.password == o.password
    ensures r.Success? ==>
              r.value.maxConnections == o.maxConnections && r.value.maxConnectionsPerRoute == o.maxConnectionsPerRoute
  {
    AddressCarriesPort(o.host, o.port, UseHttps(o.protocol));
    match ResolveTrustStore(o, homePath)
    case Failure(e) => Failure(e)
    case Success(ssl) =>
      Success(ClientConfig(ResolveAddress(o.host, o.port, UseHttps(o.protocol)), o.graphSpace, o.graph,
                           o.timeout, o.token, EffectiveUsername(o), o.password,
                           o.maxConnections, o.maxConnectionsPerRoute, ssl))
  }

  /** The direct path: plan, build once, and send any failure through the
      catch clauses. `build` stands for `HugeClientBuilder.build()`. */
  function CreateDirect(o: LoadOptions, homePath: Option<string>, build: ClientConfig -> Attempt): (r: Outcome)
    ensures PlanDirect(o, homePath).Failure? ==> r == Threw(Propagated(IllegalArgument(HOME_PATH_MESSAGE)))
    ensures PlanDirect(o, homePath).Success? && build(PlanDirect(o, homePath).value).Built? ==>
              r == Connected(build(PlanDirect(o, homePath).value).client)
    ensures PlanDirect(o, homePath).Success? && build(PlanDirect(o, homePath).value).Failed? ==>
              r == Threw(Classify(build(PlanDirect(o, homePath).value).failure, o.host, o.port))
  {
    match PlanDirect(o, homePath)
    case Failure(e) => Threw(Classify(e, o.host, o.port))
    case Success(config) =>
      match build(config)
      case Built(client) => Connected(client)
      case Failed(f) => Threw(Classify(f, o.host, o.port))
  }

  /** A configuration error is raised before the library is called: the
      outcome does not depend on what a build would have done. */
  lemma ConfigErrorPrecedesBuild(o: LoadOptions, homePath: Option<string>,
                                 build1: ClientConfig -> Attempt, build2: ClientConfig -> Attempt)
    requires UseHttps(o.protocol) && o.trustStoreFile.None? && !IsNotEmpty(homePath)
    ensures CreateDirect(o, homePath, build1) == CreateDirect(o, homePath, build2)
    ensures CreateDirect(o, homePath, build1).Threw?
    ensures CreateDirect(o, homePath, build1).raised == Propagated(IllegalArgument(HOME_PATH_MESSAGE))
  {
  }

  /** Trust material depends on the protocol option only: changing the host,
      even to one that carries the HTTPS scheme, changes nothing about it. A
      host with the HTTPS scheme under a non-HTTPS protocol is dialled
      without TLS settings. */
  lemma TlsIgnoresHost(o: LoadOptions, h: string, homePath: Option<string>)
    ensures ResolveTrustStore(o.(host := h), homePath) == ResolveTrustStore(o, homePath)
    ensures PlanDirect(o.(host := h), homePath).Success? <==> PlanDirect(o, homePath).Success?
    ensures PlanDirect(o.(host := h), homePath).Success? ==>
              PlanDirect(o.(host := h), homePath).value.ssl == PlanDirect(o, homePath).value.ssl
    ensures StartsWith(h, HTTPS_PREFIX) && !UseHttps(o.protocol) ==>
              PlanDirect(o.(host := h), homePath).Success? &&
              PlanDirect(o.(host := h), homePath).value.ssl.None? &&
              StartsWith(PlanDirect(o.(host := h), homePath).value.address, HTTPS_PREFIX)
  {
    if StartsWith(h, HTTPS_PREFIX) {
      StartsWithExtends(h, ":" + Decimal.IntToString(o.port), HTTPS_PREFIX);
    }
  }
}
