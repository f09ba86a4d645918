/** The discovery path, `HugeClientHolder.createFromMeta`: pick a driver,
    open a meta client factory, ask it once for an authenticated client, and
    close the factory in a `finally` block. */
module Discovery {
  import opened Base
  import opened Text
  import opened LoadModel
  import opened Classifier
  import Direct

  /** The constants of `MetaHugeClientFactory.MetaDriverType`. */
  datatype MetaDriverType = ETCD | PD

  function DriverName(t: MetaDriverType): (name: string) {
    match t
    case ETCD => "ETCD"
    case PD => "PD"
  }

  /** `MetaDriverType.valueOf(name)`: the constant with exactly that name,
      `None` where Java throws `IllegalArgumentException`. */
  function ParseDriverType(name: string): (r: Option<MetaDriverType>)
    ensures r.Some? ==> DriverName(r.value) == name
    ensures r.None? ==> forall t :: DriverName(t) != name
  {
    if name == "ETCD" then Some(ETCD)
    else if name == "PD" then Some(PD)
    else None
  }

  /** The message Java's `Enum.valueOf` throws for an unknown name. */
  function NoSuchDriverMessage(name: string): (m: string) {
    "No enum constant com.baidu.hugegraph.driver.factory.MetaHugeClientFactory.MetaDriverType." + name
  }

  /** `metaType` is read without regard to ASCII case: any spelling whose
      upper-case form is a constant's name selects that constant. */
  lemma DriverTypeIgnoresCase(metaType: string, t: MetaDriverType)
    requires ToUpper(metaType) == DriverName(t)
    ensures ParseDriverType(ToUpper(metaType)) == Some(t)
  {
  }

  /** Mutual-TLS material for the meta store. */
  datatype MetaTls = MetaTls(ca: string, clientCa: Option<string>, clientKey: Option<string>)

  /** The arguments of one `MetaHugeClientFactory.connect` call. */
  datatype ConnectRequest = ConnectRequest(driver: MetaDriverType, endpoints: seq<string>, tls: Option<MetaTls>)

  /** Driver choice. The type is parsed first, so an unknown `metaType`
      fails even when the code would then fall back to ETCD; without a CA the
      fallback is ETCD with the endpoints only. */
  function ChooseConnect(o: LoadOptions): (r: Result<ConnectRequest, Failure>)
    ensures r.Failure? <==> ParseDriverType(ToUpper(o.metaType)).None?
    ensures r.Failure? ==> r.error == IllegalArgument(NoSuchDriverMessage(ToUpper(o.metaType)))
    ensures r.Success? ==> r.value.endpoints == o.metaURL
    ensures r.Success? ==> (r.value.tls.Some? <==> IsNotEmpty(o.metaCa))
    ensures r.Success? && r.value.tls.Some? ==>
              r.value.tls.value == MetaTls(o.metaCa.value, o.metaClientCa, o.metaClientKey) &&
              Some(r.value.driver) == ParseDriverType(ToUpper(o.metaType))
    ensures r.Success? && r.value.tls.None? ==> r.value.driver == ETCD
  {
    var name := ToUpper(o.metaType);
    match ParseDriverType(name)
    case None => Failure(IllegalArgument(NoSuchDriverMessage(name)))
    case Some(t) =>
      if IsNotEmpty(o.metaCa) then
        Success(ConnectRequest(t, o.metaURL, Some(MetaTls(o.metaCa.value, o.metaClientCa, o.metaClientKey))))
      else
        Success(ConnectRequest(ETCD, o.metaURL, None))
  }

  /** An open meta client factory. */
  datatype MetaFactory = MetaFactory(id: nat)

  /** What `MetaHugeClientFactory.connect` produced. */
  datatype Connection = Opened(factory: MetaFactory) | ConnectFailed(failure: Failure)

  /** The arguments of `createAuthClient`. */
  datatype AuthRequest = AuthRequest(
    cluster: string,
    graphSpace: string,
    graph: string,
    token: Option<string>,
    username: Option<string>,
    password: Option<string>
  )

  /** The request sent to the factory. The username is the raw option: the
      graph-name default computed for the direct path is not applied here. */
  function AuthRequestOf(o: LoadOptions): (r: AuthRequest)
    ensures r.username == o.username
    ensures o.username.None? ==> r.username != Some(Direct.EffectiveUsername(o))
    ensures r.cluster == o.cluster && r.graphSpace == o.graphSpace && r.graph == o.graph
    ensures r.token == o.token && r.password == o.password
  {
    AuthRequest(o.cluster, o.graphSpace, o.graph, o.token, o.username, o.password)
  }

  /** The two paths log in as the same user exactly when a username is
      configured: the direct path falls back to the graph name, the discovery
      path forwards the absent username as it is. */
  lemma UserAgreesAcrossPathsIffSet(o: LoadOptions, homePath: Option<string>)
    requires Direct.PlanDirect(o, homePath).Success?
    ensures AuthRequestOf(o).username == Some(Direct.PlanDirect(o, homePath).value.username) <==> o.username.Some?
    ensures o.username.None? ==> Direct.PlanDirect(o, homePath).value.username == o.graph
    ensures o.username.None? ==> AuthRequestOf(o).username.None?
  {
  }

  /** What happens to the meta client factory during one call. */
  datatype Event =
    | Connect(target: ConnectRequest, result: Connection)
    | RequestClient(factory: MetaFactory, auth: AuthRequest)
    | Close(factory: MetaFactory)

  function CloseCount(events: seq<Event>): (n: nat) {
    if |events| == 0 then 0
    else CloseCount(events[..|events| - 1]) + (if events[|events| - 1].Close? then 1 else 0)
  }

  /** A factory was opened by the call that produced `events`. */
  predicate FactoryOpened(events: seq<Event>) {
    |events| > 0 && events[0].Connect? && events[0].result.Opened?
  }

  /** Scoped release: an opened factory is closed exactly once, by the last
      event, and a factory that never opened is never closed. */
  predicate ReleasedOnce(events: seq<Event>) {
    if FactoryOpened(events) then
      CloseCount(events) == 1 && events[|events| - 1] == Close(events[0].result.factory)
    else
      CloseCount(events) == 0
  }

  /** `createFromMeta`. `connect` and `createAuthClient` stand for the
      library calls; `events` records the factory's lifecycle. */
  method CreateFromMeta(o: LoadOptions, connect: ConnectRequest -> Connection,
                        createAuthClient: (MetaFactory, AuthRequest) -> Attempt)
    returns (out: Outcome, events: seq<Event>)
    ensures ReleasedOnce(events)
    ensures ChooseConnect(o).Failure? ==> events == [] && out == Threw(Propagated(ChooseConnect(o).error))
    ensures ChooseConnect(o).Success? && connect(ChooseConnect(o).value).ConnectFailed? ==>
              events == [Connect(ChooseConnect(o).value, connect(ChooseConnect(o).value))] &&
              out == Threw(Propagated(connect(ChooseConnect(o).value).failure))
    ensures FactoryOpened(events) ==>
              var f := events[0].result.factory;
              events == [events[0], RequestClient(f, AuthRequestOf(o)), Close(f)] &&
              out == (match createAuthClient(f, AuthRequestOf(o))
                      case Built(c) => Connected(c)
                      case Failed(e) => Threw(Classify(e, o.host, o.port)))
    ensures FactoryOpened(events) <==>
              ChooseConnect(o).Success? && connect(ChooseConnect(o).value).Opened?
    ensures FactoryOpened(events) ==> events[0] == Connect(ChooseConnect(o).value, connect(ChooseConnect(o).value))
  {
    events := [];
    // Before the try block: the type lookup and the connection.
    var choice := ChooseConnect(o);
    if choice.Failure? {
      return Threw(Propagated(choice.error)), events;
    }
    var connection := connect(choice.value);
    events := events + [Connect(choice.value, connection)];
    if connection.ConnectFailed? {
      return Threw(Propagated(connection.failure)), events;
    }
    var factory := connection.factory;
    // try
    var request := AuthRequestOf(o);
    var attempt := createAuthClient(factory, request);
    events := events + [RequestClient(factory, request)];
    match attempt {
      case Built(client) =>
        out := Connected(client);
      case Failed(e) =>
        // The discovery path's own copy of the catch clauses.
        match e {
          case IllegalState(msg) =>
            if msg.Some? && StartsWith(msg.value, VERSION_PREFIX) {
              out := Threw(LoadError(VersionMismatch, e));
            } else {
              out := Threw(Propagated(e));
            }
          case Server(status, msg) =>
            if status == STATUS_UNAUTHORIZED || (msg.Some? && StartsWith(msg.value, AUTHENTICATION_PREFIX)) {
              out := Threw(LoadError(BadCredentials, e));
            } else {
              out := Threw(Propagated(e));
            }
          case Client(causeMsg) =>
            if causeMsg.None? {
              out := Threw(Propagated(e));
            } else if Contains(causeMsg.value, CONNECTION_REFUSED) {
              out := Threw(LoadError(Unavailable(o.host, o.port), e));
            } else if Contains(causeMsg.value, UNKNOWN_HOST_EXCEPTION) || Contains(causeMsg.value, NULL_HOST_NAME) {
              out := Threw(LoadError(UnknownHost(o.host), e));
            } else if Contains(causeMsg.value, CONNECT_TIMED_OUT) {
              out := Threw(LoadError(ConnectTimeout(o.host, o.port), e));
            } else {
              out := Threw(Propagated(e));
            }
          case IllegalArgument(_) =>
            out := Threw(Propagated(e));
          case Other(_, _) =>
            out := Threw(Propagated(e));
        }
    }
    // finally
    events := events + [Close(factory)];
  }
}
