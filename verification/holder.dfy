/** `HugeClientHolder.create`: the choice between the two connection
    strategies. */
module Holder {
  import opened LoadModel
  import opened Classifier
  import Direct
  import opened Discovery

  /** Which of the two paths served a call. */
  datatype Strategy = DirectPath | DiscoveryPath

  /** Obtains a client. A non-empty meta URL list selects discovery;
      otherwise the direct path runs and the meta factory is never touched.
      Either way a library failure is classified by the same rules. */
  method Create(o: LoadOptions, homePath: Base.Option<string>,
                build: Direct.ClientConfig -> Attempt,
                connect: ConnectRequest -> Connection,
                createAuthClient: (MetaFactory, AuthRequest) -> Attempt)
    returns (strategy: Strategy, out: Outcome, events: seq<Event>)
    ensures strategy == DiscoveryPath <==> |o.metaURL| > 0
    ensures strategy == DirectPath ==> events == [] && out == Direct.CreateDirect(o, homePath, build)
    ensures ReleasedOnce(events)
    ensures strategy == DiscoveryPath ==>
              (FactoryOpened(events) <==> ChooseConnect(o).Success? && connect(ChooseConnect(o).value).Opened?)
    ensures strategy == DiscoveryPath && FactoryOpened(events) &&
            createAuthClient(events[0].result.factory, AuthRequestOf(o)).Failed? ==>
              out == Threw(Classify(createAuthClient(events[0].result.factory, AuthRequestOf(o)).failure, o.host, o.port))
    ensures strategy == DiscoveryPath && !FactoryOpened(events) ==> out.Threw? && out.raised.Propagated?
    ensures strategy == DiscoveryPath && ChooseConnect(o).Failure? ==>
              events == [] && out == Threw(Propagated(ChooseConnect(o).error))
    ensures strategy == DiscoveryPath && ChooseConnect(o).Success? && connect(ChooseConnect(o).value).ConnectFailed? ==>
              events == [Connect(ChooseConnect(o).value, connect(ChooseConnect(o).value))] &&
              out == Threw(Propagated(connect(ChooseConnect(o).value).failure))
    ensures strategy == DiscoveryPath && FactoryOpened(events) ==>
              events[0] == Connect(ChooseConnect(o).value, connect(ChooseConnect(o).value))
    ensures strategy == DiscoveryPath && FactoryOpened(events) ==>
              var f := events[0].result.factory;
              events == [events[0], RequestClient(f, AuthRequestOf(o)), Close(f)] &&
              out == (match createAuthClient(f, AuthRequestOf(o))
                      case Built(c) => Connected(c)
                      case Failed(e) => Threw(Classify(e, o.host, o.port)))
  {
    if |o.metaURL| > 0 {
      strategy := DiscoveryPath;
      out, events := CreateFromMeta(o, connect, createAuthClient);
    } else {
      strategy := DirectPath;
      out := Direct.CreateDirect(o, homePath, build);
      events := [];
    }
  }
}
