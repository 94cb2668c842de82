/** `createUpdateTwinInterface` as a step machine: a state is the call the reconciler is about
    to make together with its local variables, and an answer moves it to the next state. */
module TwinInterfaceMachine {
  import opened Resources
  import opened ClusterApi
  import opened TwinEvents
  import opened TwinService

  // ---------- the children of an interface ----------

  /** What a TwinInterface may own, before the names it needs from the broker are known. */
  datatype Child =
    | OwnService
    | OwnTrigger
    | OwnMqtt
    | RelationshipMqtt(relationship: TwinRelationship)
    | EventStoreBound
    | RelationshipReal(relationship: TwinRelationship)
    | CommandBound(command: string)

  function MqttChildren(ti: TwinInterface): (cs: seq<Child>)
    ensures |cs| == 1 + |Aggregated(ti.spec.relationships)| && cs[0] == OwnMqtt
    ensures forall i :: 1 <= i < |cs| ==> cs[i] == RelationshipMqtt(Aggregated(ti.spec.relationships)[i - 1])
    ensures forall c :: c in cs ==> c.OwnMqtt? || c.RelationshipMqtt?
  {
    var rs := Aggregated(ti.spec.relationships);
    [OwnMqtt] + seq(|rs|, i requires 0 <= i < |rs| => RelationshipMqtt(rs[i]))
  }

  function RelationshipChildren(ti: TwinInterface): (cs: seq<Child>)
    ensures |cs| == |Aggregated(ti.spec.relationships)|
    ensures forall i :: 0 <= i < |cs| ==> cs[i] == RelationshipReal(Aggregated(ti.spec.relationships)[i])
    ensures forall c :: c in cs ==> c.RelationshipReal?
  {
    var rs := Aggregated(ti.spec.relationships);
    seq(|rs|, i requires 0 <= i < |rs| => RelationshipReal(rs[i]))
  }

  function CommandChildren(ti: TwinInterface): (cs: seq<Child>)
    ensures |cs| == if ti.spec.service.Some? then |ti.spec.commands| else 0
    ensures forall i :: 0 <= i < |cs| ==> cs[i] == CommandBound(ti.spec.commands[i])
    ensures forall c :: c in cs ==> c.CommandBound?
  {
    if ti.spec.service.None? then []
    else seq(|ti.spec.commands|, i requires 0 <= i < |ti.spec.commands| => CommandBound(ti.spec.commands[i]))
  }

  /** The children the interface is to have: without a service it gets no service, no trigger
      and no binding to a queue of its own. */
  ghost predicate Wanted(ti: TwinInterface, c: Child) {
    match c
    case OwnService => ti.spec.service.Some?
    case OwnTrigger => ti.spec.service.Some?
    case OwnMqtt => true
    case RelationshipMqtt(_) => c in MqttChildren(ti)
    case EventStoreBound => true
    case RelationshipReal(_) => ti.spec.service.Some? && c in RelationshipChildren(ti)
    case CommandBound(_) => ti.spec.service.Some? && c in CommandChildren(ti)
  }

  /** The key does not depend on anything the broker hands out. */
  function ChildKey(ti: TwinInterface, c: Child): Key {
    var n := ti.id.name;
    match c
    case OwnService => Key(KServiceKind, ti.id.ns, n)
    case OwnTrigger => Key(TriggerKind, ti.id.ns, n)
    case OwnMqtt => Key(BindingKind, ti.id.ns, OwnMqttName(n))
    case RelationshipMqtt(r) => Key(BindingKind, ti.id.ns, RelationshipMqttName(n, r.name))
    case EventStoreBound => Key(BindingKind, ti.id.ns, EventStoreName(n))
    case RelationshipReal(r) => Key(BindingKind, ti.id.ns, RelationshipRealName(n, r.name))
    case CommandBound(command) => Key(BindingKind, ti.id.ns, CommandName(n, command))
  }

  /** The names a run of the function collects before it can build everything. */
  datatype Found =
    Found(brokerUrl: Option<string>, eventStoreUrl: string, eventStoreQueue: string, exchange: string, queue: string)

  const NOTHING_FOUND := Found(None, "", "", "", "")

  /** The broker's URL as the containers get it; `Sane` says that it has been read by then. */
  function BrokerUrl(f: Found): string {
    if f.brokerUrl.Some? then f.brokerUrl.value else ""
  }

  /** The child as it is sent; only an interface with a service has one to build. */
  function Build(ti: TwinInterface, c: Child, f: Found): (o: Object)
    requires c.OwnService? || c.OwnTrigger? ==> ti.spec.service.Some?
    ensures o.KeyOf() == ChildKey(ti, c)
  {
    match c
    case OwnService => DesiredService(ti, ti.spec.service.value, BrokerUrl(f), f.eventStoreUrl)
    case OwnTrigger => TwinInterfaceTrigger(ti).value
    case OwnMqtt => MqttBinding(ti, OwnMqttName(ti.id.name), ti.id.name)
    case RelationshipMqtt(r) => MqttBinding(ti, RelationshipMqttName(ti.id.name, r.name), r.iface)
    case EventStoreBound => EventStoreBinding(ti, f.exchange, f.eventStoreQueue)
    case RelationshipReal(r) => RelationshipRealBinding(ti, r, f.exchange, f.queue)
    case CommandBound(command) => CommandBinding(ti, command, f.exchange, f.queue)
  }

  // ---------- states ----------

  datatype Step =
    | GetBroker
    | GetEventStore
    | CreateService
    | FetchService
    | UpdateService(current: Object)
    | CreateTrigger
    | CreateMqtt(rest: seq<Child>)
    | ListEventStoreQueue
    | ListExchange
    | CreateEventStore
    | ListQueue
    | CreateRelationship(rest: seq<Child>)
    | CreateCommand(rest: seq<Child>)
    | UpdateInterface
    | Finished(outcome: Outcome)

  /** `errors` is resultErrors. */
  datatype State = State(ti: TwinInterface, errors: seq<Error>, found: Found, step: Step)

  const BROKER_KEY := Key(BrokerKind, "twinscale", "twinscale")
  const EVENT_STORE_KEY := Key(KServiceKind, "twinscale", "eventstore")

  function InterfaceKey(ti: TwinInterface): Key {
    Key(TwinInterfaceKind, ti.id.ns, ti.id.name)
  }

  function Start(ti: TwinInterface): State {
    State(ti, [], NOTHING_FOUND, if ti.spec.service.Some? then GetBroker else CreateMqtt(MqttChildren(ti)))
  }

  const EVENT_STORE_SELECTOR := map[TRIGGER_LABEL := "eventstore-trigger"]

  function QueueSelector(ti: TwinInterface): map<string, string> {
    map[BROKER_LABEL := BROKER_NAME, TRIGGER_LABEL := ti.id.name]
  }

  /** The interface as the final Update sends it. */
  function Running(ti: TwinInterface): (o: Object)
    ensures o.KeyOf() == InterfaceKey(ti)
  {
    Object(Meta(ti.id.ns, ti.id.name, Entries(map["twinscale/twin-interface" := ti.id.name]), ti.annotations,
                ti.owners),
           TwinInterfaceBody(ti.spec, STATUS_RUNNING))
  }

  /** A state about to make a call: list steps have a child left, and the service steps occur
      only for an interface with a service. */
  predicate Asking(st: State) {
    match st.step
    case Finished(_) => false
    case CreateMqtt(rest) => rest != [] && !(rest[0].OwnService? || rest[0].OwnTrigger?)
    case CreateRelationship(rest) => rest != [] && rest[0].RelationshipReal?
    case CreateCommand(rest) => rest != [] && rest[0].CommandBound?
    case ListEventStoreQueue => true
    case ListExchange => true
    case CreateEventStore => true
    case ListQueue => true
    case UpdateInterface => true
    case UpdateService(current) => st.ti.spec.service.Some? && current.body.KServiceBody?
    case _ => st.ti.spec.service.Some?
  }

  /** The child the attempt is about to create. */
  function Pending(st: State): Option<Child> {
    match st.step
    case CreateService => Some(OwnService)
    case CreateTrigger => Some(OwnTrigger)
    case CreateMqtt(rest) => if rest != [] then Some(rest[0]) else None
    case CreateEventStore => Some(EventStoreBound)
    case CreateRelationship(rest) => if rest != [] then Some(rest[0]) else None
    case CreateCommand(rest) => if rest != [] then Some(rest[0]) else None
    case _ => None
  }

  function Ask(st: State): Request
    requires Asking(st)
  {
    if Pending(st).Some? then Create(Build(st.ti, Pending(st).value, st.found))
    else
      match st.step
      case GetBroker => Get(BROKER_KEY)
      case GetEventStore => Get(EVENT_STORE_KEY)
      case FetchService => Get(ChildKey(st.ti, OwnService))
      case UpdateService(current) => Update(MergeService(current, Build(st.ti, OwnService, st.found)))
      case ListEventStoreQueue => List(QueueKind, st.ti.id.ns, EVENT_STORE_SELECTOR)
      case ListExchange => List(ExchangeKind, st.ti.id.ns, EXCHANGE_SELECTOR)
      case ListQueue => List(QueueKind, st.ti.id.ns, QueueSelector(st.ti))
      case _ => Update(Running(st.ti))
  }

  // ---------- moving on ----------

  function Abort(st: State, e: Error): State {
    st.(step := Finished(Failing(e)))
  }

  function Panic(st: State): State {
    st.(step := Finished(Panicked))
  }

  /** Records a failed call. */
  function Note(st: State, resp: Response): State {
    if resp.Failed? then st.(errors := st.errors + [resp.error]) else st
  }

  /** Records a failed Create; "already exists" is no failure. */
  function NoteCreate(st: State, resp: Response): State {
    if resp == Failed(AlreadyExists) then st else Note(st, resp)
  }

  /** The end of the function: the first recorded error, or the final Update. */
  function Conclude(st: State): State {
    if st.errors != [] then st.(step := Finished(Failing(st.errors[0]))) else st.(step := UpdateInterface)
  }

  function ToCommands(st: State): State {
    if CommandChildren(st.ti) == [] then Conclude(st) else st.(step := CreateCommand(CommandChildren(st.ti)))
  }

  function ToRelationships(st: State): State {
    if RelationshipChildren(st.ti) == [] then ToCommands(st)
    else st.(step := CreateRelationship(RelationshipChildren(st.ti)))
  }

  function AddressOf(o: Object): Option<string> {
    if o.body.BrokerBody? then o.body.address else None
  }

  function UrlOf(o: Object): string {
    if o.body.KServiceBody? then o.body.url else ""
  }

  function QueueNameOf(o: Object): string {
    if o.body.QueueBody? then o.body.queue.name else ""
  }

  function ExchangeNameOf(o: Object): string {
    if o.body.ExchangeBody? then o.body.exchangeName else ""
  }

  /** CompareTwinService finds no difference to what the interface asks for. */
  predicate UpToDate(st: State, current: Object)
    requires st.ti.spec.service.Some? && current.body.KServiceBody?
  {
    ProjectionOf(current.body.config) == ProjectionOf(Build(st.ti, OwnService, st.found).body.config)
  }

  function AfterFetch(st: State, resp: Response): State
    requires st.ti.spec.service.Some?
  {
    if resp.Failed? then Abort(st, resp.error)
    else if resp.Fetched? && resp.obj.body.KServiceBody? then
      if UpToDate(st, resp.obj) then st.(step := CreateTrigger) else st.(step := UpdateService(resp.obj))
    else Panic(st)
  }

  function AfterEventStoreQueue(st: State, resp: Response): State {
    if resp.Failed? then Abort(st, resp.error)
    else if resp.Listed? then
      var queue := if resp.items == [] then "" else QueueNameOf(resp.items[0]);
      st.(found := st.found.(eventStoreQueue := queue), step := ListExchange)
    else Panic(st)
  }

  function AfterExchange(st: State, resp: Response): State {
    if resp.Failed? then Conclude(Note(st, resp))
    else if resp.Listed? && resp.items != [] then
      st.(found := st.found.(exchange := ExchangeNameOf(resp.items[0])), step := CreateEventStore)
    else Panic(st)
  }

  function AfterQueue(st: State, resp: Response): State {
    if resp.Failed? && resp.error != NotFound then Conclude(Note(st, resp))
    else if resp.Listed? && resp.items != [] then
      ToRelationships(st.(found := st.found.(queue := QueueNameOf(resp.items[0]))))
    else st.(step := Finished(Requeued(NotFound)))
  }

  function Tell(st: State, resp: Response): State
    requires Asking(st)
  {
    match st.step
    case GetBroker =>
      var url := if resp.Fetched? then AddressOf(resp.obj) else None;
      Note(st, resp).(found := st.found.(brokerUrl := url), step := GetEventStore)
    // Building the service dereferences the address of the broker.
    case GetEventStore =>
      var url := if resp.Fetched? then UrlOf(resp.obj) else "";
      var read := Note(st, resp).(found := st.found.(eventStoreUrl := url));
      if read.found.brokerUrl.None? then Panic(read) else read.(step := CreateService)
    case CreateService =>
      if resp == Failed(AlreadyExists) then st.(step := FetchService) else Note(st, resp).(step := CreateTrigger)
    case FetchService => AfterFetch(st, resp)
    case UpdateService(_) => Note(st, resp).(step := CreateTrigger)
    case CreateTrigger => NoteCreate(st, resp).(step := CreateMqtt(MqttChildren(st.ti)))
    case CreateMqtt(rest) =>
      NoteCreate(st, resp).(step := if |rest| > 1 then CreateMqtt(rest[1..]) else ListEventStoreQueue)
    case ListEventStoreQueue => AfterEventStoreQueue(st, resp)
    case ListExchange => AfterExchange(st, resp)
    case CreateEventStore =>
      if st.ti.spec.service.Some? then NoteCreate(st, resp).(step := ListQueue) else Conclude(NoteCreate(st, resp))
    case ListQueue => AfterQueue(st, resp)
    case CreateRelationship(rest) =>
      var noted := NoteCreate(st, resp);
      if |rest| > 1 then noted.(step := CreateRelationship(rest[1..])) else ToCommands(noted)
    case CreateCommand(rest) =>
      var noted := NoteCreate(st, resp);
      if |rest| > 1 then noted.(step := CreateCommand(rest[1..])) else Conclude(noted)
    case UpdateInterface => st.(step := Finished(Succeeded))
  }
}
