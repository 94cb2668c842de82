/** `MQTTTriggerReconciler.Reconcile` as a step machine: the secret and the exchange are read,
    six children are applied in a fixed order, and the phase is written. */
module MqttTriggerMachine {
  import opened Resources
  import opened ClusterApi

  const SECRET_KEY := Key(SecretKind, "twinscale", "rabbitmq-default-user")

  const READY := "Ready"
  const ERROR := "Error"

  // ---------- the six children ----------

  /** The value under a key of the secret; a missing key reads as the empty string. */
  function Entry(data: map<string, string>, key: string): string {
    if key in data then data[key] else ""
  }

  function ChildMeta(id: Identity, name: string, labels: GoMap): Meta {
    Meta(id.ns, name, labels, Nil, [id.AsOwner()])
  }

  function DispatcherQueueSpec(ns: string, name: string): QueueSpec {
    QueueSpec(name, RABBITMQ_VHOST, true, false, ClusterRef("rabbitmq", ns), "quorum")
  }

  function DispatcherQueue(id: Identity, name: string): Object {
    Object(ChildMeta(id, name, Nil), QueueBody(DispatcherQueueSpec(id.ns, name)))
  }

  function Environment(service: string, secret: map<string, string>, exchange: string, queue: string): seq<EnvVar> {
    [Plain("SERVICE_NAME", service + "-1"), Plain("PROTOCOL", "amqp"),
     Plain("SERVER_URL", Entry(secret, "host")), Plain("SERVER_PORT", Entry(secret, "port")),
     Plain("USERNAME", Entry(secret, "username")), Plain("PASSWORD", Entry(secret, "password")),
     Plain("DECLARE_QUEUE", "false"), Plain("DECLARE_EXCHANGE", "false"),
     Plain("PUBLISHER_EXCHANGE", exchange), Plain("SUBSCRIBER_QUEUE", queue)]
  }

  function DispatcherDeploymentSpec(name: string, secret: map<string, string>, exchange: string, queue: string,
                                    ports: seq<Port>): DeploymentSpec {
    DeploymentSpec(1, map["twinscale/trigger" := name],
                   [Container(name, REGISTRY + "twinscale-" + name + ":0.1", "Always", "cpu=500m,memory=128Mi",
                              Environment(name, secret, exchange, queue))], ports)
  }

  function DispatcherLabels(name: string): GoMap {
    Entries(map["twinscale/trigger" := name])
  }

  const AMQP_PORT := Port("", 5672)
  const METRICS_PORT := Port("http-metrics", 8080)

  function MqttDeployment(id: Identity, secret: map<string, string>, exchange: string): Object {
    Object(ChildMeta(id, MQTT_DISPATCHER, DispatcherLabels(MQTT_DISPATCHER)),
           DeploymentBody(DispatcherDeploymentSpec(MQTT_DISPATCHER, secret, exchange, MQTT_DISPATCHER_QUEUE,
                                                   [AMQP_PORT, METRICS_PORT])))
  }

  function CloudEventDeployment(id: Identity, secret: map<string, string>): Object {
    Object(ChildMeta(id, CLOUD_EVENT_DISPATCHER, DispatcherLabels(CLOUD_EVENT_DISPATCHER)),
           DeploymentBody(DispatcherDeploymentSpec(CLOUD_EVENT_DISPATCHER, secret, TOPIC_EXCHANGE,
                                                   CLOUD_EVENT_DISPATCHER_QUEUE, [AMQP_PORT])))
  }

  function DispatcherService(id: Identity, name: string, ports: seq<Port>): Object {
    Object(ChildMeta(id, name, DispatcherLabels(name)),
           CoreServiceBody(CoreServiceSpec(map["twinscale/trigger" := name], ports, "ClusterIP")))
  }

  /** The children in the order they are applied. */
  function Children(id: Identity, secret: map<string, string>, exchange: string): (cs: seq<Object>)
    ensures |cs| == 6
  {
    [DispatcherQueue(id, MQTT_DISPATCHER_QUEUE),
     MqttDeployment(id, secret, exchange),
     DispatcherService(id, MQTT_DISPATCHER, [Port("mqtt-port", 5672), METRICS_PORT]),
     DispatcherQueue(id, CLOUD_EVENT_DISPATCHER_QUEUE),
     CloudEventDeployment(id, secret),
     DispatcherService(id, CLOUD_EVENT_DISPATCHER, [AMQP_PORT])]
  }

  // ---------- the machine ----------

  datatype Step =
    | GetSelf
    | GetSecret
    | ListExchange
    | FetchChild(todo: seq<Object>)
    | CreateChild(todo: seq<Object>)
    | UpdateChild(todo: seq<Object>, existing: Object)
    | WritePhase(phase: string, outcome: Outcome)
    | Finished(outcome: Outcome)

  /** `secret` and `exchange` are what the attempt has read. */
  datatype State = State(self: Key, id: Identity, secret: map<string, string>, exchange: string, step: Step)

  const NO_IDENTITY := Identity("", "", "", "", "")

  function Start(ns: string, name: string): State {
    State(Key(MqttTriggerKind, ns, name), NO_IDENTITY, map[], "", GetSelf)
  }

  predicate Asking(st: State) {
    match st.step
    case Finished(_) => false
    case FetchChild(todo) => todo != []
    case CreateChild(todo) => todo != []
    case UpdateChild(todo, _) => todo != []
    case _ => true
  }

  function IdentityOf(o: Object): Identity
    requires o.body.MqttTriggerBody?
  {
    Identity(o.body.apiVersion, o.body.kind, o.meta.ns, o.meta.name, o.body.uid)
  }

  /** The object the status update sends. */
  function WithPhase(id: Identity, phase: string): Object {
    Object(Meta(id.ns, id.name, Nil, Nil, []), MqttTriggerBody(id.apiVersion, id.kind, id.uid, phase))
  }

  function Ask(st: State): Request
    requires Asking(st)
  {
    match st.step
    case GetSelf => Get(st.self)
    case GetSecret => Get(SECRET_KEY)
    case ListExchange => List(ExchangeKind, "twinscale", EXCHANGE_SELECTOR)
    case FetchChild(todo) => Get(todo[0].KeyOf())
    case CreateChild(todo) => Create(todo[0])
    case UpdateChild(todo, existing) => Update(existing.(body := todo[0].body))
    case WritePhase(phase, _) => UpdateStatus(WithPhase(st.id, phase))
  }

  /** Applying the children failed: the phase becomes "Error" and the error is returned. */
  function Fail(st: State, e: Error): State {
    st.(step := WritePhase(ERROR, Failing(e)))
  }

  function Next(st: State, todo: seq<Object>): State {
    if todo == [] then st.(step := WritePhase(READY, Succeeded)) else st.(step := FetchChild(todo))
  }

  function Tell(st: State, resp: Response): State
    requires Asking(st)
  {
    match st.step
    case GetSelf =>
      if resp == Failed(NotFound) then st.(step := Finished(Succeeded))
      else if resp.Failed? then st.(step := Finished(Failing(resp.error)))
      else if resp.Fetched? && resp.obj.body.MqttTriggerBody? then st.(id := IdentityOf(resp.obj), step := GetSecret)
      else st.(step := Finished(Panicked))
    case GetSecret =>
      if resp.Failed? then Fail(st, resp.error)
      else if resp.Fetched? && resp.obj.body.SecretBody? then st.(secret := resp.obj.body.data, step := ListExchange)
      else st.(step := Finished(Panicked))
    case ListExchange =>
      if resp.Failed? then Fail(st, resp.error)
      else if resp.Listed? && resp.items != [] then
        var exchange := resp.items[0].meta.name;
        Next(st.(exchange := exchange), Children(st.id, st.secret, exchange))
      else Fail(st, NoExchange)
    case FetchChild(todo) =>
      if resp == Failed(NotFound) then st.(step := CreateChild(todo))
      else if resp.Failed? then Fail(st, resp.error)
      else if resp.Fetched? then st.(step := UpdateChild(todo, resp.obj))
      else st.(step := Finished(Panicked))
    case CreateChild(todo) =>
      if resp.Failed? then Fail(st, resp.error) else Next(st, todo[1..])
    case UpdateChild(todo, _) =>
      if resp.Failed? then Fail(st, resp.error) else Next(st, todo[1..])
    case WritePhase(_, outcome) =>
      if outcome == Succeeded && resp.Failed? then st.(step := Finished(Failing(resp.error)))
      else st.(step := Finished(outcome))
  }
}
