/** The custom resources the operator reads and the cluster objects it writes, with the fields
    its code looks at. */
module Resources {

  datatype Option<T> = None | Some(value: T)

  /** A Go map[string]string. Nil and empty differ under reflect.DeepEqual. */
  datatype GoMap = Nil | Entries(m: map<string, string>)

  datatype Kind =
    | KServiceKind | TriggerKind | BindingKind | BrokerKind | QueueKind | ExchangeKind | SecretKind
    | DeploymentKind | CoreServiceKind | TwinInterfaceKind | MqttTriggerKind

  datatype Key = Key(kind: Kind, ns: string, name: string)

  datatype Owner = Owner(apiVersion: string, kind: string, name: string, uid: string)

  datatype Meta = Meta(ns: string, name: string, labels: GoMap, annotations: GoMap, owners: seq<Owner>)

  // ---------- custom resources ----------

  /** Type and object metadata of a custom resource. */
  datatype Identity = Identity(apiVersion: string, kind: string, ns: string, name: string, uid: string)
  {
    function AsOwner(): Owner {
      Owner(apiVersion, kind, name, uid)
    }
  }

  datatype AutoScaling = AutoScaling(
    minScale: Option<int>, maxScale: Option<int>, target: Option<int>,
    targetUtilizationPercentage: Option<int>, parallelism: Option<int>, metric: string)

  const NO_AUTO_SCALING := AutoScaling(None, None, None, None, None, "")

  datatype TwinRelationship = TwinRelationship(name: string, iface: string, aggregateData: bool)

  datatype TwinInterfaceService = TwinInterfaceService(containers: seq<Container>, autoScaling: AutoScaling)

  /** `commands` holds the command names. */
  datatype TwinInterfaceSpec = TwinInterfaceSpec(
    relationships: seq<TwinRelationship>, commands: seq<string>, service: Option<TwinInterfaceService>)

  datatype TwinInterface =
    TwinInterface(id: Identity, annotations: GoMap, owners: seq<Owner>, spec: TwinInterfaceSpec)

  const STATUS_RUNNING := "Running"

  /** Rendered quantities of spec.dispatcherResources; an absent one renders as "0". */
  datatype DispatcherResources =
    DispatcherResources(cpuRequest: string, memoryRequest: string, cpuLimit: string, memoryLimit: string)

  datatype EventStore = EventStore(
    id: Identity, autoScaling: AutoScaling, resources: string, dispatcher: DispatcherResources,
    timeout: Option<int>, postgresPort: int, postgresSecret: string)

  datatype Visualisation = Visualisation(
    id: Identity, autoScaling: AutoScaling, resources: string, dispatcher: DispatcherResources,
    timeout: Option<int>)

  // ---------- cluster objects ----------

  datatype EnvVar = Plain(name: string, value: string) | FromSecret(name: string, secret: string, key: string)

  /** `resources` is the rendered resource requirements, compared as a whole. */
  datatype Container = Container(name: string, image: string, pullPolicy: string, resources: string, env: seq<EnvVar>)

  /** The ConfigurationSpec of a Knative Service. */
  datatype Configuration =
    Configuration(annotations: GoMap, nodeSelector: map<string, string>, containers: seq<Container>)

  datatype TriggerSpec =
    TriggerSpec(broker: string, attributes: map<string, string>, subscriber: string, path: Option<string>)

  datatype ClusterRef = ClusterRef(name: string, ns: string)

  datatype BindingSpec = BindingSpec(
    vhost: string, source: string, destination: string, destinationType: string, routingKey: string,
    arguments: map<string, string>, cluster: ClusterRef)

  datatype QueueSpec = QueueSpec(
    name: string, vhost: string, durable: bool, autoDelete: bool, cluster: ClusterRef, queueType: string)

  datatype Port = Port(name: string, port: int)

  datatype DeploymentSpec = DeploymentSpec(
    replicas: int, selector: map<string, string>, containers: seq<Container>, ports: seq<Port>)

  datatype CoreServiceSpec = CoreServiceSpec(selector: map<string, string>, ports: seq<Port>, serviceType: string)

  /** A broker has no address until it is ready; an address without URL reads as "".
      `rest` of a Knative Service stands for its route specification and the status fields
      other than the URL. */
  datatype Body =
    | KServiceBody(config: Configuration, url: string, rest: string)
    | TriggerBody(trigger: TriggerSpec)
    | BindingBody(binding: BindingSpec)
    | BrokerBody(address: Option<string>)
    | QueueBody(queue: QueueSpec)
    | ExchangeBody(exchangeName: string)
    | SecretBody(data: map<string, string>)
    | DeploymentBody(deployment: DeploymentSpec)
    | CoreServiceBody(service: CoreServiceSpec)
    | TwinInterfaceBody(spec: TwinInterfaceSpec, status: string)
    | MqttTriggerBody(apiVersion: string, kind: string, uid: string, phase: string)

  function KindOf(body: Body): Kind {
    match body
    case KServiceBody(_, _, _) => KServiceKind
    case TriggerBody(_) => TriggerKind
    case BindingBody(_) => BindingKind
    case BrokerBody(_) => BrokerKind
    case QueueBody(_) => QueueKind
    case ExchangeBody(_) => ExchangeKind
    case SecretBody(_) => SecretKind
    case DeploymentBody(_) => DeploymentKind
    case CoreServiceBody(_) => CoreServiceKind
    case TwinInterfaceBody(_, _) => TwinInterfaceKind
    case MqttTriggerBody(_, _, _, _) => MqttTriggerKind
  }

  datatype Object = Object(meta: Meta, body: Body)
  {
    function KeyOf(): Key {
      Key(KindOf(body), meta.ns, meta.name)
    }
  }

  /** The merge of a Knative Service, the same in all three packages that have one: the new
      ConfigurationSpec, everything else as it was. */
  function MergeService(current: Object, desired: Object): Object {
    if current.body.KServiceBody? && desired.body.KServiceBody?
    then current.(body := current.body.(config := desired.body.config))
    else current
  }

  // ---------- fixed names ----------

  const REGISTRY := "ghcr.io/emereshub/"
  const BROKER_NAME := "twinscale"
  const TOPIC_EXCHANGE := "amq.topic"
  const RABBITMQ_VHOST := "/"
  const MQTT_DISPATCHER := "mqtt-dispatcher"
  const MQTT_DISPATCHER_QUEUE := "mqtt-dispatcher-queue"
  const CLOUD_EVENT_DISPATCHER := "cloud-event-dispatcher"
  const CLOUD_EVENT_DISPATCHER_QUEUE := "cloud-event-dispatcher-queue"

  const TRIGGER_LABEL := "eventing.knative.dev/trigger"
  const BROKER_LABEL := "eventing.knative.dev/broker"
  const EXCHANGE_SELECTOR := map[BROKER_LABEL := BROKER_NAME]
  const PARALLELISM := "rabbitmq.eventing.knative.dev/parallelism"
}
