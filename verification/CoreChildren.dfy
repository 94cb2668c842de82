/** The Service and the Trigger that the EventStore and Visualisation controllers keep:
    pkg/event-store, pkg/visualisation and pkg/third-party/knative. */
module CoreChildren {
  import opened Resources
  import opened Text

  const PULL_IF_NOT_PRESENT := "IfNotPresent"

  // ---------- knative.NewTrigger ----------

  const CPU_REQUEST := "rabbitmq.eventing.knative.dev/cpu-request"
  const CPU_LIMIT := "rabbitmq.eventing.knative.dev/cpu-limit"
  const MEMORY_REQUEST := "rabbitmq.eventing.knative.dev/memory-request"
  const MEMORY_LIMIT := "rabbitmq.eventing.knative.dev/memory-limit"

  datatype TriggerParameters = TriggerParameters(
    name: string, ns: string, broker: string, subscriber: string, owners: seq<Owner>,
    attributes: map<string, string>, labels: map<string, string>, path: string,
    parallelism: Option<int>, dispatcher: DispatcherResources)

  function Given(m: map<string, string>, key: string, value: string): map<string, string> {
    if value != "" then m[key := value] else m
  }

  /** Only parallelism and the dispatcher resources reach the annotations. */
  function TriggerAnnotations(parallelism: Option<int>, d: DispatcherResources): map<string, string> {
    var m := WithNumber(map[], PARALLELISM, parallelism);
    Given(Given(Given(Given(m, MEMORY_LIMIT, d.memoryLimit), MEMORY_REQUEST, d.memoryRequest),
                CPU_LIMIT, d.cpuLimit), CPU_REQUEST, d.cpuRequest)
  }

  method FillAnnotations(parallelism: Option<int>, d: DispatcherResources) returns (annotations: map<string, string>)
    ensures annotations == TriggerAnnotations(parallelism, d)
  {
    annotations := map[];
    if parallelism.Some? {
      annotations := annotations[PARALLELISM := Itoa(parallelism.value)];
    }
    if d.memoryLimit != "" {
      annotations := annotations[MEMORY_LIMIT := d.memoryLimit];
    }
    if d.memoryRequest != "" {
      annotations := annotations[MEMORY_REQUEST := d.memoryRequest];
    }
    if d.cpuLimit != "" {
      annotations := annotations[CPU_LIMIT := d.cpuLimit];
    }
    if d.cpuRequest != "" {
      annotations := annotations[CPU_REQUEST := d.cpuRequest];
    }
  }

  lemma AnnotationKeysDiffer()
    ensures PARALLELISM != CPU_REQUEST && PARALLELISM != CPU_LIMIT
    ensures PARALLELISM != MEMORY_REQUEST && PARALLELISM != MEMORY_LIMIT
    ensures CPU_REQUEST != CPU_LIMIT && CPU_REQUEST != MEMORY_REQUEST && CPU_REQUEST != MEMORY_LIMIT
    ensures CPU_LIMIT != MEMORY_REQUEST && CPU_LIMIT != MEMORY_LIMIT && MEMORY_REQUEST != MEMORY_LIMIT
  {
    assert PARALLELISM[30] == 'p' && CPU_REQUEST[30] == CPU_LIMIT[30] == 'c';
    assert MEMORY_REQUEST[30] == MEMORY_LIMIT[30] == 'm';
    assert CPU_REQUEST[34] == 'r' && CPU_LIMIT[34] == 'l' && MEMORY_REQUEST[37] == 'r' && MEMORY_LIMIT[37] == 'l';
  }

  /** The five annotations come and go independently, each with its own value. */
  lemma AnnotationsSayWhatIsGiven(parallelism: Option<int>, d: DispatcherResources)
    ensures var m := TriggerAnnotations(parallelism, d);
            && (PARALLELISM in m <==> parallelism.Some?)
            && (PARALLELISM in m ==> m[PARALLELISM] == Itoa(parallelism.value))
            && (CPU_REQUEST in m <==> d.cpuRequest != "") && (CPU_REQUEST in m ==> m[CPU_REQUEST] == d.cpuRequest)
            && (CPU_LIMIT in m <==> d.cpuLimit != "") && (CPU_LIMIT in m ==> m[CPU_LIMIT] == d.cpuLimit)
            && (MEMORY_REQUEST in m <==> d.memoryRequest != "")
            && (MEMORY_REQUEST in m ==> m[MEMORY_REQUEST] == d.memoryRequest)
            && (MEMORY_LIMIT in m <==> d.memoryLimit != "") && (MEMORY_LIMIT in m ==> m[MEMORY_LIMIT] == d.memoryLimit)
            && m.Keys <= {PARALLELISM, CPU_REQUEST, CPU_LIMIT, MEMORY_REQUEST, MEMORY_LIMIT}
  {
    AnnotationKeysDiffer();
  }

  function NewTrigger(p: TriggerParameters): Object {
    Object(Meta(p.ns, p.name, Entries(p.labels), Entries(TriggerAnnotations(p.parallelism, p.dispatcher)), p.owners),
           TriggerBody(TriggerSpec(p.broker, p.attributes, p.subscriber, if p.path == "" then None else Some(p.path))))
  }

  // ---------- auto scaling ----------

  function ScaleAnnotations(a: AutoScaling): map<string, string> {
    var m := WithNumber(WithNumber(map[], "autoscaling.knative.dev/maxScale", a.maxScale),
                    "autoscaling.knative.dev/minScale", a.minScale);
    var n := WithNumber(WithNumber(m, "autoscaling.knative.dev/target", a.target),
                    "autoscaling.knative.dev/target-utilization-percentage", a.targetUtilizationPercentage);
    Given(n, "autoscaling.knative.dev/metric", a.metric)
  }

  function ChildService(id: Identity, labelKey: string, node: string, annotations: GoMap, container: Container): Object
  {
    Object(Meta(id.ns, id.name, Entries(map[labelKey := id.name]), Nil, [id.AsOwner()]),
           KServiceBody(Configuration(annotations, map["kubernetes.io/arch" := "amd64", "twinscale-node" := node],
                                      [container]), "", ""))
  }

  function TriggerName(name: string): string {
    name + "-trigger"
  }

  // ---------- EventStore ----------

  function EventStoreEnvironment(es: EventStore): seq<EnvVar>
    requires es.timeout.Some?
  {
    [FromSecret("DB_HOST", es.postgresSecret, "host"), Plain("DB_PORT", Itoa(es.postgresPort)),
     FromSecret("DB_NAME", es.postgresSecret, "database"), FromSecret("DB_USER", es.postgresSecret, "username"),
     FromSecret("DB_PASSWORD", es.postgresSecret, "password"), Plain("TIMEOUT", Itoa(es.timeout.value))]
  }

  /** The builder dereferences spec.timeout, so an EventStore without one is not built. */
  function EventStoreService(es: EventStore): Object
    requires es.timeout.Some?
  {
    ChildService(es.id, "twinscale/event-store", "core",
                 if es.autoScaling == NO_AUTO_SCALING then Nil else Entries(ScaleAnnotations(es.autoScaling)),
                 Container("twinscale-event-store-v1", REGISTRY + "twinscale-event-store:0.1", PULL_IF_NOT_PRESENT,
                           es.resources, EventStoreEnvironment(es)))
  }

  function EventStoreTrigger(es: EventStore): Object {
    NewTrigger(TriggerParameters(TriggerName(es.id.name), es.id.ns, "twinscale", es.id.name, [es.id.AsOwner()],
                                 map["type" := "twinscale.event-store"], map["twinscale/event-store" := es.id.name],
                                 "/api/v1/twin-events", es.autoScaling.parallelism, es.dispatcher))
  }

  // ---------- Visualisation ----------

  function VisualisationService(v: Visualisation): Object {
    var scale := ScaleAnnotations(v.autoScaling);
    ChildService(v.id, "twinscale/visualisation", "visualisation",
                 Entries(WithNumber(scale, PARALLELISM, v.autoScaling.parallelism)),
                 Container("twinscale-visualisation-v1", REGISTRY + "twinscale-visualisation:0.1", PULL_IF_NOT_PRESENT,
                           v.resources, [Plain("TIMEOUT", if v.timeout.Some? then Itoa(v.timeout.value) else "0")]))
  }

  function VisualisationTrigger(v: Visualisation): Object {
    NewTrigger(TriggerParameters(TriggerName(v.id.name), v.id.ns, "twinscale", v.id.name, [v.id.AsOwner()],
                                 map["type" := "twinscale.visualisation." + v.id.name],
                                 map["twinscale/visualisation" := "twinscale-visualisation"],
                                 "/api/v1/visualisation-events", v.autoScaling.parallelism, v.dispatcher))
  }

  // ---------- merges ----------

  /** EventStore: labels, annotations and spec are replaced. */
  function MergeWholeTrigger(current: Object, desired: Object): Object {
    Object(current.meta.(labels := desired.meta.labels, annotations := desired.meta.annotations), desired.body)
  }

  /** Visualisation: only the annotations are replaced. */
  function MergeTriggerAnnotations(current: Object, desired: Object): Object {
    current.(meta := current.meta.(annotations := desired.meta.annotations))
  }
}
