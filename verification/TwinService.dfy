/** pkg/service: the Knative Service of a TwinInterface, and when it counts as changed. */
module TwinService {
  import opened Resources
  import opened Text

  const GRAPH_URL := "http://twinscale-graph-store.twinscale.svc.cluster.local/api/v1/twin-graph"

  /** The variables added to every container. */
  function Environment(brokerUrl: string, eventStoreUrl: string): seq<EnvVar> {
    [Plain("TWINSCALE_BROKER", brokerUrl), Plain("TWINSCALE_EVENT_STORE", eventStoreUrl),
     Plain("TWINSCALE_GRAPH_URL", GRAPH_URL)]
  }

  function WithEnvironment(containers: seq<Container>, env: seq<EnvVar>): (cs: seq<Container>)
    ensures |cs| == |containers|
    ensures forall i :: 0 <= i < |cs| ==> cs[i] == containers[i].(env := containers[i].env + env)
  {
    seq(|containers|, i requires 0 <= i < |containers| => containers[i].(env := containers[i].env + env))
  }

  method GetTwinInterfaceContainers(service: TwinInterfaceService, brokerUrl: string, eventStoreUrl: string)
      returns (containers: seq<Container>)
    ensures containers == WithEnvironment(service.containers, Environment(brokerUrl, eventStoreUrl))
  {
    containers := [];
    var env := Environment(brokerUrl, eventStoreUrl);
    for i := 0 to |service.containers|
      invariant |containers| == i
      invariant forall j :: 0 <= j < i ==>
                  containers[j] == service.containers[j].(env := service.containers[j].env + env)
    {
      var container := service.containers[i];
      container := container.(env := container.env + env);
      containers := containers + [container];
    }
  }

  const MAX_SCALE := "autoscaling.knative.dev/maxScale"
  const MIN_SCALE := "autoscaling.knative.dev/minScale"
  const TARGET := "autoscaling.knative.dev/target"
  const TARGET_UTILIZATION := "autoscaling.knative.dev/target-utilization-percentage"
  const METRIC := "autoscaling.knative.dev/metric"

  /** maxScale and minScale default to 1 and 0, but only when anything at all is set. */
  function AutoScalingAnnotations(a: AutoScaling): (m: map<string, string>)
    ensures m == map[] <==> a == NO_AUTO_SCALING
  {
    if a == NO_AUTO_SCALING then map[]
    else
      var scale := map[MAX_SCALE := Itoa(if a.maxScale.Some? then a.maxScale.value else 1)]
                      [MIN_SCALE := Itoa(if a.minScale.Some? then a.minScale.value else 0)];
      assert MAX_SCALE in scale;
      var targets := WithNumber(WithNumber(scale, TARGET, a.target), TARGET_UTILIZATION, a.targetUtilizationPercentage);
      assert MAX_SCALE in targets;
      var all := if a.metric != "" then targets[METRIC := a.metric] else targets;
      assert MAX_SCALE in all;
      all
  }

  lemma ScaleKeysDiffer()
    ensures MAX_SCALE != MIN_SCALE && MAX_SCALE != METRIC && MIN_SCALE != METRIC && TARGET != TARGET_UTILIZATION
    ensures TARGET != MAX_SCALE && TARGET != MIN_SCALE && TARGET != METRIC
    ensures TARGET_UTILIZATION != MAX_SCALE && TARGET_UTILIZATION != MIN_SCALE && TARGET_UTILIZATION != METRIC
  {
    assert MAX_SCALE[25] == 'a' && MIN_SCALE[25] == 'i' && METRIC[25] == 'e';
    assert MAX_SCALE[24] == MIN_SCALE[24] == METRIC[24] == 'm' && TARGET[24] == TARGET_UTILIZATION[24] == 't';
    assert |TARGET| != |TARGET_UTILIZATION|;
  }

  /** As soon as anything is set both scales are, at most 1 and at least 0 unless given; the other
      three come and go independently, and there is nothing else. */
  lemma AutoScalingSaysWhatIsGiven(a: AutoScaling)
    requires a != NO_AUTO_SCALING
    ensures var m := AutoScalingAnnotations(a);
            && MAX_SCALE in m && m[MAX_SCALE] == (if a.maxScale.Some? then Itoa(a.maxScale.value) else "1")
            && MIN_SCALE in m && m[MIN_SCALE] == (if a.minScale.Some? then Itoa(a.minScale.value) else "0")
            && (TARGET in m <==> a.target.Some?) && (TARGET in m ==> m[TARGET] == Itoa(a.target.value))
            && (TARGET_UTILIZATION in m <==> a.targetUtilizationPercentage.Some?)
            && (TARGET_UTILIZATION in m ==> m[TARGET_UTILIZATION] == Itoa(a.targetUtilizationPercentage.value))
            && (METRIC in m <==> a.metric != "") && (METRIC in m ==> m[METRIC] == a.metric)
            && m.Keys <= {MAX_SCALE, MIN_SCALE, TARGET, TARGET_UTILIZATION, METRIC}
  {
    ScaleKeysDiffer();
    assert Itoa(1) == "1" && Itoa(0) == "0";
  }

  function DesiredConfig(service: TwinInterfaceService, brokerUrl: string, eventStoreUrl: string): Configuration {
    Configuration(Entries(AutoScalingAnnotations(service.autoScaling)),
                  map["kubernetes.io/arch" := "amd64", "twinscale-node" := "service"],
                  WithEnvironment(service.containers, Environment(brokerUrl, eventStoreUrl)))
  }

  function DesiredService(ti: TwinInterface, service: TwinInterfaceService, brokerUrl: string,
                          eventStoreUrl: string): Object
  {
    Object(Meta(ti.id.ns, ti.id.name, Entries(map["twinscale/twininterface" := ti.id.name]), Nil, [ti.id.AsOwner()]),
           KServiceBody(DesiredConfig(service, brokerUrl, eventStoreUrl), "", ""))
  }

  method FillAutoScaling(a: AutoScaling) returns (annotations: map<string, string>)
    ensures annotations == AutoScalingAnnotations(a)
    ensures annotations == map[] <==> a == NO_AUTO_SCALING
  {
    annotations := map[];
    if a != NO_AUTO_SCALING {
      annotations := annotations[MAX_SCALE := Itoa(if a.maxScale.Some? then a.maxScale.value else 1)];
      annotations := annotations[MIN_SCALE := Itoa(if a.minScale.Some? then a.minScale.value else 0)];
      if a.target.Some? {
        annotations := annotations[TARGET := Itoa(a.target.value)];
      }
      if a.targetUtilizationPercentage.Some? {
        annotations := annotations[TARGET_UTILIZATION := Itoa(a.targetUtilizationPercentage.value)];
      }
      if a.metric != "" {
        annotations := annotations[METRIC := a.metric];
      }
    }
  }

  /** The variable a container sees under a name: the last one listed. */
  function Seen(env: seq<EnvVar>, name: string): Option<EnvVar> {
    if env == [] then None
    else if env[|env| - 1].name == name then Some(env[|env| - 1])
    else Seen(env[..|env| - 1], name)
  }

  lemma {:induction false} SeenOfConcat(a: seq<EnvVar>, b: seq<EnvVar>, name: string)
    ensures Seen(a + b, name) == if Seen(b, name).Some? then Seen(b, name) else Seen(a, name)
  {
    if b == [] {
      assert a + b == a;
    } else {
      assert (a + b)[..|a + b| - 1] == a + b[..|b| - 1];
      SeenOfConcat(a, b[..|b| - 1], name);
    }
  }

  /** Where no name comes twice, what is seen is what is listed. */
  lemma {:induction false} SeenIsListed(env: seq<EnvVar>, name: string)
    requires forall i, j :: 0 <= i < j < |env| ==> env[i].name != env[j].name
    ensures forall i :: 0 <= i < |env| && env[i].name == name ==> Seen(env, name) == Some(env[i])
    ensures (forall i :: 0 <= i < |env| ==> env[i].name != name) ==> Seen(env, name) == None
  {
    if env != [] {
      SeenIsListed(env[..|env| - 1], name);
    }
  }

  lemma SeenOfEnvironment(brokerUrl: string, eventStoreUrl: string, name: string)
    ensures Seen(Environment(brokerUrl, eventStoreUrl), name)
            == if name == "TWINSCALE_BROKER" then Some(Plain(name, brokerUrl))
               else if name == "TWINSCALE_EVENT_STORE" then Some(Plain(name, eventStoreUrl))
               else if name == "TWINSCALE_GRAPH_URL" then Some(Plain(name, GRAPH_URL))
               else None
  {
    var env := Environment(brokerUrl, eventStoreUrl);
    assert "TWINSCALE_BROKER"[10] == 'B' && "TWINSCALE_EVENT_STORE"[10] == 'E' && "TWINSCALE_GRAPH_URL"[10] == 'G';
    assert env[..2] == [env[0], env[1]] && env[..2][..1] == [env[0]] && [env[0]][..0] == [];
    assert Seen(env, name) == if env[2].name == name then Some(env[2]) else Seen(env[..2], name);
    assert Seen(env[..2], name) == if env[1].name == name then Some(env[1]) else Seen([env[0]], name);
    assert Seen([env[0]], name) == if env[0].name == name then Some(env[0]) else Seen([], name);
  }

  /** The container is as given but for its environment, where the operator's three variables win
      over any of the same name and all others are as given. */
  ghost predicate RunsAsGiven(c: Container, given: Container, brokerUrl: string, eventStoreUrl: string) {
    && c.(env := given.env) == given
    && Seen(c.env, "TWINSCALE_BROKER") == Some(Plain("TWINSCALE_BROKER", brokerUrl))
    && Seen(c.env, "TWINSCALE_EVENT_STORE") == Some(Plain("TWINSCALE_EVENT_STORE", eventStoreUrl))
    && Seen(c.env, "TWINSCALE_GRAPH_URL")
       == Some(Plain("TWINSCALE_GRAPH_URL",
                     "http://twinscale-graph-store.twinscale.svc.cluster.local/api/v1/twin-graph"))
    && forall name :: name !in {"TWINSCALE_BROKER", "TWINSCALE_EVENT_STORE", "TWINSCALE_GRAPH_URL"} ==>
         Seen(c.env, name) == Seen(given.env, name)
  }

  lemma OwnVariablesWin(given: Container, brokerUrl: string, eventStoreUrl: string)
    ensures RunsAsGiven(given.(env := given.env + Environment(brokerUrl, eventStoreUrl)), given,
                        brokerUrl, eventStoreUrl)
  {
    var env := Environment(brokerUrl, eventStoreUrl);
    forall name
      ensures Seen(given.env + env, name) == if Seen(env, name).Some? then Seen(env, name) else Seen(given.env, name)
    {
      SeenOfConcat(given.env, env, name);
    }
    forall name
      ensures name !in {"TWINSCALE_BROKER", "TWINSCALE_EVENT_STORE", "TWINSCALE_GRAPH_URL"} ==> Seen(env, name) == None
    {
      SeenOfEnvironment(brokerUrl, eventStoreUrl, name);
    }
    SeenOfEnvironment(brokerUrl, eventStoreUrl, "TWINSCALE_BROKER");
    SeenOfEnvironment(brokerUrl, eventStoreUrl, "TWINSCALE_EVENT_STORE");
    SeenOfEnvironment(brokerUrl, eventStoreUrl, "TWINSCALE_GRAPH_URL");
  }

  /** The service has the key the trigger refers to, belongs to the interface, and runs the
      specified containers in their order. */
  lemma ServiceRunsTheContainers(ti: TwinInterface, service: TwinInterfaceService, brokerUrl: string,
                                 eventStoreUrl: string)
    ensures var o := DesiredService(ti, service, brokerUrl, eventStoreUrl);
            && o.KeyOf() == Key(KServiceKind, ti.id.ns, ti.id.name) && o.meta.owners == [ti.id.AsOwner()]
            && |o.body.config.containers| == |service.containers|
            && forall i :: 0 <= i < |service.containers| ==>
                 RunsAsGiven(o.body.config.containers[i], service.containers[i], brokerUrl, eventStoreUrl)
  {
    forall i | 0 <= i < |service.containers| {
      OwnVariablesWin(service.containers[i], brokerUrl, eventStoreUrl);
    }
  }

  method GetService(ti: TwinInterface, service: TwinInterfaceService, brokerUrl: string, eventStoreUrl: string)
      returns (o: Object)
    ensures o == DesiredService(ti, service, brokerUrl, eventStoreUrl)
  {
    var containers := GetTwinInterfaceContainers(service, brokerUrl, eventStoreUrl);
    var annotations := FillAutoScaling(service.autoScaling);
    var config := Configuration(Entries(annotations),
                                map["kubernetes.io/arch" := "amd64", "twinscale-node" := "service"], containers);
    o := Object(Meta(ti.id.ns, ti.id.name, Entries(map["twinscale/twininterface" := ti.id.name]), Nil,
                     [ti.id.AsOwner()]),
                KServiceBody(config, "", ""));
  }

  // ---------- compare and merge ----------

  /** What `CompareTwinService` looks at. The environment is not part of it. */
  datatype Projection = Projection(annotations: GoMap, images: seq<string>, resources: seq<string>)

  function ProjectionOf(config: Configuration): Projection {
    var cs := config.containers;
    Projection(config.annotations,
               seq(|cs|, i requires 0 <= i < |cs| => cs[i].image),
               seq(|cs|, i requires 0 <= i < |cs| => cs[i].resources))
  }

  /** The annotations are the same, and so are, container by container in order, image and
      resources; names, environments and pull policies may differ. */
  predicate LooksTheSame(a: Configuration, b: Configuration) {
    && a.annotations == b.annotations && |a.containers| == |b.containers|
    && forall i :: 0 <= i < |a.containers| ==>
         a.containers[i].image == b.containers[i].image && a.containers[i].resources == b.containers[i].resources
  }

  lemma SameProjectionIff(a: Configuration, b: Configuration)
    ensures ProjectionOf(a) == ProjectionOf(b) <==> LooksTheSame(a, b)
  {
    var p, q := ProjectionOf(a), ProjectionOf(b);
    if p == q {
      assert |p.images| == |a.containers| && |q.images| == |b.containers|;
      forall i | 0 <= i < |a.containers|
        ensures a.containers[i].image == b.containers[i].image && a.containers[i].resources == b.containers[i].resources
      {
        assert p.images[i] == q.images[i] && p.resources[i] == q.resources[i];
      }
    }
  }

  /** True when nothing counts as changed. */
  method CompareTwinService(current: Configuration, desired: Configuration) returns (equal: bool)
    ensures equal <==> LooksTheSame(current, desired)
    ensures equal <==> ProjectionOf(current) == ProjectionOf(desired)
  {
    SameProjectionIff(current, desired);
    if current.annotations != desired.annotations {
      return false;
    }
    if |desired.containers| != |current.containers| {
      return false;
    }
    for i := 0 to |desired.containers|
      invariant forall j :: 0 <= j < i ==>
                  && current.containers[j].image == desired.containers[j].image
                  && current.containers[j].resources == desired.containers[j].resources
    {
      if desired.containers[i].image != current.containers[i].image {
        return false;
      }
      if desired.containers[i].resources != current.containers[i].resources {
        return false;
      }
    }
    equal := true;
  }
}
