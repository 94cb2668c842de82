/** What the generated annotations say, key by key: the tables the builders have to agree with. */
module Annotations {
  import opened Resources
  import opened Text
  import opened ClusterApi
  import TwinService
  import CoreChildren

  /** What the map says under the key. Empty and nil maps say nothing alike. */
  function Says(m: GoMap, key: string): Option<string> {
    if m.Entries? && key in m.m then Some(m.m[key]) else None
  }

  /** It does not matter how the server stores the map. */
  lemma StoredSaysTheSame(codec: Codec, m: GoMap, key: string)
    ensures Says(StoredMap(codec, m), key) == Says(m, key)
  {
  }

  function GivenNumber(n: Option<int>): Option<string> {
    if n.Some? then Some(Itoa(n.value)) else None
  }

  function GivenText(s: string): Option<string> {
    if s != "" then Some(s) else None
  }

  // ---------- scaling ----------

  /** EventStore and Visualisation: whatever is given, and nothing else. */
  function ScaleSays(a: AutoScaling, key: string): Option<string> {
    if key == "autoscaling.knative.dev/maxScale" then GivenNumber(a.maxScale)
    else if key == "autoscaling.knative.dev/minScale" then GivenNumber(a.minScale)
    else if key == "autoscaling.knative.dev/target" then GivenNumber(a.target)
    else if key == "autoscaling.knative.dev/target-utilization-percentage" then
      GivenNumber(a.targetUtilizationPercentage)
    else if key == "autoscaling.knative.dev/metric" then GivenText(a.metric)
    else None
  }

  /** TwinInterface: as soon as anything is given, the scales default to 1 and 0. */
  function InterfaceScaleSays(a: AutoScaling, key: string): Option<string> {
    if a == NO_AUTO_SCALING then None
    else if key == "autoscaling.knative.dev/maxScale" && a.maxScale.None? then Some("1")
    else if key == "autoscaling.knative.dev/minScale" && a.minScale.None? then Some("0")
    else ScaleSays(a, key)
  }

  /** The service of a Visualisation also carries the parallelism. */
  function VisualisationScaleSays(a: AutoScaling, key: string): Option<string> {
    if key == "rabbitmq.eventing.knative.dev/parallelism" then GivenNumber(a.parallelism) else ScaleSays(a, key)
  }

  lemma InterfaceScaleIs(a: AutoScaling, key: string)
    ensures Says(Entries(TwinService.AutoScalingAnnotations(a)), key) == InterfaceScaleSays(a, key)
  {
    TwinService.ScaleKeysDiffer();
    assert Itoa(1) == "1" && Itoa(0) == "0";
  }

  lemma ScaleIs(a: AutoScaling, key: string)
    ensures Says(Entries(CoreChildren.ScaleAnnotations(a)), key) == ScaleSays(a, key)
    ensures Says(Entries(WithNumber(CoreChildren.ScaleAnnotations(a), PARALLELISM, a.parallelism)), key)
            == VisualisationScaleSays(a, key)
  {
    TwinService.ScaleKeysDiffer();
    assert PARALLELISM[0] == 'r' && TwinService.MAX_SCALE[0] == 'a' && TwinService.MIN_SCALE[0] == 'a';
    assert TwinService.TARGET[0] == 'a' && TwinService.TARGET_UTILIZATION[0] == 'a' && TwinService.METRIC[0] == 'a';
  }

  // ---------- triggers ----------

  function DispatcherSays(parallelism: Option<int>, d: DispatcherResources, key: string): Option<string> {
    if key == "rabbitmq.eventing.knative.dev/parallelism" then GivenNumber(parallelism)
    else if key == "rabbitmq.eventing.knative.dev/cpu-request" then GivenText(d.cpuRequest)
    else if key == "rabbitmq.eventing.knative.dev/cpu-limit" then GivenText(d.cpuLimit)
    else if key == "rabbitmq.eventing.knative.dev/memory-request" then GivenText(d.memoryRequest)
    else if key == "rabbitmq.eventing.knative.dev/memory-limit" then GivenText(d.memoryLimit)
    else None
  }

  lemma DispatcherIs(parallelism: Option<int>, d: DispatcherResources, key: string)
    ensures Says(Entries(CoreChildren.TriggerAnnotations(parallelism, d)), key) == DispatcherSays(parallelism, d, key)
  {
    CoreChildren.AnnotationKeysDiffer();
  }
}
