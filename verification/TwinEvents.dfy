/** pkg/event: event types, and the bindings and the trigger generated for a TwinInterface;
    with the one event-store binding of pkg/event-store. */
module TwinEvents {
  import opened Resources
  import opened Text

  const CLUSTER := ClusterRef("rabbitmq", "twinscale")

  function EventTypeReal(iface: string): string {
    "twinscale.real." + iface
  }

  function EventTypeCommand(iface: string, command: string): string {
    "twinscale.command." + iface + "." + command
  }

  function EventTypeEventStore(iface: string): string {
    "twinscale.eventstore." + iface
  }

  // ---------- binding names ----------

  function OwnMqttName(iface: string): string {
    ToLower(iface) + "-real-mqtt-dispatcher"
  }

  function RelationshipMqttName(iface: string, relationship: string): string {
    ToLower(iface) + "-" + ToLower(relationship) + "-real-mqtt-dispatcher"
  }

  function RelationshipRealName(iface: string, relationship: string): string {
    ToLower(iface) + "-" + ToLower(relationship) + "-real-dispatcher"
  }

  function CommandName(iface: string, command: string): string {
    ToLower(iface) + "-" + ToLower(command) + "-command-dispatcher"
  }

  function EventStoreName(iface: string): string {
    ToLower(iface) + "-event-store"
  }

  // ---------- one binding ----------

  /** rabbitmq.NewBinding for a binding owned by a TwinInterface. */
  function NewBinding(ti: TwinInterface, name: string, labels: GoMap, source: string, destination: string,
                      routingKey: string, arguments: map<string, string>): Object
  {
    Object(Meta(ti.id.ns, name, labels, Nil, [ti.id.AsOwner()]),
           BindingBody(BindingSpec(RABBITMQ_VHOST, source, destination, "queue", routingKey, arguments, CLUSTER)))
  }

  function BindingLabels(ti: TwinInterface): GoMap {
    Entries(map["twinscale/twin-interface" := ti.id.name, TRIGGER_LABEL := ti.id.name])
  }

  /** The header filter of a dispatcher or event-store binding. */
  function Filters(eventType: string, trigger: string): map<string, string> {
    map["type" := eventType, "x-knative-trigger" := trigger, "x-match" := "all"]
  }

  function MqttBinding(ti: TwinInterface, name: string, target: string): Object {
    NewBinding(ti, name, BindingLabels(ti), TOPIC_EXCHANGE, MQTT_DISPATCHER_QUEUE, EventTypeReal(target + ".#"), map[])
  }

  function RelationshipRealBinding(ti: TwinInterface, r: TwinRelationship, exchange: string, queue: string): Object {
    NewBinding(ti, RelationshipRealName(ti.id.name, r.name), BindingLabels(ti), exchange, queue, "",
               Filters(EventTypeReal(r.iface), ti.id.name))
  }

  function CommandBinding(ti: TwinInterface, command: string, exchange: string, queue: string): Object {
    NewBinding(ti, CommandName(ti.id.name, command), BindingLabels(ti), exchange, queue, "",
               Filters(EventTypeCommand(ti.id.name, command), ti.id.name))
  }

  function EventStoreBinding(ti: TwinInterface, exchange: string, queue: string): Object {
    NewBinding(ti, EventStoreName(ti.id.name), Entries(map[]), exchange, queue, "",
               Filters(EventTypeEventStore(ti.id.name), ti.id.name + "-trigger"))
  }

  // ---------- the lists ----------

  /** The relationships whose data is aggregated, in order. */
  function Aggregated(relationships: seq<TwinRelationship>): (rs: seq<TwinRelationship>)
    ensures forall r :: r in rs <==> r in relationships && r.aggregateData
  {
    if relationships == [] then []
    else
      var last := relationships[|relationships| - 1];
      assert relationships == relationships[..|relationships| - 1] + [last];
      Aggregated(relationships[..|relationships| - 1]) + if last.aggregateData then [last] else []
  }

  lemma OneMoreAggregated(rs: seq<TwinRelationship>, r: TwinRelationship)
    ensures Aggregated(rs + [r]) == Aggregated(rs) + if r.aggregateData then [r] else []
  {
    assert (rs + [r])[..|rs|] == rs;
  }

  /** In their order, each as often as it is listed. */
  lemma {:induction false} AggregatedInOrder(a: seq<TwinRelationship>, b: seq<TwinRelationship>)
    ensures Aggregated(a + b) == Aggregated(a) + Aggregated(b)
  {
    if b == [] {
      assert a + b == a;
    } else {
      var front, last := b[..|b| - 1], b[|b| - 1];
      assert a + b == (a + front) + [last] && b == front + [last];
      OneMoreAggregated(a + front, last);
      OneMoreAggregated(front, last);
      AggregatedInOrder(a, front);
    }
  }

  function MqttBindings(ti: TwinInterface): (bs: seq<Object>)
    ensures |bs| == 1 + |Aggregated(ti.spec.relationships)|
  {
    [MqttBinding(ti, OwnMqttName(ti.id.name), ti.id.name)]
    + RelationshipMqttBindings(ti, Aggregated(ti.spec.relationships))
  }

  function RelationshipMqttBindings(ti: TwinInterface, rs: seq<TwinRelationship>): (bs: seq<Object>)
    ensures |bs| == |rs|
    ensures forall i :: 0 <= i < |rs| ==>
              bs[i] == MqttBinding(ti, RelationshipMqttName(ti.id.name, rs[i].name), rs[i].iface)
  {
    seq(|rs|, i requires 0 <= i < |rs| => MqttBinding(ti, RelationshipMqttName(ti.id.name, rs[i].name), rs[i].iface))
  }

  function RelationshipBindings(ti: TwinInterface, exchange: string, queue: string): (bs: seq<Object>)
    ensures |bs| == |Aggregated(ti.spec.relationships)|
    ensures forall i :: 0 <= i < |bs| ==>
              bs[i] == RelationshipRealBinding(ti, Aggregated(ti.spec.relationships)[i], exchange, queue)
  {
    var rs := Aggregated(ti.spec.relationships);
    seq(|rs|, i requires 0 <= i < |rs| => RelationshipRealBinding(ti, rs[i], exchange, queue))
  }

  function CommandBindings(ti: TwinInterface, exchange: string, queue: string): (bs: seq<Object>)
    ensures |bs| == if ti.spec.service.Some? then |ti.spec.commands| else 0
    ensures forall i :: 0 <= i < |bs| ==> bs[i] == CommandBinding(ti, ti.spec.commands[i], exchange, queue)
  {
    if ti.spec.service.None? then []
    else seq(|ti.spec.commands|, i requires 0 <= i < |ti.spec.commands| =>
               CommandBinding(ti, ti.spec.commands[i], exchange, queue))
  }

  function EventStoreBindings(ti: TwinInterface, exchange: string, queue: string): seq<Object> {
    [EventStoreBinding(ti, exchange, queue)]
  }

  // ---------- the loops ----------

  method GetMqttDispatcherBindings(ti: TwinInterface) returns (bindings: seq<Object>)
    ensures bindings == MqttBindings(ti)
  {
    bindings := [MqttBinding(ti, OwnMqttName(ti.id.name), ti.id.name)];
    var rs := ti.spec.relationships;
    for i := 0 to |rs|
      invariant bindings == [MqttBinding(ti, OwnMqttName(ti.id.name), ti.id.name)]
                            + RelationshipMqttBindings(ti, Aggregated(rs[..i]))
    {
      assert rs[..i + 1][..i] == rs[..i];
      if rs[i].aggregateData {
        bindings := bindings + [MqttBinding(ti, RelationshipMqttName(ti.id.name, rs[i].name), rs[i].iface)];
      } else {
        assert Aggregated(rs[..i]) + [] == Aggregated(rs[..i]);
      }
    }
    assert rs[..|rs|] == rs;
  }

  method GetRelationshipBrokerBindings(ti: TwinInterface, exchange: string, queue: string)
      returns (bindings: seq<Object>)
    ensures bindings == RelationshipBindings(ti, exchange, queue)
  {
    bindings := [];
    var rs := ti.spec.relationships;
    for i := 0 to |rs|
      invariant |bindings| == |Aggregated(rs[..i])|
      invariant forall j :: 0 <= j < |bindings| ==>
                  bindings[j] == RelationshipRealBinding(ti, Aggregated(rs[..i])[j], exchange, queue)
    {
      assert rs[..i + 1][..i] == rs[..i];
      if rs[i].aggregateData {
        bindings := bindings + [RelationshipRealBinding(ti, rs[i], exchange, queue)];
      }
    }
    assert rs[..|rs|] == rs;
  }

  method GetTwinInterfaceCommandBindings(ti: TwinInterface, exchange: string, queue: string)
      returns (bindings: seq<Object>)
    ensures bindings == CommandBindings(ti, exchange, queue)
  {
    bindings := [];
    if ti.spec.service.Some? {
      for i := 0 to |ti.spec.commands|
        invariant |bindings| == i
        invariant forall j :: 0 <= j < i ==> bindings[j] == CommandBinding(ti, ti.spec.commands[j], exchange, queue)
      {
        bindings := bindings + [CommandBinding(ti, ti.spec.commands[i], exchange, queue)];
      }
    }
  }

  // ---------- the trigger ----------

  /** Nothing for an interface without a service. */
  function TwinInterfaceTrigger(ti: TwinInterface): Option<Object> {
    if ti.spec.service.None? then None
    else
      var parallelism := ti.spec.service.value.autoScaling.parallelism;
      Some(Object(Meta(ti.id.ns, ti.id.name, Entries(map["twinscale/twin-interface" := ti.id.name]),
                       Entries(WithNumber(map[], PARALLELISM, parallelism)), [ti.id.AsOwner()]),
                  TriggerBody(TriggerSpec(BROKER_NAME, map["type" := EventTypeReal(ti.id.name)], ti.id.name, None))))
  }
}
