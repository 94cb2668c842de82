/** What the six children of an MQTTTrigger hold when it says Ready, field by field: which queue
    each dispatcher reads, where it publishes, and whose credentials it uses. */
module MqttTriggerContents {
  import opened Resources
  import opened ClusterApi
  import opened Runs
  import opened MqttTriggerMachine
  import opened MqttTriggerRuns
  import MqttTriggerSharing
  import TwinEvents
  import TwinService

  // ---------- what is read ----------

  predicate IsSecret(s: Store, data: map<string, string>) {
    var k := Key(SecretKind, "twinscale", "rabbitmq-default-user");
    s.Has(k) && s.objects[k].body == SecretBody(data)
  }

  /** The name of the object, not of the exchange in RabbitMQ. */
  ghost predicate IsExchangeObject(s: Store, name: string) {
    exists k :: k in Matching(s, ExchangeKind, "twinscale", map["eventing.knative.dev/broker" := "twinscale"])
                && k.name == name
  }

  /** The attempt is past the two reads. */
  predicate PastReads(st: State, n: nat) {
    n > 0 || st.step.FetchChild? || st.step.CreateChild? || st.step.UpdateChild?
  }

  ghost predicate ReadFrom(st: State, n: nat, s: Store) {
    && (st.step.ListExchange? ==> IsSecret(s, st.secret))
    && (PastReads(st, n) ==> IsSecret(s, st.secret) && IsExchangeObject(s, st.exchange))
  }

  ghost predicate SameReads(s0: Store, s: Store) {
    forall k: Key :: k.kind.SecretKind? || k.kind.ExchangeKind? ==> SameAt(s0, s, k)
  }

  lemma SameSight(s0: Store, s: Store)
    requires SameReads(s0, s)
    ensures forall data :: IsSecret(s, data) ==> IsSecret(s0, data)
    ensures forall name :: IsExchangeObject(s, name) ==> IsExchangeObject(s0, name)
  {
    assert SameAt(s0, s, SECRET_KEY);
    var here, there := Matching(s0, ExchangeKind, "twinscale", EXCHANGE_SELECTOR),
                       Matching(s, ExchangeKind, "twinscale", EXCHANGE_SELECTOR);
    forall k ensures k in here <==> k in there {
      if k.kind.ExchangeKind? {
        assert SameAt(s0, s, k);
      }
    }
    assert here == there;
  }

  lemma ListSees(st: State, s: Store, e: Event)
    requires s.Valid() && st.step.ListExchange? && e.req == Ask(st) && Admits(s, e)
    requires e.resp.Listed? && e.resp.items != []
    ensures IsExchangeObject(s, e.resp.items[0].meta.name)
  {
    assert e.resp.items[0] in e.resp.items;
    var k := e.resp.items[0].KeyOf();
    assert k in Matching(s, ExchangeKind, "twinscale", EXCHANGE_SELECTOR);
  }

  lemma SecretSeen(st: State, s: Store, e: Event)
    requires s.Valid() && st.step.GetSecret? && e.req == Ask(st) && Admits(s, e)
    ensures Tell(st, e.resp).step.ListExchange? ==> IsSecret(s, Tell(st, e.resp).secret)
  {
  }

  lemma ExchangeSeen(st: State, s: Store, e: Event)
    requires s.Valid() && st.step.ListExchange? && e.req == Ask(st) && Admits(s, e)
    ensures Tell(st, e.resp).secret == st.secret
    ensures PastReads(Tell(st, e.resp), 0) ==> IsExchangeObject(s, Tell(st, e.resp).exchange)
  {
    if e.resp.Listed? && e.resp.items != [] {
      ListSees(st, s, e);
    }
  }

  lemma LaterKeepsReads(st: State, n: nat, e: Event)
    requires Asking(st) && Reached(st, n) && !st.step.GetSecret? && !st.step.ListExchange? && e.req == Ask(st)
    ensures var next, m := Tell(st, e.resp), n + Wrote(Act(e));
            && next.secret == st.secret && next.exchange == st.exchange && !next.step.ListExchange?
            && (PastReads(next, m) ==> PastReads(st, n))
  {
    WritesOnlyChildren(st);
  }

  lemma ReadStep(st: State, n: nat, s0: Store, s: Store, e: Event)
    requires s.Valid() && Asking(st) && Reached(st, n) && ReadFrom(st, n, s0) && SameReads(s0, s)
    requires e.req == Ask(st) && Admits(s, e)
    ensures ReadFrom(Tell(st, e.resp), n + Wrote(Act(e)), s0)
  {
    SameSight(s0, s);
    if st.step.GetSecret? {
      SecretSeen(st, s, e);
    } else if st.step.ListExchange? {
      ExchangeSeen(st, s, e);
    } else {
      LaterKeepsReads(st, n, e);
    }
  }

  lemma ReadsStay(st: State, n: nat, s0: Store, s: Store, e: Event)
    requires s.Valid() && Asking(st) && Reached(st, n) && Homed(st, n) && e.req == Ask(st) && SameReads(s0, s)
    ensures SameReads(s0, After(s, e))
  {
    MqttTriggerSharing.WritesNothingItReads(st, n);
    if e.req.UpdateStatus? && s.Has(e.req.obj.KeyOf()) {
      assert WithStatus(s.objects[e.req.obj.KeyOf()], e.req.obj).KeyOf() == e.req.obj.KeyOf();
    }
  }

  ghost predicate Reading(w: World, n: nat, s0: Store) {
    w.proc.Mqtt? && ReadFrom(w.proc.mq, n, s0) && SameReads(s0, w.store)
  }

  lemma ReadingStep(w: World, ns: string, name: string, n: nat, s0: Store, m: Move)
    requires Standing(w, ns, name, n) && Reading(w, n, s0) && MayMove(w, m) && m.Act?
    ensures Reading(Moved(w, m), n + Wrote(m), s0)
  {
    CallOfState(w.proc.mq, w, m);
    ReadStep(w.proc.mq, n, s0, w.store, m.event);
    ReadsStay(w.proc.mq, n, s0, w.store, m.event);
  }

  /** What an undisturbed attempt has read is what the store it started from holds. */
  lemma {:induction false} AttemptReads(ns: string, name: string, s0: Store, moves: seq<Move>)
    requires s0.Valid() && IsRun(Begin(ns, name, s0), moves) && Alone(moves)
    ensures Reading(WorldAfter(Begin(ns, name, s0), moves), |Written(moves)|, s0)
  {
    if moves != [] {
      var front, last := moves[..|moves| - 1], moves[|moves| - 1];
      assert moves == front + [last];
      assert last in moves;
      AttemptReads(ns, name, s0, front);
      WritesArePrefix(ns, name, s0, front);
      ReadingStep(WorldAfter(Begin(ns, name, s0), front), ns, name, |Written(front)|, s0, last);
    }
  }

  // ---------- what the children hold ----------

  /** A key the secret does not have reads as the empty string. */
  function Held(data: map<string, string>, key: string): string {
    if key in data then data[key] else ""
  }

  /** What a dispatcher's container sees under a name. */
  function DispatcherVariable(dispatcher: string, data: map<string, string>, exchange: string, queue: string,
                              name: string): Option<EnvVar>
  {
    if name == "SERVICE_NAME" then Some(Plain(name, dispatcher + "-1"))
    else if name == "PROTOCOL" then Some(Plain(name, "amqp"))
    else if name == "SERVER_URL" then Some(Plain(name, Held(data, "host")))
    else if name == "SERVER_PORT" then Some(Plain(name, Held(data, "port")))
    else if name == "USERNAME" then Some(Plain(name, Held(data, "username")))
    else if name == "PASSWORD" then Some(Plain(name, Held(data, "password")))
    else if name == "DECLARE_QUEUE" then Some(Plain(name, "false"))
    else if name == "DECLARE_EXCHANGE" then Some(Plain(name, "false"))
    else if name == "PUBLISHER_EXCHANGE" then Some(Plain(name, exchange))
    else if name == "SUBSCRIBER_QUEUE" then Some(Plain(name, queue))
    else None
  }

  predicate HoldsQueue(o: Object, ns: string, name: string) {
    o.body == QueueBody(QueueSpec(name, "/", true, false, ClusterRef("rabbitmq", ns), "quorum"))
  }

  /** One container that reads this queue and publishes to this exchange, in pods of this label. */
  ghost predicate RunsDispatcher(o: Object, dispatcher: string, data: map<string, string>, exchange: string,
                                 queue: string, ports: seq<Port>)
  {
    && o.body.DeploymentBody? && o.body.deployment.ports == ports && o.body.deployment.replicas == 1
    && o.body.deployment.selector == map["twinscale/trigger" := dispatcher] && |o.body.deployment.containers| == 1
    && var c := o.body.deployment.containers[0];
       && c.name == dispatcher && c.pullPolicy == "Always" && c.resources == "cpu=500m,memory=128Mi"
       && c.image == "ghcr.io/emereshub/" + "twinscale-" + dispatcher + ":0.1"
       && forall name :: TwinService.Seen(c.env, name) == DispatcherVariable(dispatcher, data, exchange, queue, name)
  }

  /** The Service reaches the pods of the deployment. */
  predicate Reaches(service: Object, deployment: Object, ports: seq<Port>) {
    && service.body.CoreServiceBody? && deployment.body.DeploymentBody?
    && service.body.service.selector == deployment.body.deployment.selector
    && service.body.service.serviceType == "ClusterIP" && service.body.service.ports == ports
  }

  // ---------- the environment ----------

  const VARIABLES := ["SERVICE_NAME", "PROTOCOL", "SERVER_URL", "SERVER_PORT", "USERNAME", "PASSWORD",
                      "DECLARE_QUEUE", "DECLARE_EXCHANGE", "PUBLISHER_EXCHANGE", "SUBSCRIBER_QUEUE"]

  lemma VariablesDiffer()
    ensures forall i, j :: 0 <= i < j < |VARIABLES| ==> VARIABLES[i] != VARIABLES[j]
  {
    assert "PROTOCOL"[1] == 'R' && "USERNAME"[1] == 'S' && "PASSWORD"[1] == 'A';
    assert "DECLARE_EXCHANGE"[0] == 'D' && "SUBSCRIBER_QUEUE"[0] == 'S';
    var lengths := [12, 8, 10, 11, 8, 8, 13, 16, 18, 16];
    assert forall i :: 0 <= i < |VARIABLES| ==> |VARIABLES[i]| == lengths[i];
  }

  lemma NamesAreVariables(env: seq<EnvVar>, name: string)
    requires |env| == |VARIABLES| && forall i :: 0 <= i < |env| ==> env[i].name == VARIABLES[i]
    ensures forall i :: 0 <= i < |env| && env[i].name == name ==> TwinService.Seen(env, name) == Some(env[i])
    ensures name !in VARIABLES ==> TwinService.Seen(env, name) == None
  {
    VariablesDiffer();
    TwinService.SeenIsListed(env, name);
  }

  lemma EnvironmentIs(dispatcher: string, data: map<string, string>, exchange: string, queue: string, name: string)
    ensures TwinService.Seen(Environment(dispatcher, data, exchange, queue), name)
            == DispatcherVariable(dispatcher, data, exchange, queue, name)
  {
    var env := Environment(dispatcher, data, exchange, queue);
    NamesAreVariables(env, name);
    if name in VARIABLES {
      var i :| 0 <= i < |VARIABLES| && VARIABLES[i] == name;
      VariablesDiffer();
      assert env[i].name == name;
    }
  }

  // ---------- the six ----------

  ghost predicate RunsMqttDispatcher(ns: string, s: Store, data: map<string, string>, exchange: string) {
    var queue, deployment, service := Key(QueueKind, ns, "mqtt-dispatcher-queue"),
                                      Key(DeploymentKind, ns, "mqtt-dispatcher"),
                                      Key(CoreServiceKind, ns, "mqtt-dispatcher");
    && s.Has(queue) && s.Has(deployment) && s.Has(service)
    && HoldsQueue(s.objects[queue], ns, "mqtt-dispatcher-queue")
    && RunsDispatcher(s.objects[deployment], "mqtt-dispatcher", data, exchange, s.objects[queue].body.queue.name,
                      [Port("", 5672), Port("http-metrics", 8080)])
    && Reaches(s.objects[service], s.objects[deployment], [Port("mqtt-port", 5672), Port("http-metrics", 8080)])
  }

  ghost predicate RunsCloudEventDispatcher(ns: string, s: Store, data: map<string, string>) {
    var queue, deployment, service := Key(QueueKind, ns, "cloud-event-dispatcher-queue"),
                                      Key(DeploymentKind, ns, "cloud-event-dispatcher"),
                                      Key(CoreServiceKind, ns, "cloud-event-dispatcher");
    && s.Has(queue) && s.Has(deployment) && s.Has(service)
    && HoldsQueue(s.objects[queue], ns, "cloud-event-dispatcher-queue")
    && RunsDispatcher(s.objects[deployment], "cloud-event-dispatcher", data, "amq.topic",
                      s.objects[queue].body.queue.name, [Port("", 5672)])
    && Reaches(s.objects[service], s.objects[deployment], [Port("", 5672)])
  }

  lemma SpecRunsDispatcher(o: Object, dispatcher: string, data: map<string, string>, exchange: string, queue: string,
                           ports: seq<Port>)
    requires o.body == DeploymentBody(DispatcherDeploymentSpec(dispatcher, data, exchange, queue, ports))
    ensures RunsDispatcher(o, dispatcher, data, exchange, queue, ports)
  {
    var c := o.body.deployment.containers[0];
    forall name
      ensures TwinService.Seen(c.env, name) == DispatcherVariable(dispatcher, data, exchange, queue, name)
    {
      EnvironmentIs(dispatcher, data, exchange, queue, name);
    }
  }

  /** The six objects have the bodies of these children. */
  predicate HaveBodies(ns: string, s: Store, plan: seq<Object>)
    requires |plan| == 6
  {
    forall i :: 0 <= i < 6 ==> s.Has(ChildKeys(ns)[i]) && s.objects[ChildKeys(ns)[i]].body == plan[i].body
  }

  lemma BodyAt(ns: string, s: Store, plan: seq<Object>, i: nat)
    requires |plan| == 6 && i < 6 && HaveBodies(ns, s, plan)
    ensures s.Has(ChildKeys(ns)[i]) && s.objects[ChildKeys(ns)[i]].body == plan[i].body
  {
  }

  lemma FirstThreeRun(id: Identity, s: Store, data: map<string, string>, exchange: string)
    requires HaveBodies(id.ns, s, Children(id, data, exchange))
    ensures RunsMqttDispatcher(id.ns, s, data, exchange)
  {
    var plan := Children(id, data, exchange);
    BodyAt(id.ns, s, plan, 0);
    BodyAt(id.ns, s, plan, 1);
    BodyAt(id.ns, s, plan, 2);
    SpecRunsDispatcher(s.objects[ChildKeys(id.ns)[1]], "mqtt-dispatcher", data, exchange, "mqtt-dispatcher-queue",
                       [Port("", 5672), Port("http-metrics", 8080)]);
  }

  lemma LastThreeRun(id: Identity, s: Store, data: map<string, string>, exchange: string)
    requires HaveBodies(id.ns, s, Children(id, data, exchange))
    ensures RunsCloudEventDispatcher(id.ns, s, data)
  {
    var plan := Children(id, data, exchange);
    BodyAt(id.ns, s, plan, 3);
    BodyAt(id.ns, s, plan, 4);
    BodyAt(id.ns, s, plan, 5);
    SpecRunsDispatcher(s.objects[ChildKeys(id.ns)[4]], "cloud-event-dispatcher", data, "amq.topic",
                       "cloud-event-dispatcher-queue", [Port("", 5672)]);
  }

  /** Both dispatchers run, each on a queue of its own, with the credentials of the secret; the MQTT
      one publishes to the exchange that was listed, the other one to amq.topic. */
  ghost predicate DispatchersRun(ns: string, s: Store, data: map<string, string>, exchange: string) {
    RunsMqttDispatcher(ns, s, data, exchange) && RunsCloudEventDispatcher(ns, s, data)
  }

  lemma QueuesDiffer(ns: string, s: Store, data: map<string, string>, exchange: string)
    requires DispatchersRun(ns, s, data, exchange)
    ensures s.objects[Key(QueueKind, ns, "mqtt-dispatcher-queue")].body.queue.name
            != s.objects[Key(QueueKind, ns, "cloud-event-dispatcher-queue")].body.queue.name
  {
    assert "mqtt-dispatcher-queue"[0] == 'm' && "cloud-event-dispatcher-queue"[0] == 'c';
  }

  /** As soon as an undisturbed attempt has written all six, with the secret and one of the
      exchanges that were there when it started. */
  lemma AllSixDispatch(ns: string, name: string, s0: Store, moves: seq<Move>)
      returns (data: map<string, string>, exchange: string)
    requires s0.Valid() && IsRun(Begin(ns, name, s0), moves) && Alone(moves) && Written(moves) == ChildKeys(ns)
    ensures IsSecret(s0, data) && IsExchangeObject(s0, exchange)
    ensures DispatchersRun(ns, WorldAfter(Begin(ns, name, s0), moves).store, data, exchange)
  {
    var st, s := StateAfter(ns, name, s0, moves), WorldAfter(Begin(ns, name, s0), moves).store;
    data, exchange := st.secret, st.exchange;
    AttemptReads(ns, name, s0, moves);
    AloneSpares(Begin(ns, name, s0), moves, KeySet(ns));
    AllWrittenMeansApplied(ns, name, s0, moves);
    FoundItself(st);
    FirstThreeRun(st.id, s, data, exchange);
    LastThreeRun(st.id, s, data, exchange);
  }

  lemma FoundItself(st: State)
    requires Reached(st, 6) && Homed(st, 6)
    ensures st.id.ns == st.self.ns
  {
  }

  /** So when the phase Ready is sent they run. */
  lemma ReadyMeansDispatching(ns: string, name: string, s0: Store, moves: seq<Move>, j: nat)
      returns (data: map<string, string>, exchange: string)
    requires s0.Valid() && IsRun(Begin(ns, name, s0), moves) && Alone(moves)
    requires j < |moves| && SendsPhase(moves[j], "Ready")
    ensures IsRun(Begin(ns, name, s0), moves[..j]) && IsSecret(s0, data) && IsExchangeObject(s0, exchange)
    ensures DispatchersRun(ns, WorldAfter(Begin(ns, name, s0), moves[..j]).store, data, exchange)
  {
    ReadyOnlyAfterAllSix(ns, name, s0, moves, j);
    Prefix(Begin(ns, name, s0), moves, j);
    data, exchange := AllSixDispatch(ns, name, s0, moves[..j]);
  }

  /** What the interfaces send to the MQTT dispatcher goes to the queue its container reads. */
  lemma TopicsGoToTheDispatcher(ti: TwinInterface, i: nat, ns: string, s: Store, data: map<string, string>,
                                exchange: string)
    requires i < |TwinEvents.MqttBindings(ti)| && RunsMqttDispatcher(ns, s, data, exchange)
    ensures var b, c := TwinEvents.MqttBindings(ti)[i], s.objects[Key(DeploymentKind, ns, "mqtt-dispatcher")]
                          .body.deployment.containers[0];
            && b.body.BindingBody?
            && TwinService.Seen(c.env, "SUBSCRIBER_QUEUE")
               == Some(Plain("SUBSCRIBER_QUEUE", b.body.binding.destination))
  {
    VariablesDiffer();
    assert VARIABLES[9] == "SUBSCRIBER_QUEUE";
  }

  // ---------- new objects ----------

  function LabelOf(i: nat): Option<string>
    requires i < 6
  {
    if i == 0 || i == 3 then None else Some(if i < 3 then "mqtt-dispatcher" else "cloud-event-dispatcher")
  }

  /** Deployments and Services that were not there get the label of their dispatcher, queues none. */
  lemma NewAreLabelled(ns: string, name: string, s0: Store, moves: seq<Move>, i: nat)
    requires s0.Valid() && IsRun(Begin(ns, name, s0), moves) && Alone(moves) && Written(moves) == ChildKeys(ns)
    requires i < 6 && !s0.Has(ChildKeys(ns)[i])
    ensures var s, k := WorldAfter(Begin(ns, name, s0), moves).store, ChildKeys(ns)[i];
            && s.Has(k) && s.objects[k].meta.annotations == Nil
            && s.objects[k].meta.labels
               == if LabelOf(i).Some? then Entries(map["twinscale/trigger" := LabelOf(i).value]) else Nil
  {
    AloneSpares(Begin(ns, name, s0), moves, KeySet(ns));
    AttemptOnTrack(ns, name, s0, moves);
    var st, s := StateAfter(ns, name, s0, moves), WorldAfter(Begin(ns, name, s0), moves).store;
    LabelsOfChildren(st.id, st.secret, st.exchange, i, s0.codec);
    NewAt(ChildKeys(ns), Plan(st), s0, s, i);
  }

  lemma NewAt(keys: seq<Key>, plan: seq<Object>, s0: Store, s: Store, i: nat)
    requires |keys| == |plan| && AppliedUpTo(keys, plan, s0, s, |plan|) && i < |plan| && !s0.Has(keys[i])
    ensures s.Has(keys[i]) && s.objects[keys[i]] == Stored(s0.codec, plan[i])
  {
    assert s.objects[keys[i]] == Applied(s0, keys[i], plan[i]);
  }

  lemma LabelsOfChildren(id: Identity, data: map<string, string>, exchange: string, i: nat, codec: Codec)
    requires i < 6
    ensures Stored(codec, Children(id, data, exchange)[i]).meta.annotations == Nil
    ensures Stored(codec, Children(id, data, exchange)[i]).meta.labels
            == if LabelOf(i).Some? then Entries(map["twinscale/trigger" := LabelOf(i).value]) else Nil
  {
    if LabelOf(i).Some? {
      assert "twinscale/trigger" in map["twinscale/trigger" := LabelOf(i).value];
    }
  }
}
