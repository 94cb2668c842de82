/** What an undisturbed success of `createUpdateTwinInterface` leaves in the store, field by field:
    where the bindings lead, what the trigger passes on, what the service runs, and that the
    interface itself comes back as it was. */
module InterfaceContents {
  import opened Resources
  import opened ClusterApi
  import opened Runs
  import opened TwinInterfaceMachine
  import opened InterfaceSteps
  import opened InterfaceRuns
  import opened InterfaceEffect
  import opened InterfaceReads
  import opened Annotations
  import Amqp
  import Routing
  import Quiescence
  import TwinEvents
  import TwinService

  ghost predicate Success(ti: TwinInterface, s: Store, moves: seq<Move>) {
    && s.Valid() && IsRun(Attempt(ti, s), moves) && Alone(moves)
    && StateAfter(ti, s, moves).step == Finished(Succeeded)
  }

  ghost function Left(ti: TwinInterface, s: Store, moves: seq<Move>): Store {
    WorldAfter(Attempt(ti, s), moves).store
  }

  predicate OwnedBy(o: Object, id: Identity) {
    o.meta.ns == id.ns && o.meta.owners == [Owner(id.apiVersion, id.kind, id.name, id.uid)]
  }

  // ---------- bindings ----------

  /** The binding lets through exactly the events of this type. */
  ghost predicate PassesType(b: BindingSpec, eventType: string) {
    forall headers :: Amqp.HeadersMatch(b.arguments, headers) <==> "type" in headers && headers["type"] == eventType
  }

  ghost predicate FromBroker(b: BindingSpec, exchange: string, queue: string, eventType: string, trigger: string) {
    && b.source == exchange && b.destination == queue && b.routingKey == "" && PassesType(b, eventType)
    && "x-knative-trigger" in b.arguments && b.arguments["x-knative-trigger"] == trigger
  }

  predicate FromTopics(b: BindingSpec, target: string) {
    && b.source == "amq.topic" && b.destination == "mqtt-dispatcher-queue"
    && b.routingKey == "twinscale.real." + target + ".#" && b.arguments == map[]
  }

  ghost predicate Leads(ti: TwinInterface, c: Child, b: BindingSpec, exchange: string, eventStoreQueue: string,
                        queue: string)
  {
    var n := ti.id.name;
    && b.vhost == "/" && b.destinationType == "queue" && b.cluster == ClusterRef("rabbitmq", "twinscale")
    && match c
       case OwnMqtt => FromTopics(b, n)
       case RelationshipMqtt(r) => FromTopics(b, r.iface)
       case EventStoreBound => FromBroker(b, exchange, eventStoreQueue, "twinscale.eventstore." + n, n + "-trigger")
       case RelationshipReal(r) => FromBroker(b, exchange, queue, "twinscale.real." + r.iface, n)
       case CommandBound(command) => FromBroker(b, exchange, queue, "twinscale.command." + n + "." + command, n)
       case _ => false
  }

  function BindingLabelsSay(ti: TwinInterface, c: Child, key: string): Option<string> {
    if (key == "twinscale/twin-interface" || key == "eventing.knative.dev/trigger") && !c.EventStoreBound?
    then Some(ti.id.name) else None
  }

  /** The object is the binding of this child. */
  ghost predicate IsBindingOf(ti: TwinInterface, c: Child, o: Object, exchange: string, eventStoreQueue: string,
                              queue: string)
  {
    && o.KeyOf() == ChildKey(ti, c) && OwnedBy(o, ti.id) && o.body.BindingBody?
    && Leads(ti, c, o.body.binding, exchange, eventStoreQueue, queue)
    && forall key :: Says(o.meta.labels, key) == BindingLabelsSay(ti, c, key)
  }

  lemma BuiltPassesType(ti: TwinInterface, c: Child, f: Found, eventType: string, trigger: string)
    requires !c.OwnService? && !c.OwnTrigger?
    requires Build(ti, c, f).body.binding.arguments == TwinEvents.Filters(eventType, trigger)
    ensures PassesType(Build(ti, c, f).body.binding, eventType)
  {
    forall headers
      ensures Amqp.HeadersMatch(Build(ti, c, f).body.binding.arguments, headers)
              <==> "type" in headers && headers["type"] == eventType
    {
      Routing.FilterPassesType(eventType, trigger, headers);
    }
  }

  lemma TopicKey(target: string)
    ensures TwinEvents.EventTypeReal(target + ".#") == "twinscale.real." + target + ".#"
  {
  }

  lemma BuiltLeads(ti: TwinInterface, c: Child, f: Found)
    requires !c.OwnService? && !c.OwnTrigger?
    ensures Leads(ti, c, Build(ti, c, f).body.binding, f.exchange, f.eventStoreQueue, f.queue)
  {
    var n := ti.id.name;
    match c
    case OwnMqtt => TopicKey(n);
    case RelationshipMqtt(r) => TopicKey(r.iface);
    case EventStoreBound => BuiltPassesType(ti, c, f, "twinscale.eventstore." + n, n + "-trigger");
    case RelationshipReal(r) => BuiltPassesType(ti, c, f, "twinscale.real." + r.iface, n);
    case CommandBound(command) => BuiltPassesType(ti, c, f, "twinscale.command." + n + "." + command, n);
  }

  lemma BuiltIsLabelled(ti: TwinInterface, c: Child, f: Found, key: string)
    requires !c.OwnService? && !c.OwnTrigger?
    ensures Says(Build(ti, c, f).meta.labels, key) == BindingLabelsSay(ti, c, key)
  {
    assert TRIGGER_LABEL == "eventing.knative.dev/trigger" && TRIGGER_LABEL[0] != "twinscale/twin-interface"[0];
  }

  lemma BuiltIsBinding(ti: TwinInterface, c: Child, f: Found, codec: Codec)
    requires !c.OwnService? && !c.OwnTrigger?
    ensures IsBindingOf(ti, c, Stored(codec, Build(ti, c, f)), f.exchange, f.eventStoreQueue, f.queue)
  {
    BuiltLeads(ti, c, f);
    forall key ensures Says(Stored(codec, Build(ti, c, f)).meta.labels, key) == BindingLabelsSay(ti, c, key) {
      BuiltIsLabelled(ti, c, f, key);
      StoredSaysTheSame(codec, Build(ti, c, f).meta.labels, key);
    }
  }

  /** The binding of some wanted child. */
  ghost predicate IsWantedBinding(ti: TwinInterface, o: Object, exchange: string, eventStoreQueue: string,
                                  queue: string)
  {
    exists c :: Wanted(ti, c) && IsBindingOf(ti, c, o, exchange, eventStoreQueue, queue)
  }

  lemma MadeIsWanted(st: State, codec: Codec, c: Child, o: Object)
    requires Made(st, codec, c, o) && o.KeyOf().kind.BindingKind?
    ensures IsWantedBinding(st.ti, o, st.found.exchange, st.found.eventStoreQueue, st.found.queue)
  {
    BuiltIsBinding(st.ti, c, st.found, codec);
  }

  lemma AllMadeAreWanted(st: State, s0: Store, s: Store)
    requires AsBuilt(st, s0, s) && s.Valid()
    ensures forall k: Key :: k.kind.BindingKind? && s.Has(k) && !s0.Has(k) ==>
              IsWantedBinding(st.ti, s.objects[k], st.found.exchange, st.found.eventStoreQueue, st.found.queue)
  {
    forall k: Key | k.kind.BindingKind? && s.Has(k) && !s0.Has(k)
      ensures IsWantedBinding(st.ti, s.objects[k], st.found.exchange, st.found.eventStoreQueue, st.found.queue)
    {
      assert IsWiring(k);
      var c :| Made(st, s.codec, c, s.objects[k]);
      MadeIsWanted(st, s.codec, c, s.objects[k]);
    }
  }

  lemma SuccessKnows(ti: TwinInterface, s: Store, moves: seq<Move>)
    requires Success(ti, s, moves)
    ensures var f, ns := StateAfter(ti, s, moves).found, ti.id.ns;
            && IsExchange(ns, s, f.exchange) && MaySee(ns, s, f.eventStoreQueue)
            && (ti.spec.service.Some? ==>
                  && IsQueueOf(ns, ti.id.name, s, f.queue)
                  && f.brokerUrl.Some? && IsBrokerAddress(s, f.brokerUrl.value)
                  && IsEventStoreAddress(s, f.eventStoreUrl))
  {
    Quiescence.SuccessIsFlawless(ti, s, moves);
    AttemptIsInformed(ti, s, moves);
  }

  /** All bindings a success has created, from one exchange of the broker that was there, to the
      event-store queue and the own queue that were there. */
  lemma NewBindingsLead(ti: TwinInterface, s: Store, moves: seq<Move>)
      returns (exchange: string, eventStoreQueue: string, queue: string)
    requires Success(ti, s, moves)
    ensures IsExchange(ti.id.ns, s, exchange) && MaySee(ti.id.ns, s, eventStoreQueue)
    ensures ti.spec.service.Some? ==> IsQueueOf(ti.id.ns, ti.id.name, s, queue)
    ensures var t := Left(ti, s, moves);
            forall k: Key :: k.kind.BindingKind? && t.Has(k) && !s.Has(k) ==>
              IsWantedBinding(ti, t.objects[k], exchange, eventStoreQueue, queue)
  {
    var f := StateAfter(ti, s, moves).found;
    exchange, eventStoreQueue, queue := f.exchange, f.eventStoreQueue, f.queue;
    SuccessKnows(ti, s, moves);
    EffectOfAttempt(ti, s, moves);
    RunsStayValid(Attempt(ti, s), moves);
    AllMadeAreWanted(StateAfter(ti, s, moves), s, Left(ti, s, moves));
  }

  // ---------- the trigger ----------

  /** It hands the service of the interface exactly the interface's own real events. */
  ghost predicate IsTriggerOf(ti: TwinInterface, o: Object)
    requires ti.spec.service.Some?
  {
    && o.KeyOf() == Key(TriggerKind, ti.id.ns, ti.id.name) && OwnedBy(o, ti.id) && o.body.TriggerBody?
    && o.body.trigger.broker == "twinscale" && o.body.trigger.subscriber == ti.id.name && o.body.trigger.path == None
    && (forall event :: Routing.Passes(o, event) <==>
          "type" in event && event["type"] == "twinscale.real." + ti.id.name)
    && (forall key :: Says(o.meta.labels, key) == if key == "twinscale/twin-interface" then Some(ti.id.name) else None)
    && (forall key :: Says(o.meta.annotations, key)
          == if key == "rabbitmq.eventing.knative.dev/parallelism"
             then GivenNumber(ti.spec.service.value.autoScaling.parallelism) else None)
  }

  lemma BuiltTriggerPasses(ti: TwinInterface, f: Found, codec: Codec, event: map<string, string>)
    requires ti.spec.service.Some?
    ensures Routing.Passes(Stored(codec, Build(ti, OwnTrigger, f)), event)
            <==> "type" in event && event["type"] == "twinscale.real." + ti.id.name
  {
    Routing.TriggerPassesIff(ti, event);
  }

  lemma BuiltTriggerSays(ti: TwinInterface, f: Found, key: string)
    requires ti.spec.service.Some?
    ensures Says(Build(ti, OwnTrigger, f).meta.labels, key)
            == if key == "twinscale/twin-interface" then Some(ti.id.name) else None
    ensures Says(Build(ti, OwnTrigger, f).meta.annotations, key)
            == if key == "rabbitmq.eventing.knative.dev/parallelism"
               then GivenNumber(ti.spec.service.value.autoScaling.parallelism) else None
  {
  }

  lemma BuiltIsTrigger(ti: TwinInterface, f: Found, codec: Codec)
    requires ti.spec.service.Some?
    ensures IsTriggerOf(ti, Stored(codec, Build(ti, OwnTrigger, f)))
  {
    var built := Build(ti, OwnTrigger, f);
    forall event
      ensures Routing.Passes(Stored(codec, built), event)
              <==> "type" in event && event["type"] == "twinscale.real." + ti.id.name
    {
      BuiltTriggerPasses(ti, f, codec, event);
    }
    forall key
      ensures Says(Stored(codec, built).meta.labels, key) == Says(built.meta.labels, key)
      ensures Says(Stored(codec, built).meta.annotations, key) == Says(built.meta.annotations, key)
    {
      StoredSaysTheSame(codec, built.meta.labels, key);
      StoredSaysTheSame(codec, built.meta.annotations, key);
    }
    forall key
      ensures Says(built.meta.labels, key) == if key == "twinscale/twin-interface" then Some(ti.id.name) else None
      ensures Says(built.meta.annotations, key)
              == if key == "rabbitmq.eventing.knative.dev/parallelism"
                 then GivenNumber(ti.spec.service.value.autoScaling.parallelism) else None
    {
      BuiltTriggerSays(ti, f, key);
    }
  }

  lemma MadeIsTrigger(st: State, codec: Codec, c: Child, o: Object)
    requires Made(st, codec, c, o) && o.KeyOf().kind.TriggerKind?
    ensures st.ti.spec.service.Some? && IsTriggerOf(st.ti, o)
  {
    BuiltIsTrigger(st.ti, st.found, codec);
  }

  /** A new trigger passes on the own real events to the service of the same name, which is there. */
  lemma NewTriggerLeads(ti: TwinInterface, s: Store, moves: seq<Move>)
    requires Success(ti, s, moves) && ti.spec.service.Some? && !s.Has(Key(TriggerKind, ti.id.ns, ti.id.name))
    ensures var t, k := Left(ti, s, moves), Key(TriggerKind, ti.id.ns, ti.id.name);
            t.Has(k) && IsTriggerOf(ti, t.objects[k]) && t.Has(Key(KServiceKind, ti.id.ns, ti.id.name))
  {
    var t, k := Left(ti, s, moves), Key(TriggerKind, ti.id.ns, ti.id.name);
    EffectOfAttempt(ti, s, moves);
    RunsStayValid(Attempt(ti, s), moves);
    AloneKeepsKeys(Attempt(ti, s), moves);
    EndMeansComplete(ti, s, moves);
    assert Wanted(ti, OwnTrigger) && Wanted(ti, OwnService);
    assert IsWiring(k);
    var c :| Made(StateAfter(ti, s, moves), t.codec, c, t.objects[k]);
    MadeIsTrigger(StateAfter(ti, s, moves), t.codec, c, t.objects[k]);
  }

  // ---------- the service ----------

  /** Images, resources and annotations are as the interface asks for. */
  ghost predicate Serves(service: TwinInterfaceService, config: Configuration) {
    && |config.containers| == |service.containers|
    && (forall i :: 0 <= i < |service.containers| ==>
          && config.containers[i].image == service.containers[i].image
          && config.containers[i].resources == service.containers[i].resources)
    && forall key :: Says(config.annotations, key) == InterfaceScaleSays(service.autoScaling, key)
  }

  /** The whole configuration is as built with these addresses. */
  ghost predicate ServesAt(service: TwinInterfaceService, config: Configuration, brokerUrl: string,
                           eventStoreUrl: string)
  {
    && Serves(service, config)
    && config.nodeSelector == map["kubernetes.io/arch" := "amd64", "twinscale-node" := "service"]
    && forall i :: 0 <= i < |service.containers| ==>
         TwinService.RunsAsGiven(config.containers[i], service.containers[i], brokerUrl, eventStoreUrl)
  }

  lemma BuiltServes(ti: TwinInterface, f: Found, codec: Codec)
    requires ti.spec.service.Some?
    ensures ServesAt(ti.spec.service.value, StoredConfig(codec, Build(ti, OwnService, f).body.config),
                     BrokerUrl(f), f.eventStoreUrl)
  {
    var service := ti.spec.service.value;
    TwinService.ServiceRunsTheContainers(ti, service, BrokerUrl(f), f.eventStoreUrl);
    forall key
      ensures Says(StoredConfig(codec, Build(ti, OwnService, f).body.config).annotations, key)
              == InterfaceScaleSays(service.autoScaling, key)
    {
      InterfaceScaleIs(service.autoScaling, key);
    }
  }

  lemma UpToDateServes(st: State, current: Object)
    requires st.ti.spec.service.Some? && current.body.KServiceBody? && UpToDate(st, current)
    ensures Serves(st.ti.spec.service.value, current.body.config)
  {
    var desired := Build(st.ti, OwnService, st.found).body.config;
    BuiltServes(st.ti, st.found, Verbatim);
    TwinService.SameProjectionIff(current.body.config, desired);
    assert StoredConfig(Verbatim, desired) == desired;
  }

  /** An existing service keeps everything but its configuration. */
  predicate OnlyConfigDiffers(before: Object, after: Object) {
    && before.body.KServiceBody? && after.body.KServiceBody?
    && before.meta == after.meta && before.body.url == after.body.url && before.body.rest == after.body.rest
  }

  /** The result of the service steps, whatever was there: a service that was found is left as it
      is, or gets a new configuration and keeps the rest. */
  ghost predicate ServiceIsRight(ti: TwinInterface, s0: Store, o: Object, brokerUrl: string, eventStoreUrl: string)
    requires ti.spec.service.Some?
  {
    var service, k := ti.spec.service.value, Key(KServiceKind, ti.id.ns, ti.id.name);
    && o.body.KServiceBody? && Serves(service, o.body.config)
    && (s0.Has(k) ==> OnlyConfigDiffers(s0.objects[k], o))
    && ((s0.Has(k) && o == s0.objects[k]) || ServesAt(service, o.body.config, brokerUrl, eventStoreUrl))
    && (!s0.Has(k) ==>
          && OwnedBy(o, ti.id)
          && forall key ::
               Says(o.meta.labels, key) == if key == "twinscale/twininterface" then Some(ti.id.name) else None)
  }

  lemma BuiltIsOwned(ti: TwinInterface, f: Found, codec: Codec)
    requires ti.spec.service.Some?
    ensures var o := Stored(codec, Build(ti, OwnService, f));
            && OwnedBy(o, ti.id)
            && forall key ::
                 Says(o.meta.labels, key) == if key == "twinscale/twininterface" then Some(ti.id.name) else None
  {
    forall key
      ensures Says(Stored(codec, Build(ti, OwnService, f)).meta.labels, key)
              == if key == "twinscale/twininterface" then Some(ti.id.name) else None
    {
      StoredSaysTheSame(codec, Build(ti, OwnService, f).meta.labels, key);
    }
  }

  lemma ResultIsRight(st: State, s0: Store)
    requires s0.Valid() && st.ti.spec.service.Some?
    ensures ServiceIsRight(st.ti, s0, ServiceResult(st, s0), BrokerUrl(st.found), st.found.eventStoreUrl)
  {
    var k := ChildKey(st.ti, OwnService);
    BuiltServes(st.ti, st.found, s0.codec);
    if !s0.Has(k) {
      BuiltIsOwned(st.ti, st.found, s0.codec);
    } else if UpToDate(st, s0.objects[k]) {
      UpToDateServes(st, s0.objects[k]);
    }
  }

  /** After a success the service has the specified images, resources and annotations, whatever was
      there; created or changed, it also runs with the addresses of the broker and the event store
      that were there. */
  lemma ServiceServes(ti: TwinInterface, s: Store, moves: seq<Move>) returns (brokerUrl: string, eventStoreUrl: string)
    requires Success(ti, s, moves) && ti.spec.service.Some?
    ensures IsBrokerAddress(s, brokerUrl) && IsEventStoreAddress(s, eventStoreUrl)
    ensures var t, k := Left(ti, s, moves), Key(KServiceKind, ti.id.ns, ti.id.name);
            t.Has(k) && ServiceIsRight(ti, s, t.objects[k], brokerUrl, eventStoreUrl)
  {
    var st := StateAfter(ti, s, moves);
    brokerUrl, eventStoreUrl := BrokerUrl(st.found), st.found.eventStoreUrl;
    SuccessKnows(ti, s, moves);
    Quiescence.FirstLeaves(ti, s, moves);
    ResultIsRight(st, s);
  }

  // ---------- the interface itself ----------

  /** The interface is as it was, or as the final update sends it back. */
  ghost predicate InterfaceIsKept(ti: TwinInterface, s0: Store, s: Store) {
    var k := InterfaceKey(ti);
    SameAt(s0, s, k) || (s.Has(k) && exists o :: IsSentBack(ti, o) && s.objects[k] == Stored(s.codec, o))
  }

  lemma OwnUpdateStep(st: State, s: Store, e: Event)
    requires Asking(st) && Sane(st) && e.req == Ask(st)
    ensures SameAt(s, After(s, e), InterfaceKey(st.ti))
            || (e.effect && e.req.Update? && IsSentBack(st.ti, e.req.obj) && After(s, e) == s.Put(e.req.obj))
  {
    if e.req.Update? && st.step.UpdateInterface? {
      SentBack(st);
    }
  }

  lemma KeptStep(st: State, s0: Store, s: Store, e: Event)
    requires Asking(st) && Sane(st) && InterfaceIsKept(st.ti, s0, s) && e.req == Ask(st)
    ensures InterfaceIsKept(st.ti, s0, After(s, e))
  {
    OwnUpdateStep(st, s, e);
  }

  /** At every point of an undisturbed attempt, whatever fails. */
  lemma {:induction false} AttemptKeepsInterface(ti: TwinInterface, s: Store, moves: seq<Move>)
    requires s.Valid() && IsRun(Attempt(ti, s), moves) && Alone(moves)
    ensures InterfaceIsKept(ti, s, Left(ti, s, moves))
  {
    if moves != [] {
      var front, last := moves[..|moves| - 1], moves[|moves| - 1];
      assert moves == front + [last];
      assert last in moves;
      AttemptKeepsInterface(ti, s, front);
      var st, w := StateAfter(ti, s, front), WorldAfter(Attempt(ti, s), front);
      CallOfState(st, w, last);
      KeptStep(st, s, w.store, last.event);
    }
  }

  /** So no attempt changes or loses the specification, the annotations or the owners of an
      interface that the store holds as the attempt was given it. */
  lemma SpecificationIsKept(ti: TwinInterface, s: Store, moves: seq<Move>)
    requires s.Valid() && IsRun(Attempt(ti, s), moves) && Alone(moves)
    requires var k := InterfaceKey(ti);
             && s.Has(k) && s.objects[k].body.TwinInterfaceBody? && s.objects[k].body.spec == ti.spec
             && s.objects[k].meta.annotations == ti.annotations && s.objects[k].meta.owners == ti.owners
    ensures var t, k := Left(ti, s, moves), Key(TwinInterfaceKind, ti.id.ns, ti.id.name);
            && t.Has(k) && t.objects[k].body.TwinInterfaceBody? && t.objects[k].body.spec == ti.spec
            && t.objects[k].meta.annotations == ti.annotations && t.objects[k].meta.owners == ti.owners
  {
    AttemptKeepsInterface(ti, s, moves);
    RunsStayValid(Attempt(ti, s), moves);
    var t, k := Left(ti, s, moves), InterfaceKey(ti);
    if !SameAt(s, t, k) {
      var o :| IsSentBack(ti, o) && t.objects[k] == Stored(t.codec, o);
      assert Stored(s.codec, s.objects[k]) == s.objects[k];
    }
  }

  /** Stored as it was sent, status Running and the one label included. */
  ghost predicate IsRunning(ti: TwinInterface, s: Store) {
    var k := Key(TwinInterfaceKind, ti.id.ns, ti.id.name);
    && s.Has(k) && s.objects[k].body == TwinInterfaceBody(ti.spec, "Running")
    && forall key ::
         Says(s.objects[k].meta.labels, key) == if key == "twinscale/twin-interface" then Some(ti.id.name) else None
  }

  lemma SentBackIsRunning(ti: TwinInterface, s: Store, o: Object)
    requires IsSentBack(ti, o)
    ensures IsRunning(ti, s.Put(o))
  {
    forall key
      ensures Says(Stored(s.codec, o).meta.labels, key)
              == if key == "twinscale/twin-interface" then Some(ti.id.name) else None
    {
      StoredSaysTheSame(s.codec, o.meta.labels, key);
    }
  }

  lemma UpdateIsStored(ti: TwinInterface, w: World, m: Move)
    requires w.proc.Interface? && w.proc.ti.ti == ti && MayMove(w, m) && UpdatesInterface(m) && m.event.effect
    ensures IsRunning(ti, Moved(w, m).store)
  {
    CallOfState(w.proc.ti, w, m);
    OnlyTheLastStepUpdatesInterface(w.proc.ti);
    SentBackIsRunning(ti, w.store, m.event.req.obj);
  }

  /** And a final update that takes effect leaves it with status Running and its own label. */
  lemma UpdateLeavesRunning(ti: TwinInterface, s: Store, moves: seq<Move>)
    requires s.Valid() && IsRun(Attempt(ti, s), moves) && Alone(moves) && moves != []
    requires UpdatesInterface(moves[|moves| - 1]) && moves[|moves| - 1].event.effect
    ensures IsRunning(ti, Left(ti, s, moves))
  {
    var front, last := moves[..|moves| - 1], moves[|moves| - 1];
    AttemptIsSane(ti, s, front);
    UpdateIsStored(ti, WorldAfter(Attempt(ti, s), front), last);
  }
}
