/** What an EventStore or Visualisation success leaves in the store, field by field: what the
    service runs with, and which events the trigger passes on to where. */
module ServiceTriggerContents {
  import opened Resources
  import opened ClusterApi
  import opened Runs
  import opened Text
  import opened ServiceTriggerMachine
  import opened ServiceTriggerRuns
  import opened Annotations
  import CoreChildren
  import Routing
  import TwinService

  /** The attempt succeeded, and nobody else wrote its two objects. */
  ghost predicate Success(start: State, s0: Store, moves: seq<Move>) {
    && s0.Valid() && Fresh(start)
    && IsRun(Begin(start, s0), moves) && Spares(Begin(start, s0), moves, OwnKeys(start))
    && StepAfter(start, s0, moves) == Finished(Succeeded)
  }

  function Left(start: State, s0: Store, moves: seq<Move>): Store {
    WorldAfter(Begin(start, s0), moves).store
  }

  predicate OwnedBy(o: Object, id: Identity) {
    o.meta.owners == [Owner(id.apiVersion, id.kind, id.name, id.uid)]
  }

  ghost predicate LabelledOnly(o: Object, labelKey: string, value: string) {
    forall key :: Says(o.meta.labels, key) == if key == labelKey then Some(value) else None
  }

  /** The trigger passes exactly the events of this type, to this service and path. */
  ghost predicate PassesOn(o: Object, eventType: string, service: string, path: string) {
    && o.body.TriggerBody? && o.body.trigger.broker == "twinscale"
    && o.body.trigger.subscriber == service && o.body.trigger.path == Some(path)
    && forall event :: Routing.Passes(o, event) <==> "type" in event && event["type"] == eventType
  }

  // ---------- EventStore ----------

  /** What the container sees under a name. */
  function EventStoreVariable(es: EventStore, name: string): Option<EnvVar>
    requires es.timeout.Some?
  {
    if name == "DB_HOST" then Some(FromSecret(name, es.postgresSecret, "host"))
    else if name == "DB_PORT" then Some(Plain(name, Itoa(es.postgresPort)))
    else if name == "DB_NAME" then Some(FromSecret(name, es.postgresSecret, "database"))
    else if name == "DB_USER" then Some(FromSecret(name, es.postgresSecret, "username"))
    else if name == "DB_PASSWORD" then Some(FromSecret(name, es.postgresSecret, "password"))
    else if name == "TIMEOUT" then Some(Plain(name, Itoa(es.timeout.value)))
    else None
  }

  /** One container with the image and resources, and the six variables. */
  ghost predicate RunsEventStore(es: EventStore, config: Configuration)
    requires es.timeout.Some?
  {
    && |config.containers| == 1
    && config.containers[0].name == "twinscale-event-store-v1"
    && config.containers[0].image == "ghcr.io/emereshub/" + "twinscale-event-store:0.1"
    && config.containers[0].resources == es.resources && config.containers[0].pullPolicy == "IfNotPresent"
    && (forall name :: TwinService.Seen(config.containers[0].env, name) == EventStoreVariable(es, name))
    && config.nodeSelector == map["kubernetes.io/arch" := "amd64", "twinscale-node" := "core"]
    && forall key :: Says(config.annotations, key) == ScaleSays(es.autoScaling, key)
  }

  ghost predicate IsEventStoreTrigger(es: EventStore, o: Object) {
    && PassesOn(o, "twinscale.event-store", es.id.name, "/api/v1/twin-events")
    && LabelledOnly(o, "twinscale/event-store", es.id.name)
    && forall key :: Says(o.meta.annotations, key) == DispatcherSays(es.autoScaling.parallelism, es.dispatcher, key)
  }

  const VARIABLES := ["DB_HOST", "DB_PORT", "DB_NAME", "DB_USER", "DB_PASSWORD", "TIMEOUT"]

  lemma VariablesDiffer()
    ensures forall i, j :: 0 <= i < j < |VARIABLES| ==> VARIABLES[i] != VARIABLES[j]
  {
    assert "DB_PASSWORD"[3] == 'P' && |"DB_PASSWORD"| == 11 && |"DB_PORT"| == 7;
    assert "DB_HOST"[3] == 'H' && "DB_PORT"[3] == 'P' && "DB_NAME"[3] == 'N' && "DB_USER"[3] == 'U';
    assert "TIMEOUT"[3] == 'E';
  }

  lemma NamesAreVariables(env: seq<EnvVar>, name: string)
    requires |env| == |VARIABLES| && forall i :: 0 <= i < |env| ==> env[i].name == VARIABLES[i]
    ensures forall i :: 0 <= i < |env| && env[i].name == name ==> TwinService.Seen(env, name) == Some(env[i])
    ensures name !in VARIABLES ==> TwinService.Seen(env, name) == None
  {
    VariablesDiffer();
    TwinService.SeenIsListed(env, name);
  }

  lemma EnvironmentIs(es: EventStore, name: string)
    requires es.timeout.Some?
    ensures TwinService.Seen(CoreChildren.EventStoreEnvironment(es), name) == EventStoreVariable(es, name)
  {
    var env := CoreChildren.EventStoreEnvironment(es);
    NamesAreVariables(env, name);
    if name in VARIABLES {
      var i :| 0 <= i < |VARIABLES| && VARIABLES[i] == name;
      VariablesDiffer();
      assert env[i].name == name;
    }
  }

  lemma EventStoreScale(es: EventStore, codec: Codec, key: string)
    requires es.timeout.Some?
    ensures Says(StoredConfig(codec, CoreChildren.EventStoreService(es).body.config).annotations, key)
            == ScaleSays(es.autoScaling, key)
  {
    ScaleIs(es.autoScaling, key);
    StoredSaysTheSame(codec, CoreChildren.EventStoreService(es).body.config.annotations, key);
  }

  lemma BuiltRunsEventStore(es: EventStore, codec: Codec)
    requires es.timeout.Some?
    ensures RunsEventStore(es, StoredConfig(codec, CoreChildren.EventStoreService(es).body.config))
  {
    var config := CoreChildren.EventStoreService(es).body.config;
    forall name ensures TwinService.Seen(config.containers[0].env, name) == EventStoreVariable(es, name) {
      EnvironmentIs(es, name);
    }
    forall key ensures Says(StoredConfig(codec, config).annotations, key) == ScaleSays(es.autoScaling, key) {
      EventStoreScale(es, codec, key);
    }
  }

  lemma FilterPasses(o: Object, eventType: string, event: map<string, string>)
    requires o.body.TriggerBody? && o.body.trigger.attributes == map["type" := eventType]
    ensures Routing.Passes(o, event) <==> "type" in event && event["type"] == eventType
  {
    assert "type" in o.body.trigger.attributes;
  }

  lemma BuiltEventStoreTrigger(es: EventStore, o: Object, codec: Codec)
    requires var built := CoreChildren.EventStoreTrigger(es);
             && o.meta.labels == StoredMap(codec, built.meta.labels)
             && o.meta.annotations == StoredMap(codec, built.meta.annotations) && o.body == built.body
    ensures IsEventStoreTrigger(es, o)
  {
    forall event
      ensures Routing.Passes(o, event) <==> "type" in event && event["type"] == "twinscale.event-store"
    {
      FilterPasses(o, "twinscale.event-store", event);
    }
    BuiltLabel(o, "twinscale/event-store", es.id.name, codec);
    forall key
      ensures Says(o.meta.annotations, key) == DispatcherSays(es.autoScaling.parallelism, es.dispatcher, key)
    {
      StoredSaysTheSame(codec, CoreChildren.EventStoreTrigger(es).meta.annotations, key);
      DispatcherIs(es.autoScaling.parallelism, es.dispatcher, key);
    }
  }

  lemma NewOwners(start: State, s0: Store, s: Store)
    requires WellBuilt(start) && ServiceDone(start, s0, s) && TriggerDone(start, s0, s)
    ensures !s0.Has(ServiceKeyOf(start)) ==>
              s.objects[ServiceKeyOf(start)].meta == StoredMeta(s0.codec, start.service.meta)
    ensures !s0.Has(TriggerKeyOf(start)) ==>
              s.objects[TriggerKeyOf(start)].meta == StoredMeta(s0.codec, start.trigger.meta)
  {
  }

  lemma BuiltLabel(o: Object, labelKey: string, value: string, codec: Codec)
    requires o.meta.labels == StoredMap(codec, Entries(map[labelKey := value]))
    ensures LabelledOnly(o, labelKey, value)
  {
    forall key ensures Says(o.meta.labels, key) == if key == labelKey then Some(value) else None {
      StoredSaysTheSame(codec, Entries(map[labelKey := value]), key);
    }
  }

  /** After a success the service runs the event store with its database credentials, and the trigger
      passes the event-store events on to it; what was created belongs to the EventStore. */
  lemma EventStoreRunsAsAsked(es: EventStore, s0: Store, moves: seq<Move>)
    requires es.timeout.Some? && Success(StartEventStore(es), s0, moves)
    ensures var s, k := Left(StartEventStore(es), s0, moves), Key(KServiceKind, es.id.ns, es.id.name);
            && s.Has(k) && s.objects[k].body.KServiceBody? && RunsEventStore(es, s.objects[k].body.config)
            && (!s0.Has(k) ==> OwnedBy(s.objects[k], es.id)
                               && LabelledOnly(s.objects[k], "twinscale/event-store", es.id.name))
    ensures var s, k := Left(StartEventStore(es), s0, moves), Key(TriggerKind, es.id.ns, es.id.name + "-trigger");
            && s.Has(k) && IsEventStoreTrigger(es, s.objects[k]) && (!s0.Has(k) ==> OwnedBy(s.objects[k], es.id))
  {
    var start := StartEventStore(es);
    var s := Left(start, s0, moves);
    SuccessIsDone(start, s0, moves);
    EventStoreConverges(es, s0, moves);
    NewOwners(start, s0, s);
    BuiltRunsEventStore(es, s.codec);
    BuiltEventStoreTrigger(es, s.objects[TriggerKeyOf(start)], s.codec);
    if !s0.Has(ServiceKeyOf(start)) {
      BuiltLabel(s.objects[ServiceKeyOf(start)], "twinscale/event-store", es.id.name, s0.codec);
    }
  }

  // ---------- Visualisation ----------

  ghost predicate RunsVisualisation(v: Visualisation, config: Configuration) {
    && |config.containers| == 1
    && config.containers[0].name == "twinscale-visualisation-v1"
    && config.containers[0].image == "ghcr.io/emereshub/" + "twinscale-visualisation:0.1"
    && config.containers[0].resources == v.resources && config.containers[0].pullPolicy == "IfNotPresent"
    && config.containers[0].env == [Plain("TIMEOUT", if v.timeout.Some? then Itoa(v.timeout.value) else "0")]
    && config.nodeSelector == map["kubernetes.io/arch" := "amd64", "twinscale-node" := "visualisation"]
    && forall key :: Says(config.annotations, key) == VisualisationScaleSays(v.autoScaling, key)
  }

  lemma VisualisationScale(v: Visualisation, codec: Codec, key: string)
    ensures Says(StoredConfig(codec, CoreChildren.VisualisationService(v).body.config).annotations, key)
            == VisualisationScaleSays(v.autoScaling, key)
  {
    ScaleIs(v.autoScaling, key);
    StoredSaysTheSame(codec, CoreChildren.VisualisationService(v).body.config.annotations, key);
  }

  lemma BuiltRunsVisualisation(v: Visualisation, codec: Codec)
    ensures RunsVisualisation(v, StoredConfig(codec, CoreChildren.VisualisationService(v).body.config))
  {
    var config := CoreChildren.VisualisationService(v).body.config;
    forall key
      ensures Says(StoredConfig(codec, config).annotations, key) == VisualisationScaleSays(v.autoScaling, key)
    {
      VisualisationScale(v, codec, key);
    }
  }

  ghost predicate AnnotatedAs(v: Visualisation, o: Object) {
    forall key :: Says(o.meta.annotations, key) == DispatcherSays(v.autoScaling.parallelism, v.dispatcher, key)
  }

  lemma BuiltAnnotations(v: Visualisation, o: Object, codec: Codec)
    requires o.meta.annotations == StoredMap(codec, CoreChildren.VisualisationTrigger(v).meta.annotations)
    ensures AnnotatedAs(v, o)
  {
    forall key ensures Says(o.meta.annotations, key) == DispatcherSays(v.autoScaling.parallelism, v.dispatcher, key) {
      StoredSaysTheSame(codec, CoreChildren.VisualisationTrigger(v).meta.annotations, key);
      DispatcherIs(v.autoScaling.parallelism, v.dispatcher, key);
    }
  }

  ghost predicate IsVisualisationTrigger(v: Visualisation, o: Object) {
    && PassesOn(o, "twinscale.visualisation." + v.id.name, v.id.name, "/api/v1/visualisation-events")
    && LabelledOnly(o, "twinscale/visualisation", "twinscale-visualisation")
  }

  lemma BuiltVisualisationTrigger(v: Visualisation, o: Object, codec: Codec)
    requires var built := CoreChildren.VisualisationTrigger(v);
             o.meta.labels == StoredMap(codec, built.meta.labels) && o.body == built.body
    ensures IsVisualisationTrigger(v, o)
  {
    var eventType := "twinscale.visualisation." + v.id.name;
    forall event ensures Routing.Passes(o, event) <==> "type" in event && event["type"] == eventType {
      FilterPasses(o, eventType, event);
    }
    BuiltLabel(o, "twinscale/visualisation", "twinscale-visualisation", codec);
  }

  lemma ServiceIsVisualisation(v: Visualisation, s0: Store, s: Store)
    requires s.codec == s0.codec && s0.Valid() && ServiceDone(StartVisualisation(v), s0, s)
    ensures var k := Key(KServiceKind, v.id.ns, v.id.name);
            && s.Has(k) && s.objects[k].body.KServiceBody? && RunsVisualisation(v, s.objects[k].body.config)
            && (!s0.Has(k) ==> OwnedBy(s.objects[k], v.id)
                               && LabelledOnly(s.objects[k], "twinscale/visualisation", v.id.name))
  {
    var k := ServiceKeyOf(StartVisualisation(v));
    BuiltRunsVisualisation(v, s.codec);
    if !s0.Has(k) {
      BuiltLabel(s.objects[k], "twinscale/visualisation", v.id.name, s0.codec);
    }
  }

  lemma TriggerIsVisualisation(v: Visualisation, s0: Store, s: Store)
    requires s.codec == s0.codec && s0.Valid() && TriggerDone(StartVisualisation(v), s0, s)
    requires ServiceDone(StartVisualisation(v), s0, s)
    ensures var k := Key(TriggerKind, v.id.ns, v.id.name + "-trigger");
            && s.Has(k) && AnnotatedAs(v, s.objects[k])
            && (!s0.Has(k) || NoDrift(v.id.ns, v.id.name, s0) ==> IsVisualisationTrigger(v, s.objects[k]))
            && (!s0.Has(k) ==> OwnedBy(s.objects[k], v.id))
  {
    var start := StartVisualisation(v);
    var k := TriggerKeyOf(start);
    LabelsAndSpecDependOnName(v);
    DoneRestoresAnnotations(start, s0, s);
    BuiltAnnotations(v, s.objects[k], s.codec);
    if !s0.Has(k) || NoDrift(v.id.ns, v.id.name, s0) {
      BuiltVisualisationTrigger(v, s.objects[k], s.codec);
    }
  }

  /** After a success the service runs as asked and the trigger has the annotations asked for; a
      trigger that was created, or has not drifted, passes the own visualisation events on to the
      service. */
  lemma VisualisationRunsAsAsked(v: Visualisation, s0: Store, moves: seq<Move>)
    requires Success(StartVisualisation(v), s0, moves)
    ensures var s, k := Left(StartVisualisation(v), s0, moves), Key(KServiceKind, v.id.ns, v.id.name);
            && s.Has(k) && s.objects[k].body.KServiceBody? && RunsVisualisation(v, s.objects[k].body.config)
            && (!s0.Has(k) ==> OwnedBy(s.objects[k], v.id)
                               && LabelledOnly(s.objects[k], "twinscale/visualisation", v.id.name))
    ensures var s, k := Left(StartVisualisation(v), s0, moves), Key(TriggerKind, v.id.ns, v.id.name + "-trigger");
            && s.Has(k) && AnnotatedAs(v, s.objects[k])
            && (!s0.Has(k) || NoDrift(v.id.ns, v.id.name, s0) ==> IsVisualisationTrigger(v, s.objects[k]))
            && (!s0.Has(k) ==> OwnedBy(s.objects[k], v.id))
  {
    SuccessIsDone(StartVisualisation(v), s0, moves);
    ServiceIsVisualisation(v, s0, Left(StartVisualisation(v), s0, moves));
    TriggerIsVisualisation(v, s0, Left(StartVisualisation(v), s0, moves));
  }
}
