/** Between which custom resources attempts never interfere: the exact conditions on their
    names. */
module WhoIsApart {
  import opened Resources
  import opened ClusterApi
  import opened Runs
  import opened Interleaving
  import opened NonInterference
  import TI = TwinInterfaceMachine
  import ST = ServiceTriggerMachine
  import MQ = MqttTriggerMachine
  import CoreChildren
  import InterfaceSteps
  import MqttTriggerRuns
  import ServiceTriggerRuns
  import Names

  // ---------- attempts at their start ----------

  function EventStoreAttempt(es: EventStore): Proc {
    ServiceAndTrigger(ST.StartEventStore(es))
  }

  function VisualisationAttempt(v: Visualisation): Proc {
    ServiceAndTrigger(ST.StartVisualisation(v))
  }

  function InterfaceAttempt(ti: TwinInterface): Proc {
    Interface(TI.Start(ti))
  }

  function MqttAttempt(ns: string, name: string): Proc {
    Mqtt(MQ.Start(ns, name))
  }

  lemma MqttStartIsBound(ns: string, name: string, hidden: set<Key>)
    ensures Bound(MqttAttempt(ns, name), hidden)
  {
    var mq := MQ.Start(ns, name);
    assert MqttTriggerRuns.Reached(mq, 0) && MqttTriggerRuns.Homed(mq, 0);
  }

  lemma InterfaceStartIsBound(ti: TwinInterface, hidden: set<Key>)
    ensures Bound(InterfaceAttempt(ti), hidden)
  {
    InterfaceSteps.StartIsSane(ti);
  }

  lemma PairStartsAreBound(es: EventStore, v: Visualisation, hidden: set<Key>)
    ensures Bound(EventStoreAttempt(es), hidden) && Bound(VisualisationAttempt(v), hidden)
  {
    if es.timeout.Some? {
      ServiceTriggerRuns.EventStoreIsFresh(es);
    }
    ServiceTriggerRuns.VisualisationIsFresh(v);
  }

  /** Every reconcile starts in a state that the non-interference theorems are about. */
  lemma StartsAreBound(es: EventStore, v: Visualisation, ti: TwinInterface, ns: string, name: string, hidden: set<Key>)
    ensures Bound(EventStoreAttempt(es), hidden) && Bound(VisualisationAttempt(v), hidden)
    ensures Bound(InterfaceAttempt(ti), hidden) && Bound(MqttAttempt(ns, name), hidden)
  {
    PairStartsAreBound(es, v, hidden);
    MqttStartIsBound(ns, name, hidden);
    InterfaceStartIsBound(ti, hidden);
  }

  /** An EventStore or Visualisation n owns Service n and Trigger n-trigger. */
  predicate OwnsPair(p: Proc, ns: string, name: string) {
    && p.ServiceAndTrigger?
    && p.st.service.KeyOf() == Key(KServiceKind, ns, name)
    && p.st.trigger.KeyOf() == Key(TriggerKind, ns, CoreChildren.TriggerName(name))
  }

  lemma WhoOwnsPairs(es: EventStore, v: Visualisation)
    ensures es.timeout.Some? ==> OwnsPair(EventStoreAttempt(es), es.id.ns, es.id.name)
    ensures OwnsPair(VisualisationAttempt(v), v.id.ns, v.id.name)
  {
  }

  // ---------- the exact conditions ----------

  /** Two such pairs are apart exactly if their names or namespaces differ. */
  lemma PairsApartIff(p: Proc, q: Proc, ns: string, n: string, ms: string, m: string, hidden: set<Key>)
    requires OwnsPair(p, ns, n) && OwnsPair(q, ms, m)
    ensures Apart(p, q, hidden) <==> ns != ms || n != m
  {
    if ns == ms && n == m {
      assert MayWrite(p, Key(KServiceKind, ns, n)) && MayTouch(q, Key(KServiceKind, ns, n), hidden);
    } else if ns == ms {
      assert CoreChildren.TriggerName(n)[..|n|] == n && CoreChildren.TriggerName(m)[..|m|] == m;
      assert |n| == |m| ==> CoreChildren.TriggerName(n) != CoreChildren.TriggerName(m);
    }
  }

  /** EventStores and Visualisations never interfere unless they share namespace and name. */
  lemma EventStoreVisualisationApartIff(es: EventStore, v: Visualisation, hidden: set<Key>)
    requires es.timeout.Some?
    ensures Apart(EventStoreAttempt(es), VisualisationAttempt(v), hidden)
            <==> es.id.ns != v.id.ns || es.id.name != v.id.name
  {
    WhoOwnsPairs(es, v);
    PairsApartIff(EventStoreAttempt(es), VisualisationAttempt(v), es.id.ns, es.id.name, v.id.ns, v.id.name, hidden);
  }

  lemma InterfaceKinds(ti: TwinInterface, k: Key)
    requires InterfaceWrites(ti, k)
    ensures k.kind.KServiceKind? || k.kind.TriggerKind? || k.kind.BindingKind? || k.kind.TwinInterfaceKind?
    ensures k.ns == ti.id.ns
    ensures k.kind.KServiceKind? || k.kind.TriggerKind? ==> ti.spec.service.Some? && k.name == ti.id.name
    ensures k.kind.TwinInterfaceKind? ==> k == TI.InterfaceKey(ti)
  {
  }

  lemma InterfaceWithServiceWrites(ti: TwinInterface)
    requires ti.spec.service.Some?
    ensures InterfaceWrites(ti, Key(KServiceKind, ti.id.ns, ti.id.name))
    ensures InterfaceWrites(ti, Key(TriggerKind, ti.id.ns, ti.id.name))
  {
    assert TI.Wanted(ti, TI.OwnService) && TI.Wanted(ti, TI.OwnTrigger);
  }

  /** An interface without a service keeps out of the way of every pair. One with a service is
      in the way of a pair of its own name, of a pair whose trigger has its name, and of the
      event store whose address it reads. */
  predicate InterfaceMeetsPair(ti: TwinInterface, ns: string, n: string) {
    && ti.spec.service.Some?
    && (Key(KServiceKind, ns, n) == TI.EVENT_STORE_KEY
        || (ti.id.ns == ns && (ti.id.name == n || ti.id.name == CoreChildren.TriggerName(n))))
  }

  lemma InterfacePairApartIff(ti: TwinInterface, q: Proc, ns: string, n: string, hidden: set<Key>)
    requires OwnsPair(q, ns, n)
    ensures Apart(InterfaceAttempt(ti), q, hidden) <==> !InterfaceMeetsPair(ti, ns, n)
  {
    var p := InterfaceAttempt(ti);
    var service, trigger := Key(KServiceKind, ns, n), Key(TriggerKind, ns, CoreChildren.TriggerName(n));
    assert MayWrite(q, service) && MayWrite(q, trigger);
    if InterfaceMeetsPair(ti, ns, n) {
      InterfaceWithServiceWrites(ti);
      assert MayTouch(p, service, hidden) || MayTouch(p, trigger, hidden);
    } else {
      forall k ensures !(MayWrite(p, k) && MayTouch(q, k, hidden)) && !(MayWrite(q, k) && MayTouch(p, k, hidden)) {
        if InterfaceWrites(ti, k) {
          InterfaceKinds(ti, k);
        }
      }
    }
  }

  /** Two interfaces are apart exactly if they are different, want no child of the same key, and
      neither serves as the event store whose address the other reads. */
  predicate ServesAsEventStore(ti: TwinInterface) {
    ti.spec.service.Some? && TI.ChildKey(ti, TI.OwnService) == TI.EVENT_STORE_KEY
  }

  ghost predicate ShareAChild(a: TwinInterface, b: TwinInterface) {
    exists c, d :: TI.Wanted(a, c) && TI.Wanted(b, d) && TI.ChildKey(a, c) == TI.ChildKey(b, d)
  }

  ghost predicate InterfacesMeet(a: TwinInterface, b: TwinInterface) {
    || TI.InterfaceKey(a) == TI.InterfaceKey(b)
    || ShareAChild(a, b)
    || (ServesAsEventStore(a) && b.spec.service.Some?)
    || (ServesAsEventStore(b) && a.spec.service.Some?)
  }

  lemma WriteMeetsWrite(a: TwinInterface, b: TwinInterface, k: Key)
    requires InterfaceWrites(a, k) && InterfaceWrites(b, k)
    ensures InterfacesMeet(a, b)
  {
    InterfaceKinds(a, k);
    InterfaceKinds(b, k);
    if !k.kind.TwinInterfaceKind? {
      var c :| TI.Wanted(a, c) && TI.ChildKey(a, c) == k;
      var d :| TI.Wanted(b, d) && TI.ChildKey(b, d) == k;
      assert ShareAChild(a, b);
    }
  }

  lemma WriteMeetsRead(a: TwinInterface, b: TwinInterface, k: Key, hidden: set<Key>)
    requires InterfaceWrites(a, k) && InterfaceReads(b, k, hidden)
    ensures ServesAsEventStore(a) && b.spec.service.Some?
  {
    InterfaceKinds(a, k);
  }

  lemma ServingMeetsReading(a: TwinInterface, b: TwinInterface, hidden: set<Key>)
    requires ServesAsEventStore(a) && b.spec.service.Some?
    ensures MayWrite(InterfaceAttempt(a), TI.EVENT_STORE_KEY)
    ensures MayTouch(InterfaceAttempt(b), TI.EVENT_STORE_KEY, hidden)
  {
    InterfaceWithServiceWrites(a);
  }

  lemma InterfacesApartIff(a: TwinInterface, b: TwinInterface, hidden: set<Key>)
    ensures Apart(InterfaceAttempt(a), InterfaceAttempt(b), hidden) <==> !InterfacesMeet(a, b)
  {
    var p, q := InterfaceAttempt(a), InterfaceAttempt(b);
    forall k
      ensures (MayWrite(p, k) && MayTouch(q, k, hidden)) || (MayWrite(q, k) && MayTouch(p, k, hidden))
              ==> InterfacesMeet(a, b)
    {
      if InterfaceWrites(a, k) && InterfaceWrites(b, k) {
        WriteMeetsWrite(a, b, k);
      } else if InterfaceWrites(a, k) && InterfaceReads(b, k, hidden) {
        WriteMeetsRead(a, b, k, hidden);
      } else if InterfaceWrites(b, k) && InterfaceReads(a, k, hidden) {
        WriteMeetsRead(b, a, k, hidden);
      }
    }
    if TI.InterfaceKey(a) == TI.InterfaceKey(b) {
      assert MayWrite(p, TI.InterfaceKey(a)) && MayTouch(q, TI.InterfaceKey(a), hidden);
    } else if ShareAChild(a, b) {
      var c, d :| TI.Wanted(a, c) && TI.Wanted(b, d) && TI.ChildKey(a, c) == TI.ChildKey(b, d);
      assert MayWrite(p, TI.ChildKey(a, c)) && MayTouch(q, TI.ChildKey(a, c), hidden);
    } else if ServesAsEventStore(a) && b.spec.service.Some? {
      ServingMeetsReading(a, b, hidden);
    } else if ServesAsEventStore(b) && a.spec.service.Some? {
      ServingMeetsReading(b, a, hidden);
    }
  }

  /** The queues an MQTTTrigger of the namespace writes. */
  function MqttQueues(ns: string): set<Key> {
    {Key(QueueKind, ns, MQTT_DISPATCHER_QUEUE), Key(QueueKind, ns, CLOUD_EVENT_DISPATCHER_QUEUE)}
  }

  lemma MqttKinds(ns: string, name: string, k: Key, hidden: set<Key>)
    ensures MayWrite(MqttAttempt(ns, name), k) ==>
              && k.ns == ns && (k.kind.QueueKind? ==> k in MqttQueues(ns))
              && (k.kind.MqttTriggerKind? || k.kind.QueueKind? || k.kind.DeploymentKind? || k.kind.CoreServiceKind?)
    ensures MayTouch(MqttAttempt(ns, name), k, hidden) && !MayWrite(MqttAttempt(ns, name), k)
            ==> k.kind.SecretKind? || k.kind.ExchangeKind?
    ensures k in MqttQueues(ns) ==> MayWrite(MqttAttempt(ns, name), k)
  {
    var ks := MqttTriggerRuns.ChildKeys(ns);
    assert ks[0] in ks && ks[3] in ks;
  }

  lemma MqttKeepsAway(ns: string, name: string, ti: TwinInterface, k: Key, hidden: set<Key>)
    requires ns != ti.id.ns || MqttQueues(ns) <= hidden
    ensures !(MayWrite(MqttAttempt(ns, name), k) && MayTouch(InterfaceAttempt(ti), k, hidden))
    ensures !(MayWrite(InterfaceAttempt(ti), k) && MayTouch(MqttAttempt(ns, name), k, hidden))
  {
    MqttKinds(ns, name, k, hidden);
    if InterfaceWrites(ti, k) {
      InterfaceKinds(ti, k);
    }
  }

  /** An MQTTTrigger writes queues where an interface of its namespace lists queues, by trigger.
      So the two are apart exactly if the namespaces differ or those queues are among the hidden
      keys, which are taken to carry no trigger label. */
  lemma MqttInterfaceApartIff(ns: string, name: string, ti: TwinInterface, hidden: set<Key>)
    ensures Apart(MqttAttempt(ns, name), InterfaceAttempt(ti), hidden) <==> ns != ti.id.ns || MqttQueues(ns) <= hidden
  {
    if ns == ti.id.ns && !(MqttQueues(ns) <= hidden) {
      var k :| k in MqttQueues(ns) && k !in hidden;
      MqttKinds(ns, name, k, hidden);
      assert MayWrite(MqttAttempt(ns, name), k) && MayTouch(InterfaceAttempt(ti), k, hidden);
    } else {
      forall k
        ensures !(MayWrite(MqttAttempt(ns, name), k) && MayTouch(InterfaceAttempt(ti), k, hidden))
        ensures !(MayWrite(InterfaceAttempt(ti), k) && MayTouch(MqttAttempt(ns, name), k, hidden))
      {
        MqttKeepsAway(ns, name, ti, k, hidden);
      }
    }
  }

  /** An MQTTTrigger and an interface of one namespace, from a store in which the trigger's queues,
      if they are there, carry no trigger label: any interleaving of their reconciles is the one's
      undisturbed run followed by the other's. */
  lemma MqttBesideInterface(ns: string, name: string, ti: TwinInterface, s: Store, turns: seq<Turn>)
    requires s.Valid() && Hides(s, MqttQueues(ns))
    requires IsInterleaving(Crew(Attempting(), [MqttAttempt(ns, name), InterfaceAttempt(ti)], s), turns)
    ensures var ma, mb := Acts(Only(0, turns)), Acts(Only(1, turns));
            var wa := WorldAfter(World(MqttAttempt(ns, name), s), ma);
            var wb := WorldAfter(World(InterfaceAttempt(ti), wa.store), mb);
            && IsRun(World(MqttAttempt(ns, name), s), ma) && IsRun(World(InterfaceAttempt(ti), wa.store), mb)
            && CrewAfter(Crew(Attempting(), [MqttAttempt(ns, name), InterfaceAttempt(ti)], s), turns)
               == Crew(Attempting(), [wa.proc, wb.proc], wb.store)
  {
    var hidden := MqttQueues(ns);
    MqttStartIsBound(ns, name, hidden);
    InterfaceStartIsBound(ti, hidden);
    MqttInterfaceApartIff(ns, name, ti, hidden);
    TwoAttempts(MqttAttempt(ns, name), InterfaceAttempt(ti), s, turns, hidden);
  }

  /** An MQTTTrigger is apart from every EventStore and Visualisation. */
  lemma MqttIsApartFromPairs(ns: string, name: string, q: Proc, ps: string, n: string, hidden: set<Key>)
    requires OwnsPair(q, ps, n)
    ensures Apart(MqttAttempt(ns, name), q, hidden)
  {
    forall k
      ensures !(MayWrite(MqttAttempt(ns, name), k) && MayTouch(q, k, hidden))
      ensures !(MayWrite(q, k) && MayTouch(MqttAttempt(ns, name), k, hidden))
    {
      MqttKinds(ns, name, k, hidden);
    }
  }

  /** Two MQTTTriggers of one namespace share their six objects. */
  lemma MqttsApartIff(ns: string, name: string, ms: string, other: string, hidden: set<Key>)
    ensures Apart(MqttAttempt(ns, name), MqttAttempt(ms, other), hidden) <==> ns != ms
  {
    var p, q := MqttAttempt(ns, name), MqttAttempt(ms, other);
    MqttKinds(ns, name, Key(QueueKind, ns, MQTT_DISPATCHER_QUEUE), hidden);
    MqttKinds(ms, other, Key(QueueKind, ms, MQTT_DISPATCHER_QUEUE), hidden);
    if ns == ms {
      assert MayTouch(q, Key(QueueKind, ns, MQTT_DISPATCHER_QUEUE), hidden);
    } else {
      forall k ensures !(MayWrite(p, k) && MayTouch(q, k, hidden)) && !(MayWrite(q, k) && MayTouch(p, k, hidden)) {
        MqttKinds(ns, name, k, hidden);
        MqttKinds(ms, other, k, hidden);
      }
    }
  }

  // ---------- interfaces with good names ----------

  lemma WantedIsDashFree(ti: TwinInterface, c: TI.Child)
    requires Names.WellNamed(ti) && TI.Wanted(ti, c)
    ensures Names.DashFree(ti, c)
  {
    match c
    case RelationshipMqtt(r) =>
      var i :| 0 <= i < |TI.MqttChildren(ti)| && TI.MqttChildren(ti)[i] == c;
      assert r.name == Names.RelationshipNames(ti)[i - 1];
    case RelationshipReal(r) =>
      var i :| 0 <= i < |TI.RelationshipChildren(ti)| && TI.RelationshipChildren(ti)[i] == c;
      assert r.name == Names.RelationshipNames(ti)[i];
    case CommandBound(command) =>
      var i :| 0 <= i < |TI.CommandChildren(ti)| && TI.CommandChildren(ti)[i] == c;
      assert command == ti.spec.commands[i];
    case _ =>
  }

  lemma GoodNamesShareNoChild(a: TwinInterface, c: TI.Child, b: TwinInterface, d: TI.Child)
    requires Names.WellNamed(a) && Names.WellNamed(b) && !Names.SameInterface(a, b)
    requires TI.Wanted(a, c) && TI.Wanted(b, d)
    ensures TI.ChildKey(a, c) != TI.ChildKey(b, d)
  {
    if Names.IsBinding(c) && Names.IsBinding(d) {
      WantedIsDashFree(a, c);
      WantedIsDashFree(b, d);
      Names.DashFreeSameKeyIff(a, c, b, d);
    }
  }

  /** Different interfaces with names free of '-' never interfere, however their reconciles
      interleave, unless one serves as the event store whose address the other reads. */
  lemma GoodNamesAreApartIff(a: TwinInterface, b: TwinInterface, hidden: set<Key>)
    requires Names.WellNamed(a) && Names.WellNamed(b) && !Names.SameInterface(a, b)
    ensures Apart(InterfaceAttempt(a), InterfaceAttempt(b), hidden)
            <==> !(ServesAsEventStore(a) && b.spec.service.Some?) && !(ServesAsEventStore(b) && a.spec.service.Some?)
  {
    InterfacesApartIff(a, b, hidden);
    forall c, d | TI.Wanted(a, c) && TI.Wanted(b, d) ensures TI.ChildKey(a, c) != TI.ChildKey(b, d) {
      GoodNamesShareNoChild(a, c, b, d);
    }
  }
}
