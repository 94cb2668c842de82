/** What one call of `createUpdateTwinInterface` keeps. */
module InterfaceSteps {
  import opened Resources
  import opened ClusterApi
  import opened TwinInterfaceMachine

  // ---------- reachable states ----------

  /** The lists hold wanted children of their kind, a fetched service is the own one, and a service
      is built only with an address of the broker. */
  ghost predicate Sane(st: State) {
    && (Asking(st) || st.step.Finished?)
    && match st.step
       case CreateService => st.found.brokerUrl.Some?
       case FetchService => st.found.brokerUrl.Some?
       case UpdateService(current) => st.found.brokerUrl.Some? && current.KeyOf() == ChildKey(st.ti, OwnService)
       case CreateMqtt(rest) => forall c :: c in rest ==> c in MqttChildren(st.ti)
       case ListQueue => st.ti.spec.service.Some?
       case CreateRelationship(rest) =>
         st.ti.spec.service.Some? && forall c :: c in rest ==> c in RelationshipChildren(st.ti)
       case CreateCommand(rest) => st.ti.spec.service.Some? && forall c :: c in rest ==> c in CommandChildren(st.ti)
       case _ => true
  }

  /** What a valid store guarantees about an answer. */
  predicate Plausible(st: State, resp: Response) {
    st.step.FetchService? && resp.Fetched? ==> resp.obj.KeyOf() == ChildKey(st.ti, OwnService)
  }

  lemma AdmittedIsPlausible(st: State, s: Store, e: Event)
    requires s.Valid() && Asking(st) && e.req == Ask(st) && Admits(s, e)
    ensures Plausible(st, e.resp)
  {
  }

  lemma StartIsSane(ti: TwinInterface)
    ensures Sane(Start(ti))
  {
  }

  lemma HeadAndTail(rest: seq<Child>)
    requires rest != []
    ensures rest[0] in rest && forall c :: c in rest[1..] ==> c in rest
    ensures |rest| > 1 ==> rest[1..][0] in rest
  {
    assert |rest| > 1 ==> rest[1..][0] == rest[1];
  }

  lemma ToCommandsIsSane(st: State)
    requires st.ti.spec.service.Some?
    ensures Sane(ToCommands(st)) && ToCommands(st).ti == st.ti
  {
    if CommandChildren(st.ti) != [] {
      assert CommandChildren(st.ti)[0] in CommandChildren(st.ti);
    }
  }

  lemma ToRelationshipsIsSane(st: State)
    requires st.ti.spec.service.Some?
    ensures Sane(ToRelationships(st)) && ToRelationships(st).ti == st.ti
  {
    ToCommandsIsSane(st);
    if RelationshipChildren(st.ti) != [] {
      assert RelationshipChildren(st.ti)[0] in RelationshipChildren(st.ti);
    }
  }

  lemma SaneListStep(st: State, resp: Response)
    requires Asking(st) && Sane(st)
    requires st.step.CreateMqtt? || st.step.CreateRelationship? || st.step.CreateCommand?
    ensures Sane(Tell(st, resp)) && Tell(st, resp).ti == st.ti
  {
    HeadAndTail(st.step.rest);
    if st.step.CreateRelationship? {
      ToCommandsIsSane(NoteCreate(st, resp));
    }
  }

  lemma SaneQueueStep(st: State, resp: Response)
    requires st.step.ListQueue? && st.ti.spec.service.Some?
    ensures Sane(Tell(st, resp)) && Tell(st, resp).ti == st.ti
  {
    if resp.Listed? && resp.items != [] {
      ToRelationshipsIsSane(st.(found := st.found.(queue := QueueNameOf(resp.items[0]))));
    }
  }

  lemma SaneStep(st: State, resp: Response)
    requires Asking(st) && Sane(st) && Plausible(st, resp)
    ensures Sane(Tell(st, resp)) && Tell(st, resp).ti == st.ti
  {
    if st.step.CreateMqtt? || st.step.CreateRelationship? || st.step.CreateCommand? {
      SaneListStep(st, resp);
    } else if st.step.ListQueue? {
      SaneQueueStep(st, resp);
    } else if st.step.CreateTrigger? {
      assert MqttChildren(st.ti)[0] == OwnMqtt;
    }
  }

  /** What is created is a wanted child under its own key. */
  lemma PendingIsWanted(st: State)
    requires Asking(st) && Sane(st) && Pending(st).Some?
    ensures Wanted(st.ti, Pending(st).value)
    ensures Ask(st).Create? && Ask(st).obj.KeyOf() == ChildKey(st.ti, Pending(st).value)
  {
    if st.step.CreateMqtt? || st.step.CreateRelationship? || st.step.CreateCommand? {
      assert st.step.rest[0] in st.step.rest;
    }
  }

  // ---------- nothing is skipped ----------

  function Stage(c: Child): nat {
    match c
    case OwnService => 0
    case OwnTrigger => 1
    case OwnMqtt => 2
    case RelationshipMqtt(_) => 2
    case EventStoreBound => 3
    case RelationshipReal(_) => 4
    case CommandBound(_) => 5
  }

  /** The attempt has yet to try this child. */
  ghost predicate ToCome(st: State, c: Child) {
    match st.step
    case GetBroker => true
    case GetEventStore => true
    case CreateService => true
    case FetchService => Stage(c) >= 1
    case UpdateService(_) => Stage(c) >= 1
    case CreateTrigger => Stage(c) >= 1
    case CreateMqtt(rest) => c in rest || Stage(c) >= 3
    case ListEventStoreQueue => Stage(c) >= 3
    case ListExchange => Stage(c) >= 3
    case CreateEventStore => Stage(c) >= 3
    case ListQueue => Stage(c) >= 4
    case CreateRelationship(rest) => c in rest || Stage(c) >= 5
    case CreateCommand(rest) => c in rest
    case UpdateInterface => false
    case Finished(_) => false
  }

  /** The attempt has neither recorded an error nor given up. */
  predicate Flawless(st: State) {
    st.errors == [] && (st.step.Finished? ==> st.step.outcome == Succeeded)
  }

  lemma FlawlessBefore(st: State, resp: Response)
    requires Asking(st) && Flawless(Tell(st, resp))
    ensures Flawless(st)
  {
  }

  /** A wanted child leaves the list of things to come only by being tried. */
  lemma NothingIsSkipped(st: State, resp: Response, c: Child)
    requires Asking(st) && Sane(st) && Wanted(st.ti, c)
    requires ToCome(st, c) && Flawless(Tell(st, resp)) && !ToCome(Tell(st, resp), c)
    ensures Pending(st) == Some(c)
    ensures resp == Failed(AlreadyExists) || !resp.Failed?
  {
  }
}
