/** internal/controller/dtd/twininterface_controller.go, statement by statement. Each method
    makes exactly the calls its machine asks for and ends where the machine ends. */
module TwinInterfaceController {
  import opened Resources
  import opened Client
  import opened Runs
  import opened TwinInterfaceMachine
  import Api = ClusterApi
  import TwinEvents
  import TwinService

  function Logged(errors: seq<Api.Error>, err: Option<Api.Error>): seq<Api.Error> {
    if err.Some? then errors + [err.value] else errors
  }

  /** `if err != nil && !errors.IsAlreadyExists(err)` */
  function LoggedCreate(errors: seq<Api.Error>, err: Option<Api.Error>): seq<Api.Error> {
    if err == Some(Api.AlreadyExists) then errors else Logged(errors, err)
  }

  /** The broker and event-store addresses; a failed call is recorded. */
  method GetAddresses(c: Client, ti: TwinInterface)
      returns (brokerUrl: Option<string>, eventStoreUrl: string, errors: seq<Api.Error>)
    requires c.Tracks() && c.proc == Interface(Start(ti)) && ti.spec.service.Some?
    modifies c, c.api
    ensures c.Tracks()
    ensures c.proc == Interface(State(ti, errors,
                                      NOTHING_FOUND.(brokerUrl := brokerUrl, eventStoreUrl := eventStoreUrl),
                                      if brokerUrl.None? then Finished(Api.Panicked) else CreateService))
  {
    var broker, err := c.Get(BROKER_KEY);
    errors := Logged([], err);
    brokerUrl := if broker.Some? then AddressOf(broker.value) else None;
    var eventStore;
    eventStore, err := c.Get(EVENT_STORE_KEY);
    errors := Logged(errors, err);
    eventStoreUrl := if eventStore.Some? then UrlOf(eventStore.value) else "";
  }

  /** Creates the service, or compares the existing one and updates it. `abort` is the error
      the whole function returns at once. */
  method EnsureService(c: Client, ghost st: State, desired: Object, logged: seq<Api.Error>)
      returns (errors: seq<Api.Error>, abort: Option<Api.Error>)
    requires c.Tracks() && c.proc == Interface(st) && st.errors == logged && st.step == CreateService
    requires st.ti.spec.service.Some? && desired == Build(st.ti, OwnService, st.found)
    modifies c, c.api
    ensures c.Tracks()
    ensures abort.None? ==> c.proc == Interface(st.(errors := errors, step := CreateTrigger))
    ensures abort.Some? ==> c.proc.Ended(Api.Failing(abort.value))
  {
    errors, abort := logged, None;
    var err := c.Create(desired);
    if err.Some? && err.value != Api.AlreadyExists {
      errors := errors + [err.value];
    } else if err.Some? {
      var current, getErr := c.Get(desired.KeyOf());
      if getErr.Some? {
        return errors, getErr;
      }
      errors := RefreshService(c, st, current.value, desired, errors);
    }
  }

  /** Updates the service that was found if it differs from the desired one. */
  method RefreshService(c: Client, ghost st: State, current: Object, desired: Object, logged: seq<Api.Error>)
      returns (errors: seq<Api.Error>)
    requires st.ti.spec.service.Some? && desired == Build(st.ti, OwnService, st.found) && current.body.KServiceBody?
    requires c.Tracks() && st.errors == logged
    requires c.proc == Interface(if UpToDate(st, current) then st.(step := CreateTrigger)
                                 else st.(step := UpdateService(current)))
    modifies c, c.api
    ensures c.Tracks() && c.proc == Interface(st.(errors := errors, step := CreateTrigger))
  {
    errors := logged;
    var equal := TwinService.CompareTwinService(current.body.config, desired.body.config);
    if !equal {
      var err := c.Update(MergeService(current, desired));
      errors := Logged(errors, err);
    }
  }

  /** The state before creating the i-th of a list of bindings. */
  ghost function Midway(st: State, errors: seq<Api.Error>, i: nat): State
    requires st.step.CreateMqtt? || st.step.CreateRelationship? || st.step.CreateCommand?
    requires i <= |st.step.rest|
  {
    var now, rest := st.(errors := errors), st.step.rest[i..];
    match st.step
    case CreateMqtt(_) => if rest != [] then now.(step := CreateMqtt(rest)) else now.(step := ListEventStoreQueue)
    case CreateRelationship(_) => if rest != [] then now.(step := CreateRelationship(rest)) else ToCommands(now)
    case CreateCommand(_) => if rest != [] then now.(step := CreateCommand(rest)) else Conclude(now)
  }

  /** The kind of child each loop creates. */
  predicate Fits(step: Step, child: Child) {
    match step
    case CreateMqtt(_) => child.OwnMqtt? || child.RelationshipMqtt?
    case CreateRelationship(_) => child.RelationshipReal?
    case CreateCommand(_) => child.CommandBound?
    case _ => false
  }

  lemma MidwayStep(st: State, errors: seq<Api.Error>, i: nat, err: Option<Api.Error>)
    requires st.step.CreateMqtt? || st.step.CreateRelationship? || st.step.CreateCommand?
    requires i < |st.step.rest| && Fits(st.step, st.step.rest[i])
    ensures Asking(Midway(st, errors, i)) && Pending(Midway(st, errors, i)) == Some(st.step.rest[i])
    ensures Tell(Midway(st, errors, i), Api.Answer(err)) == Midway(st, LoggedCreate(errors, err), i + 1)
  {
    var rest := st.step.rest;
    assert rest[i..] != [] && rest[i..][0] == rest[i] && rest[i..][1..] == rest[i + 1..];
  }

  /** One of the loops that create bindings. */
  method CreateBindings(c: Client, ghost st: State, bindings: seq<Object>, logged: seq<Api.Error>)
      returns (errors: seq<Api.Error>)
    requires c.Tracks() && c.proc == Interface(st) && st.errors == logged && bindings != []
    requires st.step.CreateMqtt? || st.step.CreateRelationship? || st.step.CreateCommand?
    requires |bindings| == |st.step.rest|
    requires forall i :: 0 <= i < |bindings| ==>
               Fits(st.step, st.step.rest[i]) && bindings[i] == Build(st.ti, st.step.rest[i], st.found)
    modifies c, c.api
    ensures c.Tracks() && c.proc == Interface(Midway(st, errors, |bindings|))
  {
    errors := logged;
    ghost var rest := st.step.rest;
    assert rest[0..] == rest;
    for i := 0 to |bindings|
      invariant c.Tracks() && c.proc == Interface(Midway(st, errors, i))
    {
      MidwayStep(st, errors, i, None);
      var err := c.Create(bindings[i]);
      MidwayStep(st, errors, i, err);
      errors := LoggedCreate(errors, err);
    }
  }

  /** The part for an interface with a service: service and trigger. */
  method EnsureServiceAndTrigger(c: Client, ti: TwinInterface, service: TwinInterfaceService)
      returns (ghost st: State, errors: seq<Api.Error>, abort: Option<Api.Outcome>)
    requires c.Tracks() && c.proc == Interface(Start(ti)) && ti.spec.service == Some(service)
    modifies c, c.api
    ensures c.Tracks() && st.ti == ti && st.errors == errors
    ensures abort.None? ==> c.proc == Interface(st) && st.step == CreateMqtt(MqttChildren(ti))
    ensures abort.Some? ==> c.proc.Ended(abort.value)
  {
    var brokerUrl, eventStoreUrl;
    brokerUrl, eventStoreUrl, errors := GetAddresses(c, ti);
    if brokerUrl.None? {
      return State(ti, errors, NOTHING_FOUND, GetBroker), errors, Some(Api.Panicked);
    }
    var desired := TwinService.GetService(ti, service, brokerUrl.value, eventStoreUrl);
    st := State(ti, errors, NOTHING_FOUND.(brokerUrl := brokerUrl, eventStoreUrl := eventStoreUrl), CreateService);
    var failed;
    errors, failed := EnsureService(c, st, desired, errors);
    abort := if failed.Some? then Some(Api.Failing(failed.value)) else None;
    if abort.None? {
      var err := c.Create(TwinEvents.TwinInterfaceTrigger(ti).value);
      errors := LoggedCreate(errors, err);
    }
    st := st.(errors := errors, step := CreateMqtt(MqttChildren(ti)));
  }

  method CreateUpdateTwinInterface(c: Client, ti: TwinInterface) returns (outcome: Api.Outcome)
    requires c.Tracks() && c.proc == Interface(Start(ti))
    modifies c, c.api
    ensures c.Tracks() && c.proc.Ended(outcome)
  {
    ghost var st := Start(ti);
    var errors: seq<Api.Error> := [];
    if ti.spec.service.Some? {
      var abort;
      st, errors, abort := EnsureServiceAndTrigger(c, ti, ti.spec.service.value);
      if abort.Some? {
        return abort.value;
      }
    }
    outcome := BindEverything(c, st, ti, errors);
  }

  method BindEverything(c: Client, ghost st: State, ti: TwinInterface, logged: seq<Api.Error>)
      returns (outcome: Api.Outcome)
    requires c.Tracks() && c.proc == Interface(st)
    requires st.ti == ti && st.errors == logged && st.step == CreateMqtt(MqttChildren(ti))
    modifies c, c.api
    ensures c.Tracks() && c.proc.Ended(outcome)
  {
    var bindings := TwinEvents.GetMqttDispatcherBindings(ti);
    var errors := CreateBindings(c, st, bindings, logged);
    outcome := BindToBroker(c, st.(errors := errors, step := ListEventStoreQueue), ti, errors);
  }

  /** The attempt is about to return, and has these errors on record. */
  ghost predicate Concludes(p: Proc, ti: TwinInterface, errors: seq<Api.Error>) {
    && p.Interface? && p.ti.ti == ti && p.ti.errors == errors
    && p.ti.step == if errors != [] then Finished(Api.Failing(errors[0])) else UpdateInterface
  }

  /** From the event-store queue to the end of the function. */
  method BindToBroker(c: Client, ghost st: State, ti: TwinInterface, logged: seq<Api.Error>)
      returns (outcome: Api.Outcome)
    requires c.Tracks() && c.proc == Interface(st)
    requires st.ti == ti && st.errors == logged && st.step == ListEventStoreQueue
    modifies c, c.api
    ensures c.Tracks() && c.proc.Ended(outcome)
  {
    var queues, err := c.List(QueueKind, ti.id.ns, EVENT_STORE_SELECTOR);
    if err.Some? {
      return Api.Failing(err.value);
    }
    var eventStoreQueue := if queues == [] then "" else QueueNameOf(queues[0]);
    ghost var now := st.(found := st.found.(eventStoreQueue := eventStoreQueue), step := ListExchange);
    var errors, early := BindToExchange(c, now, ti, eventStoreQueue, logged);
    if early.Some? {
      return early.value;
    }
    if |errors| > 0 {
      return Api.Failing(errors[0]);
    }
    var _ := c.Update(Running(ti));
    outcome := Api.Succeeded;
  }

  method BindToExchange(c: Client, ghost st: State, ti: TwinInterface, eventStoreQueue: string, logged: seq<Api.Error>)
      returns (errors: seq<Api.Error>, early: Option<Api.Outcome>)
    requires c.Tracks() && c.proc == Interface(st)
    requires st.ti == ti && st.errors == logged && st.step == ListExchange
    requires st.found.eventStoreQueue == eventStoreQueue
    modifies c, c.api
    ensures c.Tracks()
    ensures early.Some? ==> c.proc.Ended(early.value)
    ensures early.None? ==> Concludes(c.proc, ti, errors)
  {
    errors, early := logged, None;
    var exchanges, err := c.List(ExchangeKind, ti.id.ns, EXCHANGE_SELECTOR);
    if err.Some? {
      errors := errors + [err.value];
      return;
    }
    if exchanges == [] {
      return errors, Some(Api.Panicked);
    }
    var exchange := ExchangeNameOf(exchanges[0]);
    var bindings := TwinEvents.EventStoreBindings(ti, exchange, eventStoreQueue);
    ghost var found := st.(found := st.found.(exchange := exchange), step := CreateEventStore);
    err := c.Create(bindings[0]);
    errors := LoggedCreate(errors, err);
    if ti.spec.service.Some? {
      var requeue;
      errors, requeue := BindToQueue(c, found.(errors := errors, step := ListQueue), ti, exchange, errors);
      if requeue {
        early := Some(Api.Requeued(Api.NotFound));
      }
    }
  }

  /** The bindings of an interface with a trigger to its own queue. */
  method BindToQueue(c: Client, ghost st: State, ti: TwinInterface, exchange: string, logged: seq<Api.Error>)
      returns (errors: seq<Api.Error>, requeue: bool)
    requires c.Tracks() && c.proc == Interface(st)
    requires st.ti == ti && st.errors == logged && st.found.exchange == exchange && st.step == ListQueue
    requires ti.spec.service.Some?
    modifies c, c.api
    ensures c.Tracks()
    ensures requeue ==> c.proc.Ended(Api.Requeued(Api.NotFound))
    ensures !requeue ==> Concludes(c.proc, ti, errors)
  {
    errors, requeue := logged, false;
    var queues, err := c.List(QueueKind, ti.id.ns, QueueSelector(ti));
    if err == Some(Api.NotFound) || (err.None? && queues == []) {
      return errors, true;
    }
    if err.Some? {
      errors := errors + [err.value];
      return;
    }
    var queue := QueueNameOf(queues[0]);
    errors := BindOwnQueue(c, st.(found := st.found.(queue := queue)), ti, exchange, queue, errors);
  }

  method BindOwnQueue(c: Client, ghost st: State, ti: TwinInterface, exchange: string, queue: string,
                      logged: seq<Api.Error>)
      returns (errors: seq<Api.Error>)
    requires c.Tracks() && c.proc == Interface(ToRelationships(st))
    requires st.ti == ti && st.errors == logged && st.found.exchange == exchange && st.found.queue == queue
    modifies c, c.api
    ensures c.Tracks() && Concludes(c.proc, ti, errors)
  {
    errors := logged;
    var bindings := TwinEvents.GetRelationshipBrokerBindings(ti, exchange, queue);
    if bindings != [] {
      errors := CreateBindings(c, st.(step := CreateRelationship(RelationshipChildren(ti))), bindings, errors);
    }
    errors := BindCommands(c, st.(errors := errors), ti, exchange, queue, errors);
  }

  method BindCommands(c: Client, ghost st: State, ti: TwinInterface, exchange: string, queue: string,
                      logged: seq<Api.Error>)
      returns (errors: seq<Api.Error>)
    requires c.Tracks() && c.proc == Interface(ToCommands(st))
    requires st.ti == ti && st.errors == logged && st.found.exchange == exchange && st.found.queue == queue
    modifies c, c.api
    ensures c.Tracks() && Concludes(c.proc, ti, errors)
  {
    errors := logged;
    var bindings := TwinEvents.GetTwinInterfaceCommandBindings(ti, exchange, queue);
    if bindings != [] {
      errors := CreateBindings(c, st.(step := CreateCommand(CommandChildren(ti))), bindings, errors);
    }
  }
}
