/** internal/controller/core: the EventStore, Visualisation and MQTTTrigger controllers,
    statement by statement, each following its machine. */
module CoreControllers {
  import opened Resources
  import opened Client
  import opened Runs
  import opened CoreChildren
  import Api = ClusterApi
  import ST = ServiceTriggerMachine
  import MQ = MqttTriggerMachine

  // ---------- EventStore ----------

  method CreateOrUpdateEventStoreResources(c: Client, es: EventStore) returns (outcome: Api.Outcome)
    requires c.Tracks() && c.proc == ServiceAndTrigger(ST.StartEventStore(es))
    modifies c, c.api
    ensures c.Tracks() && c.proc.Ended(outcome)
  {
    if es.timeout.None? {
      return Api.Panicked;
    }
    var newSvc := EventStoreService(es);
    var err := c.Create(newSvc);
    if err.Some? && err.value != Api.AlreadyExists {
      return Api.Failing(err.value);
    } else if err.Some? {
      var currentSvc, getErr := c.Get(Key(KServiceKind, es.id.ns, es.id.name));
      if getErr.Some? {
        return Api.Failing(getErr.value);
      }
      var updateErr := c.Update(MergeService(currentSvc.value, newSvc));
      if updateErr.Some? {
        return Api.Failing(updateErr.value);
      }
    }
    outcome := EnsureEventStoreTrigger(c, es);
  }

  method EnsureEventStoreTrigger(c: Client, es: EventStore) returns (outcome: Api.Outcome)
    requires c.Tracks() && es.timeout.Some?
    requires c.proc == ServiceAndTrigger(ST.StartEventStore(es).(step := ST.CreateTrigger))
    modifies c, c.api
    ensures c.Tracks() && c.proc.Ended(outcome)
  {
    var newTrig := EventStoreTrigger(es);
    var err := c.Create(newTrig);
    if err.Some? && err.value != Api.AlreadyExists {
      return Api.Failing(err.value);
    } else if err.Some? {
      var currentTrig, getErr := c.Get(Key(TriggerKind, es.id.ns, TriggerName(es.id.name)));
      if getErr.Some? {
        return Api.Failing(getErr.value);
      }
      var updateErr := c.Update(MergeWholeTrigger(currentTrig.value, newTrig));
      if updateErr.Some? {
        return Api.Failing(updateErr.value);
      }
    }
    outcome := Api.Succeeded;
  }

  // ---------- Visualisation ----------

  method CreateOrUpdateVisualisationResources(c: Client, v: Visualisation) returns (outcome: Api.Outcome)
    requires c.Tracks() && c.proc == ServiceAndTrigger(ST.StartVisualisation(v))
    modifies c, c.api
    ensures c.Tracks() && c.proc.Ended(outcome)
  {
    var newSvc := VisualisationService(v);
    var err := c.Create(newSvc);
    if err.Some? && err.value != Api.AlreadyExists {
      return Api.Failing(err.value);
    } else if err.Some? {
      var current, getErr := c.Get(Key(KServiceKind, v.id.ns, v.id.name));
      if getErr.Some? {
        return Api.Failing(getErr.value);
      }
      var updateErr := c.Update(MergeService(current.value, newSvc));
      if updateErr.Some? {
        return Api.Failing(updateErr.value);
      }
    }
    outcome := EnsureVisualisationTrigger(c, v);
  }

  method EnsureVisualisationTrigger(c: Client, v: Visualisation) returns (outcome: Api.Outcome)
    requires c.Tracks()
    requires c.proc == ServiceAndTrigger(ST.StartVisualisation(v).(step := ST.CreateTrigger))
    modifies c, c.api
    ensures c.Tracks() && c.proc.Ended(outcome)
  {
    var newTrig := VisualisationTrigger(v);
    var err := c.Create(newTrig);
    if err.Some? && err.value != Api.AlreadyExists {
      return Api.Failing(err.value);
    } else if err.Some? {
      var currentTrig, getErr := c.Get(Key(TriggerKind, v.id.ns, TriggerName(v.id.name)));
      if getErr.Some? {
        return Api.Failing(getErr.value);
      }
      var updateErr := c.Update(MergeTriggerAnnotations(currentTrig.value, newTrig));
      if updateErr.Some? {
        return Api.Failing(updateErr.value);
      }
    }
    outcome := Api.Succeeded;
  }

  // ---------- MQTTTrigger ----------

  method ReconcileMqttTrigger(c: Client, ns: string, name: string) returns (outcome: Api.Outcome)
    requires c.Tracks() && c.proc == Mqtt(MQ.Start(ns, name))
    modifies c, c.api
    ensures c.Tracks() && c.proc.Ended(outcome)
  {
    var trigger, err := c.Get(Key(MqttTriggerKind, ns, name));
    if err == Some(Api.NotFound) {
      return Api.Succeeded;
    }
    if err.Some? {
      return Api.Failing(err.value);
    }
    ghost var st := MQ.Start(ns, name).(id := MQ.IdentityOf(trigger.value), step := MQ.GetSecret);
    var failed;
    st, failed := CreateOrUpdateMqttTrigger(c, st, MQ.IdentityOf(trigger.value));
    var phase := if failed.Some? then MQ.ERROR else MQ.READY;
    err := c.UpdateStatus(MQ.WithPhase(MQ.IdentityOf(trigger.value), phase));
    if failed.Some? {
      return Api.Failing(failed.value);
    }
    if err.Some? {
      return Api.Failing(err.value);
    }
    outcome := Api.Succeeded;
  }

  /** Reads the secret and the exchange and applies the six children in order. */
  method CreateOrUpdateMqttTrigger(c: Client, ghost st: MQ.State, id: Identity)
      returns (ghost end: MQ.State, failed: Option<Api.Error>)
    requires c.Tracks() && c.proc == Mqtt(st) && st.step == MQ.GetSecret && st.id == id
    modifies c, c.api
    ensures c.Tracks() && c.proc == Mqtt(end) && end.id == id && end.self == st.self
    ensures end.step == if failed.Some? then MQ.WritePhase(MQ.ERROR, Api.Failing(failed.value))
                        else MQ.WritePhase(MQ.READY, Api.Succeeded)
  {
    var secret, err := c.Get(MQ.SECRET_KEY);
    if err.Some? {
      return MQ.Fail(st, err.value), err;
    }
    end := st.(secret := secret.value.body.data, step := MQ.ListExchange);
    var exchanges;
    exchanges, err := c.List(ExchangeKind, "twinscale", EXCHANGE_SELECTOR);
    if err.Some? {
      return MQ.Fail(end, err.value), err;
    }
    if exchanges == [] {
      return MQ.Fail(end, Api.NoExchange), Some(Api.NoExchange);
    }
    var exchange := exchanges[0].meta.name;
    var children := MQ.Children(id, secret.value.body.data, exchange);
    end, failed := ApplyChildren(c, end.(exchange := exchange, step := MQ.FetchChild(children)), children);
  }

  /** The six `apply` statements, one after the other until one fails. */
  method ApplyChildren(c: Client, ghost st: MQ.State, children: seq<Object>)
      returns (ghost end: MQ.State, failed: Option<Api.Error>)
    requires c.Tracks() && c.proc == Mqtt(st) && |children| == 6 && st.step == MQ.FetchChild(children)
    modifies c, c.api
    ensures c.Tracks() && c.proc == Mqtt(end) && end.id == st.id && end.self == st.self
    ensures end.step == if failed.Some? then MQ.WritePhase(MQ.ERROR, Api.Failing(failed.value))
                        else MQ.WritePhase(MQ.READY, Api.Succeeded)
  {
    end, failed := ApplyThree(c, st, children);
    if failed.None? {
      end, failed := ApplyThree(c, end, children[3..]);
    }
  }

  /** Queue, Deployment and Service of one dispatcher. */
  method ApplyThree(c: Client, ghost st: MQ.State, children: seq<Object>)
      returns (ghost end: MQ.State, failed: Option<Api.Error>)
    requires c.Tracks() && c.proc == Mqtt(st) && |children| >= 3 && st.step == MQ.FetchChild(children)
    modifies c, c.api
    ensures c.Tracks() && c.proc == Mqtt(end)
    ensures end == if failed.Some? then MQ.Fail(st, failed.value) else MQ.Next(st, children[3..])
  {
    assert children[1..][1..] == children[2..] && children[2..][1..] == children[3..];
    end, failed := ApplyChild(c, st, children[0]);
    if failed.Some? {
      return;
    }
    end, failed := ApplyChild(c, end, children[1]);
    if failed.Some? {
      return;
    }
    end, failed := ApplyChild(c, end, children[2]);
  }

  /** `applyQueue`, `applyDeployment` and `applyService`: they differ only in the type. */
  method ApplyChild(c: Client, ghost st: MQ.State, desired: Object)
      returns (ghost end: MQ.State, err: Option<Api.Error>)
    requires c.Tracks() && c.proc == Mqtt(st)
    requires st.step.FetchChild? && st.step.todo != [] && st.step.todo[0] == desired
    modifies c, c.api
    ensures c.Tracks() && c.proc == Mqtt(end)
    ensures end == if err.Some? then MQ.Fail(st, err.value) else MQ.Next(st, st.step.todo[1..])
  {
    var existing;
    existing, err := c.Get(desired.KeyOf());
    if err == Some(Api.NotFound) {
      err := c.Create(desired);
    } else if err.Some? {
      return MQ.Fail(st, err.value), err;
    } else {
      err := c.Update(existing.value.(body := desired.body));
    }
    end := if err.Some? then MQ.Fail(st, err.value) else MQ.Next(st, st.step.todo[1..]);
  }
}
