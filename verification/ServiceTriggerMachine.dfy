/** `createOrUpdateEventStoreResources` and `createOrUpdateVisualisationResources` as one step
    machine: the two have the same calls in the same order and differ in what they build and in
    how they merge an existing Trigger. */
module ServiceTriggerMachine {
  import opened Resources
  import opened ClusterApi
  import opened CoreChildren

  datatype Discipline = WholeTrigger | AnnotationsOnly

  datatype Step =
    | CreateService
    | FetchService
    | UpdateService(merged: Object)
    | CreateTrigger
    | FetchTrigger
    | UpdateTrigger(merged: Object)
    | Finished(outcome: Outcome)

  datatype State = State(service: Object, trigger: Object, discipline: Discipline, step: Step)

  /** An EventStore without a timeout makes the builder panic before the first call. */
  function StartEventStore(es: EventStore): State {
    if es.timeout.None? then
      State(EventStoreTrigger(es), EventStoreTrigger(es), WholeTrigger, Finished(Panicked))
    else
      State(EventStoreService(es), EventStoreTrigger(es), WholeTrigger, CreateService)
  }

  function StartVisualisation(v: Visualisation): State {
    State(VisualisationService(v), VisualisationTrigger(v), AnnotationsOnly, CreateService)
  }

  function MergeTrigger(discipline: Discipline, current: Object, desired: Object): Object {
    if discipline.WholeTrigger? then MergeWholeTrigger(current, desired) else MergeTriggerAnnotations(current, desired)
  }

  predicate Asking(st: State) {
    !st.step.Finished?
  }

  function Ask(st: State): Request
    requires Asking(st)
  {
    match st.step
    case CreateService => Create(st.service)
    case FetchService => Get(st.service.KeyOf())
    case UpdateService(merged) => Update(merged)
    case CreateTrigger => Create(st.trigger)
    case FetchTrigger => Get(st.trigger.KeyOf())
    case UpdateTrigger(merged) => Update(merged)
  }

  function Abort(st: State, resp: Response): State {
    st.(step := Finished(if resp.Failed? then Failing(resp.error) else Panicked))
  }

  function Tell(st: State, resp: Response): State
    requires Asking(st)
  {
    match st.step
    case CreateService =>
      if resp.Done? then st.(step := CreateTrigger)
      else if resp == Failed(AlreadyExists) then st.(step := FetchService)
      else Abort(st, resp)
    case FetchService =>
      if resp.Fetched? then st.(step := UpdateService(MergeService(resp.obj, st.service))) else Abort(st, resp)
    case UpdateService(_) =>
      if resp.Done? then st.(step := CreateTrigger) else Abort(st, resp)
    case CreateTrigger =>
      if resp.Done? then st.(step := Finished(Succeeded))
      else if resp == Failed(AlreadyExists) then st.(step := FetchTrigger)
      else Abort(st, resp)
    case FetchTrigger =>
      if resp.Fetched? then st.(step := UpdateTrigger(MergeTrigger(st.discipline, resp.obj, st.trigger)))
      else Abort(st, resp)
    case UpdateTrigger(_) =>
      if resp.Done? then st.(step := Finished(Succeeded)) else Abort(st, resp)
  }
}
