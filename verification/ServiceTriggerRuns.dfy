/** EventStore and Visualisation attempts: what a success leaves, what every prefix keeps. */
module ServiceTriggerRuns {
  import opened Resources
  import opened ClusterApi
  import opened Runs
  import opened CoreChildren
  import opened ServiceTriggerMachine

  // ---------- one attempt ----------

  /** Started with a Service and a Trigger to build. */
  predicate WellBuilt(st: State) {
    st.service.body.KServiceBody? && st.trigger.body.TriggerBody?
  }

  function ServiceKeyOf(st: State): Key {
    st.service.KeyOf()
  }

  function TriggerKeyOf(st: State): Key {
    st.trigger.KeyOf()
  }

  /** What the two keys become. */
  function NewService(st: State, s0: Store): Object {
    var k := ServiceKeyOf(st);
    Stored(s0.codec, if s0.Has(k) then MergeService(s0.objects[k], st.service) else st.service)
  }

  function NewTrigger(st: State, s0: Store): Object {
    var k := TriggerKeyOf(st);
    Stored(s0.codec, if s0.Has(k) then MergeTrigger(st.discipline, s0.objects[k], st.trigger) else st.trigger)
  }

  predicate ServiceDone(st: State, s0: Store, s: Store) {
    s.Has(ServiceKeyOf(st)) && s.objects[ServiceKeyOf(st)] == NewService(st, s0)
  }

  predicate TriggerDone(st: State, s0: Store, s: Store) {
    s.Has(TriggerKeyOf(st)) && s.objects[TriggerKeyOf(st)] == NewTrigger(st, s0)
  }

  predicate ServiceSame(st: State, s0: Store, s: Store) {
    SameAt(s0, s, ServiceKeyOf(st))
  }

  predicate TriggerSame(st: State, s0: Store, s: Store) {
    SameAt(s0, s, TriggerKeyOf(st))
  }

  /** Where the two keys stand at each step. */
  predicate OnTrack(st: State, s0: Store, s: Store) {
    && s.codec == s0.codec && WellBuilt(st)
    && match st.step
       case CreateService => ServiceSame(st, s0, s) && TriggerSame(st, s0, s)
       case FetchService => ServiceSame(st, s0, s) && TriggerSame(st, s0, s) && s0.Has(ServiceKeyOf(st))
       case UpdateService(merged) =>
         && ServiceSame(st, s0, s) && TriggerSame(st, s0, s) && s0.Has(ServiceKeyOf(st))
         && merged == MergeService(s0.objects[ServiceKeyOf(st)], st.service)
       case CreateTrigger => ServiceDone(st, s0, s) && TriggerSame(st, s0, s)
       case FetchTrigger => ServiceDone(st, s0, s) && TriggerSame(st, s0, s) && s0.Has(TriggerKeyOf(st))
       case UpdateTrigger(merged) =>
         && ServiceDone(st, s0, s) && TriggerSame(st, s0, s) && s0.Has(TriggerKeyOf(st))
         && merged == MergeTrigger(st.discipline, s0.objects[TriggerKeyOf(st)], st.trigger)
       case Finished(outcome) =>
         if outcome == Succeeded then ServiceDone(st, s0, s) && TriggerDone(st, s0, s)
         else
           && (ServiceSame(st, s0, s) || ServiceDone(st, s0, s))
           && (TriggerSame(st, s0, s) || (TriggerDone(st, s0, s) && ServiceDone(st, s0, s)))
  }

  lemma MergeKeepsKeys(st: State, o: Object)
    requires WellBuilt(st)
    ensures o.KeyOf() == ServiceKeyOf(st) ==> MergeService(o, st.service).KeyOf() == ServiceKeyOf(st)
    ensures o.KeyOf() == TriggerKeyOf(st) ==> MergeTrigger(st.discipline, o, st.trigger).KeyOf() == TriggerKeyOf(st)
  {
  }

  lemma TellKeepsTheRest(st: State, resp: Response)
    requires Asking(st)
    ensures Tell(st, resp) == st.(step := Tell(st, resp).step)
  {
  }

  lemma ServiceStepOnTrack(st: State, s0: Store, s: Store, e: Event)
    requires s0.Valid() && s.Valid() && Asking(st) && OnTrack(st, s0, s)
    requires st.step.CreateService? || st.step.FetchService? || st.step.UpdateService?
    requires e.req == Ask(st) && Admits(s, e)
    ensures OnTrack(Tell(st, e.resp), s0, After(s, e))
  {
    if s0.Has(ServiceKeyOf(st)) {
      MergeKeepsKeys(st, s0.objects[ServiceKeyOf(st)]);
    }
  }

  lemma TriggerStepOnTrack(st: State, s0: Store, s: Store, e: Event)
    requires s0.Valid() && s.Valid() && Asking(st) && OnTrack(st, s0, s)
    requires st.step.CreateTrigger? || st.step.FetchTrigger? || st.step.UpdateTrigger?
    requires e.req == Ask(st) && Admits(s, e)
    ensures OnTrack(Tell(st, e.resp), s0, After(s, e))
  {
    if s0.Has(TriggerKeyOf(st)) {
      MergeKeepsKeys(st, s0.objects[TriggerKeyOf(st)]);
    }
  }

  lemma OnTrackStep(st: State, s0: Store, s: Store, e: Event)
    requires s0.Valid() && s.Valid() && Asking(st) && OnTrack(st, s0, s)
    requires e.req == Ask(st) && Admits(s, e)
    ensures OnTrack(Tell(st, e.resp), s0, After(s, e)) && Tell(st, e.resp) == st.(step := Tell(st, e.resp).step)
  {
    TellKeepsTheRest(st, e.resp);
    if st.step.CreateService? || st.step.FetchService? || st.step.UpdateService? {
      ServiceStepOnTrack(st, s0, s, e);
    } else {
      TriggerStepOnTrack(st, s0, s, e);
    }
  }

  lemma OnTrackElsewhere(st: State, s0: Store, s: Store, t: Store)
    requires OnTrack(st, s0, s) && t.codec == s.codec
    requires SameAt(s, t, ServiceKeyOf(st)) && SameAt(s, t, TriggerKeyOf(st))
    ensures OnTrack(st, s0, t)
  {
  }

  function Begin(start: State, s: Store): World {
    World(ServiceAndTrigger(start), s)
  }

  predicate Fresh(start: State) {
    WellBuilt(start) && start.step.CreateService?
  }

  function OwnKeys(start: State): set<Key> {
    {ServiceKeyOf(start), TriggerKeyOf(start)}
  }

  /** Every point of an attempt, whatever fails, as long as nobody else writes the two keys. */
  lemma {:induction false} AttemptOnTrack(start: State, s0: Store, moves: seq<Move>)
    requires s0.Valid() && Fresh(start)
    requires IsRun(Begin(start, s0), moves) && Spares(Begin(start, s0), moves, OwnKeys(start))
    ensures var w := WorldAfter(Begin(start, s0), moves);
            && w.proc.ServiceAndTrigger? && w.store.Valid() && OnTrack(w.proc.st, s0, w.store)
            && w.proc.st == start.(step := w.proc.st.step)
  {
    if moves != [] {
      var front, last := moves[..|moves| - 1], moves[|moves| - 1];
      AttemptOnTrack(start, s0, front);
      RunsStayValid(Begin(start, s0), moves);
      var w := WorldAfter(Begin(start, s0), front);
      if last.Act? {
        OnTrackStep(w.proc.st, s0, w.store, last.event);
      } else {
        OnTrackElsewhere(w.proc.st, s0, w.store, last.store);
      }
    }
  }

  ghost function StepAfter(start: State, s0: Store, moves: seq<Move>): Step
    requires s0.Valid() && Fresh(start)
    requires IsRun(Begin(start, s0), moves) && Spares(Begin(start, s0), moves, OwnKeys(start))
  {
    AttemptOnTrack(start, s0, moves);
    WorldAfter(Begin(start, s0), moves).proc.st.step
  }

  /** The trigger is written only after the service has been, in every run and every crashed
      prefix of one. */
  lemma TriggerOnlyAfterService(start: State, s0: Store, moves: seq<Move>)
    requires s0.Valid() && Fresh(start)
    requires IsRun(Begin(start, s0), moves) && Spares(Begin(start, s0), moves, OwnKeys(start))
    ensures var s := WorldAfter(Begin(start, s0), moves).store;
            TriggerSame(start, s0, s) || ServiceDone(start, s0, s)
  {
    AttemptOnTrack(start, s0, moves);
  }

  /** The call asks for a write under this key. */
  predicate WritesTo(m: Move, k: Key) {
    m.Act? && (m.event.req.Create? || m.event.req.Update?) && m.event.req.obj.KeyOf() == k
  }

  /** The move wrote the service as it is to be, and was answered so. */
  predicate WroteService(m: Move, start: State, s0: Store) {
    && WritesTo(m, ServiceKeyOf(start)) && m.event.effect && m.event.resp.Done?
    && Stored(s0.codec, m.event.req.obj) == NewService(start, s0)
  }

  ghost predicate HasWrittenService(moves: seq<Move>, start: State, s0: Store) {
    exists j :: 0 <= j < |moves| && WroteService(moves[j], start, s0)
  }

  predicate PastService(st: State) {
    st.step.CreateTrigger? || st.step.FetchTrigger? || st.step.UpdateTrigger?
  }

  lemma StillWritten(moves: seq<Move>, m: Move, start: State, s0: Store)
    ensures HasWrittenService(moves, start, s0) || WroteService(m, start, s0)
            ==> HasWrittenService(moves + [m], start, s0)
  {
    var more := moves + [m];
    assert more[|moves|] == m && forall j :: 0 <= j < |moves| ==> more[j] == moves[j];
  }

  lemma ServiceWriteStep(st: State, s0: Store, s: Store, e: Event)
    requires s0.Valid() && s.Valid() && Asking(st) && OnTrack(st, s0, s) && e.req == Ask(st) && Admits(s, e)
    requires !PastService(st) && PastService(Tell(st, e.resp))
    ensures WroteService(Act(e), st, s0)
  {
    if s0.Has(ServiceKeyOf(st)) {
      MergeKeepsKeys(st, s0.objects[ServiceKeyOf(st)]);
    }
  }

  lemma WrittenStep(st: State, start: State, s0: Store, w: World, moves: seq<Move>, m: Move)
    requires s0.Valid() && w.proc == ServiceAndTrigger(st) && w.store.Valid() && OnTrack(st, s0, w.store)
    requires st == start.(step := st.step) && MayMove(w, m)
    requires PastService(st) ==> HasWrittenService(moves, start, s0)
    ensures var v := Moved(w, m);
            v.proc.ServiceAndTrigger? && (PastService(v.proc.st) ==> HasWrittenService(moves + [m], start, s0))
  {
    StillWritten(moves, m, start, s0);
    if m.Act? && !PastService(st) && PastService(Tell(st, m.event.resp)) {
      ServiceWriteStep(st, s0, w.store, m.event);
      SameService(st, start, s0, m);
    }
  }

  lemma {:induction false} ServiceIsWritten(start: State, s0: Store, moves: seq<Move>)
    requires s0.Valid() && Fresh(start)
    requires IsRun(Begin(start, s0), moves) && Spares(Begin(start, s0), moves, OwnKeys(start))
    ensures var w := WorldAfter(Begin(start, s0), moves);
            w.proc.ServiceAndTrigger? && (PastService(w.proc.st) ==> HasWrittenService(moves, start, s0))
  {
    if moves != [] {
      var front, last := moves[..|moves| - 1], moves[|moves| - 1];
      ServiceIsWritten(start, s0, front);
      AttemptOnTrack(start, s0, front);
      var w := WorldAfter(Begin(start, s0), front);
      WrittenStep(w.proc.st, start, s0, w, front, last);
      assert moves == front + [last];
    }
  }

  lemma SameService(st: State, start: State, s0: Store, m: Move)
    requires st.service == start.service
    ensures WroteService(m, st, s0) <==> WroteService(m, start, s0)
  {
  }

  lemma TriggerIsWrittenLate(st: State, s0: Store, s: Store)
    requires s0.Valid() && Asking(st) && OnTrack(st, s0, s)
    requires WritesTo(Act(Event(Ask(st), Done, true)), TriggerKeyOf(st))
    ensures PastService(st)
  {
    if s0.Has(ServiceKeyOf(st)) {
      MergeKeepsKeys(st, s0.objects[ServiceKeyOf(st)]);
    }
  }

  /** In the order of the calls: a call that would write the trigger comes only after one that wrote
      the service as it is to be and was answered so. */
  lemma TriggerIsWrittenAfterService(start: State, s0: Store, moves: seq<Move>, j: nat)
    requires s0.Valid() && Fresh(start)
    requires IsRun(Begin(start, s0), moves) && Spares(Begin(start, s0), moves, OwnKeys(start))
    requires j < |moves| && WritesTo(moves[j], TriggerKeyOf(start))
    ensures HasWrittenService(moves[..j], start, s0)
  {
    var w := Begin(start, s0);
    MoveAt(w, moves, j);
    SparesPrefix(w, moves, OwnKeys(start), j);
    AttemptOnTrack(start, s0, moves[..j]);
    ServiceIsWritten(start, s0, moves[..j]);
    var v := WorldAfter(w, moves[..j]);
    TriggerIsWrittenLate(v.proc.st, s0, v.store);
  }

  // ---------- what a failure returns ----------

  ghost predicate WasAnswered(moves: seq<Move>, e: Error) {
    exists j :: 0 <= j < |moves| && moves[j].Act? && moves[j].event.resp == Failed(e)
  }

  lemma StillAnswered(moves: seq<Move>, m: Move)
    ensures forall e :: WasAnswered(moves, e) || (m.Act? && m.event.resp == Failed(e)) ==> WasAnswered(moves + [m], e)
  {
    var more := moves + [m];
    assert more[|moves|] == m && forall j :: 0 <= j < |moves| ==> more[j] == moves[j];
  }

  lemma FailureStep(w: World, moves: seq<Move>, m: Move)
    requires w.proc.ServiceAndTrigger? && MayMove(w, m)
    requires w.proc.st.step.Finished? && w.proc.st.step.outcome.Failing?
             ==> WasAnswered(moves, w.proc.st.step.outcome.error)
    ensures var v := Moved(w, m);
            && v.proc.ServiceAndTrigger?
            && (v.proc.st.step.Finished? && v.proc.st.step.outcome.Failing?
                ==> WasAnswered(moves + [m], v.proc.st.step.outcome.error))
  {
    StillAnswered(moves, m);
  }

  /** In every run: an error that is returned is one that a call was answered with. */
  lemma {:induction false} FailureWasAnswered(start: State, s0: Store, moves: seq<Move>)
    requires IsRun(Begin(start, s0), moves) && !start.step.Finished?
    ensures var w := WorldAfter(Begin(start, s0), moves);
            && w.proc.ServiceAndTrigger?
            && (w.proc.st.step.Finished? && w.proc.st.step.outcome.Failing?
                ==> WasAnswered(moves, w.proc.st.step.outcome.error))
  {
    if moves != [] {
      var front, last := moves[..|moves| - 1], moves[|moves| - 1];
      FailureWasAnswered(start, s0, front);
      FailureStep(WorldAfter(Begin(start, s0), front), front, last);
      assert moves == front + [last];
    }
  }

  // ---------- EventStore: level-triggered ----------

  /** The service runs the desired configuration and the trigger is as built. */
  predicate InShape(start: State, s: Store) {
    && s.Has(ServiceKeyOf(start)) && s.Has(TriggerKeyOf(start))
    && (var service, trigger := s.objects[ServiceKeyOf(start)], s.objects[TriggerKeyOf(start)];
        && service.body.KServiceBody? && start.service.body.KServiceBody?
        && service.body.config == StoredConfig(s.codec, start.service.body.config)
        && trigger.meta.labels == StoredMap(s.codec, start.trigger.meta.labels)
        && trigger.meta.annotations == StoredMap(s.codec, start.trigger.meta.annotations)
        && trigger.body == start.trigger.body)
  }

  /** An existing service keeps its metadata, route and status, an existing trigger its owners. */
  predicate KeepsTheRest(start: State, s0: Store, s: Store)
    requires s.Has(ServiceKeyOf(start)) && s.Has(TriggerKeyOf(start))
  {
    && (s0.Has(ServiceKeyOf(start)) ==>
          var before, after := s0.objects[ServiceKeyOf(start)], s.objects[ServiceKeyOf(start)];
          && before.body.KServiceBody? && after.body.KServiceBody?
          && after == before.(body := before.body.(config := after.body.config)))
    && (s0.Has(TriggerKeyOf(start)) ==>
          s.objects[TriggerKeyOf(start)].meta.owners == s0.objects[TriggerKeyOf(start)].meta.owners)
  }

  lemma DoneIsInShape(start: State, s0: Store, s: Store)
    requires s0.Valid() && WellBuilt(start) && start.discipline.WholeTrigger? && s.codec == s0.codec
    requires ServiceDone(start, s0, s) && TriggerDone(start, s0, s)
    ensures InShape(start, s) && KeepsTheRest(start, s0, s)
  {
  }

  lemma EventStoreIsFresh(es: EventStore)
    requires es.timeout.Some?
    ensures Fresh(StartEventStore(es)) && StartEventStore(es).discipline.WholeTrigger?
  {
  }

  /** From any store, an EventStore attempt that succeeds leaves the service configuration and
      the whole trigger as desired, and of an existing service the metadata, the route and the
      status, and of an existing trigger the owners, as they were. */
  lemma EventStoreConverges(es: EventStore, s0: Store, moves: seq<Move>)
    requires s0.Valid() && es.timeout.Some?
    requires var start := StartEventStore(es);
             && IsRun(Begin(start, s0), moves) && Spares(Begin(start, s0), moves, OwnKeys(start))
             && StepAfter(start, s0, moves) == Finished(Succeeded)
    ensures var start := StartEventStore(es);
            var s := WorldAfter(Begin(start, s0), moves).store;
            InShape(start, s) && KeepsTheRest(start, s0, s)
  {
    EventStoreIsFresh(es);
    SuccessIsDone(StartEventStore(es), s0, moves);
    DoneIsInShape(StartEventStore(es), s0, WorldAfter(Begin(StartEventStore(es), s0), moves).store);
  }

  lemma SuccessIsDone(start: State, s0: Store, moves: seq<Move>)
    requires s0.Valid() && Fresh(start)
    requires IsRun(Begin(start, s0), moves) && Spares(Begin(start, s0), moves, OwnKeys(start))
    requires StepAfter(start, s0, moves) == Finished(Succeeded)
    ensures var s := WorldAfter(Begin(start, s0), moves).store;
            s.codec == s0.codec && ServiceDone(start, s0, s) && TriggerDone(start, s0, s)
  {
    AttemptOnTrack(start, s0, moves);
  }

  /** In a store that is in shape an EventStore attempt changes nothing, however it goes. */
  lemma EventStoreIsIdempotent(es: EventStore, s0: Store, moves: seq<Move>)
    requires s0.Valid() && es.timeout.Some? && InShape(StartEventStore(es), s0)
    requires IsRun(Begin(StartEventStore(es), s0), moves) && Alone(moves)
    ensures WorldAfter(Begin(StartEventStore(es), s0), moves).store == s0
  {
    EventStoreIsFresh(es);
    NothingToChange(StartEventStore(es), s0, moves);
  }

  lemma NothingToChange(start: State, s0: Store, moves: seq<Move>)
    requires s0.Valid() && Fresh(start) && start.discipline.WholeTrigger? && InShape(start, s0)
    requires IsRun(Begin(start, s0), moves) && Alone(moves)
    ensures WorldAfter(Begin(start, s0), moves).store == s0
  {
    AloneSpares(Begin(start, s0), moves, OwnKeys(start));
    AttemptOnTrack(start, s0, moves);
    OnlyOwnKeysChange(start, s0, moves);
    InShapeIsFixed(start, s0);
    var w := WorldAfter(Begin(start, s0), moves);
    TrackedIsSame(w.proc.st, s0, w.store);
    SameEverywhere(s0, w.store);
  }

  lemma TrackedIsSame(st: State, s0: Store, s: Store)
    requires s0.Valid() && OnTrack(st, s0, s) && s0.Has(ServiceKeyOf(st)) && s0.Has(TriggerKeyOf(st))
    requires NewService(st, s0) == s0.objects[ServiceKeyOf(st)] && NewTrigger(st, s0) == s0.objects[TriggerKeyOf(st)]
    ensures SameAt(s0, s, ServiceKeyOf(st)) && SameAt(s0, s, TriggerKeyOf(st))
  {
  }

  lemma InShapeIsFixed(start: State, s: Store)
    requires s.Valid() && WellBuilt(start) && start.discipline.WholeTrigger? && InShape(start, s)
    ensures NewService(start, s) == s.objects[ServiceKeyOf(start)]
    ensures NewTrigger(start, s) == s.objects[TriggerKeyOf(start)]
  {
  }

  /** The attempt writes no other key. */
  lemma {:induction false} OnlyOwnKeysChange(start: State, s0: Store, moves: seq<Move>)
    requires s0.Valid() && Fresh(start) && IsRun(Begin(start, s0), moves) && Alone(moves)
    ensures forall k :: k !in OwnKeys(start) ==> SameAt(s0, WorldAfter(Begin(start, s0), moves).store, k)
    ensures WorldAfter(Begin(start, s0), moves).store.codec == s0.codec
  {
    if moves != [] {
      var front, last := moves[..|moves| - 1], moves[|moves| - 1];
      assert moves == front + [last];
      assert last in moves;
      OnlyOwnKeysChange(start, s0, front);
      AloneSpares(Begin(start, s0), front, OwnKeys(start));
      AttemptOnTrack(start, s0, front);
      var w := WorldAfter(Begin(start, s0), front);
      WritesOwnKeys(w.proc.st, s0, w.store);
    }
  }

  lemma WritesOwnKeys(st: State, s0: Store, s: Store)
    requires s0.Valid() && Asking(st) && OnTrack(st, s0, s)
    ensures Ask(st).Create? || Ask(st).Update? ==> Ask(st).obj.KeyOf() in OwnKeys(st)
    ensures !Ask(st).UpdateStatus?
  {
  }

  // ---------- Visualisation: annotations only ----------

  lemma VisualisationIsFresh(v: Visualisation)
    ensures Fresh(StartVisualisation(v)) && StartVisualisation(v).discipline.AnnotationsOnly?
  {
  }

  /** `s0` with the trigger's annotations brought back. */
  predicate AnnotationsRestored(start: State, s0: Store, s: Store)
    requires s0.Has(TriggerKeyOf(start))
  {
    var before := s0.objects[TriggerKeyOf(start)];
    && s.Has(TriggerKeyOf(start))
    && s.objects[TriggerKeyOf(start)]
       == before.(meta := before.meta.(annotations := StoredMap(s0.codec, start.trigger.meta.annotations)))
  }

  lemma DoneRestoresAnnotations(start: State, s0: Store, s: Store)
    requires s0.Valid() && WellBuilt(start) && start.discipline.AnnotationsOnly? && s.codec == s0.codec
    requires ServiceDone(start, s0, s) && TriggerDone(start, s0, s)
    ensures s0.Has(TriggerKeyOf(start)) ==>
              && AnnotationsRestored(start, s0, s)
              && (InShape(start, s)
                  <==> s0.objects[TriggerKeyOf(start)].meta.labels == StoredMap(s0.codec, start.trigger.meta.labels)
                       && s0.objects[TriggerKeyOf(start)].body == start.trigger.body)
    ensures !s0.Has(TriggerKeyOf(start)) ==> InShape(start, s)
  {
  }

  /** What a Visualisation attempt leaves of an existing trigger: only the annotations are
      brought back, so the whole trigger is as desired exactly if labels and spec already were. */
  lemma VisualisationRestoresAnnotationsOnly(v: Visualisation, s0: Store, moves: seq<Move>)
    requires s0.Valid() && s0.Has(TriggerKeyOf(StartVisualisation(v)))
    requires var start := StartVisualisation(v);
             && IsRun(Begin(start, s0), moves) && Spares(Begin(start, s0), moves, OwnKeys(start))
             && StepAfter(start, s0, moves) == Finished(Succeeded)
    ensures var start, k := StartVisualisation(v), TriggerKeyOf(StartVisualisation(v));
            var s := WorldAfter(Begin(start, s0), moves).store;
            && AnnotationsRestored(start, s0, s)
            && (InShape(start, s) <==> s0.objects[k].meta.labels == StoredMap(s0.codec, start.trigger.meta.labels)
                                       && s0.objects[k].body == start.trigger.body)
  {
    VisualisationIsFresh(v);
    SuccessIsDone(StartVisualisation(v), s0, moves);
    DoneRestoresAnnotations(StartVisualisation(v), s0, WorldAfter(Begin(StartVisualisation(v), s0), moves).store);
  }

  /** The trigger, if there is one, has the labels and the spec every Visualisation of this name
      builds. */
  predicate NoDrift(ns: string, name: string, s: Store) {
    var k := Key(TriggerKind, ns, TriggerName(name));
    s.Has(k) ==>
      s.objects[k].meta.labels == StoredMap(s.codec, TriggerLabels()) && s.objects[k].body == TriggerBodyOf(name)
  }

  function TriggerLabels(): GoMap {
    Entries(map["twinscale/visualisation" := "twinscale-visualisation"])
  }

  function TriggerBodyOf(name: string): Body {
    TriggerBody(TriggerSpec(BROKER_NAME, map["type" := "twinscale.visualisation." + name], name,
                            Some("/api/v1/visualisation-events")))
  }

  /** Labels and spec depend on the name alone, whatever the specification. */
  lemma LabelsAndSpecDependOnName(v: Visualisation)
    ensures VisualisationTrigger(v).meta.labels == TriggerLabels()
    ensures VisualisationTrigger(v).body == TriggerBodyOf(v.id.name)
    ensures TriggerKeyOf(StartVisualisation(v)) == Key(TriggerKind, v.id.ns, TriggerName(v.id.name))
  {
  }

  /** One attempt on a visualisation of this name, run to the end or crashed. */
  datatype VisualisationTry = VisualisationTry(v: Visualisation, start: Store, moves: seq<Move>)

  ghost predicate LegalTry(ns: string, name: string, t: VisualisationTry) {
    var start := StartVisualisation(t.v);
    && t.v.id.ns == ns && t.v.id.name == name && t.start.Valid()
    && IsRun(Begin(start, t.start), t.moves) && Spares(Begin(start, t.start), t.moves, OwnKeys(start))
  }

  function TryEnd(t: VisualisationTry): Store {
    WorldAfter(Begin(StartVisualisation(t.v), t.start), t.moves).store
  }

  /** Attempts with any specifications, one after the other; in between others may write
      anything but the trigger. */
  ghost predicate VisualisationTries(ns: string, name: string, tries: seq<VisualisationTry>) {
    && (forall i :: 0 <= i < |tries| ==> LegalTry(ns, name, tries[i]))
    && (forall i :: 0 <= i < |tries| - 1 ==>
          && tries[i + 1].start.codec == TryEnd(tries[i]).codec
          && SameAt(TryEnd(tries[i]), tries[i + 1].start, Key(TriggerKind, ns, TriggerName(name))))
  }

  /** The trigger, if there is one, has the labels and the spec of the one being built. */
  predicate Undrifted(start: State, s: Store) {
    var k := TriggerKeyOf(start);
    s.Has(k) ==> s.objects[k].meta.labels == StoredMap(s.codec, start.trigger.meta.labels)
                 && s.objects[k].body == start.trigger.body
  }

  lemma OnTrackKeepsUndrifted(st: State, s0: Store, s: Store)
    requires s0.Valid() && OnTrack(st, s0, s) && st.discipline.AnnotationsOnly? && Undrifted(st, s0)
    ensures Undrifted(st, s)
  {
  }

  lemma TryKeepsUndrifted(start: State, s0: Store, moves: seq<Move>)
    requires s0.Valid() && Fresh(start) && start.discipline.AnnotationsOnly? && Undrifted(start, s0)
    requires IsRun(Begin(start, s0), moves) && Spares(Begin(start, s0), moves, OwnKeys(start))
    ensures Undrifted(start, WorldAfter(Begin(start, s0), moves).store)
    ensures StepAfter(start, s0, moves) == Finished(Succeeded)
            ==> InShape(start, WorldAfter(Begin(start, s0), moves).store)
  {
    AttemptOnTrack(start, s0, moves);
    var w := WorldAfter(Begin(start, s0), moves);
    OnTrackKeepsUndrifted(w.proc.st, s0, w.store);
    if StepAfter(start, s0, moves) == Finished(Succeeded) {
      DoneRestoresAnnotations(start, s0, w.store);
    }
  }

  lemma TryKeepsNoDrift(ns: string, name: string, t: VisualisationTry)
    requires LegalTry(ns, name, t) && NoDrift(ns, name, t.start)
    ensures NoDrift(ns, name, TryEnd(t))
    ensures StepAfter(StartVisualisation(t.v), t.start, t.moves) == Finished(Succeeded)
            ==> InShape(StartVisualisation(t.v), TryEnd(t))
  {
    LabelsAndSpecDependOnName(t.v);
    VisualisationIsFresh(t.v);
    TryKeepsUndrifted(StartVisualisation(t.v), t.start, t.moves);
  }

  /** Without drift the annotations-only merge is enough: along any sequence of attempts, with
      any specifications, faults and crashes, every attempt that succeeds leaves service and
      trigger exactly as its own specification wants them. */
  lemma {:induction false} NoDriftIsKept(ns: string, name: string, tries: seq<VisualisationTry>, i: nat)
    requires VisualisationTries(ns, name, tries) && i < |tries| && NoDrift(ns, name, tries[0].start)
    ensures NoDrift(ns, name, tries[i].start) && NoDrift(ns, name, TryEnd(tries[i]))
    ensures LegalTry(ns, name, tries[i])
    ensures StepAfter(StartVisualisation(tries[i].v), tries[i].start, tries[i].moves) == Finished(Succeeded)
            ==> InShape(StartVisualisation(tries[i].v), TryEnd(tries[i]))
  {
    if i > 0 {
      NoDriftIsKept(ns, name, tries, i - 1);
      assert tries[i - 1 + 1] == tries[i];
    }
    TryKeepsNoDrift(ns, name, tries[i]);
  }
}
