/** What an undisturbed attempt of `createUpdateTwinInterface` leaves in the store, object by
    object. */
module InterfaceEffect {
  import opened Resources
  import opened ClusterApi
  import opened Runs
  import opened TwinService
  import opened TwinInterfaceMachine
  import opened InterfaceSteps
  import opened InterfaceRuns

  predicate IsWiring(k: Key) {
    k.kind == TriggerKind || k.kind == BindingKind
  }

  // ---------- triggers and bindings ----------

  function StageOf(st: State): nat {
    match st.step
    case GetBroker => 0
    case GetEventStore => 0
    case CreateService => 0
    case FetchService => 1
    case UpdateService(_) => 1
    case CreateTrigger => 1
    case CreateMqtt(_) => 2
    case ListEventStoreQueue => 3
    case ListExchange => 3
    case CreateEventStore => 3
    case ListQueue => 4
    case CreateRelationship(_) => 4
    case CreateCommand(_) => 5
    case UpdateInterface => 6
    case Finished(_) => 6
  }

  /** The child may have been sent already, so what it is built from is settled. */
  predicate Settled(st: State, c: Child) {
    || Stage(c) < StageOf(st)
    || (Stage(c) == StageOf(st) && (st.step.CreateMqtt? || st.step.CreateRelationship? || st.step.CreateCommand?))
  }

  /** The object is the child `c` of the interface as this attempt builds it. */
  ghost predicate Made(st: State, codec: Codec, c: Child, o: Object) {
    && Wanted(st.ti, c) && !c.OwnService? && Settled(st, c)
    && o == Stored(codec, Build(st.ti, c, st.found))
  }

  /** Every trigger and binding is as it was at the start, or new and a child of this attempt. */
  ghost predicate AsBuilt(st: State, s0: Store, s: Store) {
    forall k :: IsWiring(k) && s.Has(k) ==>
      if s0.Has(k) then s.objects[k] == s0.objects[k]
      else exists c :: Made(st, s.codec, c, s.objects[k])
  }

  lemma SettledIsFixed(st: State, resp: Response, c: Child)
    requires Asking(st) && Settled(st, c) && !c.OwnService? && Wanted(st.ti, c)
    ensures Settled(Tell(st, resp), c)
    ensures Build(st.ti, c, Tell(st, resp).found) == Build(st.ti, c, st.found)
  {
    StageRises(st, resp);
    FoundChangesLate(st, resp);
  }

  lemma StageRises(st: State, resp: Response)
    requires Asking(st)
    ensures StageOf(st) <= StageOf(Tell(st, resp))
    ensures StageOf(st) == StageOf(Tell(st, resp))
            && (st.step.CreateMqtt? || st.step.CreateRelationship? || st.step.CreateCommand?)
            ==> var next := Tell(st, resp).step; next.CreateMqtt? || next.CreateRelationship? || next.CreateCommand?
  {
  }

  lemma FoundChangesLate(st: State, resp: Response)
    requires Asking(st)
    ensures StageOf(st) >= 1 ==>
              && Tell(st, resp).found.brokerUrl == st.found.brokerUrl
              && Tell(st, resp).found.eventStoreUrl == st.found.eventStoreUrl
    ensures StageOf(st) >= 4 ==>
              && Tell(st, resp).found.eventStoreQueue == st.found.eventStoreQueue
              && Tell(st, resp).found.exchange == st.found.exchange
    ensures !st.step.ListQueue? ==> Tell(st, resp).found.queue == st.found.queue
  {
  }

  lemma PendingSettles(st: State, resp: Response)
    requires Asking(st) && Sane(st) && Pending(st).Some?
    ensures Settled(Tell(st, resp), Pending(st).value)
  {
    if st.step.CreateMqtt? || st.step.CreateRelationship? || st.step.CreateCommand? {
      assert st.step.rest[0] in st.step.rest;
    }
  }

  lemma CreatingFindsNothing(st: State, resp: Response)
    requires Asking(st) && Pending(st).Some?
    ensures Tell(st, resp).found == st.found
  {
  }

  lemma AsBuiltStep(st: State, s0: Store, s: Store, e: Event)
    requires s.Valid() && Asking(st) && Sane(st) && AsBuilt(st, s0, s)
    requires e.req == Ask(st) && Admits(s, e)
    requires forall k :: IsWiring(k) && s0.Has(k) ==> s.Has(k)
    ensures AsBuilt(Tell(st, e.resp), s0, After(s, e))
  {
    var next, t := Tell(st, e.resp), After(s, e);
    TellKeepsInterface(st, e.resp);
    forall k | IsWiring(k) && t.Has(k)
      ensures if s0.Has(k) then t.objects[k] == s0.objects[k] else exists c :: Made(next, t.codec, c, t.objects[k])
    {
      if s.Has(k) {
        WiringStays(st, s, e, k);
        if !s0.Has(k) {
          var c :| Made(st, s.codec, c, s.objects[k]);
          SettledIsFixed(st, e.resp, c);
          assert Made(next, t.codec, c, t.objects[k]);
        }
      } else {
        NewWiring(st, s, e, k);
        assert Made(next, t.codec, Pending(st).value, t.objects[k]);
      }
    }
  }

  lemma WiringStays(st: State, s: Store, e: Event, k: Key)
    requires Asking(st) && Sane(st) && e.req == Ask(st) && Admits(s, e) && s.Has(k) && IsWiring(k)
    ensures After(s, e).Has(k) && After(s, e).objects[k] == s.objects[k] && After(s, e).codec == s.codec
  {
  }

  lemma NewWiring(st: State, s: Store, e: Event, k: Key)
    requires Asking(st) && Sane(st) && e.req == Ask(st) && Admits(s, e)
    requires IsWiring(k) && !s.Has(k) && After(s, e).Has(k)
    ensures Pending(st).Some? && !Pending(st).value.OwnService?
    ensures Made(Tell(st, e.resp), s.codec, Pending(st).value, After(s, e).objects[k]) && After(s, e).codec == s.codec
  {
    assert e.req.Create?;
    PendingIsWanted(st);
    PendingSettles(st, e.resp);
    CreatingFindsNothing(st, e.resp);
    TellKeepsInterface(st, e.resp);
  }

  // ---------- the service ----------

  /** What a successful attempt makes of the service: created, left alone when nothing counts
      as changed, or its configuration replaced. */
  function ServiceResult(st: State, s0: Store): Object
    requires st.ti.spec.service.Some?
    requires s0.Has(ChildKey(st.ti, OwnService)) ==> s0.objects[ChildKey(st.ti, OwnService)].body.KServiceBody?
  {
    var k, desired := ChildKey(st.ti, OwnService), Build(st.ti, OwnService, st.found);
    if !s0.Has(k) then Stored(s0.codec, desired)
    else if UpToDate(st, s0.objects[k]) then s0.objects[k]
    else Stored(s0.codec, MergeService(s0.objects[k], desired))
  }

  /** The service key is as at the start up to the service steps, and settled after them. */
  ghost predicate ServiceOnTrack(st: State, s0: Store, s: Store)
    requires s0.Valid()
  {
    var k := ChildKey(st.ti, OwnService);
    Flawless(st) && st.ti.spec.service.Some? ==>
      if st.step.FetchService? || st.step.UpdateService? || StageOf(st) == 0 then
        && (s.Has(k) <==> s0.Has(k))
        && (s0.Has(k) ==> s.objects[k] == s0.objects[k])
        && (StageOf(st) == 1 ==> s0.Has(k))
        && (st.step.UpdateService? ==> st.step.current == s0.objects[k] && !UpToDate(st, s0.objects[k]))
      else s.Has(k) && s.objects[k] == ServiceResult(st, s0)
  }

  lemma CreateServiceOnTrack(st: State, s0: Store, s: Store, e: Event)
    requires s0.Valid() && s.Valid() && s.codec == s0.codec && st.step.CreateService?
    requires Asking(st) && Sane(st) && ServiceOnTrack(st, s0, s) && e.req == Ask(st) && Admits(s, e)
    ensures ServiceOnTrack(Tell(st, e.resp), s0, After(s, e))
  {
    if Flawless(Tell(st, e.resp)) {
      FlawlessBefore(st, e.resp);
      CreatingFindsNothing(st, e.resp);
    }
  }

  lemma ReadOnTrack(st: State, s0: Store, s: Store, e: Event)
    requires s0.Valid() && s.Valid() && s.codec == s0.codec
    requires st.step.GetBroker? || st.step.GetEventStore? || st.step.FetchService?
    requires Asking(st) && Sane(st) && ServiceOnTrack(st, s0, s) && e.req == Ask(st) && Admits(s, e)
    ensures ServiceOnTrack(Tell(st, e.resp), s0, After(s, e))
  {
    assert After(s, e) == s;
    if Flawless(Tell(st, e.resp)) {
      FlawlessBefore(st, e.resp);
    }
  }

  lemma UpdateOnTrack(st: State, s0: Store, s: Store, e: Event)
    requires s0.Valid() && s.Valid() && s.codec == s0.codec && st.step.UpdateService?
    requires Asking(st) && Sane(st) && ServiceOnTrack(st, s0, s) && e.req == Ask(st) && Admits(s, e)
    ensures ServiceOnTrack(Tell(st, e.resp), s0, After(s, e))
  {
    if Flawless(Tell(st, e.resp)) {
      FlawlessBefore(st, e.resp);
      assert e.resp == Done;
    }
  }

  /** The service steps are over. */
  predicate ServiceIsDone(st: State) {
    StageOf(st) >= 1 && !st.step.FetchService? && !st.step.UpdateService?
  }

  lemma ServiceKeyStays(st: State, s: Store, e: Event)
    requires Asking(st) && Sane(st) && ServiceIsDone(st) && e.req == Ask(st)
    ensures SameAt(s, After(s, e), ChildKey(st.ti, OwnService))
  {
  }

  lemma DoneStays(st: State, resp: Response)
    requires Asking(st) && ServiceIsDone(st)
    ensures ServiceIsDone(Tell(st, resp))
  {
  }

  lemma ResultStays(st: State, next: State, s0: Store, s: Store, t: Store)
    requires s0.Valid() && ServiceOnTrack(st, s0, s) && ServiceIsDone(st) && ServiceIsDone(next)
    requires next.ti == st.ti && (Flawless(next) ==> Flawless(st))
    requires next.found.brokerUrl == st.found.brokerUrl && next.found.eventStoreUrl == st.found.eventStoreUrl
    requires SameAt(s, t, ChildKey(st.ti, OwnService))
    ensures ServiceOnTrack(next, s0, t)
  {
  }

  lemma DoneOnTrack(st: State, s0: Store, s: Store, e: Event)
    requires s0.Valid() && Asking(st) && Sane(st) && ServiceOnTrack(st, s0, s) && ServiceIsDone(st)
    requires e.req == Ask(st)
    ensures ServiceOnTrack(Tell(st, e.resp), s0, After(s, e))
  {
    if Flawless(Tell(st, e.resp)) {
      FlawlessBefore(st, e.resp);
    }
    ServiceKeyStays(st, s, e);
    DoneStays(st, e.resp);
    FoundChangesLate(st, e.resp);
    TellKeepsInterface(st, e.resp);
    ResultStays(st, Tell(st, e.resp), s0, s, After(s, e));
  }

  lemma ServiceStepOnTrack(st: State, s0: Store, s: Store, e: Event)
    requires s0.Valid() && s.Valid() && s.codec == s0.codec
    requires Asking(st) && Sane(st) && ServiceOnTrack(st, s0, s)
    requires e.req == Ask(st) && Admits(s, e)
    ensures ServiceOnTrack(Tell(st, e.resp), s0, After(s, e))
  {
    if st.step.CreateService? {
      CreateServiceOnTrack(st, s0, s, e);
    } else if st.step.UpdateService? {
      UpdateOnTrack(st, s0, s, e);
    } else if ServiceIsDone(st) {
      DoneOnTrack(st, s0, s, e);
    } else {
      ReadOnTrack(st, s0, s, e);
    }
  }

  // ---------- everything else ----------

  ghost predicate Elsewhere(ti: TwinInterface, k: Key) {
    k != InterfaceKey(ti) && (ti.spec.service.None? || k != ChildKey(ti, OwnService)) && !IsWiring(k)
  }

  lemma ElsewhereStays(st: State, s: Store, e: Event, k: Key)
    requires Asking(st) && Sane(st) && e.req == Ask(st) && Elsewhere(st.ti, k)
    ensures After(s, e).Has(k) <==> s.Has(k)
    ensures s.Has(k) ==> After(s, e).objects[k] == s.objects[k]
  {
  }

  // ---------- whole attempts ----------

  ghost predicate Effect(st: State, s0: Store, s: Store)
    requires s0.Valid()
  {
    && s.codec == s0.codec
    && AsBuilt(st, s0, s) && ServiceOnTrack(st, s0, s)
    && (forall k :: IsWiring(k) && s0.Has(k) ==> s.Has(k))
    && (forall k :: Elsewhere(st.ti, k) ==>
          (s.Has(k) <==> s0.Has(k)) && (s0.Has(k) ==> s.objects[k] == s0.objects[k]))
  }

  lemma EffectStep(st: State, s0: Store, s: Store, e: Event)
    requires s0.Valid() && s.Valid() && Asking(st) && Sane(st) && Effect(st, s0, s)
    requires e.req == Ask(st) && Admits(s, e)
    ensures Effect(Tell(st, e.resp), s0, After(s, e))
  {
    AsBuiltStep(st, s0, s, e);
    ServiceStepOnTrack(st, s0, s, e);
    TellKeepsInterface(st, e.resp);
    forall k | IsWiring(k) && s0.Has(k) ensures After(s, e).Has(k) {
      WiringStays(st, s, e, k);
    }
    forall k | Elsewhere(st.ti, k)
      ensures (After(s, e).Has(k) <==> s0.Has(k)) && (s0.Has(k) ==> After(s, e).objects[k] == s0.objects[k])
    {
      ElsewhereStays(st, s, e, k);
    }
  }

  /** Alone with the store, an attempt has this effect at every point, whatever fails: existing
      triggers and bindings keep their content, new ones are exactly the wanted children built
      from what the attempt found, and nothing else but the service and the interface changes.
      While all goes well the service is also exactly what it should be. */
  lemma {:induction false} EffectOfAttempt(ti: TwinInterface, s: Store, moves: seq<Move>)
    requires s.Valid() && IsRun(Attempt(ti, s), moves) && Alone(moves)
    ensures Effect(StateAfter(ti, s, moves), s, WorldAfter(Attempt(ti, s), moves).store)
  {
    if moves != [] {
      var front, last := moves[..|moves| - 1], moves[|moves| - 1];
      assert moves == front + [last];
      EffectOfAttempt(ti, s, front);
      RunsStayValid(Attempt(ti, s), front);
      var st := StateAfter(ti, s, front);
      assert last in moves;
      CallOfState(st, WorldAfter(Attempt(ti, s), front), last);
      EffectStep(st, s, WorldAfter(Attempt(ti, s), front).store, last.event);
    }
  }
}
