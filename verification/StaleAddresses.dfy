/** Which addresses a service of an interface runs with: `CompareTwinService` does not look at the
    environment, so a service that looks right keeps the addresses it was built with. */
module StaleAddresses {
  import opened Resources
  import opened ClusterApi
  import opened Runs
  import opened TwinService
  import opened TwinInterfaceMachine
  import opened InterfaceSteps
  import opened InterfaceRuns
  import opened InterfaceConvergence
  import opened InterfaceProgress
  import opened InterfaceEffect
  import opened Quiescence

  function ServiceKey(ti: TwinInterface): Key {
    ChildKey(ti, OwnService)
  }

  /** The configuration an attempt wants, as the store reads it back. */
  function WantedConfig(st: State, codec: Codec): Configuration
    requires st.ti.spec.service.Some?
  {
    StoredConfig(codec, Build(st.ti, OwnService, st.found).body.config)
  }

  lemma ResultHasConfigIff(st: State, s: Store)
    requires s.Valid() && st.ti.spec.service.Some?
    ensures var k, result := ServiceKey(st.ti), ServiceResult(st, s);
            && result.body.KServiceBody?
            && (result.body.config == WantedConfig(st, s.codec)
                <==> (s.Has(k) && UpToDate(st, s.objects[k]) ==> s.objects[k].body.config == WantedConfig(st, s.codec)))
  {
  }

  /** A success leaves the configuration the attempt wants, addresses included, exactly unless it
      found a service that looked right without having it. */
  lemma SuccessLeavesConfigIff(ti: TwinInterface, s: Store, moves: seq<Move>)
    requires s.Valid() && ti.spec.service.Some? && IsRun(Attempt(ti, s), moves) && Alone(moves)
    requires StateAfter(ti, s, moves).step == Finished(Succeeded)
    ensures var t, st, k := WorldAfter(Attempt(ti, s), moves).store, StateAfter(ti, s, moves), ServiceKey(ti);
            && t.Has(k) && t.objects[k].body.KServiceBody?
            && (t.objects[k].body.config == WantedConfig(st, s.codec)
                <==> (s.Has(k) && UpToDate(st, s.objects[k]) ==> s.objects[k].body.config == WantedConfig(st, s.codec)))
  {
    FirstLeaves(ti, s, moves);
    ResultHasConfigIff(StateAfter(ti, s, moves), s);
  }

  // ---------- a service that looks right is left alone ----------

  /** What CompareTwinService sees is as the interface asks for, whatever the addresses. */
  predicate LooksRight(ti: TwinInterface, o: Object)
    requires ti.spec.service.Some?
  {
    o.body.KServiceBody? && UpToDate(Start(ti), o)
  }

  lemma LooksRightForAll(st: State, o: Object)
    requires st.ti.spec.service.Some? && o.body.KServiceBody?
    ensures UpToDate(st, o) <==> LooksRight(st.ti, o)
  {
    ProjectionIgnoresAddresses(st.ti, st.found, NOTHING_FOUND);
  }

  predicate Untouched(st: State, o: Object, s: Store) {
    s.Has(ServiceKey(st.ti)) && s.objects[ServiceKey(st.ti)] == o && !st.step.UpdateService?
  }

  lemma WritesNoService(st: State, s: Store, e: Event)
    requires Asking(st) && Sane(st) && !st.step.UpdateService? && s.Has(ServiceKey(st.ti))
    requires e.req == Ask(st) && Admits(s, e)
    ensures SameAt(s, After(s, e), ServiceKey(st.ti))
  {
    if e.req.Create? {
      PendingIsWanted(st);
    }
  }

  lemma UntouchedStep(st: State, o: Object, s: Store, e: Event)
    requires Asking(st) && Sane(st) && st.ti.spec.service.Some? && LooksRight(st.ti, o) && Untouched(st, o, s)
    requires e.req == Ask(st) && Admits(s, e)
    ensures Untouched(Tell(st, e.resp), o, After(s, e))
  {
    WritesNoService(st, s, e);
    TellKeepsInterface(st, e.resp);
    LooksRightForAll(st, o);
  }

  /** An attempt leaves a service that looks right exactly as it is, at every point, whatever
      fails and whatever addresses it reads, as long as nobody else writes the service. */
  lemma {:induction false} LeftAlone(ti: TwinInterface, s: Store, moves: seq<Move>)
    requires s.Valid() && ti.spec.service.Some? && s.Has(ServiceKey(ti)) && LooksRight(ti, s.objects[ServiceKey(ti)])
    requires IsRun(Attempt(ti, s), moves) && Spares(Attempt(ti, s), moves, {ServiceKey(ti)})
    ensures Untouched(StateAfter(ti, s, moves), s.objects[ServiceKey(ti)], WorldAfter(Attempt(ti, s), moves).store)
  {
    if moves != [] {
      var front, last := moves[..|moves| - 1], moves[|moves| - 1];
      LeftAlone(ti, s, front);
      var w := WorldAfter(Attempt(ti, s), front);
      if last.Act? {
        CallOfState(StateAfter(ti, s, front), w, last);
        UntouchedStep(StateAfter(ti, s, front), s.objects[ServiceKey(ti)], w.store, last.event);
      } else {
        assert SameAt(w.store, last.store, ServiceKey(ti));
      }
    }
  }

  /** One attempt on the interface, run to its end or crashed. */
  datatype Round = Round(start: Store, moves: seq<Move>)

  function EndOfRound(ti: TwinInterface, r: Round): Store {
    WorldAfter(Attempt(ti, r.start), r.moves).store
  }

  /** Attempts one after the other; others may do anything but write the service. */
  ghost predicate Rounds(ti: TwinInterface, rounds: seq<Round>) {
    && (forall i :: 0 <= i < |rounds| ==>
          && rounds[i].start.Valid() && IsRun(Attempt(ti, rounds[i].start), rounds[i].moves)
          && Spares(Attempt(ti, rounds[i].start), rounds[i].moves, {ServiceKey(ti)}))
    && (forall i :: 0 <= i < |rounds| - 1 ==> SameAt(EndOfRound(ti, rounds[i]), rounds[i + 1].start, ServiceKey(ti)))
  }

  /** Along any number of attempts, with broker and event store changing their addresses in
      between and during them, the service stays what it was. */
  lemma {:induction false} StaleForGood(ti: TwinInterface, rounds: seq<Round>, i: nat)
    requires ti.spec.service.Some? && Rounds(ti, rounds) && i < |rounds|
    requires rounds[0].start.Has(ServiceKey(ti)) && LooksRight(ti, rounds[0].start.objects[ServiceKey(ti)])
    ensures SameAt(rounds[0].start, EndOfRound(ti, rounds[i]), ServiceKey(ti))
  {
    if i > 0 {
      StaleForGood(ti, rounds, i - 1);
      assert SameAt(EndOfRound(ti, rounds[i - 1]), rounds[i - 1 + 1].start, ServiceKey(ti));
    }
    LeftAlone(ti, rounds[i].start, rounds[i].moves);
  }

  /** What a success leaves looks right, if the store keeps the annotations. */
  lemma SuccessLooksRight(ti: TwinInterface, s: Store, moves: seq<Move>)
    requires s.Valid() && ti.spec.service.Some? && IsRun(Attempt(ti, s), moves) && Alone(moves)
    requires StateAfter(ti, s, moves).step == Finished(Succeeded) && KeepsAnnotations(s.codec, ti)
    ensures var t := WorldAfter(Attempt(ti, s), moves).store;
            t.Has(ServiceKey(ti)) && LooksRight(ti, t.objects[ServiceKey(ti)])
  {
    FirstLeaves(ti, s, moves);
    ResultHasConfigIff(StateAfter(ti, s, moves), s);
    ResultIsUpToDateIff(StateAfter(ti, s, moves), Start(ti), s);
  }

  // ---------- the address an attempt reads ----------

  /** Past its first call, a flawless attempt holds the address of the broker in the store. */
  predicate HoldsAddress(st: State, s0: Store) {
    Flawless(st) && st.ti.spec.service.Some? && !st.step.GetBroker?
    ==> s0.Has(BROKER_KEY) && st.found.brokerUrl == AddressOf(s0.objects[BROKER_KEY])
  }

  lemma BrokerUrlStays(st: State, resp: Response)
    requires Asking(st) && !st.step.GetBroker?
    ensures Tell(st, resp).found.brokerUrl == st.found.brokerUrl
  {
    if StageOf(st) >= 1 {
      FoundChangesLate(st, resp);
    }
  }

  lemma HoldsAddressStep(st: State, s0: Store, s: Store, e: Event)
    requires Asking(st) && HoldsAddress(st, s0) && SameAt(s0, s, BROKER_KEY)
    requires e.req == Ask(st) && Admits(s, e)
    ensures HoldsAddress(Tell(st, e.resp), s0)
  {
    if Flawless(Tell(st, e.resp)) {
      FlawlessBefore(st, e.resp);
      TellKeepsInterface(st, e.resp);
      if !st.step.GetBroker? {
        BrokerUrlStays(st, e.resp);
      }
    }
  }

  lemma {:induction false} AttemptHoldsAddress(ti: TwinInterface, s: Store, moves: seq<Move>)
    requires s.Valid() && IsRun(Attempt(ti, s), moves) && Alone(moves)
    ensures HoldsAddress(StateAfter(ti, s, moves), s)
  {
    if moves != [] {
      var front, last := moves[..|moves| - 1], moves[|moves| - 1];
      assert moves == front + [last];
      AttemptHoldsAddress(ti, s, front);
      EffectOfAttempt(ti, s, front);
      assert last in moves;
      var w := WorldAfter(Attempt(ti, s), front);
      CallOfState(StateAfter(ti, s, front), w, last);
      assert Elsewhere(ti, BROKER_KEY);
      HoldsAddressStep(StateAfter(ti, s, front), s, w.store, last.event);
    }
  }

  // ---------- a run that leaves a stale address ----------

  function WithAddress(s: Store, address: string): Store
    requires s.Has(BROKER_KEY)
  {
    s.(objects := s.objects[BROKER_KEY := Object(s.objects[BROKER_KEY].meta, BrokerBody(Some(address)))])
  }

  lemma MovedBrokerIsReady(ti: TwinInterface, s: Store, address: string)
    requires s.Valid() && Ready(ti, s) && s.Has(BROKER_KEY)
    ensures WithAddress(s, address).Valid() && Ready(ti, WithAddress(s, address))
    ensures WithAddress(s, address).Has(BROKER_KEY)
    ensures AddressOf(WithAddress(s, address).objects[BROKER_KEY]) == Some(address)
    ensures SameAt(s, WithAddress(s, address), ServiceKey(ti))
  {
    var t := WithAddress(s, address);
    assert s.objects[BROKER_KEY].KeyOf() == BROKER_KEY;
    forall kind: Kind, selector | !kind.BrokerKind?
      ensures Matching(s, kind, ti.id.ns, selector) == Matching(t, kind, ti.id.ns, selector)
    {
    }
  }

  lemma SuccessReads(ti: TwinInterface, s: Store, moves: seq<Move>)
    requires s.Valid() && ti.spec.service.Some? && IsRun(Attempt(ti, s), moves) && Alone(moves)
    requires StateAfter(ti, s, moves).step == Finished(Succeeded)
    ensures s.Has(BROKER_KEY) && StateAfter(ti, s, moves).found.brokerUrl == AddressOf(s.objects[BROKER_KEY])
  {
    SuccessIsFlawless(ti, s, moves);
    AttemptHoldsAddress(ti, s, moves);
  }

  /** All containers of the service see this address of the broker. */
  predicate AllSee(o: Object, address: string) {
    o.body.KServiceBody?
    && forall i :: 0 <= i < |o.body.config.containers| ==>
         Seen(o.body.config.containers[i].env, "TWINSCALE_BROKER") == Some(Plain("TWINSCALE_BROKER", address))
  }

  lemma BuiltSees(st: State, codec: Codec)
    requires st.ti.spec.service.Some?
    ensures AllSee(Stored(codec, Build(st.ti, OwnService, st.found)), BrokerUrl(st.found))
    ensures |Build(st.ti, OwnService, st.found).body.config.containers| == |st.ti.spec.service.value.containers|
    ensures WantedConfig(st, codec) == Stored(codec, Build(st.ti, OwnService, st.found)).body.config
  {
    ServiceRunsTheContainers(st.ti, st.ti.spec.service.value, BrokerUrl(st.found), st.found.eventStoreUrl);
  }

  /** A first success builds the service with the address it reads. */
  lemma FirstBuild(ti: TwinInterface, s: Store) returns (first: seq<Move>)
    requires s.Valid() && Ready(ti, s) && ti.spec.service.Some?
    requires !s.Has(ServiceKey(ti)) && KeepsAnnotations(s.codec, ti)
    ensures IsRun(Attempt(ti, s), first) && Smooth(first) && StateAfter(ti, s, first).step == Finished(Succeeded)
    ensures var t := WorldAfter(Attempt(ti, s), first).store;
            && t.Valid() && Ready(ti, t) && t.codec == s.codec && t.Has(ServiceKey(ti))
            && LooksRight(ti, t.objects[ServiceKey(ti)])
            && AllSee(t.objects[ServiceKey(ti)], AddressOf(s.objects[BROKER_KEY]).value)
            && |t.objects[ServiceKey(ti)].body.config.containers| == |ti.spec.service.value.containers|
  {
    first := CanSucceed(ti, s);
    StillReady(ti, s, first);
    FirstLeaves(ti, s, first);
    SuccessLooksRight(ti, s, first);
    SuccessReads(ti, s, first);
    BuiltSees(StateAfter(ti, s, first), s.codec);
  }

  lemma DifferentAddress(o: Object, st: State, codec: Codec, address: string)
    requires st.ti.spec.service.Some? && AllSee(o, address) && BrokerUrl(st.found) != address
    requires |o.body.config.containers| > 0
    ensures o.body.config != WantedConfig(st, codec)
  {
    BuiltSees(st, codec);
    var wanted := WantedConfig(st, codec);
    assert |wanted.containers| > 0 ==> wanted.containers[0].env != o.body.config.containers[0].env;
  }

  /** It happens, for every interface with a container and every store that has what an attempt
      needs: the broker moves between two attempts, the second one reads the new address and
      succeeds, and the service still runs with the old one. */
  lemma StaleAddressHappens(ti: TwinInterface, s: Store, address: string)
      returns (first: seq<Move>, second: seq<Move>)
    requires s.Valid() && Ready(ti, s) && ti.spec.service.Some?
    requires !s.Has(ServiceKey(ti)) && KeepsAnnotations(s.codec, ti)
    requires |ti.spec.service.value.containers| > 0 && Some(address) != AddressOf(s.objects[BROKER_KEY])
    ensures IsRun(Attempt(ti, s), first) && Smooth(first) && StateAfter(ti, s, first).step == Finished(Succeeded)
    ensures var t := WorldAfter(Attempt(ti, s), first).store;
            && t.Has(BROKER_KEY) && WithAddress(t, address).Valid()
            && IsRun(Attempt(ti, WithAddress(t, address)), second) && Smooth(second)
            && (var st := StateAfter(ti, WithAddress(t, address), second);
                var u := WorldAfter(Attempt(ti, WithAddress(t, address)), second).store;
                && st.step == Finished(Succeeded) && st.found.brokerUrl == Some(address)
                && u.Has(ServiceKey(ti)) && AllSee(u.objects[ServiceKey(ti)], AddressOf(s.objects[BROKER_KEY]).value)
                && u.objects[ServiceKey(ti)].body.config != WantedConfig(st, s.codec))
  {
    first := FirstBuild(ti, s);
    var t := WorldAfter(Attempt(ti, s), first).store;
    MovedBrokerIsReady(ti, t, address);
    second := SecondReads(ti, WithAddress(t, address));
    DifferentAddress(t.objects[ServiceKey(ti)], StateAfter(ti, WithAddress(t, address), second), s.codec,
                     AddressOf(s.objects[BROKER_KEY]).value);
  }

  lemma SecondReads(ti: TwinInterface, t: Store) returns (second: seq<Move>)
    requires t.Valid() && Ready(ti, t) && ti.spec.service.Some?
    requires t.Has(ServiceKey(ti)) && LooksRight(ti, t.objects[ServiceKey(ti)])
    ensures IsRun(Attempt(ti, t), second) && Smooth(second)
    ensures StateAfter(ti, t, second).step == Finished(Succeeded)
    ensures StateAfter(ti, t, second).found.brokerUrl == AddressOf(t.objects[BROKER_KEY])
    ensures SameAt(t, WorldAfter(Attempt(ti, t), second).store, ServiceKey(ti))
  {
    second := CanSucceed(ti, t);
    AloneSpares(Attempt(ti, t), second, {ServiceKey(ti)});
    LeftAlone(ti, t, second);
    SuccessReads(ti, t, second);
  }
}
