/** An event-store binding without a destination: when it comes about, and that it does. */
module EmptyDestination {
  import opened Resources
  import opened ClusterApi
  import opened Runs
  import opened TwinEvents
  import opened TwinInterfaceMachine
  import opened InterfaceSteps
  import opened InterfaceRuns
  import opened InterfaceConvergence
  import opened InterfaceProgress
  import opened InterfaceEffect
  import opened InterfaceReads
  import F = InterfaceFleet

  ghost predicate NoEventStoreQueue(ti: TwinInterface, s: Store) {
    Matching(s, QueueKind, ti.id.ns, EVENT_STORE_SELECTOR) == {}
  }

  lemma QueuesStay(ti: TwinInterface, s: Store, moves: seq<Move>)
    requires s.Valid() && IsRun(Attempt(ti, s), moves) && Alone(moves)
    ensures forall k: Key :: k.kind.QueueKind? ==> SameAt(s, WorldAfter(Attempt(ti, s), moves).store, k)
  {
    EffectOfAttempt(ti, s, moves);
    forall k: Key | k.kind.QueueKind? ensures SameAt(s, WorldAfter(Attempt(ti, s), moves).store, k) {
      assert Elsewhere(ti, k);
    }
  }

  lemma SuccessSees(ti: TwinInterface, s: Store, moves: seq<Move>)
    requires s.Valid() && IsRun(Attempt(ti, s), moves) && Alone(moves)
    requires StateAfter(ti, s, moves).step == Finished(Succeeded)
    ensures MaySee(ti.id.ns, s, StateAfter(ti, s, moves).found.eventStoreQueue)
  {
    AloneKeepsKeys(Attempt(ti, s), moves);
    EndMeansComplete(ti, s, moves);
    AttemptIsInformed(ti, s, moves);
  }

  function BindingKey(ti: TwinInterface): Key {
    ChildKey(ti, EventStoreBound)
  }

  predicate BoundTo(s: Store, k: Key, queue: string) {
    s.Has(k) && s.objects[k].body.BindingBody? && s.objects[k].body.binding.destination == queue
  }

  lemma MadeIsBound(st: State, s0: Store, s: Store)
    requires AsBuilt(st, s0, s) && s.Has(BindingKey(st.ti)) && !s0.Has(BindingKey(st.ti)) && s.Valid()
    ensures BoundTo(s, BindingKey(st.ti), st.found.eventStoreQueue)
  {
    var k := BindingKey(st.ti);
    assert IsWiring(k);
    var c :| Made(st, s.codec, c, s.objects[k]);
    assert s.objects[k].KeyOf() == k;
    F.OnlyEventStoreNamesEndInStore(st.ti, c, st.ti.id.name);
  }

  /** An undisturbed success that creates the event-store binding points it to one of the
      event-store queues there are, and nowhere if there is none. */
  lemma DestinationIsSeen(ti: TwinInterface, s: Store, moves: seq<Move>)
    requires s.Valid() && !s.Has(BindingKey(ti))
    requires IsRun(Attempt(ti, s), moves) && Alone(moves) && StateAfter(ti, s, moves).step == Finished(Succeeded)
    ensures exists queue ::
              MaySee(ti.id.ns, s, queue) && BoundTo(WorldAfter(Attempt(ti, s), moves).store, BindingKey(ti), queue)
  {
    SuccessSees(ti, s, moves);
    EffectOfAttempt(ti, s, moves);
    AloneKeepsKeys(Attempt(ti, s), moves);
    EndMeansComplete(ti, s, moves);
    assert Wanted(ti, EventStoreBound);
    RunsStayValid(Attempt(ti, s), moves);
    MadeIsBound(StateAfter(ti, s, moves), s, WorldAfter(Attempt(ti, s), moves).store);
  }

  /** All event-store queues of the namespace have a name. */
  ghost predicate QueuesAreNamed(ti: TwinInterface, s: Store) {
    forall k :: k in Matching(s, QueueKind, ti.id.ns, EVENT_STORE_SELECTOR) && s.objects[k].body.QueueBody?
                ==> s.objects[k].body.queue.name != ""
  }

  /** So the destination is empty exactly if there is no event-store queue. */
  lemma EmptyDestinationIff(ti: TwinInterface, s: Store, moves: seq<Move>)
    requires s.Valid() && !s.Has(BindingKey(ti)) && QueuesAreNamed(ti, s)
    requires IsRun(Attempt(ti, s), moves) && Alone(moves) && StateAfter(ti, s, moves).step == Finished(Succeeded)
    ensures BoundTo(WorldAfter(Attempt(ti, s), moves).store, BindingKey(ti), "") <==> NoEventStoreQueue(ti, s)
  {
    DestinationIsSeen(ti, s, moves);
  }

  // ---------- a store to start from ----------

  function Bare(ns: string, name: string, labels: GoMap): Meta {
    Meta(ns, name, labels, Nil, [])
  }

  function Broker(): Object {
    Object(Bare("twinscale", "twinscale", Nil), BrokerBody(Some("http://broker")))
  }

  function EventStoreAddress(): Object {
    Object(Bare("twinscale", "eventstore", Nil),
           KServiceBody(Configuration(Nil, map[], []), "http://eventstore", ""))
  }

  function Exchange(ns: string): Object {
    Object(Bare(ns, "exchange", Entries(EXCHANGE_SELECTOR)), ExchangeBody("exchange"))
  }

  function OwnQueue(ti: TwinInterface): Object {
    Object(Bare(ti.id.ns, "queue", Entries(QueueSelector(ti))),
           QueueBody(QueueSpec("queue", RABBITMQ_VHOST, true, false, ClusterRef("rabbitmq", ti.id.ns), "quorum")))
  }

  /** Broker, event store, exchange and the interface's own queue, and nothing else. */
  function StoreFor(ti: TwinInterface, codec: Codec): Store {
    Store(codec, map[Broker().KeyOf() := Broker(), EventStoreAddress().KeyOf() := EventStoreAddress(),
                        Exchange(ti.id.ns).KeyOf() := Exchange(ti.id.ns), OwnQueue(ti).KeyOf() := OwnQueue(ti)])
  }

  lemma LabelsDiffer(name: string)
    ensures TRIGGER_LABEL != BROKER_LABEL
    ensures EVENT_STORE_SELECTOR[TRIGGER_LABEL] == "eventstore-trigger"
  {
    assert TRIGGER_LABEL[21] == 't' && BROKER_LABEL[21] == 'b';
  }

  lemma StoreForHasExchange(ti: TwinInterface, codec: Codec)
    ensures Exchange(ti.id.ns).KeyOf() in Matching(StoreFor(ti, codec), ExchangeKind, ti.id.ns, EXCHANGE_SELECTOR)
    ensures OwnQueue(ti).KeyOf() in Matching(StoreFor(ti, codec), QueueKind, ti.id.ns, QueueSelector(ti))
  {
  }

  lemma OwnQueueSelectedIff(ti: TwinInterface)
    ensures Selected(OwnQueue(ti), EVENT_STORE_SELECTOR) <==> ti.id.name == "eventstore-trigger"
  {
    LabelsDiffer(ti.id.name);
  }

  lemma QueuesOfStoreFor(ti: TwinInterface, codec: Codec)
    ensures var s := StoreFor(ti, codec);
            forall k :: k in s.objects ==>
              && !k.kind.BindingKind?
              && (k.kind.QueueKind? ==> s.objects[k] == OwnQueue(ti))
  {
  }

  lemma StoreForIsValid(ti: TwinInterface, codec: Codec)
    ensures StoreFor(ti, codec).Valid()
    ensures StoreFor(ti, codec).Has(BROKER_KEY) && StoreFor(ti, codec).Has(EVENT_STORE_KEY)
  {
    assert BROKER_LABEL in EXCHANGE_SELECTOR && TRIGGER_LABEL in QueueSelector(ti);
  }

  /** A store with all a reconcile reads but the event-store queue. */
  lemma StoreForIsReady(ti: TwinInterface, codec: Codec)
    requires ti.id.name != "eventstore-trigger"
    ensures StoreFor(ti, codec).Valid() && Ready(ti, StoreFor(ti, codec))
    ensures NoEventStoreQueue(ti, StoreFor(ti, codec)) && !StoreFor(ti, codec).Has(BindingKey(ti))
  {
    StoreForIsValid(ti, codec);
    StoreForHasExchange(ti, codec);
    OwnQueueSelectedIff(ti);
    QueuesOfStoreFor(ti, codec);
  }

  // ---------- the run ----------

  /** The calls of an attempt that is alone, as moves of a fleet of one. */
  function FleetMoves(moves: seq<Move>): (calls: seq<F.FleetMove>)
    requires Alone(moves)
    ensures |calls| == |moves| && forall j :: 0 <= j < |moves| ==> calls[j] == F.Call(0, moves[j].event)
  {
    seq(|moves|, j requires 0 <= j < |moves| => (assert moves[j] in moves; F.Call(0, moves[j].event)))
  }

  function One(ti: TwinInterface, s: Store): F.Fleet {
    F.Fleet(s, [Start(ti)])
  }

  lemma OneWorkerCalls(s: Store, st: State, e: Event)
    requires Asking(st) && e.req == Ask(st) && Admits(s, e)
    ensures F.MayMove(F.Fleet(s, [st]), F.Call(0, e))
    ensures F.Moved(F.Fleet(s, [st]), F.Call(0, e)) == F.Fleet(After(s, e), [Tell(st, e.resp)])
  {
    assert [st][0 := Tell(st, e.resp)] == [Tell(st, e.resp)];
  }

  lemma OneMoreCall(f: F.Fleet, calls: seq<F.FleetMove>, w: World, m: Move)
    requires F.IsFleetRun(f, calls) && w.proc.Interface? && F.FleetAfter(f, calls) == F.Fleet(w.store, [w.proc.ti])
    requires m.Act? && MayMove(w, m)
    ensures F.IsFleetRun(f, calls + [F.Call(0, m.event)])
    ensures F.FleetAfter(f, calls + [F.Call(0, m.event)])
            == F.Fleet(Moved(w, m).store, [Tell(w.proc.ti, m.event.resp)])
  {
    CallOfState(w.proc.ti, w, m);
    F.OneMoreFleetMove(f, calls, F.Call(0, m.event));
    OneWorkerCalls(w.store, w.proc.ti, m.event);
  }

  lemma {:induction false} AloneIsAFleetRun(ti: TwinInterface, s: Store, moves: seq<Move>)
    requires s.Valid() && IsRun(Attempt(ti, s), moves) && Alone(moves)
    ensures F.IsFleetRun(One(ti, s), FleetMoves(moves))
    ensures F.FleetAfter(One(ti, s), FleetMoves(moves))
            == F.Fleet(WorldAfter(Attempt(ti, s), moves).store, [StateAfter(ti, s, moves)])
  {
    if moves != [] {
      var front, last := moves[..|moves| - 1], moves[|moves| - 1];
      assert moves == front + [last];
      assert last in moves;
      AloneIsAFleetRun(ti, s, front);
      OneMoreCall(One(ti, s), FleetMoves(front), WorldAfter(Attempt(ti, s), front), last);
      CallOfState(StateAfter(ti, s, front), WorldAfter(Attempt(ti, s), front), last);
      assert FleetMoves(moves) == FleetMoves(front) + [F.Call(0, last.event)];
    }
  }

  /** The event-store queue that turns up later. */
  function LateQueue(ti: TwinInterface): Object {
    Object(Bare(ti.id.ns, "event-store-queue", Entries(EVENT_STORE_SELECTOR)),
           QueueBody(QueueSpec("late", RABBITMQ_VHOST, true, false, ClusterRef("rabbitmq", ti.id.ns), "quorum")))
  }

  function WithQueue(ti: TwinInterface, s: Store): Store {
    s.(objects := s.objects[LateQueue(ti).KeyOf() := LateQueue(ti)])
  }

  lemma LateQueueIsStored(ti: TwinInterface, s: Store)
    requires s.Valid()
    ensures WithQueue(ti, s).Valid() && WithQueue(ti, s).codec == s.codec
    ensures SameAt(s, WithQueue(ti, s), BindingKey(ti))
  {
    assert TRIGGER_LABEL in EVENT_STORE_SELECTOR;
    assert Stored(s.codec, LateQueue(ti)) == LateQueue(ti);
  }

  /** The late queue is none of the interface's own, and the only one the listing shows. */
  lemma LateQueueIsSeen(ti: TwinInterface, s: Store)
    requires s.Valid() && NoEventStoreQueue(ti, s) && !s.Has(LateQueue(ti).KeyOf())
    ensures Matching(WithQueue(ti, s), QueueKind, ti.id.ns, EVENT_STORE_SELECTOR) == {LateQueue(ti).KeyOf()}
    ensures forall queue :: MaySee(ti.id.ns, WithQueue(ti, s), queue) <==> queue == "late"
  {
    var t := WithQueue(ti, s);
    var ks := Matching(t, QueueKind, ti.id.ns, EVENT_STORE_SELECTOR);
    forall k | k in ks ensures k == LateQueue(ti).KeyOf() {
      assert k != LateQueue(ti).KeyOf() ==> k in Matching(s, QueueKind, ti.id.ns, EVENT_STORE_SELECTOR);
    }
    assert LateQueue(ti).KeyOf() in ks;
    assert QueueNameOf(t.objects[LateQueue(ti).KeyOf()]) == "late";
  }

  lemma StillReadyWithQueue(ti: TwinInterface, s: Store)
    requires s.Valid() && Ready(ti, s) && !s.Has(LateQueue(ti).KeyOf())
    ensures Ready(ti, WithQueue(ti, s))
  {
    var t := WithQueue(ti, s);
    forall kind, selector, k | k in Matching(s, kind, ti.id.ns, selector)
      ensures k in Matching(t, kind, ti.id.ns, selector)
    {
    }
    var x :| x in Matching(s, ExchangeKind, ti.id.ns, EXCHANGE_SELECTOR);
    assert x in Matching(t, ExchangeKind, ti.id.ns, EXCHANGE_SELECTOR);
    if ti.spec.service.Some? {
      var q :| q in Matching(s, QueueKind, ti.id.ns, QueueSelector(ti));
      assert q in Matching(t, QueueKind, ti.id.ns, QueueSelector(ti));
    }
  }

  /** A store a success starts from that has neither the binding nor an event-store queue. */
  ghost predicate Unbound(ti: TwinInterface, s: Store) {
    && s.Valid() && Ready(ti, s) && NoEventStoreQueue(ti, s)
    && !s.Has(BindingKey(ti)) && !s.Has(LateQueue(ti).KeyOf())
  }

  /** The first attempt: it succeeds, and the binding points nowhere. */
  lemma FirstPointsNowhere(ti: TwinInterface, s: Store) returns (first: seq<Move>)
    requires Unbound(ti, s)
    ensures IsRun(Attempt(ti, s), first) && Alone(first)
    ensures var t := WorldAfter(Attempt(ti, s), first).store;
            && t.Valid() && Ready(ti, t) && NoEventStoreQueue(ti, t) && !t.Has(LateQueue(ti).KeyOf())
            && BoundTo(t, BindingKey(ti), "")
  {
    first := CanSucceed(ti, s);
    EmptyDestinationIff(ti, s, first);
    StillReady(ti, s, first);
    StillWithoutQueue(ti, s, first);
  }

  lemma StillWithoutQueue(ti: TwinInterface, s: Store, moves: seq<Move>)
    requires Unbound(ti, s) && IsRun(Attempt(ti, s), moves) && Alone(moves)
    ensures var t := WorldAfter(Attempt(ti, s), moves).store;
            NoEventStoreQueue(ti, t) && !t.Has(LateQueue(ti).KeyOf())
  {
    QueuesStay(ti, s, moves);
    NoQueueStays(ti, s, WorldAfter(Attempt(ti, s), moves).store);
    assert SameAt(s, WorldAfter(Attempt(ti, s), moves).store, LateQueue(ti).KeyOf());
  }

  lemma NoQueueStays(ti: TwinInterface, s: Store, t: Store)
    requires NoEventStoreQueue(ti, s) && forall k: Key :: k.kind.QueueKind? ==> SameAt(s, t, k)
    ensures NoEventStoreQueue(ti, t)
  {
    var there := Matching(t, QueueKind, ti.id.ns, EVENT_STORE_SELECTOR);
    forall k ensures k !in there {
      if k.kind.QueueKind? {
        assert SameAt(s, t, k);
        assert k !in Matching(s, QueueKind, ti.id.ns, EVENT_STORE_SELECTOR);
      }
    }
  }

  /** The second attempt: it reads the late queue and succeeds. */
  lemma SecondReadsQueue(ti: TwinInterface, t: Store) returns (second: seq<Move>)
    requires t.Valid() && Ready(ti, t) && NoEventStoreQueue(ti, t) && !t.Has(LateQueue(ti).KeyOf())
    ensures IsRun(Attempt(ti, WithQueue(ti, t)), second) && Alone(second) && WithQueue(ti, t).Valid()
    ensures StateAfter(ti, WithQueue(ti, t), second).step == Finished(Succeeded)
    ensures StateAfter(ti, WithQueue(ti, t), second).found.eventStoreQueue == "late"
  {
    LateQueueIsStored(ti, t);
    LateQueueIsSeen(ti, t);
    StillReadyWithQueue(ti, t);
    second := CanSucceed(ti, WithQueue(ti, t));
    SuccessSees(ti, WithQueue(ti, t), second);
  }

  /** A queue turns up, and the one worker starts again. */
  function Later(ti: TwinInterface, t: Store): seq<F.FleetMove> {
    [F.Others(WithQueue(ti, t)), F.Restart(0, ti)]
  }

  lemma LaterStep(ti: TwinInterface, t: Store, st: State)
    requires t.Valid()
    ensures F.IsFleetRun(F.Fleet(t, [st]), Later(ti, t))
    ensures F.FleetAfter(F.Fleet(t, [st]), Later(ti, t)) == One(ti, WithQueue(ti, t))
    ensures F.Spared(F.Fleet(t, [st]), Later(ti, t), BindingKey(ti))
  {
    LateQueueIsStored(ti, t);
    var f := F.Fleet(t, [st]);
    var others, restart := F.Others(WithQueue(ti, t)), F.Restart(0, ti);
    F.OneMoreFleetMove(f, [], others);
    F.OneMoreSpared(f, [], others, BindingKey(ti));
    assert [] + [others] == [others];
    F.OneMoreFleetMove(f, [others], restart);
    F.OneMoreSpared(f, [others], restart, BindingKey(ti));
    assert [others] + [restart] == Later(ti, t);
    assert [st][0 := Start(ti)] == [Start(ti)];
  }

  /** The whole run. */
  function WholeRun(ti: TwinInterface, first: seq<Move>, t: Store, second: seq<Move>): seq<F.FleetMove>
    requires Alone(first) && Alone(second)
  {
    FleetMoves(first) + (Later(ti, t) + FleetMoves(second))
  }

  lemma WholeRunRuns(ti: TwinInterface, s: Store, first: seq<Move>, second: seq<Move>)
    requires s.Valid() && IsRun(Attempt(ti, s), first) && Alone(first)
    requires var t := WorldAfter(Attempt(ti, s), first).store;
             t.Valid() && WithQueue(ti, t).Valid() && IsRun(Attempt(ti, WithQueue(ti, t)), second) && Alone(second)
    ensures var t := WorldAfter(Attempt(ti, s), first).store;
            var calls := WholeRun(ti, first, t, second);
            && F.IsFleetRun(One(ti, s), calls) && F.Spared(One(ti, s), calls, BindingKey(ti))
            && F.FleetAfter(One(ti, s), calls)
               == F.Fleet(WorldAfter(Attempt(ti, WithQueue(ti, t)), second).store,
                          [StateAfter(ti, WithQueue(ti, t), second)])
  {
    var t, st := WorldAfter(Attempt(ti, s), first).store, StateAfter(ti, s, first);
    var a, b, c := FleetMoves(first), Later(ti, t), FleetMoves(second);
    AloneIsAFleetRun(ti, s, first);
    F.WorkersSpare(One(ti, s), a, BindingKey(ti));
    LaterStep(ti, t, st);
    AloneIsAFleetRun(ti, WithQueue(ti, t), second);
    F.WorkersSpare(One(ti, WithQueue(ti, t)), c, BindingKey(ti));
    F.FleetRunsCompose(F.Fleet(t, [st]), b, c);
    F.SparedCompose(F.Fleet(t, [st]), b, c, BindingKey(ti));
    F.FleetRunsCompose(One(ti, s), a, b + c);
    F.SparedCompose(One(ti, s), a, b + c, BindingKey(ti));
  }

  lemma StillPointsNowhere(ti: TwinInterface, t: Store, second: seq<Move>)
    requires t.Valid() && NoEventStoreQueue(ti, t) && !t.Has(LateQueue(ti).KeyOf()) && BoundTo(t, BindingKey(ti), "")
    requires WithQueue(ti, t).Valid() && IsRun(Attempt(ti, WithQueue(ti, t)), second) && Alone(second)
    ensures var u := WorldAfter(Attempt(ti, WithQueue(ti, t)), second).store;
            BoundTo(u, BindingKey(ti), "") && !NoEventStoreQueue(ti, u)
  {
    var u := WorldAfter(Attempt(ti, WithQueue(ti, t)), second).store;
    LateQueueIsStored(ti, t);
    LateQueueIsSeen(ti, t);
    EffectOfAttempt(ti, WithQueue(ti, t), second);
    assert IsWiring(BindingKey(ti));
    QueuesStay(ti, WithQueue(ti, t), second);
    assert SameAt(WithQueue(ti, t), u, LateQueue(ti).KeyOf());
    assert LateQueue(ti).KeyOf() in Matching(u, QueueKind, ti.id.ns, EVENT_STORE_SELECTOR);
  }

  /** The one worker has read the late queue and succeeded, and the destination is empty. */
  ghost predicate ReadInVain(ti: TwinInterface, g: F.Fleet) {
    && |g.workers| == 1 && g.workers[0].step == Finished(Succeeded) && g.workers[0].found.eventStoreQueue == "late"
    && !NoEventStoreQueue(ti, g.store) && BoundTo(g.store, BindingKey(ti), "")
  }

  lemma WholeRunIsInVain(ti: TwinInterface, s: Store, first: seq<Move>, second: seq<Move>)
    requires s.Valid() && IsRun(Attempt(ti, s), first) && Alone(first)
    requires var t := WorldAfter(Attempt(ti, s), first).store;
             && t.Valid() && NoEventStoreQueue(ti, t) && !t.Has(LateQueue(ti).KeyOf()) && BoundTo(t, BindingKey(ti), "")
             && WithQueue(ti, t).Valid() && IsRun(Attempt(ti, WithQueue(ti, t)), second) && Alone(second)
             && StateAfter(ti, WithQueue(ti, t), second).step == Finished(Succeeded)
             && StateAfter(ti, WithQueue(ti, t), second).found.eventStoreQueue == "late"
    ensures var calls := WholeRun(ti, first, WorldAfter(Attempt(ti, s), first).store, second);
            && F.IsFleetRun(One(ti, s), calls) && F.Spared(One(ti, s), calls, BindingKey(ti))
            && ReadInVain(ti, F.FleetAfter(One(ti, s), calls))
  {
    WholeRunRuns(ti, s, first, second);
    StillPointsNowhere(ti, WorldAfter(Attempt(ti, s), first).store, second);
  }

  /** From every such store there is a run in which the binding is created without a destination,
      an event-store queue turns up, the worker starts again, reads the queue and succeeds, and the
      destination is still empty. */
  lemma EmptyDestinationHappens(ti: TwinInterface, s: Store) returns (calls: seq<F.FleetMove>)
    requires Unbound(ti, s)
    ensures F.Sound(One(ti, s)) && F.IsFleetRun(One(ti, s), calls) && F.Spared(One(ti, s), calls, BindingKey(ti))
    ensures ReadInVain(ti, F.FleetAfter(One(ti, s), calls))
  {
    StartIsSane(ti);
    var first := FirstPointsNowhere(ti, s);
    var t := WorldAfter(Attempt(ti, s), first).store;
    var second := SecondReadsQueue(ti, t);
    WholeRunIsInVain(ti, s, first, second);
    calls := WholeRun(ti, first, t, second);
  }

  /** And there is such a store for every interface but one called eventstore-trigger. */
  lemma StoreForIsUnbound(ti: TwinInterface, codec: Codec)
    requires ti.id.name != "eventstore-trigger"
    ensures Unbound(ti, StoreFor(ti, codec)) && StoreFor(ti, codec).codec == codec
  {
    StoreForIsReady(ti, codec);
    QueuesOfStoreFor(ti, codec);
    assert LateQueue(ti).meta.name[0] != OwnQueue(ti).meta.name[0];
  }
}
