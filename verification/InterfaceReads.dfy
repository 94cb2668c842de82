/** What an undisturbed attempt of `createUpdateTwinInterface` knows by the time it builds its
    children, said of the objects it has read. */
module InterfaceReads {
  import opened Resources
  import opened ClusterApi
  import opened Runs
  import opened TwinInterfaceMachine
  import opened InterfaceSteps
  import opened InterfaceRuns
  import opened InterfaceEffect

  // ---------- what there is to read ----------

  /** The name of an exchange of the broker in this namespace: its Spec.Name, not the object's. */
  ghost predicate IsExchange(ns: string, s: Store, exchange: string) {
    exists k :: k in Matching(s, ExchangeKind, ns, map["eventing.knative.dev/broker" := "twinscale"])
                && s.objects[k].body.ExchangeBody? && s.objects[k].body.exchangeName == exchange
  }

  /** The name of a queue the broker made for the trigger of this name. */
  ghost predicate IsQueueOf(ns: string, name: string, s: Store, queue: string) {
    exists k :: k in Matching(s, QueueKind, ns, map["eventing.knative.dev/broker" := "twinscale",
                                                    "eventing.knative.dev/trigger" := name])
                && s.objects[k].body.QueueBody? && s.objects[k].body.queue.name == queue
  }

  ghost predicate IsEventStoreQueue(ns: string, s: Store, queue: string) {
    exists k :: k in Matching(s, QueueKind, ns, map["eventing.knative.dev/trigger" := "eventstore-trigger"])
                && s.objects[k].body.QueueBody? && s.objects[k].body.queue.name == queue
  }

  /** An event-store queue, or nothing if there is none. */
  ghost predicate MaySee(ns: string, s: Store, queue: string) {
    if Matching(s, QueueKind, ns, map["eventing.knative.dev/trigger" := "eventstore-trigger"]) == {} then queue == ""
    else IsEventStoreQueue(ns, s, queue)
  }

  predicate IsBrokerAddress(s: Store, url: string) {
    var k := Key(BrokerKind, "twinscale", "twinscale");
    s.Has(k) && s.objects[k].body.BrokerBody? && s.objects[k].body.address == Some(url)
  }

  predicate IsEventStoreAddress(s: Store, url: string) {
    var k := Key(KServiceKind, "twinscale", "eventstore");
    s.Has(k) && s.objects[k].body.KServiceBody? && s.objects[k].body.url == url
  }

  // ---------- how far the attempt has read ----------

  /** The attempt has this behind it, and has not given up. */
  predicate PastBroker(st: State) {
    st.ti.spec.service.Some? && !st.step.GetBroker? && Flawless(st)
  }

  predicate PastEventStore(st: State) {
    PastBroker(st) && !st.step.GetEventStore?
  }

  predicate PastEventStoreQueue(st: State) {
    StageOf(st) >= 3 && !st.step.ListEventStoreQueue? && Flawless(st)
  }

  predicate PastExchange(st: State) {
    PastEventStoreQueue(st) && !st.step.ListExchange?
  }

  predicate PastQueue(st: State) {
    PastExchange(st) && st.ti.spec.service.Some? && !st.step.CreateEventStore? && !st.step.ListQueue?
  }

  ghost predicate Informed(st: State, s: Store) {
    && (PastBroker(st) ==> st.found.brokerUrl.Some? ==> IsBrokerAddress(s, st.found.brokerUrl.value))
    && (PastEventStore(st) ==> st.found.brokerUrl.Some? && IsEventStoreAddress(s, st.found.eventStoreUrl))
    && (PastEventStoreQueue(st) ==> MaySee(st.ti.id.ns, s, st.found.eventStoreQueue))
    && (PastExchange(st) ==> IsExchange(st.ti.id.ns, s, st.found.exchange))
    && (PastQueue(st) ==> IsQueueOf(st.ti.id.ns, st.ti.id.name, s, st.found.queue))
  }

  // ---------- one call ----------

  lemma ReadsBroker(st: State, s: Store, e: Event)
    requires s.Valid() && Asking(st) && st.step.GetBroker? && e.req == Ask(st) && Admits(s, e)
    requires Flawless(Tell(st, e.resp))
    ensures var url := Tell(st, e.resp).found.brokerUrl; url.Some? ==> IsBrokerAddress(s, url.value)
  {
  }

  lemma ReadsEventStore(st: State, s: Store, e: Event)
    requires s.Valid() && Asking(st) && st.step.GetEventStore? && e.req == Ask(st) && Admits(s, e)
    requires Flawless(Tell(st, e.resp))
    ensures st.found.brokerUrl.Some? && Tell(st, e.resp).found.brokerUrl == st.found.brokerUrl
    ensures IsEventStoreAddress(s, Tell(st, e.resp).found.eventStoreUrl)
  {
    assert s.Has(EVENT_STORE_KEY) && KindOf(s.objects[EVENT_STORE_KEY].body) == KServiceKind;
  }

  lemma FirstItem(s: Store, items: seq<Object>, keys: set<Key>) returns (k: Key)
    requires Enumerates(items, s, keys) && items != []
    ensures k in keys && s.Has(k) && s.objects[k] == items[0]
  {
    assert items[0] in items;
    k := items[0].KeyOf();
  }

  lemma ReadsEventStoreQueue(st: State, s: Store, e: Event)
    requires s.Valid() && st.step.ListEventStoreQueue? && e.req == Ask(st) && Admits(s, e)
    requires Flawless(Tell(st, e.resp))
    ensures MaySee(st.ti.id.ns, s, Tell(st, e.resp).found.eventStoreQueue)
  {
    if e.resp.items != [] {
      var k := FirstItem(s, e.resp.items, Matching(s, QueueKind, st.ti.id.ns, EVENT_STORE_SELECTOR));
      assert KindOf(s.objects[k].body) == QueueKind;
    }
  }

  lemma ReadsExchange(st: State, s: Store, e: Event)
    requires s.Valid() && st.step.ListExchange? && e.req == Ask(st) && Admits(s, e)
    requires Flawless(Tell(st, e.resp))
    ensures IsExchange(st.ti.id.ns, s, Tell(st, e.resp).found.exchange)
  {
    var k := FirstItem(s, e.resp.items, Matching(s, ExchangeKind, st.ti.id.ns, EXCHANGE_SELECTOR));
    assert KindOf(s.objects[k].body) == ExchangeKind;
  }

  lemma ReadsQueue(st: State, s: Store, e: Event)
    requires s.Valid() && st.step.ListQueue? && e.req == Ask(st) && Admits(s, e)
    requires Flawless(Tell(st, e.resp))
    ensures IsQueueOf(st.ti.id.ns, st.ti.id.name, s, Tell(st, e.resp).found.queue)
  {
    assert e.resp.Listed? && e.resp.items != [];
    ToRelationshipsKeepsFound(st.(found := st.found.(queue := QueueNameOf(e.resp.items[0]))));
    var k := FirstItem(s, e.resp.items, Matching(s, QueueKind, st.ti.id.ns, QueueSelector(st.ti)));
    assert KindOf(s.objects[k].body) == QueueKind;
  }

  lemma ToRelationshipsKeepsFound(st: State)
    ensures ToRelationships(st).found == st.found
  {
  }

  /** Past a read, what it found stays; getting past it takes the read itself. */
  lemma BrokerStays(st: State, resp: Response)
    requires Asking(st) && PastBroker(Tell(st, resp))
    ensures if PastBroker(st) then Tell(st, resp).found.brokerUrl == st.found.brokerUrl else st.step.GetBroker?
  {
    FlawlessBefore(st, resp);
  }

  lemma EventStoreStays(st: State, resp: Response)
    requires Asking(st) && PastEventStore(Tell(st, resp))
    ensures if PastEventStore(st) then Tell(st, resp).found.eventStoreUrl == st.found.eventStoreUrl
            else PastBroker(st) && st.step.GetEventStore?
  {
    FlawlessBefore(st, resp);
  }

  lemma ListsStay(st: State, resp: Response)
    requires Asking(st) && Flawless(Tell(st, resp))
    ensures PastEventStoreQueue(Tell(st, resp)) ==>
              if PastEventStoreQueue(st) then Tell(st, resp).found.eventStoreQueue == st.found.eventStoreQueue
              else st.step.ListEventStoreQueue?
    ensures PastExchange(Tell(st, resp)) ==>
              if PastExchange(st) then Tell(st, resp).found.exchange == st.found.exchange else st.step.ListExchange?
    ensures PastQueue(Tell(st, resp)) ==>
              if PastQueue(st) then Tell(st, resp).found.queue == st.found.queue else st.step.ListQueue?
  {
    FlawlessBefore(st, resp);
  }

  /** Nothing an attempt reads has changed. */
  ghost predicate SameReads(st: State, s0: Store, s: Store) {
    && (forall k: Key :: k.kind.QueueKind? || k.kind.ExchangeKind? || k.kind.BrokerKind? ==> SameAt(s0, s, k))
    && (PastBroker(st) && st.step.GetEventStore? ==> SameAt(s0, s, EVENT_STORE_KEY))
  }

  lemma SameMatching(s0: Store, s: Store, kind: Kind, ns: string, selector: map<string, string>)
    requires forall k: Key :: k.kind == kind ==> SameAt(s0, s, k)
    ensures Matching(s0, kind, ns, selector) == Matching(s, kind, ns, selector)
    ensures forall k :: k in Matching(s0, kind, ns, selector) ==> s0.objects[k] == s.objects[k]
  {
    var here, there := Matching(s0, kind, ns, selector), Matching(s, kind, ns, selector);
    forall k ensures k in here <==> k in there {
      if k.kind == kind {
        assert SameAt(s0, s, k);
      }
    }
    forall k | k in here ensures s0.objects[k] == s.objects[k] {
      assert SameAt(s0, s, k);
    }
  }

  lemma SameLists(st: State, s0: Store, s: Store)
    requires SameReads(st, s0, s)
    ensures forall ns, queue :: MaySee(ns, s, queue) ==> MaySee(ns, s0, queue)
    ensures forall ns, exchange :: IsExchange(ns, s, exchange) ==> IsExchange(ns, s0, exchange)
    ensures forall ns, name, queue :: IsQueueOf(ns, name, s, queue) ==> IsQueueOf(ns, name, s0, queue)
  {
    forall kind: Kind, ns, selector | kind.QueueKind? || kind.ExchangeKind?
      ensures Matching(s0, kind, ns, selector) == Matching(s, kind, ns, selector)
      ensures forall k :: k in Matching(s0, kind, ns, selector) ==> s0.objects[k] == s.objects[k]
    {
      SameMatching(s0, s, kind, ns, selector);
    }
  }

  lemma AddressStep(st: State, s0: Store, s: Store, e: Event)
    requires s.Valid() && Asking(st) && Informed(st, s0) && SameReads(st, s0, s) && e.req == Ask(st) && Admits(s, e)
    requires PastBroker(Tell(st, e.resp))
    ensures var next := Tell(st, e.resp);
            && (next.found.brokerUrl.Some? ==> IsBrokerAddress(s0, next.found.brokerUrl.value))
            && (PastEventStore(next) ==>
                  next.found.brokerUrl.Some? && IsEventStoreAddress(s0, next.found.eventStoreUrl))
  {
    BrokerStays(st, e.resp);
    if st.step.GetBroker? {
      ReadsBroker(st, s, e);
      assert SameAt(s0, s, BROKER_KEY);
    }
    if PastEventStore(Tell(st, e.resp)) {
      EventStoreStays(st, e.resp);
      if st.step.GetEventStore? {
        ReadsEventStore(st, s, e);
      }
    }
  }

  lemma ListStep(st: State, s0: Store, s: Store, e: Event)
    requires s.Valid() && Asking(st) && Informed(st, s0) && SameReads(st, s0, s) && e.req == Ask(st) && Admits(s, e)
    requires Flawless(Tell(st, e.resp)) && Tell(st, e.resp).ti == st.ti
    ensures var next := Tell(st, e.resp);
            && (PastEventStoreQueue(next) ==> MaySee(st.ti.id.ns, s0, next.found.eventStoreQueue))
            && (PastExchange(next) ==> IsExchange(st.ti.id.ns, s0, next.found.exchange))
            && (PastQueue(next) ==> IsQueueOf(st.ti.id.ns, st.ti.id.name, s0, next.found.queue))
  {
    SameLists(st, s0, s);
    ListsStay(st, e.resp);
    if st.step.ListEventStoreQueue? {
      ReadsEventStoreQueue(st, s, e);
    } else if st.step.ListExchange? {
      ReadsExchange(st, s, e);
    } else if st.step.ListQueue? {
      ReadsQueue(st, s, e);
    }
  }

  lemma InformedStep(st: State, s0: Store, s: Store, e: Event)
    requires s.Valid() && Asking(st) && Informed(st, s0) && SameReads(st, s0, s) && e.req == Ask(st) && Admits(s, e)
    ensures Informed(Tell(st, e.resp), s0)
  {
    TellKeepsInterface(st, e.resp);
    if Flawless(Tell(st, e.resp)) {
      ListStep(st, s0, s, e);
      if PastBroker(Tell(st, e.resp)) {
        AddressStep(st, s0, s, e);
      }
    }
  }

  // ---------- whole attempts ----------

  lemma EffectKeepsReads(st: State, s0: Store, s: Store)
    requires s0.Valid() && Effect(st, s0, s)
    ensures SameReads(st, s0, s)
  {
    forall k: Key | k.kind.QueueKind? || k.kind.ExchangeKind? || k.kind.BrokerKind? ensures SameAt(s0, s, k) {
      assert Elsewhere(st.ti, k);
    }
    if PastBroker(st) && st.step.GetEventStore? && EVENT_STORE_KEY != ChildKey(st.ti, OwnService) {
      assert Elsewhere(st.ti, EVENT_STORE_KEY);
    }
  }

  /** What an undisturbed attempt that is still without a fault has read is what the store it
      started from holds. */
  lemma {:induction false} AttemptIsInformed(ti: TwinInterface, s: Store, moves: seq<Move>)
    requires s.Valid() && IsRun(Attempt(ti, s), moves) && Alone(moves)
    ensures Informed(StateAfter(ti, s, moves), s)
  {
    if moves != [] {
      var front, last := moves[..|moves| - 1], moves[|moves| - 1];
      assert moves == front + [last];
      assert last in moves;
      AttemptIsInformed(ti, s, front);
      EffectOfAttempt(ti, s, front);
      RunsStayValid(Attempt(ti, s), front);
      var st, w := StateAfter(ti, s, front), WorldAfter(Attempt(ti, s), front);
      EffectKeepsReads(st, s, w.store);
      CallOfState(st, w, last);
      InformedStep(st, s, w.store, last.event);
    }
  }
}
