/** Bounded convergence of `createUpdateTwinInterface`: an attempt is bounded, a fault-free
    attempt succeeds, and so k faults cost at most k attempts. */
module InterfaceConvergence {
  import opened Resources
  import opened ClusterApi
  import opened Runs
  import opened TwinInterfaceMachine
  import opened InterfaceSteps
  import opened InterfaceRuns

  // ---------- every attempt ends ----------

  function Total(ti: TwinInterface): nat {
    |MqttChildren(ti)| + |RelationshipChildren(ti)| + |CommandChildren(ti)|
  }

  /** How many more calls the attempt can make at most. */
  function CallsLeft(st: State): nat {
    var r, c := |RelationshipChildren(st.ti)|, |CommandChildren(st.ti)|;
    match st.step
    case GetBroker => Total(st.ti) + 11
    case GetEventStore => Total(st.ti) + 10
    case CreateService => Total(st.ti) + 9
    case FetchService => Total(st.ti) + 8
    case UpdateService(_) => Total(st.ti) + 7
    case CreateTrigger => Total(st.ti) + 6
    case CreateMqtt(rest) => |rest| + r + c + 5
    case ListEventStoreQueue => r + c + 5
    case ListExchange => r + c + 4
    case CreateEventStore => r + c + 3
    case ListQueue => r + c + 2
    case CreateRelationship(rest) => |rest| + c + 1
    case CreateCommand(rest) => |rest| + 1
    case UpdateInterface => 1
    case Finished(_) => 0
  }

  lemma CallsLeftInTheEnd(st: State)
    ensures CallsLeft(Conclude(st)) <= 1
    ensures CallsLeft(ToCommands(st)) <= |CommandChildren(st.ti)| + 1
    ensures CallsLeft(ToRelationships(st)) <= |RelationshipChildren(st.ti)| + |CommandChildren(st.ti)| + 1
  {
  }

  lemma QueueAnswer(st: State, resp: Response)
    requires Asking(st) && st.step.ListQueue?
    ensures var next := Tell(st, resp);
            if resp.Failed? && resp.error != NotFound then next == Conclude(Note(st, resp))
            else if resp.Listed? && resp.items != [] then
              next == ToRelationships(st.(found := st.found.(queue := QueueNameOf(resp.items[0]))))
            else next.step.Finished?
  {
  }

  lemma CallsLeftDropQueue(st: State, resp: Response)
    requires Asking(st) && st.step.ListQueue?
    ensures CallsLeft(Tell(st, resp)) < CallsLeft(st)
  {
    QueueAnswer(st, resp);
    if resp.Failed? && resp.error != NotFound {
      CallsLeftInTheEnd(Note(st, resp));
    } else if resp.Listed? && resp.items != [] {
      CallsLeftInTheEnd(st.(found := st.found.(queue := QueueNameOf(resp.items[0]))));
    }
  }

  lemma CallsLeftDropLists(st: State, resp: Response)
    requires Asking(st) && (st.step.CreateRelationship? || st.step.CreateCommand?)
    ensures CallsLeft(Tell(st, resp)) < CallsLeft(st)
  {
    var noted := NoteCreate(st, resp);
    assert noted.ti == st.ti;
    CallsLeftInTheEnd(noted);
  }

  lemma CallsLeftDropExchange(st: State, resp: Response)
    requires Asking(st) && st.step.ListExchange?
    ensures CallsLeft(Tell(st, resp)) < CallsLeft(st)
  {
    if resp.Failed? {
      CallsLeftInTheEnd(Note(st, resp));
    }
  }

  lemma CallsLeftDropEventStore(st: State, resp: Response)
    requires Asking(st) && st.step.CreateEventStore?
    ensures CallsLeft(Tell(st, resp)) < CallsLeft(st)
  {
    CallsLeftInTheEnd(NoteCreate(st, resp));
  }

  lemma CallsLeftDropCreate(st: State, resp: Response)
    requires Asking(st) && (st.step.CreateService? || st.step.CreateTrigger?)
    ensures CallsLeft(Tell(st, resp)) < CallsLeft(st)
  {
    assert Note(st, resp).ti == st.ti && NoteCreate(st, resp).ti == st.ti;
  }

  lemma FetchAnswer(st: State, resp: Response)
    requires Asking(st) && st.step.FetchService?
    ensures var next := Tell(st, resp);
            next.ti == st.ti && (next.step.CreateTrigger? || next.step.UpdateService? || next.step.Finished?)
  {
  }

  lemma CallsLeftDropFetch(st: State, resp: Response)
    requires Asking(st) && st.step.FetchService?
    ensures CallsLeft(Tell(st, resp)) < CallsLeft(st)
  {
    FetchAnswer(st, resp);
  }

  lemma CallsLeftDropUpdate(st: State, resp: Response)
    requires Asking(st) && st.step.UpdateService?
    ensures CallsLeft(Tell(st, resp)) < CallsLeft(st)
  {
    assert Note(st, resp).ti == st.ti;
  }

  lemma CallsLeftDropRead(st: State, resp: Response)
    requires Asking(st) && (st.step.GetBroker? || st.step.GetEventStore?)
    ensures CallsLeft(Tell(st, resp)) < CallsLeft(st)
  {
    assert Note(st, resp).ti == st.ti;
  }

  lemma CallsLeftDropMqtt(st: State, resp: Response)
    requires Asking(st) && st.step.CreateMqtt?
    ensures CallsLeft(Tell(st, resp)) < CallsLeft(st)
  {
    assert NoteCreate(st, resp).ti == st.ti;
  }

  lemma CallsLeftDropOther(st: State, resp: Response)
    requires Asking(st) && (st.step.ListEventStoreQueue? || st.step.UpdateInterface?)
    ensures CallsLeft(Tell(st, resp)) < CallsLeft(st)
  {
  }

  lemma CallsLeftDrop(st: State, resp: Response)
    requires Asking(st)
    ensures CallsLeft(Tell(st, resp)) < CallsLeft(st)
  {
    match st.step
    case ListQueue => CallsLeftDropQueue(st, resp);
    case CreateRelationship(_) => CallsLeftDropLists(st, resp);
    case CreateCommand(_) => CallsLeftDropLists(st, resp);
    case ListExchange => CallsLeftDropExchange(st, resp);
    case CreateEventStore => CallsLeftDropEventStore(st, resp);
    case GetBroker => CallsLeftDropRead(st, resp);
    case GetEventStore => CallsLeftDropRead(st, resp);
    case CreateService => CallsLeftDropCreate(st, resp);
    case FetchService => CallsLeftDropFetch(st, resp);
    case UpdateService(_) => CallsLeftDropUpdate(st, resp);
    case CreateTrigger => CallsLeftDropCreate(st, resp);
    case CreateMqtt(_) => CallsLeftDropMqtt(st, resp);
    case _ => CallsLeftDropOther(st, resp);
  }

  function Calls(moves: seq<Move>): nat {
    if moves == [] then 0
    else Calls(moves[..|moves| - 1]) + if moves[|moves| - 1].Act? then 1 else 0
  }

  /** No attempt makes more calls than eleven plus one for each binding it may create. */
  lemma {:induction false} AttemptsAreBounded(ti: TwinInterface, s: Store, moves: seq<Move>)
    requires s.Valid() && IsRun(Attempt(ti, s), moves)
    ensures Calls(moves) + CallsLeft(StateAfter(ti, s, moves)) <= Total(ti) + 11
  {
    if moves != [] {
      var front, last := moves[..|moves| - 1], moves[|moves| - 1];
      AttemptsAreBounded(ti, s, front);
      if last.Act? {
        CallsLeftDrop(StateAfter(ti, s, front), last.event.resp);
      }
    }
  }

  // ---------- a fault-free attempt succeeds ----------

  /** What the attempt needs to find: an exchange, and for an interface with a service also the
      broker with an address, the event-store service and the interface's queue. */
  ghost predicate Ready(ti: TwinInterface, s: Store) {
    && Matching(s, ExchangeKind, ti.id.ns, EXCHANGE_SELECTOR) != {}
    && (ti.spec.service.Some? ==>
          && s.Has(BROKER_KEY) && AddressOf(s.objects[BROKER_KEY]).Some? && s.Has(EVENT_STORE_KEY)
          && Matching(s, QueueKind, ti.id.ns, QueueSelector(ti)) != {})
  }

  /** Others keep every key and everything the attempt needs. */
  ghost predicate Friendly(ti: TwinInterface, w: World, moves: seq<Move>) {
    && KeepsKeys(w, moves)
    && Ready(ti, w.store)
    && forall m :: m in moves && m.Outside? ==> Ready(ti, m.store)
  }

  predicate IsRead(kind: Kind) {
    kind == ExchangeKind || kind == QueueKind
  }

  lemma WritesNoReadKind(st: State)
    requires Asking(st) && Sane(st)
    ensures Ask(st).Create? || Ask(st).Update? ==> !IsRead(Ask(st).obj.KeyOf().kind)
    ensures !Ask(st).UpdateStatus?
  {
  }

  lemma MatchingStays(s: Store, e: Event, kind: Kind, ns: string, selector: map<string, string>)
    requires IsRead(kind) && !e.req.UpdateStatus?
    requires e.req.Create? || e.req.Update? ==> !IsRead(e.req.obj.KeyOf().kind)
    ensures Matching(After(s, e), kind, ns, selector) == Matching(s, kind, ns, selector)
  {
  }

  lemma ReadyStays(st: State, s: Store, e: Event)
    requires Asking(st) && Sane(st) && e.req == Ask(st) && Ready(st.ti, s)
    ensures Ready(st.ti, After(s, e))
  {
    WritesNoReadKind(st);
    MatchingStays(s, e, ExchangeKind, st.ti.id.ns, EXCHANGE_SELECTOR);
    MatchingStays(s, e, QueueKind, st.ti.id.ns, QueueSelector(st.ti));
  }

  /** Nothing went wrong so far, the broker has been read, and a service that is being compared is still there. */
  predicate Fine(st: State, s: Store) {
    && Flawless(st)
    && (st.step.GetEventStore? ==> st.found.brokerUrl.Some?)
    && (st.step.FetchService? || st.step.UpdateService? ==> s.Has(ChildKey(st.ti, OwnService)))
  }

  lemma FineUpdateStep(st: State, s: Store, e: Event)
    requires Asking(st) && Sane(st) && Fine(st, s) && st.step.UpdateService?
    requires e.req == Ask(st) && Admits(s, e) && !Unanswered(e.resp)
    ensures Fine(Tell(st, e.resp), After(s, e))
  {
    assert e.req.obj.KeyOf() == ChildKey(st.ti, OwnService);
    assert e.resp == Done;
  }

  lemma FineFetchStep(st: State, s: Store, e: Event)
    requires s.Valid() && Asking(st) && Sane(st) && Fine(st, s) && st.step.FetchService?
    requires e.req == Ask(st) && Admits(s, e) && !Unanswered(e.resp)
    ensures Fine(Tell(st, e.resp), After(s, e))
  {
    assert e.resp.Fetched? && e.resp.obj.KeyOf() == e.req.key;
    assert e.resp.obj.body.KServiceBody?;
  }

  lemma FineReadStep(st: State, s: Store, e: Event)
    requires s.Valid() && Asking(st) && Sane(st) && Fine(st, s) && Ready(st.ti, s)
    requires st.step.GetBroker? || st.step.GetEventStore?
    requires e.req == Ask(st) && Admits(s, e) && !Unanswered(e.resp)
    ensures Fine(Tell(st, e.resp), After(s, e))
  {
    assert e.resp.Fetched?;
  }

  lemma FineCreateStep(st: State, s: Store, e: Event)
    requires Asking(st) && Sane(st) && Fine(st, s)
    requires e.req == Ask(st) && Admits(s, e) && !Unanswered(e.resp) && e.req.Create?
    ensures Fine(Tell(st, e.resp), After(s, e))
  {
    assert e.resp == Done || e.resp == Failed(AlreadyExists);
    assert st.step.CreateService? && e.resp == Failed(AlreadyExists) ==> s.Has(ChildKey(st.ti, OwnService));
  }

  lemma FineStep(st: State, s: Store, e: Event)
    requires s.Valid() && Asking(st) && Sane(st) && Fine(st, s) && Ready(st.ti, s)
    requires e.req == Ask(st) && Admits(s, e) && !Unanswered(e.resp)
    ensures Fine(Tell(st, e.resp), After(s, e))
  {
    if e.req.List? {
      FineListStep(st, s, e);
    } else if e.req.Create? {
      FineCreateStep(st, s, e);
    } else if e.req.Get? {
      if st.step.FetchService? {
        FineFetchStep(st, s, e);
      } else {
        FineReadStep(st, s, e);
      }
    } else if st.step.UpdateService? {
      FineUpdateStep(st, s, e);
    }
  }

  lemma SomethingIsListed(s: Store, e: Event)
    requires e.req.List? && Admits(s, e) && !Unanswered(e.resp)
    ensures e.resp.Listed? && !e.effect
    ensures Matching(s, e.req.kind, e.req.ns, e.req.selector) != {} ==> e.resp.items != []
  {
  }

  lemma FineListStep(st: State, s: Store, e: Event)
    requires Asking(st) && Sane(st) && Fine(st, s) && Ready(st.ti, s)
    requires e.req == Ask(st) && Admits(s, e) && !Unanswered(e.resp) && e.req.List?
    ensures Fine(Tell(st, e.resp), After(s, e))
  {
    SomethingIsListed(s, e);
    assert After(s, e) == s;
    if st.step.ListQueue? {
      FlawlessAfterQueue(st, e.resp);
    }
  }

  lemma FlawlessAfterQueue(st: State, resp: Response)
    requires st.step.ListQueue? && Flawless(st) && resp.Listed? && resp.items != []
    ensures Flawless(Tell(st, resp)) && !Tell(st, resp).step.FetchService? && !Tell(st, resp).step.UpdateService?
  {
  }

  lemma {:induction false} HealthyAttemptIsFine(ti: TwinInterface, s: Store, moves: seq<Move>)
    requires s.Valid() && IsRun(Attempt(ti, s), moves) && Friendly(ti, Attempt(ti, s), moves) && Healthy(moves)
    ensures Fine(StateAfter(ti, s, moves), WorldAfter(Attempt(ti, s), moves).store)
    ensures Ready(ti, WorldAfter(Attempt(ti, s), moves).store)
  {
    if moves != [] {
      var front, last := moves[..|moves| - 1], moves[|moves| - 1];
      assert moves == front + [last];
      HealthyAttemptIsFine(ti, s, front);
      RunsStayValid(Attempt(ti, s), front);
      var st, t := StateAfter(ti, s, front), WorldAfter(Attempt(ti, s), front).store;
      if last.Act? {
        assert last in moves;
        CallOfState(st, WorldAfter(Attempt(ti, s), front), last);
        FineStep(st, t, last.event);
        ReadyStays(st, t, last.event);
      }
    }
  }

  // ---------- k faults cost at most k attempts ----------

  function Faults(moves: seq<Move>): nat {
    if moves == [] then 0
    else
      var last := moves[|moves| - 1];
      Faults(moves[..|moves| - 1]) + if last.Act? && Unanswered(last.event.resp) then 1 else 0
  }

  lemma {:induction false} NoFaultsIsHealthy(moves: seq<Move>)
    requires Faults(moves) == 0
    ensures Healthy(moves)
  {
    if moves != [] {
      NoFaultsIsHealthy(moves[..|moves| - 1]);
      assert moves == moves[..|moves| - 1] + [moves[|moves| - 1]];
    }
  }

  /** One attempt that ran to its end: where it started and what happened. */
  datatype Try = Try(start: Store, moves: seq<Move>)

  ghost predicate Completed(ti: TwinInterface, t: Try) {
    && t.start.Valid() && IsRun(Attempt(ti, t.start), t.moves)
    && Friendly(ti, Attempt(ti, t.start), t.moves)
    && StateAfter(ti, t.start, t.moves).step.Finished?
  }

  ghost predicate SucceededIn(ti: TwinInterface, t: Try)
    requires Completed(ti, t)
  {
    StateAfter(ti, t.start, t.moves).step == Finished(Succeeded)
  }

  function EndOf(ti: TwinInterface, t: Try): Store {
    WorldAfter(Attempt(ti, t.start), t.moves).store
  }

  /** Attempts one after the other; in between others may add to the store but not delete. */
  ghost predicate Tries(ti: TwinInterface, tries: seq<Try>) {
    && (forall i :: 0 <= i < |tries| ==> Completed(ti, tries[i]))
    && (forall i :: 0 <= i < |tries| - 1 ==>
          EndOf(ti, tries[i]).objects.Keys <= tries[i + 1].start.objects.Keys)
  }

  function TotalFaults(tries: seq<Try>): nat {
    if tries == [] then 0 else TotalFaults(tries[..|tries| - 1]) + Faults(tries[|tries| - 1].moves)
  }

  ghost predicate Complete(ti: TwinInterface, s: Store) {
    forall c :: Wanted(ti, c) ==> s.Has(ChildKey(ti, c))
  }

  lemma SuccessIsComplete(ti: TwinInterface, t: Try)
    requires Completed(ti, t) && SucceededIn(ti, t)
    ensures Complete(ti, EndOf(ti, t))
  {
    EndMeansComplete(ti, t.start, t.moves);
  }

  lemma HealthyTrySucceeds(ti: TwinInterface, t: Try)
    requires Completed(ti, t) && Faults(t.moves) == 0
    ensures SucceededIn(ti, t)
  {
    NoFaultsIsHealthy(t.moves);
    HealthyAttemptIsFine(ti, t.start, t.moves);
  }

  lemma FewerTries(ti: TwinInterface, tries: seq<Try>)
    requires Tries(ti, tries) && tries != []
    ensures Tries(ti, tries[..|tries| - 1])
  {
  }

  lemma {:induction false} FewFaultsLeaveASuccess(ti: TwinInterface, tries: seq<Try>) returns (i: nat)
    requires Tries(ti, tries) && TotalFaults(tries) < |tries|
    ensures i < |tries| && SucceededIn(ti, tries[i])
  {
    if Faults(tries[|tries| - 1].moves) == 0 {
      HealthyTrySucceeds(ti, tries[|tries| - 1]);
      i := |tries| - 1;
    } else {
      FewerTries(ti, tries);
      i := FewFaultsLeaveASuccess(ti, tries[..|tries| - 1]);
    }
  }

  lemma TryOnlyAdds(ti: TwinInterface, t: Try)
    requires Completed(ti, t)
    ensures t.start.objects.Keys <= EndOf(ti, t).objects.Keys
  {
    KeysOnlyGrow(Attempt(ti, t.start), t.moves);
  }

  lemma {:induction false} Chain<X>(starts: seq<set<X>>, ends: seq<set<X>>, i: nat, j: nat)
    requires |starts| == |ends| && i <= j < |ends|
    requires forall n :: 0 <= n < |ends| ==> starts[n] <= ends[n]
    requires forall n :: 0 <= n < |ends| - 1 ==> ends[n] <= starts[n + 1]
    ensures ends[i] <= ends[j]
  {
    if i < j {
      Chain(starts, ends, i, j - 1);
      assert ends[j - 1] <= starts[j - 1 + 1];
    }
  }

  lemma TriesOnlyAdd(ti: TwinInterface, tries: seq<Try>, i: nat, j: nat)
    requires Tries(ti, tries) && i <= j < |tries|
    ensures EndOf(ti, tries[i]).objects.Keys <= EndOf(ti, tries[j]).objects.Keys
  {
    var starts := seq(|tries|, n requires 0 <= n < |tries| => tries[n].start.objects.Keys);
    var ends := seq(|tries|, n requires 0 <= n < |tries| => EndOf(ti, tries[n]).objects.Keys);
    forall n | 0 <= n < |tries| ensures starts[n] <= ends[n] {
      TryOnlyAdds(ti, tries[n]);
    }
    Chain(starts, ends, i, j);
  }

  /** With at most k unanswered calls in all, some attempt among k + 1 succeeds, and from its end
      on every wanted child is in the store. */
  lemma BoundedConvergence(ti: TwinInterface, tries: seq<Try>, k: nat) returns (i: nat)
    requires Tries(ti, tries) && TotalFaults(tries) <= k && |tries| == k + 1
    ensures i <= k && SucceededIn(ti, tries[i])
    ensures forall j :: i <= j <= k ==> Complete(ti, EndOf(ti, tries[j]))
  {
    i := FewFaultsLeaveASuccess(ti, tries);
    SuccessIsComplete(ti, tries[i]);
    forall j | i <= j <= k ensures Complete(ti, EndOf(ti, tries[j])) {
      TriesOnlyAdd(ti, tries, i, j);
    }
  }
}
