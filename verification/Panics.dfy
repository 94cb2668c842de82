/** Exactly when a reconcile panics. */
module Panics {
  import opened Resources
  import opened ClusterApi
  import opened Runs
  import opened TwinInterfaceMachine
  import opened InterfaceSteps
  import opened InterfaceRuns
  import opened InterfaceConvergence
  import opened InterfaceProgress
  import ST = ServiceTriggerMachine
  import ServiceTriggerRuns

  // ---------- TwinInterface ----------

  /** A listing of exchanges was answered with nothing and no error. */
  predicate ListsNoExchange(m: Move) {
    m.Act? && m.event.req.List? && m.event.req.kind.ExchangeKind? && m.event.resp == Listed([])
  }

  predicate HasPanicked(st: State) {
    st.step == Finished(Panicked)
  }

  lemma ConcludeIsNoPanic(st: State)
    ensures !HasPanicked(Conclude(st)) && !HasPanicked(ToCommands(st)) && !HasPanicked(ToRelationships(st))
  {
  }

  lemma OnlyExchangesAreListed(st: State)
    requires Asking(st)
    ensures Ask(st).List? && Ask(st).kind.ExchangeKind? <==> st.step.ListExchange?
  {
  }

  lemma PanicInList(st: State, resp: Response)
    requires Asking(st) && (st.step.ListEventStoreQueue? || st.step.ListExchange? || st.step.ListQueue?)
    requires resp.Listed? || resp.Failed?
    ensures HasPanicked(Tell(st, resp)) <==> st.step.ListExchange? && resp == Listed([])
  {
    if resp.Failed? {
      ConcludeIsNoPanic(Note(st, resp));
    } else if resp.items != [] {
      ConcludeIsNoPanic(st.(found := st.found.(queue := QueueNameOf(resp.items[0]))));
    }
  }

  lemma PanicElsewhere(st: State, resp: Response)
    requires Asking(st) && !(st.step.ListEventStoreQueue? || st.step.ListExchange? || st.step.ListQueue?)
    requires st.step.FetchService? ==> resp.Failed? || (resp.Fetched? && resp.obj.body.KServiceBody?)
    ensures HasPanicked(Tell(st, resp)) <==> st.step.GetEventStore? && st.found.brokerUrl.None?
  {
    ConcludeIsNoPanic(NoteCreate(st, resp));
  }

  lemma AnswersFit(st: State, s: Store, e: Event)
    requires s.Valid() && Asking(st) && Sane(st) && e.req == Ask(st) && Admits(s, e)
    ensures e.req.List? ==> e.resp.Listed? || e.resp.Failed?
    ensures st.step.FetchService? ==> e.resp.Failed? || (e.resp.Fetched? && e.resp.obj.body.KServiceBody?)
    ensures e.req.List? <==> st.step.ListEventStoreQueue? || st.step.ListExchange? || st.step.ListQueue?
  {
  }

  lemma PanicStepIff(st: State, s: Store, e: Event)
    requires s.Valid() && Asking(st) && Sane(st) && e.req == Ask(st) && Admits(s, e)
    ensures HasPanicked(Tell(st, e.resp))
            <==> ListsNoExchange(Act(e)) || (st.step.GetEventStore? && st.found.brokerUrl.None?)
  {
    AnswersFit(st, s, e);
    OnlyExchangesAreListed(st);
    if e.req.List? {
      PanicInList(st, e.resp);
    } else {
      PanicElsewhere(st, e.resp);
    }
  }

  /** The broker was read, but the call failed or there is no address yet. */
  predicate ReadsNoAddress(m: Move) {
    && m.Act? && m.event.req == Get(BROKER_KEY)
    && !(m.event.resp.Fetched? && AddressOf(m.event.resp.obj).Some?)
  }

  predicate ReadsEventStore(m: Move) {
    m.Act? && m.event.req == Get(EVENT_STORE_KEY)
  }

  ghost predicate SomeListing(moves: seq<Move>) {
    exists j :: 0 <= j < |moves| && ListsNoExchange(moves[j])
  }

  ghost predicate NoAddress(moves: seq<Move>) {
    exists i :: 0 <= i < |moves| && ReadsNoAddress(moves[i])
  }

  /** After the broker was read without an address the event store was read: then the service is
      built, and the missing address dereferenced. */
  ghost predicate BuildsWithoutAddress(moves: seq<Move>) {
    exists i, j :: 0 <= i < j < |moves| && ReadsNoAddress(moves[i]) && ReadsEventStore(moves[j])
  }

  lemma OneMoreCause(moves: seq<Move>, m: Move)
    ensures SomeListing(moves + [m]) <==> SomeListing(moves) || ListsNoExchange(m)
    ensures NoAddress(moves + [m]) <==> NoAddress(moves) || ReadsNoAddress(m)
    ensures BuildsWithoutAddress(moves + [m])
            <==> BuildsWithoutAddress(moves) || (NoAddress(moves) && ReadsEventStore(m))
  {
    var more := moves + [m];
    assert more[|moves|] == m;
    assert forall j :: 0 <= j < |moves| ==> more[j] == moves[j];
    if NoAddress(moves) && ReadsEventStore(m) {
      var i :| 0 <= i < |moves| && ReadsNoAddress(moves[i]);
      assert ReadsNoAddress(more[i]) && ReadsEventStore(more[|moves|]);
    }
    if BuildsWithoutAddress(moves) {
      var i, j :| 0 <= i < j < |moves| && ReadsNoAddress(moves[i]) && ReadsEventStore(moves[j]);
      assert ReadsNoAddress(more[i]) && ReadsEventStore(more[j]);
    }
  }

  /** What the moves so far say about the state. */
  ghost predicate Causes(st: State, moves: seq<Move>) {
    && (HasPanicked(st) <==> SomeListing(moves) || BuildsWithoutAddress(moves))
    && (!HasPanicked(st) && !st.step.GetEventStore? ==> !NoAddress(moves))
    && (st.step.GetEventStore? ==> (NoAddress(moves) <==> st.found.brokerUrl.None?))
  }

  lemma ReadsOnlyThen(st: State)
    requires Asking(st)
    ensures Ask(st) == Get(BROKER_KEY) <==> st.step.GetBroker?
    ensures st.step.GetEventStore? ==> Ask(st) == Get(EVENT_STORE_KEY)
  {
  }

  lemma CausesOfRead(st: State, e: Event, moves: seq<Move>)
    requires Asking(st) && Causes(st, moves) && e.req == Ask(st) && (st.step.GetBroker? || st.step.GetEventStore?)
    ensures Causes(Tell(st, e.resp), moves + [Act(e)])
  {
    OneMoreCause(moves, Act(e));
    ReadsOnlyThen(st);
  }

  lemma CausesOfOther(st: State, s: Store, e: Event, moves: seq<Move>)
    requires s.Valid() && Asking(st) && Sane(st) && Causes(st, moves) && e.req == Ask(st) && Admits(s, e)
    requires !st.step.GetBroker? && !st.step.GetEventStore?
    ensures Causes(Tell(st, e.resp), moves + [Act(e)])
  {
    OneMoreCause(moves, Act(e));
    ReadsOnlyThen(st);
    PanicStepIff(st, s, e);
    NoWayBack(st, e.resp);
  }

  lemma NoWayBack(st: State, resp: Response)
    requires Asking(st) && !st.step.GetBroker?
    ensures !Tell(st, resp).step.GetEventStore?
  {
  }

  lemma CausesOfOutside(st: State, m: Move, moves: seq<Move>)
    requires Causes(st, moves) && m.Outside?
    ensures Causes(st, moves + [m])
  {
    OneMoreCause(moves, m);
  }

  lemma {:induction false} PanicsHaveCauses(ti: TwinInterface, s: Store, moves: seq<Move>)
    requires s.Valid() && IsRun(Attempt(ti, s), moves)
    ensures Causes(StateAfter(ti, s, moves), moves)
  {
    if moves != [] {
      var front, last := moves[..|moves| - 1], moves[|moves| - 1];
      assert moves == front + [last];
      PanicsHaveCauses(ti, s, front);
      AttemptIsSane(ti, s, front);
      var st, w := StateAfter(ti, s, front), WorldAfter(Attempt(ti, s), front);
      if last.Outside? {
        CausesOfOutside(st, last, front);
      } else {
        CallOfState(st, w, last);
        if st.step.GetBroker? || st.step.GetEventStore? {
          CausesOfRead(st, last.event, front);
        } else {
          CausesOfOther(st, w.store, last.event, front);
        }
      }
    }
  }

  /** In every run the reconcile of an interface panics exactly if some listing of exchanges was
      answered with an empty list, or the event store was read after the broker had been read
      without getting an address. */
  lemma PanicsIff(ti: TwinInterface, s: Store, moves: seq<Move>)
    requires s.Valid() && IsRun(Attempt(ti, s), moves)
    ensures HasPanicked(StateAfter(ti, s, moves)) <==> SomeListing(moves) || BuildsWithoutAddress(moves)
  {
    PanicsHaveCauses(ti, s, moves);
  }

  // ---------- EventStore ----------

  predicate Fits(st: ST.State) {
    ServiceTriggerRuns.WellBuilt(st) && st.step != ST.Finished(Panicked)
  }

  lemma FitsStep(st: ST.State, s: Store, e: Event)
    requires s.Valid() && Fits(st) && ST.Asking(st) && e.req == ST.Ask(st) && Admits(s, e)
    ensures Fits(ST.Tell(st, e.resp))
  {
  }

  lemma FitsMove(w: World, m: Move)
    requires w.proc.ServiceAndTrigger? && Fits(w.proc.st) && w.store.Valid() && MayMove(w, m)
    ensures Moved(w, m).proc.ServiceAndTrigger? && Fits(Moved(w, m).proc.st)
  {
    if m.Act? {
      FitsStep(w.proc.st, w.store, m.event);
    }
  }

  lemma {:induction false} NeverPanics(st: ST.State, s: Store, moves: seq<Move>)
    requires s.Valid() && Fits(st) && IsRun(ServiceTriggerRuns.Begin(st, s), moves)
    ensures var w := WorldAfter(ServiceTriggerRuns.Begin(st, s), moves);
            w.proc.ServiceAndTrigger? && Fits(w.proc.st) && w.store.Valid()
  {
    if moves != [] {
      var front, last := moves[..|moves| - 1], moves[|moves| - 1];
      NeverPanics(st, s, front);
      RunsStayValid(ServiceTriggerRuns.Begin(st, s), moves);
      FitsMove(WorldAfter(ServiceTriggerRuns.Begin(st, s), front), last);
    }
  }

  lemma {:induction false} StaysFinished(st: ST.State, s: Store, moves: seq<Move>)
    requires st.step.Finished? && IsRun(ServiceTriggerRuns.Begin(st, s), moves)
    ensures WorldAfter(ServiceTriggerRuns.Begin(st, s), moves).proc == ServiceAndTrigger(st)
    ensures forall j :: 0 <= j < |moves| ==> moves[j].Outside?
  {
    if moves != [] {
      StaysFinished(st, s, moves[..|moves| - 1]);
      assert moves == moves[..|moves| - 1] + [moves[|moves| - 1]];
    }
  }

  lemma PanicsAtTheStartOnly(start: ST.State, s: Store, moves: seq<Move>)
    requires s.Valid() && IsRun(ServiceTriggerRuns.Begin(start, s), moves)
    requires start.step == ST.Finished(Panicked) || Fits(start)
    ensures WorldAfter(ServiceTriggerRuns.Begin(start, s), moves).proc.Ended(Panicked)
            <==> start.step == ST.Finished(Panicked)
    ensures start.step == ST.Finished(Panicked) ==> forall j :: 0 <= j < |moves| ==> moves[j].Outside?
  {
    if start.step == ST.Finished(Panicked) {
      StaysFinished(start, s, moves);
    } else {
      NeverPanics(start, s, moves);
    }
  }

  lemma EventStoreStart(es: EventStore)
    ensures ST.StartEventStore(es).step == ST.Finished(Panicked) <==> es.timeout.None?
    ensures es.timeout.Some? ==> Fits(ST.StartEventStore(es))
  {
    if es.timeout.Some? {
      ServiceTriggerRuns.EventStoreIsFresh(es);
    }
  }

  /** In every run the reconcile of an EventStore panics exactly if it has no timeout; then it
      does so before its first call. */
  lemma EventStorePanicsIff(es: EventStore, s: Store, moves: seq<Move>)
    requires s.Valid() && IsRun(ServiceTriggerRuns.Begin(ST.StartEventStore(es), s), moves)
    ensures WorldAfter(ServiceTriggerRuns.Begin(ST.StartEventStore(es), s), moves).proc.Ended(Panicked)
            <==> es.timeout.None?
    ensures es.timeout.None? ==> forall j :: 0 <= j < |moves| ==> moves[j].Outside?
  {
    EventStoreStart(es);
    PanicsAtTheStartOnly(ST.StartEventStore(es), s, moves);
  }

  // ---------- it happens ----------

  /** An attempt that can only end in a panic: it has not passed the listing of exchanges. */
  predicate BeforeExchange(st: State, s: Store) {
    || st.step.GetBroker? || st.step.GetEventStore? || st.step.CreateService? || st.step.UpdateService?
    || (st.step.FetchService? && s.Has(ChildKey(st.ti, OwnService)))
    || st.step.CreateTrigger? || st.step.CreateMqtt? || st.step.ListEventStoreQueue? || st.step.ListExchange?
    || HasPanicked(st)
  }

  ghost predicate NoExchange(ti: TwinInterface, s: Store) {
    Matching(s, ExchangeKind, ti.id.ns, EXCHANGE_SELECTOR) == {}
  }

  lemma BeforeExchangeStep(st: State, s: Store, e: Event)
    requires s.Valid() && Asking(st) && Sane(st) && BeforeExchange(st, s) && NoExchange(st.ti, s)
    requires e.req == Ask(st) && Admits(s, e) && !Unanswered(e.resp)
    ensures BeforeExchange(Tell(st, e.resp), After(s, e))
  {
    AnswersFit(st, s, e);
    if st.step.ListExchange? {
      assert e.resp.Listed? && |e.resp.items| == 0;
    }
  }

  ghost predicate Doomed(w: World) {
    && w.proc.Interface? && Sane(w.proc.ti) && w.store.Valid()
    && BeforeExchange(w.proc.ti, w.store) && NoExchange(w.proc.ti.ti, w.store)
  }

  lemma DoomedMove(w: World, m: Move)
    requires Doomed(w) && MayMove(w, m) && m.Act? && !Unanswered(m.event.resp)
    ensures Doomed(Moved(w, m)) && Moved(w, m).proc.ti.ti == w.proc.ti.ti
  {
    var st, e := w.proc.ti, m.event;
    CallOfState(st, w, m);
    AdmittedIsPlausible(st, w.store, e);
    SaneStep(st, e.resp);
    AfterIsValid(w.store, e);
    BeforeExchangeStep(st, w.store, e);
    WritesNoReadKind(st);
    MatchingStays(w.store, e, ExchangeKind, st.ti.id.ns, EXCHANGE_SELECTOR);
  }

  lemma {:induction false} StaysDoomed(w: World, moves: seq<Move>)
    requires Doomed(w) && IsRun(w, moves) && Smooth(moves)
    ensures Doomed(WorldAfter(w, moves))
  {
    if moves != [] {
      var front, last := moves[..|moves| - 1], moves[|moves| - 1];
      assert moves == front + [last];
      assert last in moves;
      StaysDoomed(w, front);
      DoomedMove(WorldAfter(w, front), last);
    }
  }

  lemma StartIsDoomed(ti: TwinInterface, s: Store)
    requires s.Valid() && NoExchange(ti, s)
    ensures Doomed(Attempt(ti, s))
  {
    StartIsSane(ti);
  }

  /** While there is no exchange, every attempt whose calls are all answered ends in the panic. */
  lemma NoExchangeAlwaysPanics(ti: TwinInterface, s: Store, moves: seq<Move>)
    requires s.Valid() && NoExchange(ti, s) && IsRun(Attempt(ti, s), moves) && Smooth(moves)
    requires StateAfter(ti, s, moves).step.Finished?
    ensures HasPanicked(StateAfter(ti, s, moves))
  {
    StartIsDoomed(ti, s);
    StaysDoomed(Attempt(ti, s), moves);
  }

  /** And there is such an attempt. */
  lemma NoExchangePanics(ti: TwinInterface, s: Store) returns (moves: seq<Move>)
    requires s.Valid() && NoExchange(ti, s)
    ensures IsRun(Attempt(ti, s), moves) && Smooth(moves) && HasPanicked(StateAfter(ti, s, moves))
  {
    StartIsDoomed(ti, s);
    moves := CanFinishFrom(Attempt(ti, s));
    NoExchangeAlwaysPanics(ti, s, moves);
  }

  predicate BrokerHasAddress(s: Store) {
    s.Has(BROKER_KEY) && AddressOf(s.objects[BROKER_KEY]).Some?
  }

  /** The two reads of a reconcile that finds no address. */
  predicate AtTheReads(st: State) {
    st.step.GetBroker? || (st.step.GetEventStore? && st.found.brokerUrl.None?) || HasPanicked(st)
  }

  lemma ReadStep(st: State, s: Store, e: Event)
    requires Asking(st) && AtTheReads(st) && !BrokerHasAddress(s) && e.req == Ask(st) && Admits(s, e)
    ensures AtTheReads(Tell(st, e.resp)) && After(s, e) == s && e.req.Get?
  {
  }

  lemma {:induction false} NothingButReads(ti: TwinInterface, s: Store, moves: seq<Move>)
    requires s.Valid() && ti.spec.service.Some? && !BrokerHasAddress(s)
    requires IsRun(Attempt(ti, s), moves) && Alone(moves)
    ensures AtTheReads(StateAfter(ti, s, moves)) && WorldAfter(Attempt(ti, s), moves).store == s
    ensures forall j :: 0 <= j < |moves| ==> moves[j].Act? && moves[j].event.req.Get?
  {
    if moves != [] {
      var front, last := moves[..|moves| - 1], moves[|moves| - 1];
      assert moves == front + [last];
      assert last in moves;
      NothingButReads(ti, s, front);
      var st, w := StateAfter(ti, s, front), WorldAfter(Attempt(ti, s), front);
      CallOfState(st, w, last);
      ReadStep(st, s, last.event);
    }
  }

  /** While the broker is missing or has no address, an undisturbed attempt on an interface with a
      service only reads, and ends in the panic; and there is such an attempt. */
  lemma NoAddressPanics(ti: TwinInterface, s: Store) returns (moves: seq<Move>)
    requires s.Valid() && ti.spec.service.Some? && !BrokerHasAddress(s)
    ensures IsRun(Attempt(ti, s), moves) && Smooth(moves) && HasPanicked(StateAfter(ti, s, moves))
    ensures WorldAfter(Attempt(ti, s), moves).store == s
    ensures forall j :: 0 <= j < |moves| ==> moves[j].Act? && moves[j].event.req.Get?
  {
    StartIsSane(ti);
    moves := CanFinishFrom(Attempt(ti, s));
    NothingButReads(ti, s, moves);
  }
}
