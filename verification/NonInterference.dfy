/** Which keys an attempt can ever touch, and which attempts therefore never disturb each other,
    however the server interleaves their calls. */
module NonInterference {
  import opened Resources
  import opened ClusterApi
  import opened Runs
  import opened Interleaving
  import TI = TwinInterfaceMachine
  import ST = ServiceTriggerMachine
  import MQ = MqttTriggerMachine
  import InterfaceSteps
  import ServiceTriggerRuns
  import MqttTriggerRuns
  import CoreChildren

  // ---------- footprints ----------

  ghost predicate InterfaceWrites(ti: TwinInterface, k: Key) {
    k == TI.InterfaceKey(ti) || exists c :: TI.Wanted(ti, c) && TI.ChildKey(ti, c) == k
  }

  /** Exchanges are listed by broker, queues by trigger. */
  predicate InterfaceReads(ti: TwinInterface, k: Key, hidden: set<Key>) {
    || (ti.spec.service.Some? && (k == TI.BROKER_KEY || k == TI.EVENT_STORE_KEY))
    || (k.kind.ExchangeKind? && k.ns == ti.id.ns)
    || (k.kind.QueueKind? && k.ns == ti.id.ns && k !in hidden)
  }

  predicate MqttWrites(self: Key, k: Key) {
    k == self || k in MqttTriggerRuns.ChildKeys(self.ns)
  }

  predicate MqttReads(k: Key) {
    k == MQ.SECRET_KEY || (k.kind.ExchangeKind? && k.ns == "twinscale")
  }

  predicate ServiceAndTriggerWrites(service: Object, trigger: Object, k: Key) {
    k == service.KeyOf() || k == trigger.KeyOf()
  }

  ghost predicate MayWrite(p: Proc, k: Key) {
    match p
    case Interface(st) => InterfaceWrites(st.ti, k)
    case ServiceAndTrigger(st) => ServiceAndTriggerWrites(st.service, st.trigger, k)
    case Mqtt(st) => MqttWrites(st.self, k)
  }

  ghost predicate MayTouch(p: Proc, k: Key, hidden: set<Key>) {
    || MayWrite(p, k)
    || match p
       case Interface(st) => InterfaceReads(st.ti, k, hidden)
       case ServiceAndTrigger(_) => false
       case Mqtt(_) => MqttReads(k)
  }

  /** Neither writes a key the other reads or writes. */
  ghost predicate Apart(p: Proc, q: Proc, hidden: set<Key>) {
    forall k :: !(MayWrite(p, k) && MayTouch(q, k, hidden)) && !(MayWrite(q, k) && MayTouch(p, k, hidden))
  }

  // ---------- attempts stay within their footprint ----------

  predicate MergesOwn(st: ST.State) {
    && (st.step.UpdateService? ==> st.step.merged.KeyOf() == st.service.KeyOf())
    && (st.step.UpdateTrigger? ==> st.step.merged.KeyOf() == st.trigger.KeyOf())
  }

  /** A queue that has been read keeps its labels when it is written back. */
  predicate KeepsHidden(st: MQ.State, hidden: set<Key>) {
    st.step.UpdateChild? && st.step.existing.KeyOf() in hidden ==> Unlabelled(st.step.existing)
  }

  ghost predicate Bound(p: Proc, hidden: set<Key>) {
    match p
    case Interface(st) => InterfaceSteps.Sane(st)
    case ServiceAndTrigger(st) => st.step.Finished? || (ServiceTriggerRuns.WellBuilt(st) && MergesOwn(st))
    case Mqtt(st) =>
      && st.self.kind.MqttTriggerKind? && KeepsHidden(st, hidden)
      && exists n: nat :: MqttTriggerRuns.Reached(st, n) && MqttTriggerRuns.Homed(st, n)
  }

  /** Nothing the footprint depends on has changed. */
  predicate SameRoot(p: Proc, q: Proc) {
    match p
    case Interface(st) => q.Interface? && q.ti.ti == st.ti
    case ServiceAndTrigger(st) => q.ServiceAndTrigger? && q.st.service == st.service && q.st.trigger == st.trigger
    case Mqtt(st) => q.Mqtt? && q.mq.self == st.self
  }

  lemma SameRootSameFootprint(p: Proc, q: Proc, k: Key, hidden: set<Key>)
    requires SameRoot(p, q)
    ensures MayWrite(p, k) <==> MayWrite(q, k)
    ensures MayTouch(p, k, hidden) <==> MayTouch(q, k, hidden)
  {
  }

  /** Only queues are hidden. */
  ghost predicate OnlyQueues(hidden: set<Key>) {
    forall k :: k in hidden ==> k.kind.QueueKind?
  }

  lemma InterfaceAsks(st: TI.State, k: Key, hidden: set<Key>)
    requires OnlyQueues(hidden)
    requires InterfaceSteps.Sane(st) && TI.Asking(st)
    ensures Writes(TI.Ask(st), k) ==> InterfaceWrites(st.ti, k)
    ensures Touches(TI.Ask(st), k, hidden) ==> InterfaceWrites(st.ti, k) || InterfaceReads(st.ti, k, hidden)
    ensures Discreet(TI.Ask(st), hidden)
  {
    if TI.Pending(st).Some? {
      InterfaceSteps.PendingIsWanted(st);
    } else if st.step.FetchService? || st.step.UpdateService? {
      assert TI.Wanted(st.ti, TI.OwnService);
    }
  }

  lemma ServiceAndTriggerAsks(st: ST.State, k: Key, hidden: set<Key>)
    requires OnlyQueues(hidden) && ServiceTriggerRuns.WellBuilt(st) && MergesOwn(st) && ST.Asking(st)
    ensures Writes(ST.Ask(st), k) || Touches(ST.Ask(st), k, hidden)
            ==> ServiceAndTriggerWrites(st.service, st.trigger, k)
    ensures Discreet(ST.Ask(st), hidden)
  {
  }

  lemma MqttChildrenAreUnlabelled(id: Identity, secret: map<string, string>, exchange: string, i: nat)
    requires i < 6
    ensures Unlabelled(MQ.Children(id, secret, exchange)[i])
  {
    assert "twinscale/trigger"[0] != TRIGGER_LABEL[0];
  }

  lemma MqttIsDiscreet(st: MQ.State, n: nat, hidden: set<Key>)
    requires MqttTriggerRuns.Reached(st, n) && KeepsHidden(st, hidden) && MQ.Asking(st)
    ensures Discreet(MQ.Ask(st), hidden)
  {
    if st.step.CreateChild? {
      MqttChildrenAreUnlabelled(st.id, st.secret, st.exchange, n);
      assert MqttTriggerRuns.Plan(st)[n..][0] == MqttTriggerRuns.Plan(st)[n];
    } else if st.step.UpdateChild? {
      assert MqttTriggerRuns.Plan(st)[n..][0] == MqttTriggerRuns.Plan(st)[n];
    }
  }

  lemma MqttAsks(st: MQ.State, n: nat, k: Key, hidden: set<Key>)
    requires MqttTriggerRuns.Reached(st, n) && MqttTriggerRuns.Homed(st, n) && st.self.kind.MqttTriggerKind?
    requires MQ.Asking(st)
    ensures Writes(MQ.Ask(st), k) ==> MqttWrites(st.self, k)
    ensures Touches(MQ.Ask(st), k, hidden) ==> MqttWrites(st.self, k) || MqttReads(k)
  {
    if st.step.FetchChild? || st.step.CreateChild? || st.step.UpdateChild? {
      MqttTriggerRuns.KeysOfChildren(st.id, st.secret, st.exchange);
      assert MqttTriggerRuns.Plan(st)[n..][0] == MqttTriggerRuns.Plan(st)[n];
      assert MqttTriggerRuns.ChildKeys(st.self.ns)[n] in MqttTriggerRuns.ChildKeys(st.self.ns);
    }
  }

  lemma AskStaysWithin(p: Proc, k: Key, hidden: set<Key>)
    requires OnlyQueues(hidden) && Bound(p, hidden) && p.Asking()
    ensures Writes(p.Ask(), k) ==> MayWrite(p, k)
    ensures Touches(p.Ask(), k, hidden) ==> MayTouch(p, k, hidden)
    ensures Discreet(p.Ask(), hidden)
  {
    match p
    case Interface(st) => InterfaceAsks(st, k, hidden);
    case ServiceAndTrigger(st) => ServiceAndTriggerAsks(st, k, hidden);
    case Mqtt(st) =>
      var n: nat :| MqttTriggerRuns.Reached(st, n) && MqttTriggerRuns.Homed(st, n);
      MqttAsks(st, n, k, hidden);
      MqttIsDiscreet(st, n, hidden);
  }

  lemma OnlyInterfacesWriteBindings(p: Proc, k: Key, hidden: set<Key>)
    requires Bound(p, hidden) && p.Asking() && !p.Interface? && k.kind.BindingKind?
    ensures !MayWrite(p, k)
  {
  }

  /** No call of the other controllers writes a binding, whoever it belongs to. */
  lemma OtherControllersSpareBindings(p: Proc, s: Store, e: Event, k: Key)
    requires Bound(p, {}) && p.Asking() && !p.Interface? && k.kind.BindingKind?
    requires s.Valid() && e.req == p.Ask() && Admits(s, e)
    ensures SameAt(s, After(s, e), k)
  {
    AskStaysWithin(p, k, {});
    OnlyInterfacesWriteBindings(p, k, {});
    OnlyWrittenKeysChange(s, e, k);
  }

  lemma ServiceAndTriggerBoundStep(st: ST.State, s: Store, e: Event)
    requires s.Valid() && ServiceTriggerRuns.WellBuilt(st) && MergesOwn(st) && ST.Asking(st)
    requires e.req == ST.Ask(st) && Admits(s, e)
    ensures var next := ST.Tell(st, e.resp);
            && ServiceTriggerRuns.WellBuilt(next) && MergesOwn(next)
            && next.service == st.service && next.trigger == st.trigger
  {
    if e.resp.Fetched? {
      ServiceTriggerRuns.MergeKeepsKeys(st, e.resp.obj);
    }
  }

  lemma MqttBoundStep(st: MQ.State, n: nat, s: Store, e: Event)
    requires s.Valid() && MqttTriggerRuns.Reached(st, n) && MqttTriggerRuns.Homed(st, n)
    requires st.self.kind.MqttTriggerKind? && MQ.Asking(st) && e.req == MQ.Ask(st) && Admits(s, e)
    ensures var next, m := MQ.Tell(st, e.resp), n + MqttTriggerRuns.Wrote(Act(e));
            MqttTriggerRuns.Reached(next, m) && MqttTriggerRuns.Homed(next, m) && next.self == st.self
  {
    MqttTriggerRuns.ReachedStep(st, n, s, e);
    MqttTriggerRuns.HomedStep(st, n, s, e);
  }

  lemma HiddenStep(st: MQ.State, s: Store, e: Event, hidden: set<Key>)
    requires s.Valid() && Hides(s, hidden) && MQ.Asking(st) && e.req == MQ.Ask(st) && Admits(s, e)
    ensures KeepsHidden(MQ.Tell(st, e.resp), hidden)
  {
  }

  lemma BoundStep(p: Proc, s: Store, e: Event, hidden: set<Key>)
    requires s.Valid() && Hides(s, hidden) && Bound(p, hidden) && p.Asking() && e.req == p.Ask() && Admits(s, e)
    ensures Bound(p.Tell(e.resp), hidden) && SameRoot(p, p.Tell(e.resp))
  {
    match p
    case Interface(st) =>
      InterfaceSteps.AdmittedIsPlausible(st, s, e);
      InterfaceSteps.SaneStep(st, e.resp);
    case ServiceAndTrigger(st) => ServiceAndTriggerBoundStep(st, s, e);
    case Mqtt(st) =>
      var n: nat :| MqttTriggerRuns.Reached(st, n) && MqttTriggerRuns.Homed(st, n);
      MqttBoundStep(st, n, s, e);
      HiddenStep(st, s, e, hidden);
  }

  // ---------- crews of attempts ----------

  function AskOf(p: Proc): Option<Request> {
    if p.Asking() then Some(p.Ask()) else None
  }

  function TellTo(p: Proc, resp: Response): Proc {
    if p.Asking() then p.Tell(resp) else p
  }

  function Attempting(): Machine<Proc> {
    Machine(AskOf, TellTo)
  }

  ghost predicate AllBound(c: Crew<Proc>, hidden: set<Key>) {
    && Orderly(c.store, hidden) && OnlyQueues(hidden) && c.machine == Attempting()
    && forall i :: 0 <= i < |c.procs| ==> Bound(c.procs[i], hidden)
  }

  ghost predicate SameRoots(c: Crew<Proc>, d: Crew<Proc>) {
    |c.procs| == |d.procs| && forall i :: 0 <= i < |c.procs| ==> SameRoot(c.procs[i], d.procs[i])
  }

  lemma TurnKeepsBound(c: Crew<Proc>, d: Crew<Proc>, t: Turn, hidden: set<Key>)
    requires AllBound(d, hidden) && SameRoots(c, d) && MayTurn(d, t)
    ensures AllBound(Turned(d, t), hidden) && SameRoots(c, Turned(d, t))
  {
    AfterIsValid(d.store, t.event);
    assert AskOf(d.procs[t.i]) == Some(t.event.req);
    AskStaysWithin(d.procs[t.i], TI.BROKER_KEY, hidden);
    HidesAfter(d.store, t.event, hidden);
    BoundStep(d.procs[t.i], d.store, t.event, hidden);
    RootIsTransitive(c.procs[t.i], d.procs[t.i], TellTo(d.procs[t.i], t.event.resp));
  }

  lemma RootIsTransitive(p: Proc, q: Proc, r: Proc)
    requires SameRoot(p, q) && SameRoot(q, r)
    ensures SameRoot(p, r)
  {
  }

  lemma RootIsReflexive(p: Proc)
    ensures SameRoot(p, p)
  {
  }

  ghost predicate Within(c: Crew<Proc>, t: Turn, hidden: set<Key>) {
    && t.i < |c.procs| && Discreet(t.event.req, hidden)
    && forall k :: (Writes(t.event.req, k) ==> MayWrite(c.procs[t.i], k))
                   && (Touches(t.event.req, k, hidden) ==> MayTouch(c.procs[t.i], k, hidden))
  }

  lemma TurnStaysWithin(c: Crew<Proc>, d: Crew<Proc>, t: Turn, hidden: set<Key>)
    requires AllBound(d, hidden) && SameRoots(c, d) && MayTurn(d, t)
    ensures Within(c, t, hidden)
  {
    var p := d.procs[t.i];
    assert AskOf(p) == Some(t.event.req);
    AskStaysWithin(p, TI.BROKER_KEY, hidden);
    forall k
      ensures (Writes(t.event.req, k) ==> MayWrite(c.procs[t.i], k))
              && (Touches(t.event.req, k, hidden) ==> MayTouch(c.procs[t.i], k, hidden))
    {
      AskStaysWithin(p, k, hidden);
      SameRootSameFootprint(c.procs[t.i], p, k, hidden);
    }
  }

  ghost predicate AllWithin(c: Crew<Proc>, turns: seq<Turn>, hidden: set<Key>) {
    forall j :: 0 <= j < |turns| ==> Within(c, turns[j], hidden)
  }

  lemma OneMoreWithin(c: Crew<Proc>, turns: seq<Turn>, t: Turn, hidden: set<Key>)
    requires AllWithin(c, turns, hidden) && Within(c, t, hidden)
    ensures AllWithin(c, turns + [t], hidden)
  {
  }

  lemma SameCrewSameRoots(c: Crew<Proc>)
    ensures SameRoots(c, c)
  {
    forall i | 0 <= i < |c.procs| ensures SameRoot(c.procs[i], c.procs[i]) {
      RootIsReflexive(c.procs[i]);
    }
  }

  lemma FrontAndLast(turns: seq<Turn>)
    requires turns != []
    ensures turns == turns[..|turns| - 1] + [turns[|turns| - 1]]
  {
  }

  /** However the calls interleave, every attempt stays within the keys it may touch. */
  lemma {:induction false} CallsStayWithin(c: Crew<Proc>, turns: seq<Turn>, hidden: set<Key>)
    requires AllBound(c, hidden) && IsInterleaving(c, turns)
    ensures AllBound(CrewAfter(c, turns), hidden) && SameRoots(c, CrewAfter(c, turns))
    ensures AllWithin(c, turns, hidden)
  {
    if turns == [] {
      SameCrewSameRoots(c);
    } else {
      var front, last := turns[..|turns| - 1], turns[|turns| - 1];
      CallsStayWithin(c, front, hidden);
      LastTurn(c, turns);
      TurnKeepsBound(c, CrewAfter(c, front), last, hidden);
      TurnStaysWithin(c, CrewAfter(c, front), last, hidden);
      OneMoreWithin(c, front, last, hidden);
      FrontAndLast(turns);
    }
  }

  ghost predicate PairwiseApart(c: Crew<Proc>, hidden: set<Key>) {
    forall i, j :: 0 <= i < |c.procs| && 0 <= j < |c.procs| && i != j ==> Apart(c.procs[i], c.procs[j], hidden)
  }

  lemma ApartIsIndependent(c: Crew<Proc>, turns: seq<Turn>, hidden: set<Key>)
    requires PairwiseApart(c, hidden) && AllWithin(c, turns, hidden)
    ensures AllIndependent(turns, hidden)
  {
    forall j | 0 <= j < |turns| ensures Discreet(turns[j].event.req, hidden) {
      assert Within(c, turns[j], hidden);
    }
    forall j, k | 0 <= j < |turns| && 0 <= k < |turns| && turns[j].i != turns[k].i
      ensures Independent(turns[j].event.req, turns[k].event.req, hidden)
    {
      assert Within(c, turns[j], hidden) && Within(c, turns[k], hidden);
      assert Apart(c.procs[turns[j].i], c.procs[turns[k].i], hidden);
    }
  }

  /** Attempts of any controllers, faults and crashes included, none writing what another may
      touch: every interleaving of their calls ends, with the same answers to every one of
      them, where running them one after the other ends, in whatever order. */
  lemma NoInterference(c: Crew<Proc>, turns: seq<Turn>, order: seq<nat>, hidden: set<Key>)
    requires AllBound(c, hidden) && PairwiseApart(c, hidden) && IsInterleaving(c, turns)
    requires forall i :: i in Attempts(turns) ==> i in order
    requires forall j, k :: 0 <= j < k < |order| ==> order[j] != order[k]
    ensures IsInterleaving(c, Blocks(turns, order))
    ensures CrewAfter(c, Blocks(turns, order)) == CrewAfter(c, turns)
  {
    CallsStayWithin(c, turns, hidden);
    ApartIsIndependent(c, turns, hidden);
    InterleavingsSort(c, turns, order, hidden);
    SortedIsBlocks(turns, order);
  }

  // ---------- a block is a run ----------

  function Acts(turns: seq<Turn>): (moves: seq<Move>)
    ensures |moves| == |turns| && forall j :: 0 <= j < |turns| ==> moves[j] == Act(turns[j].event)
  {
    seq(|turns|, j requires 0 <= j < |turns| => Act(turns[j].event))
  }

  lemma SoloStep(p: Proc, s: Store, e: Event)
    requires AskOf(p) == Some(e.req) && Admits(s, e)
    ensures MayMove(World(p, s), Act(e)) && Moved(World(p, s), Act(e)) == World(TellTo(p, e.resp), After(s, e))
  {
  }

  lemma SoloOneMore(w: World, moves: seq<Move>, p: Proc, s: Store, e: Event)
    requires IsRun(w, moves) && Alone(moves) && WorldAfter(w, moves) == World(p, s)
    requires AskOf(p) == Some(e.req) && Admits(s, e)
    ensures IsRun(w, moves + [Act(e)]) && Alone(moves + [Act(e)])
    ensures WorldAfter(w, moves + [Act(e)]) == World(TellTo(p, e.resp), After(s, e))
  {
    SoloStep(p, s, e);
    OneMoreMove(w, moves, Act(e));
  }

  lemma OneMoreAct(turns: seq<Turn>)
    requires turns != []
    ensures Acts(turns) == Acts(turns[..|turns| - 1]) + [Act(turns[|turns| - 1].event)]
  {
  }

  lemma SoloUnfolds(w: Solo<Proc>, turns: seq<Turn>)
    requires turns != [] && IsSolo(Attempting(), w, turns)
    ensures var front, e := turns[..|turns| - 1], turns[|turns| - 1].event;
            var v := SoloAfter(Attempting(), w, front);
            && IsSolo(Attempting(), w, front) && AskOf(v.proc) == Some(e.req) && Admits(v.store, e)
            && SoloAfter(Attempting(), w, turns) == Solo(TellTo(v.proc, e.resp), After(v.store, e))
  {
  }

  /** An attempt alone is a run with nobody else about. */
  lemma {:induction false} SoloIsARun(w: World, turns: seq<Turn>)
    requires IsSolo(Attempting(), Solo(w.proc, w.store), turns)
    ensures var v := SoloAfter(Attempting(), Solo(w.proc, w.store), turns);
            WorldAfter(w, Acts(turns)) == World(v.proc, v.store)
    ensures IsRun(w, Acts(turns)) && Alone(Acts(turns))
  {
    if turns != [] {
      var front := turns[..|turns| - 1];
      SoloUnfolds(Solo(w.proc, w.store), turns);
      SoloIsARun(w, front);
      var v := SoloAfter(Attempting(), Solo(w.proc, w.store), front);
      SoloOneMore(w, Acts(front), v.proc, v.store, turns[|turns| - 1].event);
      OneMoreAct(turns);
    }
  }

  lemma BlockIsARun(c: Crew<Proc>, p: Proc, turns: seq<Turn>, i: nat)
    requires c.machine == Attempting() && IsInterleaving(c, turns) && i < |c.procs| && c.procs[i] == p
    requires forall j :: 0 <= j < |turns| ==> turns[j].i == i
    ensures IsRun(World(p, c.store), Acts(turns)) && Alone(Acts(turns))
    ensures var w := WorldAfter(World(p, c.store), Acts(turns));
            CrewAfter(c, turns) == Crew(c.machine, c.procs[i := w.proc], w.store)
  {
    BlockIsSolo(c, turns, i);
    SoloIsARun(World(p, c.store), turns);
  }

  lemma TwoBlocks(turns: seq<Turn>, i: nat, j: nat)
    ensures Blocks(turns, [i, j]) == Only(i, turns) + Only(j, turns)
  {
    assert [i, j][1..] == [j] && [j][1..] == [];
    assert Blocks(turns, [j]) == Only(j, turns) + Blocks(turns, []);
  }

  lemma AttemptsOfTwo(c: Crew<Proc>, turns: seq<Turn>, i: nat, hidden: set<Key>)
    requires |c.procs| == 2 && i in Attempts(turns) && AllWithin(c, turns, hidden)
    ensures i in [0, 1]
  {
    var t :| t in turns && t.i == i;
    var j :| 0 <= j < |turns| && turns[j] == t;
    assert Within(c, turns[j], hidden);
    assert i == 0 || i == 1;
  }

  /** The two attempts of a crew, one after the other. */
  lemma TwoSorted(c: Crew<Proc>, turns: seq<Turn>, hidden: set<Key>)
    requires AllBound(c, hidden) && |c.procs| == 2 && Apart(c.procs[0], c.procs[1], hidden) && IsInterleaving(c, turns)
    ensures IsInterleaving(c, Only(0, turns)) && IsInterleaving(CrewAfter(c, Only(0, turns)), Only(1, turns))
    ensures CrewAfter(c, turns) == CrewAfter(CrewAfter(c, Only(0, turns)), Only(1, turns))
  {
    CallsStayWithin(c, turns, hidden);
    forall i | i in Attempts(turns) ensures i in [0, 1] {
      AttemptsOfTwo(c, turns, i, hidden);
    }
    NoInterference(c, turns, [0, 1], hidden);
    TwoBlocks(turns, 0, 1);
    TurnsCompose(c, Only(0, turns), Only(1, turns));
  }

  lemma FirstBlock(a: Proc, b: Proc, s: Store, turns: seq<Turn>)
    requires forall j :: 0 <= j < |turns| ==> turns[j].i == 0
    requires IsInterleaving(Crew(Attempting(), [a, b], s), turns)
    ensures IsRun(World(a, s), Acts(turns)) && Alone(Acts(turns))
    ensures var w := WorldAfter(World(a, s), Acts(turns));
            CrewAfter(Crew(Attempting(), [a, b], s), turns) == Crew(Attempting(), [w.proc, b], w.store)
  {
    BlockIsARun(Crew(Attempting(), [a, b], s), a, turns, 0);
    ReplaceFirst(a, b, WorldAfter(World(a, s), Acts(turns)).proc);
  }

  lemma SecondBlock(a: Proc, b: Proc, s: Store, turns: seq<Turn>)
    requires forall j :: 0 <= j < |turns| ==> turns[j].i == 1
    requires IsInterleaving(Crew(Attempting(), [a, b], s), turns)
    ensures IsRun(World(b, s), Acts(turns)) && Alone(Acts(turns))
    ensures var w := WorldAfter(World(b, s), Acts(turns));
            CrewAfter(Crew(Attempting(), [a, b], s), turns) == Crew(Attempting(), [a, w.proc], w.store)
  {
    BlockIsARun(Crew(Attempting(), [a, b], s), b, turns, 1);
    ReplaceFirst(a, b, WorldAfter(World(b, s), Acts(turns)).proc);
  }

  lemma ReplaceFirst<X>(a: X, b: X, x: X)
    ensures [a, b][0 := x] == [x, b] && [a, b][1 := x] == [a, x]
  {
  }

  /** Two attempts apart from each other: any interleaving is the first one's run alone followed
      by the second one's run alone, each with its own calls and answers. */
  lemma TwoAttempts(a: Proc, b: Proc, s: Store, turns: seq<Turn>, hidden: set<Key>)
    requires Orderly(s, hidden) && OnlyQueues(hidden)
    requires Bound(a, hidden) && Bound(b, hidden) && Apart(a, b, hidden)
    requires IsInterleaving(Crew(Attempting(), [a, b], s), turns)
    ensures var ma, mb := Acts(Only(0, turns)), Acts(Only(1, turns));
            var wa := WorldAfter(World(a, s), ma);
            var wb := WorldAfter(World(b, wa.store), mb);
            && IsRun(World(a, s), ma) && Alone(ma) && IsRun(World(b, wa.store), mb) && Alone(mb)
            && CrewAfter(Crew(Attempting(), [a, b], s), turns) == Crew(Attempting(), [wa.proc, wb.proc], wb.store)
  {
    TwoSorted(Crew(Attempting(), [a, b], s), turns, hidden);
    FirstBlock(a, b, s, Only(0, turns));
    var wa := WorldAfter(World(a, s), Acts(Only(0, turns)));
    SecondBlock(wa.proc, b, wa.store, Only(1, turns));
  }
}
