/** Any number of TwinInterface attempts side by side, crashing, restarting and changing their
    interfaces as they like, while everybody else changes the store as well: what a Trigger or
    Binding is once, it is for good. */
module InterfaceFleet {
  import opened Resources
  import opened ClusterApi
  import opened TwinEvents
  import opened TwinInterfaceMachine
  import opened InterfaceSteps
  import Runs

  datatype Fleet = Fleet(store: Store, workers: seq<State>)

  /** A worker makes its next call, or drops what it does and starts on some interface: the
      next event of the queue, a retry, a changed specification, or a restart after a crash. Or
      somebody else, users and the other controllers included, changes the store. */
  datatype FleetMove = Call(i: nat, event: Event) | Restart(i: nat, ti: TwinInterface) | Others(store: Store)
  {
    /** The move is one of this worker. */
    predicate Of(n: nat) {
      !Others? && i == n
    }
  }

  ghost predicate MayMove(f: Fleet, m: FleetMove) {
    match m
    case Call(i, e) => i < |f.workers| && Asking(f.workers[i]) && e.req == Ask(f.workers[i]) && Admits(f.store, e)
    case Restart(i, _) => i < |f.workers|
    case Others(s) => s.Valid() && s.codec == f.store.codec
  }

  function Moved(f: Fleet, m: FleetMove): Fleet {
    match m
    case Restart(i, ti) => if i < |f.workers| then f.(workers := f.workers[i := Start(ti)]) else f
    case Call(i, e) =>
      Fleet(After(f.store, e),
            if i < |f.workers| && Asking(f.workers[i]) then f.workers[i := Tell(f.workers[i], e.resp)] else f.workers)
    case Others(s) => f.(store := s)
  }

  function FleetAfter(f: Fleet, moves: seq<FleetMove>): Fleet {
    if moves == [] then f else Moved(FleetAfter(f, moves[..|moves| - 1]), moves[|moves| - 1])
  }

  ghost predicate IsFleetRun(f: Fleet, moves: seq<FleetMove>) {
    moves == []
    || (var front, last := moves[..|moves| - 1], moves[|moves| - 1];
        IsFleetRun(f, front) && MayMove(FleetAfter(f, front), last))
  }

  lemma OneMoreFleetMove(f: Fleet, moves: seq<FleetMove>, m: FleetMove)
    ensures FleetAfter(f, moves + [m]) == Moved(FleetAfter(f, moves), m)
    ensures IsFleetRun(f, moves + [m]) <==> IsFleetRun(f, moves) && MayMove(FleetAfter(f, moves), m)
  {
    assert (moves + [m])[..|moves|] == moves;
  }

  lemma {:induction false} FleetRunsCompose(f: Fleet, a: seq<FleetMove>, b: seq<FleetMove>)
    ensures FleetAfter(f, a + b) == FleetAfter(FleetAfter(f, a), b)
    ensures IsFleetRun(f, a + b) <==> IsFleetRun(f, a) && IsFleetRun(FleetAfter(f, a), b)
  {
    if b == [] {
      assert a + b == a;
    } else {
      var front, last := b[..|b| - 1], b[|b| - 1];
      assert a + b == (a + front) + [last];
      OneMoreFleetMove(f, a + front, last);
      FleetRunsCompose(f, a, front);
    }
  }

  /** Workers start fresh or finished, on a valid store. */
  ghost predicate Sound(f: Fleet) {
    && f.store.Valid()
    && forall w :: w in f.workers ==> Sane(w)
  }

  lemma StepIsSound(f: Fleet, m: FleetMove)
    requires Sound(f) && MayMove(f, m)
    ensures Sound(Moved(f, m)) && |Moved(f, m).workers| == |f.workers|
  {
    if !m.Others? {
      WorkerStaysSane(f, m);
      var g := Moved(f, m);
      forall w | w in g.workers ensures Sane(w) {
        assert w == g.workers[m.i] || w in f.workers;
      }
    }
  }

  lemma WorkerStaysSane(f: Fleet, m: FleetMove)
    requires Sound(f) && MayMove(f, m) && !m.Others?
    ensures Moved(f, m).store.Valid() && Sane(Moved(f, m).workers[m.i])
  {
    assert f.workers[m.i] in f.workers;
    if m.Call? {
      AfterIsValid(f.store, m.event);
      AdmittedIsPlausible(f.workers[m.i], f.store, m.event);
      SaneStep(f.workers[m.i], m.event.resp);
    } else {
      StartIsSane(m.ti);
    }
  }

  lemma {:induction false} RunIsSound(f: Fleet, moves: seq<FleetMove>)
    requires Sound(f) && IsFleetRun(f, moves)
    ensures Sound(FleetAfter(f, moves)) && |FleetAfter(f, moves).workers| == |f.workers|
  {
    if moves != [] {
      RunIsSound(f, moves[..|moves| - 1]);
      StepIsSound(FleetAfter(f, moves[..|moves| - 1]), moves[|moves| - 1]);
    }
  }

  // ---------- write-once ----------

  predicate MayChange(kind: Kind) {
    kind == KServiceKind || kind == TwinInterfaceKind
  }

  /** One call of one worker keeps every key, and the content of everything but Services and
      the interfaces themselves. */
  lemma CallKeeps(st: State, s: Store, e: Event, k: Key)
    requires Asking(st) && Sane(st) && e.req == Ask(st) && Admits(s, e) && s.Has(k)
    ensures After(s, e).Has(k)
    ensures !MayChange(k.kind) ==> After(s, e).objects[k] == s.objects[k]
  {
    if e.req.Update? {
      UpdatesOnlyServicesAndInterfaces(st);
    }
  }

  lemma UpdatesOnlyServicesAndInterfaces(st: State)
    requires Asking(st) && Sane(st) && Ask(st).Update?
    ensures MayChange(Ask(st).obj.KeyOf().kind)
    ensures Ask(st).obj.body.KServiceBody? <==> st.step.UpdateService?
  {
  }

  /** Others do not delete this key. */
  ghost predicate OthersKeep(f: Fleet, moves: seq<FleetMove>, k: Key) {
    moves == []
    || (var front, last := moves[..|moves| - 1], moves[|moves| - 1];
        && OthersKeep(f, front, k)
        && (last.Others? ==> FleetAfter(f, front).store.Has(k) ==> last.store.Has(k)))
  }

  /** Others neither write nor delete this key; they may do anything else. */
  ghost predicate Spared(f: Fleet, moves: seq<FleetMove>, k: Key) {
    moves == []
    || (var front, last := moves[..|moves| - 1], moves[|moves| - 1];
        && Spared(f, front, k)
        && (last.Others? ==> Runs.SameAt(FleetAfter(f, front).store, last.store, k)))
  }

  lemma OneMoreSpared(f: Fleet, moves: seq<FleetMove>, m: FleetMove, k: Key)
    requires Spared(f, moves, k) && (m.Others? ==> Runs.SameAt(FleetAfter(f, moves).store, m.store, k))
    ensures Spared(f, moves + [m], k)
  {
    assert (moves + [m])[..|moves|] == moves;
  }

  lemma {:induction false} SparedIsKept(f: Fleet, moves: seq<FleetMove>, k: Key)
    requires Spared(f, moves, k)
    ensures OthersKeep(f, moves, k)
  {
    if moves != [] {
      SparedIsKept(f, moves[..|moves| - 1], k);
    }
  }

  lemma {:induction false} SparedCompose(f: Fleet, a: seq<FleetMove>, b: seq<FleetMove>, k: Key)
    requires Spared(f, a, k) && Spared(FleetAfter(f, a), b, k)
    ensures Spared(f, a + b, k)
  {
    if b == [] {
      assert a + b == a;
    } else {
      var front, last := b[..|b| - 1], b[|b| - 1];
      assert a + b == (a + front) + [last];
      FleetRunsCompose(f, a, front);
      SparedCompose(f, a, front, k);
      OneMoreSpared(f, a + front, last, k);
    }
  }

  lemma {:induction false} WorkersSpare(f: Fleet, moves: seq<FleetMove>, k: Key)
    requires forall j :: 0 <= j < |moves| ==> !moves[j].Others?
    ensures Spared(f, moves, k)
  {
    if moves != [] {
      WorkersSpare(f, moves[..|moves| - 1], k);
    }
  }

  /** A move of a worker keeps every key, and the content of everything but Services and the
      interfaces themselves. */
  lemma WorkerKeeps(g: Fleet, m: FleetMove, k: Key)
    requires Sound(g) && MayMove(g, m) && !m.Others? && g.store.Has(k)
    ensures Moved(g, m).store.Has(k)
    ensures !MayChange(k.kind) ==> Moved(g, m).store.objects[k] == g.store.objects[k]
  {
    assert g.workers[m.i] in g.workers;
    if m.Call? {
      CallKeeps(g.workers[m.i], g.store, m.event, k);
    }
  }

  /** No key disappears unless somebody else deletes it. */
  lemma {:induction false} NothingIsDeleted(f: Fleet, moves: seq<FleetMove>, k: Key)
    requires Sound(f) && IsFleetRun(f, moves) && f.store.Has(k) && OthersKeep(f, moves, k)
    ensures FleetAfter(f, moves).store.Has(k)
  {
    if moves != [] {
      var front, last := moves[..|moves| - 1], moves[|moves| - 1];
      NothingIsDeleted(f, front, k);
      RunIsSound(f, front);
      if !last.Others? {
        WorkerKeeps(FleetAfter(f, front), last, k);
      }
    }
  }

  /** Write-once over all runs of any fleet beside anybody else: nothing but a Service or an
      interface is ever overwritten, unless somebody else writes it. */
  lemma {:induction false} WriteOnce(f: Fleet, moves: seq<FleetMove>, k: Key)
    requires Sound(f) && IsFleetRun(f, moves) && f.store.Has(k) && !MayChange(k.kind) && Spared(f, moves, k)
    ensures FleetAfter(f, moves).store.Has(k) && FleetAfter(f, moves).store.objects[k] == f.store.objects[k]
  {
    if moves != [] {
      var front, last := moves[..|moves| - 1], moves[|moves| - 1];
      WriteOnce(f, front, k);
      RunIsSound(f, front);
      if !last.Others? {
        WorkerKeeps(FleetAfter(f, front), last, k);
      }
    }
  }

  // ---------- where the event-store binding points, forever ----------

  /** The worker has read the event-store queue. */
  predicate PastQueueList(st: State) {
    || st.step.ListExchange? || st.step.CreateEventStore? || st.step.ListQueue?
    || st.step.CreateRelationship? || st.step.CreateCommand? || st.step.UpdateInterface?
  }

  /** The j-th move is worker i reading the event-store queue and seeing `queue`; "" if the
      answer was an empty list. */
  ghost predicate Saw(moves: seq<FleetMove>, j: nat, i: nat, queue: string) {
    && j < |moves| && moves[j].Call? && moves[j].Of(i)
    && moves[j].event.req.List? && moves[j].event.req.selector == EVENT_STORE_SELECTOR
    && moves[j].event.resp.Listed?
    && queue == if moves[j].event.resp.items == [] then "" else QueueNameOf(moves[j].event.resp.items[0])
  }

  /** Worker i does not start anew between the two moves: it is still at the same attempt. */
  ghost predicate KeepsAt(moves: seq<FleetMove>, from: nat, to: nat, i: nat)
    requires to <= |moves|
  {
    forall k :: from < k < to ==> !(moves[k].Restart? && moves[k].Of(i))
  }

  lemma QueueStep(st: State, resp: Response)
    requires Asking(st) && PastQueueList(Tell(st, resp))
    ensures PastQueueList(st) ==> Tell(st, resp).found.eventStoreQueue == st.found.eventStoreQueue
    ensures !PastQueueList(st) ==>
              && st.step.ListEventStoreQueue? && resp.Listed?
              && Tell(st, resp).found.eventStoreQueue == if resp.items == [] then "" else QueueNameOf(resp.items[0])
  {
  }

  lemma WorkerStep(g: Fleet, m: FleetMove, i: nat)
    requires MayMove(g, m) && i < |g.workers| && PastQueueList(Moved(g, m).workers[i])
    ensures !(m.Restart? && m.Of(i))
    ensures PastQueueList(g.workers[i]) ==>
              Moved(g, m).workers[i].found.eventStoreQueue == g.workers[i].found.eventStoreQueue
    ensures !PastQueueList(g.workers[i]) ==>
              && m.Call? && m.Of(i) && g.workers[i].step.ListEventStoreQueue? && m.event.resp.Listed?
              && m.event.req == Ask(g.workers[i])
              && Moved(g, m).workers[i].found.eventStoreQueue
                 == if m.event.resp.items == [] then "" else QueueNameOf(m.event.resp.items[0])
  {
    if m.Call? && m.Of(i) {
      QueueStep(g.workers[i], m.event.resp);
    }
  }

  /** Worker i saw `queue` at move j and has been at the same attempt ever since. */
  ghost predicate SawLately(moves: seq<FleetMove>, j: nat, i: nat, queue: string) {
    Saw(moves, j, i, queue) && KeepsAt(moves, j, |moves|, i)
  }

  lemma SeesNow(front: seq<FleetMove>, m: FleetMove, st: State, queue: string)
    requires m.Call? && st.step.ListEventStoreQueue? && m.event.req == Ask(st) && m.event.resp.Listed?
    requires queue == if m.event.resp.items == [] then "" else QueueNameOf(m.event.resp.items[0])
    ensures SawLately(front + [m], |front|, m.i, queue)
  {
  }

  lemma StillSaw(front: seq<FleetMove>, m: FleetMove, j: nat, i: nat, queue: string)
    requires SawLately(front, j, i, queue) && !(m.Restart? && m.Of(i))
    ensures SawLately(front + [m], j, i, queue)
  {
    var moves := front + [m];
    forall k | j < k < |moves| ensures !(moves[k].Restart? && moves[k].Of(i)) {
      assert moves[k] == if k < |front| then front[k] else m;
    }
  }

  lemma {:induction false} QueueWasSeen(f: Fleet, moves: seq<FleetMove>, i: nat) returns (j: nat)
    requires Sound(f) && IsFleetRun(f, moves) && i < |f.workers|
    requires forall n :: 0 <= n < |f.workers| ==> !PastQueueList(f.workers[n])
    requires |FleetAfter(f, moves).workers| == |f.workers| && PastQueueList(FleetAfter(f, moves).workers[i])
    ensures SawLately(moves, j, i, FleetAfter(f, moves).workers[i].found.eventStoreQueue)
  {
    if moves == [] {
      assert false;
    }
    var front, last := moves[..|moves| - 1], moves[|moves| - 1];
    assert moves == front + [last];
    RunIsSound(f, front);
    var g := FleetAfter(f, front);
    WorkerStep(g, last, i);
    var queue := Moved(g, last).workers[i].found.eventStoreQueue;
    if PastQueueList(g.workers[i]) {
      j := QueueWasSeen(f, front, i);
      StillSaw(front, last, j, i, queue);
    } else {
      j := |front|;
      SeesNow(front, last, g.workers[i], queue);
    }
  }

  /** Names of event-store bindings end differently from those of all other bindings. */
  lemma OnlyEventStoreNamesEndInStore(ti: TwinInterface, c: Child, n: string)
    requires ChildKey(ti, c).kind == BindingKind && ChildKey(ti, c).name == EventStoreName(n)
    ensures c.EventStoreBound?
  {
    var name := ChildKey(ti, c).name;
    assert name[|name| - 1] == 'e';
  }

  /** Move j created the object, an event-store binding to the queue its worker had seen at move
      `seen` of the same attempt. */
  ghost predicate BoundBy(moves: seq<FleetMove>, codec: Codec, o: Object, j: nat, seen: nat) {
    && j < |moves| && moves[j].Call? && moves[j].event.req.Create? && moves[j].event.effect
    && o == Stored(codec, moves[j].event.req.obj) && o.body.BindingBody?
    && seen < j && SawLately(moves[..j], seen, moves[j].i, o.body.binding.destination)
  }

  lemma StillBound(front: seq<FleetMove>, m: FleetMove, codec: Codec, o: Object, j: nat, seen: nat)
    requires BoundBy(front, codec, o, j, seen)
    ensures BoundBy(front + [m], codec, o, j, seen)
  {
    assert (front + [m])[..j] == front[..j] && (front + [m])[j] == front[j];
  }

  /** The move that makes an event-store binding appear. */
  lemma FleetStepBinds(g: Fleet, m: FleetMove, ns: string, n: string)
    requires Sound(g) && MayMove(g, m) && !m.Others?
    requires var k := Key(BindingKind, ns, EventStoreName(n)); !g.store.Has(k) && Moved(g, m).store.Has(k)
    ensures m.Call? && m.event.req.Create? && m.event.effect && PastQueueList(g.workers[m.i])
    ensures var o := Moved(g, m).store.objects[Key(BindingKind, ns, EventStoreName(n))];
            && o == Stored(g.store.codec, m.event.req.obj)
            && o.body.BindingBody? && o.body.binding.destination == g.workers[m.i].found.eventStoreQueue
  {
    assert g.workers[m.i] in g.workers;
    CreatesEventStore(g.workers[m.i], g.store, m.event, ns, n);
  }

  /** An event-store binding that was not there before the run, and that nobody else writes, was
      created by some worker's call j, with the queue that worker had seen at an earlier call of the
      same attempt, and has been the same object ever since, whatever became of the queues. */
  lemma {:induction false} EventStoreBindingIsForever(f: Fleet, moves: seq<FleetMove>, ns: string, name: string)
      returns (j: nat, seen: nat)
    requires Sound(f) && IsFleetRun(f, moves)
    requires forall n :: 0 <= n < |f.workers| ==> !PastQueueList(f.workers[n])
    requires var k := Key(BindingKind, ns, EventStoreName(name));
             !f.store.Has(k) && FleetAfter(f, moves).store.Has(k) && Spared(f, moves, k)
    ensures var o := FleetAfter(f, moves).store.objects[Key(BindingKind, ns, EventStoreName(name))];
            BoundBy(moves, f.store.codec, o, j, seen)
  {
    var k := Key(BindingKind, ns, EventStoreName(name));
    if moves == [] {
      assert false;
    }
    var front, last := moves[..|moves| - 1], moves[|moves| - 1];
    assert moves == front + [last];
    RunIsSound(f, front);
    var g := FleetAfter(f, front);
    if g.store.Has(k) {
      j, seen := EventStoreBindingIsForever(f, front, ns, name);
      if !last.Others? {
        WorkerKeeps(g, last, k);
      }
      StillBound(front, last, f.store.codec, g.store.objects[k], j, seen);
    } else {
      FleetStepBinds(g, last, ns, name);
      j := |front|;
      seen := QueueWasSeen(f, front, last.i);
      CodecStays(f, front);
      assert moves[..j] == front;
    }
  }

  lemma CreatesEventStore(w: State, s: Store, e: Event, ns: string, n: string)
    requires Asking(w) && Sane(w) && e.req == Ask(w) && Admits(s, e)
    requires var k := Key(BindingKind, ns, EventStoreName(n)); !s.Has(k) && After(s, e).Has(k)
    ensures e.req.Create? && e.effect && w.step.CreateEventStore?
    ensures e.req.obj == EventStoreBinding(w.ti, w.found.exchange, w.found.eventStoreQueue)
    ensures After(s, e).objects[Key(BindingKind, ns, EventStoreName(n))] == Stored(s.codec, e.req.obj)
  {
    if e.req.Create? {
      OnlyEventStoreNamesEndInStore(w.ti, Pending(w).value, n);
      EventStoreIsNotListed(w);
    }
  }

  lemma EventStoreIsNotListed(w: State)
    requires Asking(w) && Sane(w)
    ensures Pending(w) == Some(EventStoreBound) ==> w.step.CreateEventStore?
  {
    if w.step.CreateMqtt? || w.step.CreateRelationship? || w.step.CreateCommand? {
      assert w.step.rest[0] in w.step.rest;
    }
  }

  lemma {:induction false} CodecStays(f: Fleet, moves: seq<FleetMove>)
    requires IsFleetRun(f, moves)
    ensures FleetAfter(f, moves).store.codec == f.store.codec
  {
    if moves != [] {
      CodecStays(f, moves[..|moves| - 1]);
    }
  }
}
