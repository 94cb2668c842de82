/** MQTTTrigger attempts: the fixed order of the six children, when the phase says Ready, and
    how several triggers of one namespace share the same six objects. */
module MqttTriggerRuns {
  import opened Resources
  import opened ClusterApi
  import opened Runs
  import opened MqttTriggerMachine

  // ---------- the six keys ----------

  /** They depend on the namespace alone. */
  function ChildKeys(ns: string): (ks: seq<Key>)
    ensures |ks| == 6
  {
    [Key(QueueKind, ns, MQTT_DISPATCHER_QUEUE), Key(DeploymentKind, ns, MQTT_DISPATCHER),
     Key(CoreServiceKind, ns, MQTT_DISPATCHER), Key(QueueKind, ns, CLOUD_EVENT_DISPATCHER_QUEUE),
     Key(DeploymentKind, ns, CLOUD_EVENT_DISPATCHER), Key(CoreServiceKind, ns, CLOUD_EVENT_DISPATCHER)]
  }

  lemma KeysOfChildren(id: Identity, secret: map<string, string>, exchange: string)
    ensures forall i :: 0 <= i < 6 ==> Children(id, secret, exchange)[i].KeyOf() == ChildKeys(id.ns)[i]
  {
  }

  lemma ChildKeysDiffer(ns: string, i: nat, j: nat)
    requires i < 6 && j < 6 && i != j
    ensures ChildKeys(ns)[i] != ChildKeys(ns)[j]
  {
    assert MQTT_DISPATCHER[0] != CLOUD_EVENT_DISPATCHER[0];
    assert MQTT_DISPATCHER_QUEUE[0] != CLOUD_EVENT_DISPATCHER_QUEUE[0];
  }

  function Plan(st: State): (cs: seq<Object>)
    ensures |cs| == 6
  {
    Children(st.id, st.secret, st.exchange)
  }

  // ---------- how far an attempt has come ----------

  /** The machine stands after `n` child writes. */
  predicate Reached(st: State, n: nat) {
    && n <= 6
    && match st.step
       case GetSelf => n == 0
       case GetSecret => n == 0
       case ListExchange => n == 0
       case FetchChild(todo) => n < 6 && todo == Plan(st)[n..]
       case CreateChild(todo) => n < 6 && todo == Plan(st)[n..]
       case UpdateChild(todo, existing) => n < 6 && todo == Plan(st)[n..] && existing.KeyOf() == Plan(st)[n].KeyOf()
       case WritePhase(phase, outcome) =>
         if outcome == Succeeded then phase == READY && n == 6 else phase == ERROR && outcome.Failing?
       case Finished(outcome) => outcome == Succeeded ==> n == 0 || n == 6
  }

  /** The trigger it works for is the one it was asked about. */
  predicate Homed(st: State, n: nat) {
    st.step.GetSelf? || (st.step.Finished? && n == 0) || (st.id.ns == st.self.ns && st.id.name == st.self.name)
  }

  predicate WritesChild(m: Move) {
    m.Act? && m.event.effect && (m.event.req.Create? || m.event.req.Update?)
  }

  function Wrote(m: Move): nat {
    if WritesChild(m) then 1 else 0
  }

  lemma ReachedReadStep(st: State, n: nat, resp: Response)
    requires Asking(st) && Reached(st, n)
    requires st.step.GetSelf? || st.step.GetSecret? || st.step.ListExchange? || st.step.WritePhase?
    ensures Reached(Tell(st, resp), n)
  {
    assert Children(st.id, st.secret, "")[0..] == Children(st.id, st.secret, "");
  }

  lemma ReachedFetchStep(st: State, n: nat, s: Store, e: Event)
    requires s.Valid() && Asking(st) && Reached(st, n) && e.req == Ask(st) && Admits(s, e) && st.step.FetchChild?
    ensures Reached(Tell(st, e.resp), n)
  {
    assert Plan(st)[n..][0] == Plan(st)[n];
  }

  lemma ReachedWriteStep(st: State, n: nat, e: Event)
    requires Asking(st) && Reached(st, n) && (st.step.CreateChild? || st.step.UpdateChild?)
    requires e.resp.Failed? || e.effect
    ensures Reached(Tell(st, e.resp), n + if e.effect then 1 else 0)
  {
    assert Plan(st)[n..][1..] == Plan(st)[n + 1..];
  }

  lemma ReachedStep(st: State, n: nat, s: Store, e: Event)
    requires s.Valid() && Asking(st) && Reached(st, n) && e.req == Ask(st) && Admits(s, e)
    ensures Reached(Tell(st, e.resp), n + Wrote(Act(e)))
  {
    if st.step.FetchChild? {
      ReachedFetchStep(st, n, s, e);
    } else if st.step.CreateChild? || st.step.UpdateChild? {
      ReachedWriteStep(st, n, e);
    } else {
      ReachedReadStep(st, n, e.resp);
    }
  }

  lemma HomedStep(st: State, n: nat, s: Store, e: Event)
    requires s.Valid() && Asking(st) && Homed(st, n) && st.self.kind.MqttTriggerKind?
    requires e.req == Ask(st) && Admits(s, e)
    requires st.step.GetSelf? ==> n == 0
    ensures Homed(Tell(st, e.resp), n + Wrote(Act(e))) && Tell(st, e.resp).self == st.self
  {
  }

  lemma WriteStep(st: State, n: nat, e: Event)
    requires Asking(st) && Reached(st, n) && Homed(st, n) && e.req == Ask(st) && WritesChild(Act(e))
    ensures n < 6 && st.id.ns == st.self.ns && e.req.obj.KeyOf() == ChildKeys(st.self.ns)[n]
  {
    KeysOfChildren(st.id, st.secret, st.exchange);
    assert Plan(st)[n..][0] == Plan(st)[n];
  }

  // ---------- whole attempts ----------

  function Begin(ns: string, name: string, s: Store): World {
    World(Mqtt(Start(ns, name)), s)
  }

  /** The keys of the children written, in order. */
  function Written(moves: seq<Move>): seq<Key> {
    if moves == [] then []
    else
      var last := moves[|moves| - 1];
      Written(moves[..|moves| - 1]) + if WritesChild(last) then [last.event.req.obj.KeyOf()] else []
  }

  lemma CallOfState(st: State, w: World, m: Move)
    requires w.proc == Mqtt(st) && m.Act? && MayMove(w, m)
    ensures Asking(st) && m.event.req == Ask(st) && Admits(w.store, m.event)
    ensures Moved(w, m) == World(Mqtt(Tell(st, m.event.resp)), After(w.store, m.event))
  {
  }

  /** The attempt on this trigger stands after `n` child writes. */
  predicate Standing(w: World, ns: string, name: string, n: nat) {
    && w.proc.Mqtt? && w.store.Valid() && w.proc.mq.self == Key(MqttTriggerKind, ns, name)
    && Homed(w.proc.mq, n) && Reached(w.proc.mq, n)
  }

  lemma StandingCall(w: World, ns: string, name: string, n: nat, e: Event)
    requires Standing(w, ns, name, n) && Asking(w.proc.mq) && e.req == Ask(w.proc.mq) && Admits(w.store, e)
    ensures Standing(World(Mqtt(Tell(w.proc.mq, e.resp)), After(w.store, e)), ns, name, n + Wrote(Act(e)))
    ensures WritesChild(Act(e)) ==> n < 6 && e.req.obj.KeyOf() == ChildKeys(ns)[n]
  {
    AfterIsValid(w.store, e);
    HomedStep(w.proc.mq, n, w.store, e);
    ReachedStep(w.proc.mq, n, w.store, e);
    if WritesChild(Act(e)) {
      WriteStep(w.proc.mq, n, e);
    }
  }

  lemma StandingStep(w: World, ns: string, name: string, n: nat, m: Move)
    requires Standing(w, ns, name, n) && MayMove(w, m)
    ensures Standing(Moved(w, m), ns, name, n + Wrote(m))
    ensures WritesChild(m) ==> n < 6 && m.event.req.obj.KeyOf() == ChildKeys(ns)[n]
  {
    if m.Act? {
      CallOfState(w.proc.mq, w, m);
      StandingCall(w, ns, name, n, m.event);
    }
  }

  lemma OneMoreKey(done: seq<Key>, ks: seq<Key>, k: Key)
    requires done <= ks && |done| < |ks| && ks[|done|] == k
    ensures done + [k] <= ks
  {
  }

  /** Whatever fails and whoever interferes, the children an attempt writes are a prefix of the
      fixed six. */
  lemma {:induction false} WritesArePrefix(ns: string, name: string, s: Store, moves: seq<Move>)
    requires s.Valid() && IsRun(Begin(ns, name, s), moves)
    ensures Written(moves) <= ChildKeys(ns)
    ensures Standing(WorldAfter(Begin(ns, name, s), moves), ns, name, |Written(moves)|)
  {
    if moves != [] {
      var front, last := moves[..|moves| - 1], moves[|moves| - 1];
      WritesArePrefix(ns, name, s, front);
      StandingStep(WorldAfter(Begin(ns, name, s), front), ns, name, |Written(front)|, last);
      if WritesChild(last) {
        OneMoreKey(Written(front), ChildKeys(ns), last.event.req.obj.KeyOf());
      }
    }
  }

  ghost function StateAfter(ns: string, name: string, s: Store, moves: seq<Move>): (st: State)
    requires s.Valid() && IsRun(Begin(ns, name, s), moves)
    ensures WorldAfter(Begin(ns, name, s), moves).proc == Mqtt(st)
    ensures st.self == Key(MqttTriggerKind, ns, name) && Homed(st, |Written(moves)|) && Reached(st, |Written(moves)|)
  {
    WritesArePrefix(ns, name, s, moves);
    WorldAfter(Begin(ns, name, s), moves).proc.mq
  }

  predicate SendsPhase(m: Move, phase: string) {
    m.Act? && m.event.req.UpdateStatus? && m.event.req.obj.body.MqttTriggerBody? && m.event.req.obj.body.phase == phase
  }

  lemma PhaseStep(st: State, n: nat, phase: string)
    requires Asking(st) && Reached(st, n) && Homed(st, n)
    requires Ask(st).UpdateStatus? && Ask(st).obj.body.MqttTriggerBody? && Ask(st).obj.body.phase == phase
    ensures Ask(st).obj.KeyOf() == Key(MqttTriggerKind, st.self.ns, st.self.name)
    ensures phase == READY <==> st.step.outcome == Succeeded
    ensures phase == READY ==> n == 6
    ensures phase == READY || phase == ERROR
  {
    assert READY[0] != ERROR[0];
  }

  /** The phase Ready is sent only after all six children have been written, and only for the
      trigger the attempt is about. */
  lemma ReadyOnlyAfterAllSix(ns: string, name: string, s: Store, moves: seq<Move>, j: nat)
    requires s.Valid() && IsRun(Begin(ns, name, s), moves) && j < |moves| && SendsPhase(moves[j], READY)
    ensures Written(moves[..j]) == ChildKeys(ns)
    ensures moves[j].event.req.obj.KeyOf() == Key(MqttTriggerKind, ns, name)
  {
    var w := Begin(ns, name, s);
    MoveAt(w, moves, j);
    WritesArePrefix(ns, name, s, moves[..j]);
    var st := StateAfter(ns, name, s, moves[..j]);
    CallOfState(st, WorldAfter(w, moves[..j]), moves[j]);
    PhaseStep(st, |Written(moves[..j])|, READY);
  }

  lemma SuccessOfState(st: State, n: nat)
    requires Reached(st, n) && st.step == Finished(Succeeded)
    ensures n == 0 || n == 6
  {
  }

  // ---------- which trigger it is about ----------

  /** The move reads the trigger itself and finds this identity. */
  predicate FindsSelf(m: Move, self: Key, id: Identity) {
    && m.Act? && m.event.req == Get(self) && m.event.resp.Fetched?
    && m.event.resp.obj.body.MqttTriggerBody? && id == IdentityOf(m.event.resp.obj)
  }

  /** The move reads the trigger itself and finds it gone. */
  predicate FindsNothing(m: Move, self: Key) {
    m.Act? && m.event.req == Get(self) && m.event.resp == Failed(NotFound)
  }

  ghost predicate HasFoundSelf(moves: seq<Move>, self: Key, id: Identity) {
    exists j :: 0 <= j < |moves| && FindsSelf(moves[j], self, id)
  }

  ghost predicate HasFoundNothing(moves: seq<Move>, self: Key) {
    exists j :: 0 <= j < |moves| && FindsNothing(moves[j], self)
  }

  lemma StillFound(moves: seq<Move>, m: Move, self: Key, id: Identity)
    ensures HasFoundSelf(moves, self, id) || FindsSelf(m, self, id) ==> HasFoundSelf(moves + [m], self, id)
    ensures HasFoundNothing(moves, self) || FindsNothing(m, self) ==> HasFoundNothing(moves + [m], self)
  {
    var more := moves + [m];
    assert more[|moves|] == m && forall j :: 0 <= j < |moves| ==> more[j] == moves[j];
  }

  /** What the moves so far say about the state: beyond its first call the attempt works for the
      identity it has read, and success without any write means the trigger was gone. */
  ghost predicate Told(st: State, n: nat, moves: seq<Move>) {
    && (n > 0 || !(st.step.GetSelf? || st.step.Finished?) ==> HasFoundSelf(moves, st.self, st.id))
    && (n == 0 && st.step == Finished(Succeeded) ==> HasFoundNothing(moves, st.self))
  }

  lemma FirstCallTells(st: State, resp: Response)
    requires st.step.GetSelf?
    ensures var next, m := Tell(st, resp), Act(Event(Get(st.self), resp, false));
            && (!next.step.Finished? ==> FindsSelf(m, st.self, next.id))
            && (next.step == Finished(Succeeded) ==> FindsNothing(m, st.self))
  {
  }

  lemma LaterCallsKeepId(st: State, resp: Response)
    requires Asking(st) && !st.step.GetSelf?
    ensures Tell(st, resp).id == st.id && !Tell(st, resp).step.GetSelf?
    ensures Tell(st, resp).step == Finished(Succeeded) ==> st.step.WritePhase? && st.step.outcome == Succeeded
  {
  }

  lemma TellKeepsSelf(st: State, resp: Response)
    requires Asking(st)
    ensures Tell(st, resp).self == st.self
  {
  }

  lemma ToldStep(st: State, n: nat, moves: seq<Move>, s: Store, e: Event)
    requires Asking(st) && Reached(st, n) && Told(st, n, moves) && e.req == Ask(st) && Admits(s, e)
    requires WritesChild(Act(e)) ==> st.step.CreateChild? || st.step.UpdateChild?
    ensures Told(Tell(st, e.resp), n + Wrote(Act(e)), moves + [Act(e)])
  {
    TellKeepsSelf(st, e.resp);
    StillFound(moves, Act(e), st.self, Tell(st, e.resp).id);
    if st.step.GetSelf? {
      FirstCallTells(st, e.resp);
    } else {
      LaterCallsKeepId(st, e.resp);
    }
  }

  lemma {:induction false} AttemptIsTold(ns: string, name: string, s: Store, moves: seq<Move>)
    requires s.Valid() && IsRun(Begin(ns, name, s), moves)
    ensures var w := WorldAfter(Begin(ns, name, s), moves);
            w.proc.Mqtt? && Told(w.proc.mq, |Written(moves)|, moves)
  {
    if moves != [] {
      var front, last := moves[..|moves| - 1], moves[|moves| - 1];
      AttemptIsTold(ns, name, s, front);
      WritesArePrefix(ns, name, s, front);
      MoveIsTold(WorldAfter(Begin(ns, name, s), front), |Written(front)|, front, last);
      assert moves == front + [last];
    }
  }

  lemma MoveIsTold(w: World, n: nat, moves: seq<Move>, m: Move)
    requires w.proc.Mqtt? && Reached(w.proc.mq, n) && Told(w.proc.mq, n, moves) && MayMove(w, m)
    ensures Moved(w, m).proc.Mqtt? && Told(Moved(w, m).proc.mq, n + Wrote(m), moves + [m])
  {
    if m.Act? {
      CallOfState(w.proc.mq, w, m);
      WritesOnlyChildren(w.proc.mq);
      ToldStep(w.proc.mq, n, moves, w.store, m.event);
    } else {
      StillFound(moves, m, w.proc.mq.self, w.proc.mq.id);
    }
  }

  /** An attempt that reports success has written all six children, or none after it found the
      trigger gone. */
  lemma SuccessMeansAllOrGone(ns: string, name: string, s: Store, moves: seq<Move>)
    requires s.Valid() && IsRun(Begin(ns, name, s), moves)
    requires WorldAfter(Begin(ns, name, s), moves).proc.Ended(Succeeded)
    ensures Written(moves) == ChildKeys(ns)
            || (Written(moves) == [] && HasFoundNothing(moves, Key(MqttTriggerKind, ns, name)))
  {
    WritesArePrefix(ns, name, s, moves);
    AttemptIsTold(ns, name, s, moves);
    SuccessOfState(WorldAfter(Begin(ns, name, s), moves).proc.mq, |Written(moves)|);
  }

  // ---------- what the children become ----------

  /** The child as an attempt from s0 leaves it: a new one as built, an existing one with the
      desired spec and everything else, its owners included, as it was. */
  function Applied(s0: Store, key: Key, desired: Object): Object {
    Stored(s0.codec, if s0.Has(key) then s0.objects[key].(body := desired.body) else desired)
  }

  predicate AppliedUpTo(keys: seq<Key>, plan: seq<Object>, s0: Store, s: Store, n: nat)
    requires |keys| == |plan| && n <= |plan|
  {
    && s.codec == s0.codec
    && (forall i :: 0 <= i < n ==> s.Has(keys[i]) && s.objects[keys[i]] == Applied(s0, keys[i], plan[i]))
    && (forall i :: n <= i < |keys| ==> SameAt(s0, s, keys[i]))
  }

  /** What the attempt has read about the child it is at. */
  predicate Prepared(st: State, n: nat, key: Key, s0: Store) {
    && (st.step.CreateChild? ==> !s0.Has(key))
    && (st.step.UpdateChild? ==> s0.Has(key) && st.step.existing == s0.objects[key])
  }

  predicate OnTrack(st: State, n: nat, s0: Store, s: Store)
    requires n <= 6
  {
    var keys := ChildKeys(st.self.ns);
    && AppliedUpTo(keys, Plan(st), s0, s, n)
    && (n < 6 ==> Prepared(st, n, keys[n], s0))
  }

  /** A call that writes no child. */
  lemma QuietStep(keys: seq<Key>, plan: seq<Object>, s0: Store, s: Store, n: nat, e: Event)
    requires |keys| == |plan| && n <= |plan| && AppliedUpTo(keys, plan, s0, s, n)
    requires !WritesChild(Act(e))
    requires e.req.UpdateStatus? ==> e.req.obj.KeyOf() !in keys && s.Valid()
    ensures AppliedUpTo(keys, plan, s0, After(s, e), n)
  {
    if e.req.UpdateStatus? && s.Has(e.req.obj.KeyOf()) {
      assert WithStatus(s.objects[e.req.obj.KeyOf()], e.req.obj).KeyOf() == e.req.obj.KeyOf();
    }
    forall i | 0 <= i < |keys| ensures SameAt(s, After(s, e), keys[i]) {
      assert keys[i] in keys;
    }
  }

  /** A call that writes the n-th child. */
  lemma ChildStep(keys: seq<Key>, plan: seq<Object>, s0: Store, s: Store, n: nat, e: Event)
    requires |keys| == |plan| && n < |plan| && AppliedUpTo(keys, plan, s0, s, n)
    requires forall i, j :: 0 <= i < |keys| && 0 <= j < |keys| && i != j ==> keys[i] != keys[j]
    requires WritesChild(Act(e)) && e.req.obj.KeyOf() == keys[n]
    requires Stored(s0.codec, e.req.obj) == Applied(s0, keys[n], plan[n])
    ensures AppliedUpTo(keys, plan, s0, After(s, e), n + 1)
  {
  }

  lemma KeysAreDistinct(ns: string)
    ensures var keys := ChildKeys(ns);
            forall i, j :: 0 <= i < |keys| && 0 <= j < |keys| && i != j ==> keys[i] != keys[j]
  {
    forall i, j | 0 <= i < 6 && 0 <= j < 6 && i != j ensures ChildKeys(ns)[i] != ChildKeys(ns)[j] {
      ChildKeysDiffer(ns, i, j);
    }
  }

  /** What the write of the n-th child sends. */
  lemma SentChild(st: State, n: nat, s0: Store)
    requires s0.Valid() && n < 6 && Reached(st, n) && Prepared(st, n, Plan(st)[n].KeyOf(), s0)
    requires st.step.CreateChild? || st.step.UpdateChild?
    ensures Asking(st) && (Ask(st).Create? || Ask(st).Update?)
    ensures Stored(s0.codec, Ask(st).obj) == Applied(s0, Plan(st)[n].KeyOf(), Plan(st)[n])
  {
    assert Plan(st)[n..][0] == Plan(st)[n];
  }

  lemma WritesOnlyChildren(st: State)
    requires Asking(st)
    ensures Ask(st).Create? || Ask(st).Update? ==> st.step.CreateChild? || st.step.UpdateChild?
  {
  }

  lemma TrackedWrite(st: State, n: nat, s0: Store, s: Store, e: Event)
    requires s0.Valid() && n < 6 && Reached(st, n) && Homed(st, n) && OnTrack(st, n, s0, s)
    requires Asking(st) && e.req == Ask(st) && WritesChild(Act(e))
    ensures AppliedUpTo(ChildKeys(st.self.ns), Plan(st), s0, After(s, e), n + 1)
  {
    WritesOnlyChildren(st);
    KeysOfChildren(st.id, st.secret, st.exchange);
    assert Plan(st)[n].KeyOf() == ChildKeys(st.self.ns)[n];
    SentChild(st, n, s0);
    KeysAreDistinct(st.self.ns);
    assert Plan(st)[n..][0] == Plan(st)[n];
    ChildStep(ChildKeys(st.self.ns), Plan(st), s0, s, n, e);
  }

  lemma PlanStays(st: State, n: nat, resp: Response)
    requires Asking(st) && Reached(st, n) && (n > 0 || st.step.CreateChild? || st.step.UpdateChild?)
    ensures Plan(Tell(st, resp)) == Plan(st)
  {
  }

  lemma {:induction false} AnyPlan(keys: seq<Key>, a: seq<Object>, b: seq<Object>, s0: Store, s: Store)
    requires |keys| == |a| == |b| && AppliedUpTo(keys, a, s0, s, 0)
    ensures AppliedUpTo(keys, b, s0, s, 0)
  {
  }

  lemma PreparedStep(st: State, n: nat, s0: Store, s: Store, e: Event)
    requires s0.Valid() && Asking(st) && n < 6 && Reached(st, n) && Homed(st, n) && OnTrack(st, n, s0, s)
    requires e.req == Ask(st) && Admits(s, e)
    ensures n + Wrote(Act(e)) < 6 ==>
              Prepared(Tell(st, e.resp), n + Wrote(Act(e)), ChildKeys(st.self.ns)[n + Wrote(Act(e))], s0)
  {
    if st.step.FetchChild? {
      KeysOfChildren(st.id, st.secret, st.exchange);
      assert Plan(st)[n..][0] == Plan(st)[n];
      assert e.req == Get(ChildKeys(st.self.ns)[n]);
      assert SameAt(s0, s, ChildKeys(st.self.ns)[n]);
    }
  }

  lemma StatusIsNoChild(st: State)
    requires Asking(st) && Ask(st).UpdateStatus?
    ensures Ask(st).obj.KeyOf() !in ChildKeys(st.self.ns)
  {
  }

  lemma OnTrackStep(st: State, n: nat, s0: Store, s: Store, e: Event)
    requires s0.Valid() && s.Valid() && Asking(st) && n <= 6 && Reached(st, n) && Homed(st, n) && OnTrack(st, n, s0, s)
    requires e.req == Ask(st) && Admits(s, e) && Tell(st, e.resp).self == st.self
    ensures n + Wrote(Act(e)) <= 6 && OnTrack(Tell(st, e.resp), n + Wrote(Act(e)), s0, After(s, e))
  {
    if WritesChild(Act(e)) {
      WriteStep(st, n, e);
    }
    if n < 6 {
      PreparedStep(st, n, s0, s, e);
    }
    if WritesChild(Act(e)) {
      TrackedWrite(st, n, s0, s, e);
      WritesOnlyChildren(st);
      PlanStays(st, n, e.resp);
    } else {
      QuietOnTrackStep(st, n, s0, s, e);
    }
  }

  lemma QuietOnTrackStep(st: State, n: nat, s0: Store, s: Store, e: Event)
    requires s.Valid() && Asking(st) && n <= 6 && Reached(st, n) && OnTrack(st, n, s0, s)
    requires e.req == Ask(st) && !WritesChild(Act(e))
    ensures AppliedUpTo(ChildKeys(st.self.ns), Plan(Tell(st, e.resp)), s0, After(s, e), n)
  {
    if e.req.UpdateStatus? {
      StatusIsNoChild(st);
    }
    QuietStep(ChildKeys(st.self.ns), Plan(st), s0, s, n, e);
    if n > 0 {
      PlanStays(st, n, e.resp);
    } else {
      AnyPlan(ChildKeys(st.self.ns), Plan(st), Plan(Tell(st, e.resp)), s0, After(s, e));
    }
  }

  function KeySet(ns: string): set<Key> {
    set k | k in ChildKeys(ns)
  }

  lemma WorldStep(w: World, n: nat, s0: Store, m: Move)
    requires s0.Valid() && w.proc.Mqtt? && Standing(w, w.proc.mq.self.ns, w.proc.mq.self.name, n)
    requires OnTrack(w.proc.mq, n, s0, w.store)
    requires MayMove(w, m)
    requires m.Outside? ==> forall k :: k in KeySet(w.proc.mq.self.ns) ==> SameAt(w.store, m.store, k)
    ensures Moved(w, m).proc.Mqtt? && n + Wrote(m) <= 6
    ensures OnTrack(Moved(w, m).proc.mq, n + Wrote(m), s0, Moved(w, m).store)
  {
    if m.Act? {
      CallOfState(w.proc.mq, w, m);
      HomedStep(w.proc.mq, n, w.store, m.event);
      OnTrackStep(w.proc.mq, n, s0, w.store, m.event);
    } else {
      SparedStaysOnTrack(w.proc.mq, n, s0, w.store, m.store);
    }
  }

  lemma StartOnTrack(ns: string, name: string, s0: Store)
    ensures OnTrack(Start(ns, name), 0, s0, s0)
  {
  }

  /** At every point of an attempt that nobody disturbs on the six keys, the children written
      so far are as applied, and the others are as they were. */
  lemma {:induction false} AttemptOnTrack(ns: string, name: string, s0: Store, moves: seq<Move>)
    requires s0.Valid() && IsRun(Begin(ns, name, s0), moves) && Spares(Begin(ns, name, s0), moves, KeySet(ns))
    ensures |Written(moves)| <= 6 && WorldAfter(Begin(ns, name, s0), moves).proc.Mqtt?
    ensures OnTrack(WorldAfter(Begin(ns, name, s0), moves).proc.mq, |Written(moves)|, s0,
                    WorldAfter(Begin(ns, name, s0), moves).store)
  {
    if moves == [] {
      StartOnTrack(ns, name, s0);
    } else {
      var front, last := moves[..|moves| - 1], moves[|moves| - 1];
      AttemptOnTrack(ns, name, s0, front);
      WritesArePrefix(ns, name, s0, front);
      WorldStep(WorldAfter(Begin(ns, name, s0), front), |Written(front)|, s0, last);
    }
  }

  lemma SparedStaysOnTrack(st: State, n: nat, s0: Store, s: Store, t: Store)
    requires n <= 6 && OnTrack(st, n, s0, s) && t.codec == s.codec
    requires forall k :: k in KeySet(st.self.ns) ==> SameAt(s, t, k)
    ensures OnTrack(st, n, s0, t)
  {
    var keys := ChildKeys(st.self.ns);
    forall i | 0 <= i < 6 ensures SameAt(s, t, keys[i]) {
      assert keys[i] in keys;
      assert keys[i] in KeySet(st.self.ns);
    }
  }

  // ---------- Ready means applied ----------

  lemma ChildrenAreNoServices(id: Identity, secret: map<string, string>, exchange: string)
    ensures forall i :: 0 <= i < 6 ==> !Children(id, secret, exchange)[i].body.KServiceBody?
  {
  }

  /** When the phase Ready is sent, all six children have the specs built from the secret and
      the exchange the attempt has read, as long as nobody else writes them. */
  lemma ReadyMeansApplied(ns: string, name: string, s0: Store, moves: seq<Move>, j: nat)
    requires s0.Valid() && IsRun(Begin(ns, name, s0), moves) && Spares(Begin(ns, name, s0), moves, KeySet(ns))
    requires j < |moves| && SendsPhase(moves[j], READY)
    ensures IsRun(Begin(ns, name, s0), moves[..j])
    ensures var st := StateAfter(ns, name, s0, moves[..j]);
            var s := WorldAfter(Begin(ns, name, s0), moves[..j]).store;
            forall i :: 0 <= i < 6 ==>
              && s.Has(ChildKeys(ns)[i])
              && s.objects[ChildKeys(ns)[i]].body == Children(st.id, st.secret, st.exchange)[i].body
  {
    ReadyOnlyAfterAllSix(ns, name, s0, moves, j);
    Prefix(Begin(ns, name, s0), moves, j);
    SparesPrefix(Begin(ns, name, s0), moves, KeySet(ns), j);
    AllWrittenMeansApplied(ns, name, s0, moves[..j]);
  }

  lemma AllWrittenMeansApplied(ns: string, name: string, s0: Store, moves: seq<Move>)
    requires s0.Valid() && IsRun(Begin(ns, name, s0), moves) && Spares(Begin(ns, name, s0), moves, KeySet(ns))
    requires |Written(moves)| == 6
    ensures var st := StateAfter(ns, name, s0, moves);
            var s := WorldAfter(Begin(ns, name, s0), moves).store;
            forall i :: 0 <= i < 6 ==>
              && s.Has(ChildKeys(ns)[i])
              && s.objects[ChildKeys(ns)[i]].body == Children(st.id, st.secret, st.exchange)[i].body
  {
    AttemptOnTrack(ns, name, s0, moves);
    var st := StateAfter(ns, name, s0, moves);
    var s := WorldAfter(Begin(ns, name, s0), moves).store;
    ChildrenAreNoServices(st.id, st.secret, st.exchange);
    forall i | 0 <= i < 6
      ensures s.Has(ChildKeys(ns)[i])
      ensures s.objects[ChildKeys(ns)[i]].body == Children(st.id, st.secret, st.exchange)[i].body
    {
      AppliedAt(ChildKeys(ns), Plan(st), s0, s, i);
    }
  }

  lemma AppliedAt(keys: seq<Key>, plan: seq<Object>, s0: Store, s: Store, i: nat)
    requires |keys| == |plan| && AppliedUpTo(keys, plan, s0, s, |plan|) && i < |plan|
    requires !plan[i].body.KServiceBody?
    ensures s.Has(keys[i]) && s.objects[keys[i]].body == plan[i].body
  {
    assert s.objects[keys[i]] == Applied(s0, keys[i], plan[i]);
  }
}
