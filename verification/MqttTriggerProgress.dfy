/** An MQTTTrigger attempt that is left alone and answered writes all six children and says Ready. */
module MqttTriggerProgress {
  import opened Resources
  import opened ClusterApi
  import opened Runs
  import opened MqttTriggerMachine
  import opened MqttTriggerRuns
  import InterfaceProgress

  // ---------- what it needs ----------

  /** The trigger itself, the secret, and an exchange. */
  ghost predicate Present(self: Key, s: Store) {
    && s.Has(self) && s.Has(SECRET_KEY)
    && Matching(s, ExchangeKind, "twinscale", EXCHANGE_SELECTOR) != {}
  }

  predicate WritesNeither(req: Request) {
    req.Create? || req.Update? || req.UpdateStatus?
    ==> !req.obj.KeyOf().kind.SecretKind? && !req.obj.KeyOf().kind.ExchangeKind?
  }

  lemma PresentStays(self: Key, s: Store, e: Event)
    requires s.Valid() && Present(self, s) && WritesNeither(e.req)
    ensures Present(self, After(s, e))
  {
    var t := After(s, e);
    if e.req.UpdateStatus? && s.Has(e.req.obj.KeyOf()) {
      assert WithStatus(s.objects[e.req.obj.KeyOf()], e.req.obj).KeyOf() == e.req.obj.KeyOf();
    }
    assert forall k: Key :: k.kind.ExchangeKind? ==> SameAt(s, t, k);
    var here, there := Matching(s, ExchangeKind, "twinscale", EXCHANGE_SELECTOR),
                       Matching(t, ExchangeKind, "twinscale", EXCHANGE_SELECTOR);
    assert forall k :: k in here <==> k in there;
  }

  lemma AsksNeither(st: State, n: nat)
    requires Asking(st) && Reached(st, n) && Homed(st, n)
    ensures WritesNeither(Ask(st))
  {
    if st.step.CreateChild? || st.step.UpdateChild? {
      KeysOfChildren(st.id, st.secret, st.exchange);
      assert Plan(st)[n..][0] == Plan(st)[n];
    }
  }

  // ---------- all goes well ----------

  predicate SaysReady(self: Key, s: Store) {
    s.Has(self) && s.objects[self].body.MqttTriggerBody? && s.objects[self].body.phase == "Ready"
  }

  /** No failure so far, what was read about the next child still holds, and the end is the end of
      all six and of the phase. */
  predicate Fine(st: State, n: nat, s: Store) {
    match st.step
    case CreateChild(todo) => todo != [] && !s.Has(todo[0].KeyOf())
    case UpdateChild(todo, existing) => s.Has(existing.KeyOf())
    case WritePhase(phase, outcome) => outcome == Succeeded
    case Finished(outcome) => outcome == Succeeded && n == 6 && SaysReady(st.self, s)
    case _ => true
  }

  lemma FineRead(st: State, n: nat, s: Store, e: Event)
    requires s.Valid() && Asking(st) && Reached(st, n) && Fine(st, n, s)
    requires st.self.kind.MqttTriggerKind? && Present(st.self, s)
    requires st.step.GetSelf? || st.step.GetSecret? || st.step.ListExchange?
    requires e.req == Ask(st) && Admits(s, e) && !Unanswered(e.resp)
    ensures Fine(Tell(st, e.resp), n, After(s, e))
  {
    if st.step.ListExchange? {
      assert e.resp.Listed? && |e.resp.items| > 0;
    }
  }

  lemma FineFetch(st: State, n: nat, s: Store, e: Event)
    requires s.Valid() && Asking(st) && Reached(st, n) && st.step.FetchChild?
    requires e.req == Ask(st) && Admits(s, e) && !Unanswered(e.resp)
    ensures Fine(Tell(st, e.resp), n, After(s, e))
  {
  }

  lemma FineWrite(st: State, n: nat, s: Store, e: Event)
    requires s.Valid() && Asking(st) && Reached(st, n) && Fine(st, n, s)
    requires st.step.CreateChild? || st.step.UpdateChild?
    requires e.req == Ask(st) && Admits(s, e) && !Unanswered(e.resp)
    ensures Fine(Tell(st, e.resp), n + Wrote(Act(e)), After(s, e))
  {
    assert Plan(st)[n..][0] == Plan(st)[n];
    assert e.resp.Done?;
  }

  lemma PhaseIsStored(self: Key, s: Store, e: Event)
    requires s.Valid() && Present(self, s) && Admits(s, e) && e.effect && e.req.UpdateStatus?
    requires e.req.obj.KeyOf() == self && e.req.obj.body.MqttTriggerBody? && e.req.obj.body.phase == READY
    ensures SaysReady(self, After(s, e))
  {
    assert s.objects[self].KeyOf() == self;
    var written := WithStatus(s.objects[self], e.req.obj);
    assert written.body.MqttTriggerBody? && written.body.phase == READY && written.KeyOf() == self;
  }

  lemma FinePhase(st: State, n: nat, s: Store, e: Event)
    requires s.Valid() && Asking(st) && Reached(st, n) && Homed(st, n) && Fine(st, n, s) && st.step.WritePhase?
    requires st.self.kind.MqttTriggerKind? && Present(st.self, s)
    requires e.req == Ask(st) && Admits(s, e) && !Unanswered(e.resp)
    ensures Fine(Tell(st, e.resp), n, After(s, e))
  {
    assert e.req.obj.KeyOf() == st.self;
    PhaseIsStored(st.self, s, e);
  }

  lemma FineCall(st: State, n: nat, s: Store, e: Event)
    requires s.Valid() && Asking(st) && Reached(st, n) && Homed(st, n) && Fine(st, n, s)
    requires st.self.kind.MqttTriggerKind? && Present(st.self, s)
    requires e.req == Ask(st) && Admits(s, e) && !Unanswered(e.resp)
    ensures Fine(Tell(st, e.resp), n + Wrote(Act(e)), After(s, e)) && Present(st.self, After(s, e))
  {
    AsksNeither(st, n);
    PresentStays(st.self, s, e);
    match st.step
    case FetchChild(_) => FineFetch(st, n, s, e);
    case CreateChild(_) => FineWrite(st, n, s, e);
    case UpdateChild(_, _) => FineWrite(st, n, s, e);
    case WritePhase(_, _) => FinePhase(st, n, s, e);
    case _ => FineRead(st, n, s, e);
  }

  ghost predicate Going(w: World, ns: string, name: string, n: nat) {
    Standing(w, ns, name, n) && Fine(w.proc.mq, n, w.store) && Present(Key(MqttTriggerKind, ns, name), w.store)
  }

  lemma GoingStep(w: World, ns: string, name: string, n: nat, m: Move)
    requires Going(w, ns, name, n) && MayMove(w, m) && m.Act? && !Unanswered(m.event.resp)
    ensures Going(Moved(w, m), ns, name, n + Wrote(m))
  {
    StandingStep(w, ns, name, n, m);
    CallOfState(w.proc.mq, w, m);
    FineCall(w.proc.mq, n, w.store, m.event);
  }

  lemma StartIsGoing(ns: string, name: string, s: Store)
    requires s.Valid() && Present(Key(MqttTriggerKind, ns, name), s)
    ensures Going(Begin(ns, name, s), ns, name, 0)
  {
  }

  lemma OneMoreWritten(moves: seq<Move>, m: Move)
    ensures |Written(moves + [m])| == |Written(moves)| + Wrote(m)
  {
    assert (moves + [m])[..|moves|] == moves;
  }

  lemma SmoothFront(moves: seq<Move>, m: Move)
    requires InterfaceProgress.Smooth(moves + [m])
    ensures InterfaceProgress.Smooth(moves) && m.Act? && !Unanswered(m.event.resp)
  {
    assert m in moves + [m];
  }

  /** Every answered call keeps `p`, which also speaks of the number of children written. */
  ghost predicate IsKept(p: (World, nat) -> bool) {
    forall v, n: nat, m :: p(v, n) && MayMove(v, m) && m.Act? && !Unanswered(m.event.resp)
                           ==> p(Moved(v, m), n + Wrote(m))
  }

  lemma KeptOnce(v: World, n: nat, m: Move, p: (World, nat) -> bool)
    requires IsKept(p) && p(v, n) && MayMove(v, m) && m.Act? && !Unanswered(m.event.resp)
    ensures p(Moved(v, m), n + Wrote(m))
  {
  }

  lemma {:induction false} KeptBySmooth(w: World, moves: seq<Move>, p: (World, nat) -> bool)
    requires IsKept(p) && p(w, 0) && IsRun(w, moves) && InterfaceProgress.Smooth(moves)
    ensures p(WorldAfter(w, moves), |Written(moves)|)
  {
    if moves != [] {
      var front, last := moves[..|moves| - 1], moves[|moves| - 1];
      assert moves == front + [last];
      SmoothFront(front, last);
      OneMoreMove(w, front, last);
      KeptBySmooth(w, front, p);
      KeptOnce(WorldAfter(w, front), |Written(front)|, last, p);
      OneMoreWritten(front, last);
    }
  }

  lemma SmoothIsGoing(ns: string, name: string, s: Store, moves: seq<Move>)
    requires s.Valid() && Present(Key(MqttTriggerKind, ns, name), s)
    requires IsRun(Begin(ns, name, s), moves) && InterfaceProgress.Smooth(moves)
    ensures Going(WorldAfter(Begin(ns, name, s), moves), ns, name, |Written(moves)|)
  {
    StartIsGoing(ns, name, s);
    forall v, n: nat, m | Going(v, ns, name, n) && MayMove(v, m) && m.Act? && !Unanswered(m.event.resp)
      ensures Going(Moved(v, m), ns, name, n + Wrote(m))
    {
      GoingStep(v, ns, name, n, m);
    }
    KeptBySmooth(Begin(ns, name, s), moves, (v, n: nat) => Going(v, ns, name, n));
  }

  /** An attempt that is alone and answered, on a store with the trigger, the secret and an exchange:
      when it ends it has written all six children, reports success, and the stored phase is Ready. */
  lemma SmoothWritesAllSix(ns: string, name: string, s: Store, moves: seq<Move>)
    requires s.Valid() && Present(Key(MqttTriggerKind, ns, name), s)
    requires IsRun(Begin(ns, name, s), moves) && InterfaceProgress.Smooth(moves)
    requires StateAfter(ns, name, s, moves).step.Finished?
    ensures Written(moves) == ChildKeys(ns) && StateAfter(ns, name, s, moves).step == Finished(Succeeded)
    ensures SaysReady(Key(MqttTriggerKind, ns, name), WorldAfter(Begin(ns, name, s), moves).store)
  {
    SmoothIsGoing(ns, name, s, moves);
    WritesArePrefix(ns, name, s, moves);
  }

  // ---------- and it ends ----------

  function CallsLeft(st: State): nat {
    match st.step
    case GetSelf => 16
    case GetSecret => 15
    case ListExchange => 14
    case FetchChild(todo) => 2 * |todo| + 1
    case CreateChild(todo) => 2 * |todo|
    case UpdateChild(todo, _) => 2 * |todo|
    case WritePhase(_, _) => 1
    case Finished(_) => 0
  }

  lemma CallsLeftDrop(st: State, resp: Response)
    requires Asking(st)
    ensures CallsLeft(Tell(st, resp)) < CallsLeft(st)
  {
  }

  lemma NextCall(w: World, ns: string, name: string, n: nat) returns (m: Move)
    requires Going(w, ns, name, n) && Asking(w.proc.mq)
    ensures m.Act? && !Unanswered(m.event.resp) && MayMove(w, m)
    ensures Going(Moved(w, m), ns, name, n + Wrote(m)) && CallsLeft(Moved(w, m).proc.mq) < CallsLeft(w.proc.mq)
  {
    var e := InterfaceProgress.SomeAnswer(w.store, Ask(w.proc.mq));
    m := Act(e);
    CallsLeftDrop(w.proc.mq, e.resp);
    CallOfState(w.proc.mq, w, m);
    GoingStep(w, ns, name, n, m);
  }

  lemma {:induction false} CanFinishFrom(w: World, ns: string, name: string, n: nat) returns (more: seq<Move>)
    requires Going(w, ns, name, n)
    ensures IsRun(w, more) && InterfaceProgress.Smooth(more)
    ensures WorldAfter(w, more).proc.Mqtt? && WorldAfter(w, more).proc.mq.step.Finished?
    decreases CallsLeft(w.proc.mq)
  {
    if w.proc.mq.step.Finished? {
      more := [];
    } else {
      StandingAsks(w.proc.mq, n);
      var m := NextCall(w, ns, name, n);
      var rest := CanFinishFrom(Moved(w, m), ns, name, n + Wrote(m));
      more := [m] + rest;
      InterfaceProgress.FirstMove(w, m, rest);
      InterfaceProgress.SmoothCons(m, rest);
    }
  }

  lemma StandingAsks(st: State, n: nat)
    requires Reached(st, n) && !st.step.Finished?
    ensures Asking(st)
  {
  }

  /** There is such an attempt: some run writes all six children and leaves the phase Ready. */
  lemma CanGetReady(ns: string, name: string, s: Store) returns (moves: seq<Move>)
    requires s.Valid() && Present(Key(MqttTriggerKind, ns, name), s)
    ensures IsRun(Begin(ns, name, s), moves) && InterfaceProgress.Smooth(moves) && Written(moves) == ChildKeys(ns)
    ensures SaysReady(Key(MqttTriggerKind, ns, name), WorldAfter(Begin(ns, name, s), moves).store)
  {
    StartIsGoing(ns, name, s);
    moves := CanFinishFrom(Begin(ns, name, s), ns, name, 0);
    SmoothWritesAllSix(ns, name, s, moves);
  }
}
