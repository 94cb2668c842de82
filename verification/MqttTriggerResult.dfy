/** What a reconcile of an MQTTTrigger returns, and which phase it writes on the way. */
module MqttTriggerResult {
  import opened Resources
  import opened ClusterApi
  import opened Runs
  import opened MqttTriggerMachine
  import opened MqttTriggerRuns

  /** The call failed with this error, or listed no exchange. */
  predicate Fails(m: Move, e: Error) {
    m.Act? && (m.event.resp == Failed(e) || (m.event.req.List? && m.event.resp == Listed([]) && e == NoExchange))
  }

  ghost predicate HasFailed(moves: seq<Move>, e: Error) {
    exists j :: 0 <= j < |moves| && Fails(moves[j], e)
  }

  predicate FailsToFind(m: Move, self: Key, e: Error) {
    m.Act? && m.event.req == Get(self) && m.event.resp == Failed(e) && e != NotFound
  }

  ghost predicate SelfReadFailed(moves: seq<Move>, self: Key, e: Error) {
    exists j :: 0 <= j < |moves| && FailsToFind(moves[j], self, e)
  }

  /** The phase was sent, and the answer was this. */
  predicate Answered(m: Move, phase: string, resp: Response) {
    SendsPhase(m, phase) && m.event.resp == resp
  }

  ghost predicate WasSent(moves: seq<Move>, phase: string) {
    exists j :: 0 <= j < |moves| && SendsPhase(moves[j], phase)
  }

  ghost predicate WasAnswered(moves: seq<Move>, phase: string, resp: Response) {
    exists j :: 0 <= j < |moves| && Answered(moves[j], phase, resp)
  }

  lemma StillSo(moves: seq<Move>, m: Move)
    ensures forall e :: HasFailed(moves, e) || Fails(m, e) ==> HasFailed(moves + [m], e)
    ensures forall self, e :: SelfReadFailed(moves, self, e) || FailsToFind(m, self, e)
                              ==> SelfReadFailed(moves + [m], self, e)
    ensures forall phase :: WasSent(moves, phase) || SendsPhase(m, phase) ==> WasSent(moves + [m], phase)
    ensures forall phase, resp :: WasAnswered(moves, phase, resp) || Answered(m, phase, resp)
                                  ==> WasAnswered(moves + [m], phase, resp)
    ensures forall self :: HasFoundNothing(moves, self) || FindsNothing(m, self) ==> HasFoundNothing(moves + [m], self)
  {
    var more := moves + [m];
    assert more[|moves|] == m && forall j :: 0 <= j < |moves| ==> more[j] == moves[j];
  }

  /** Success: the trigger is gone, or Ready was sent and taken. Failure: the trigger could not be
      read, or Ready could not be written, or something failed in between and Error was sent. */
  ghost predicate Explains(moves: seq<Move>, self: Key, outcome: Outcome) {
    match outcome
    case Succeeded => HasFoundNothing(moves, self) || WasAnswered(moves, "Ready", Done)
    case Failing(e) =>
      || SelfReadFailed(moves, self, e) || WasAnswered(moves, "Ready", Failed(e))
      || (HasFailed(moves, e) && WasSent(moves, "Error"))
    case Requeued(_) => false
    case Panicked => false
  }

  ghost predicate Explained(st: State, moves: seq<Move>) {
    match st.step
    case WritePhase(phase, outcome) =>
      if outcome == Succeeded then phase == "Ready"
      else phase == "Error" && outcome.Failing? && HasFailed(moves, outcome.error)
    case Finished(outcome) => Explains(moves, st.self, outcome)
    case _ => true
  }

  lemma SelfStep(st: State, moves: seq<Move>, s: Store, e: Event)
    requires s.Valid() && st.step.GetSelf? && st.self.kind.MqttTriggerKind? && e.req == Ask(st) && Admits(s, e)
    ensures Explained(Tell(st, e.resp), moves + [Act(e)])
  {
    StillSo(moves, Act(e));
    if e.resp.Fetched? {
      assert KindOf(s.objects[st.self].body) == MqttTriggerKind;
    }
  }

  lemma WorkStep(st: State, moves: seq<Move>, s: Store, e: Event)
    requires s.Valid() && Asking(st) && !st.step.GetSelf? && !st.step.WritePhase? && e.req == Ask(st) && Admits(s, e)
    ensures Explained(Tell(st, e.resp), moves + [Act(e)])
  {
    StillSo(moves, Act(e));
    if st.step.GetSecret? && e.resp.Fetched? {
      assert KindOf(s.objects[SECRET_KEY].body) == SecretKind;
    }
  }

  lemma PhaseIsSent(st: State, moves: seq<Move>, s: Store, e: Event)
    requires st.step.WritePhase? && Explained(st, moves) && e.req == Ask(st) && Admits(s, e)
    ensures Explained(Tell(st, e.resp), moves + [Act(e)])
  {
    StillSo(moves, Act(e));
    assert SendsPhase(Act(e), st.step.phase) && Answered(Act(e), st.step.phase, e.resp);
  }

  lemma ExplainedStep(w: World, moves: seq<Move>, m: Move)
    requires w.proc.Mqtt? && w.store.Valid() && w.proc.mq.self.kind.MqttTriggerKind?
    requires Explained(w.proc.mq, moves) && MayMove(w, m)
    ensures Moved(w, m).proc.Mqtt? && Explained(Moved(w, m).proc.mq, moves + [m])
  {
    StillSo(moves, m);
    if m.Act? {
      var st := w.proc.mq;
      CallOfState(st, w, m);
      if st.step.GetSelf? {
        SelfStep(st, moves, w.store, m.event);
      } else if st.step.WritePhase? {
        PhaseIsSent(st, moves, w.store, m.event);
      } else {
        WorkStep(st, moves, w.store, m.event);
      }
    }
  }

  lemma {:induction false} AttemptIsExplained(ns: string, name: string, s: Store, moves: seq<Move>)
    requires s.Valid() && IsRun(Begin(ns, name, s), moves)
    ensures var w := WorldAfter(Begin(ns, name, s), moves); w.proc.Mqtt? && Explained(w.proc.mq, moves)
  {
    if moves != [] {
      var front, last := moves[..|moves| - 1], moves[|moves| - 1];
      AttemptIsExplained(ns, name, s, front);
      WritesArePrefix(ns, name, s, front);
      ExplainedStep(WorldAfter(Begin(ns, name, s), front), front, last);
      assert moves == front + [last];
    }
  }

  /** In every run that ends. */
  lemma ResultOfReconcile(ns: string, name: string, s: Store, moves: seq<Move>)
    requires s.Valid() && IsRun(Begin(ns, name, s), moves)
    requires StateAfter(ns, name, s, moves).step.Finished?
    ensures Explains(moves, Key(MqttTriggerKind, ns, name), StateAfter(ns, name, s, moves).step.outcome)
  {
    AttemptIsExplained(ns, name, s, moves);
  }
}
