/** Whole attempts of `createUpdateTwinInterface`, under any faults and any interference. */
module InterfaceRuns {
  import opened Resources
  import opened ClusterApi
  import opened Runs
  import opened TwinInterfaceMachine
  import opened InterfaceSteps

  function Attempt(ti: TwinInterface, s: Store): World {
    World(Interface(Start(ti)), s)
  }

  /** The state an attempt is in after some moves. */
  ghost function StateAfter(ti: TwinInterface, s: Store, moves: seq<Move>): (st: State)
    requires s.Valid() && IsRun(Attempt(ti, s), moves)
    ensures WorldAfter(Attempt(ti, s), moves).proc == Interface(st)
    ensures st.ti == ti && Sane(st)
  {
    AttemptIsSane(ti, s, moves);
    WorldAfter(Attempt(ti, s), moves).proc.ti
  }

  lemma {:induction false} AttemptIsSane(ti: TwinInterface, s: Store, moves: seq<Move>)
    requires s.Valid() && IsRun(Attempt(ti, s), moves)
    ensures var w := WorldAfter(Attempt(ti, s), moves);
            w.proc.Interface? && w.proc.ti.ti == ti && Sane(w.proc.ti) && w.store.Valid()
  {
    if moves == [] {
      StartIsSane(ti);
    } else {
      var front, last := moves[..|moves| - 1], moves[|moves| - 1];
      AttemptIsSane(ti, s, front);
      RunsStayValid(Attempt(ti, s), moves);
      var w := WorldAfter(Attempt(ti, s), front);
      if last.Act? {
        AdmittedIsPlausible(w.proc.ti, w.store, last.event);
        SaneStep(w.proc.ti, last.event.resp);
      }
    }
  }

  // ---------- nobody deletes ----------

  /** Whatever others do to the store in between, no key disappears. */
  ghost predicate KeepsKeys(w: World, moves: seq<Move>) {
    moves == []
    || (var front, last := moves[..|moves| - 1], moves[|moves| - 1];
        && KeepsKeys(w, front)
        && (last.Outside? ==> WorldAfter(w, front).store.objects.Keys <= last.store.objects.Keys))
  }

  lemma {:induction false} KeysOnlyGrow(w: World, moves: seq<Move>)
    requires KeepsKeys(w, moves)
    ensures w.store.objects.Keys <= WorldAfter(w, moves).store.objects.Keys
  {
    if moves != [] {
      KeysOnlyGrow(w, moves[..|moves| - 1]);
    }
  }

  lemma {:induction false} AloneKeepsKeys(w: World, moves: seq<Move>)
    requires Alone(moves)
    ensures KeepsKeys(w, moves)
  {
    if moves != [] {
      assert moves == moves[..|moves| - 1] + [moves[|moves| - 1]];
      assert moves[|moves| - 1] in moves;
      AloneKeepsKeys(w, moves[..|moves| - 1]);
    }
  }

  // ---------- reaching the end means complete ----------

  /** As long as all went well, every wanted child is in the store or still to come. */
  ghost predicate Covered(st: State, s: Store) {
    Flawless(st) ==> forall c :: Wanted(st.ti, c) ==> ToCome(st, c) || s.Has(ChildKey(st.ti, c))
  }

  /** The final Update is reached, and success reported, only with nothing recorded. */
  predicate Tidy(st: State) {
    st.step.UpdateInterface? || st.step == Finished(Succeeded) ==> st.errors == []
  }

  lemma TidyStep(st: State, resp: Response)
    requires Asking(st) && Tidy(st)
    ensures Tidy(Tell(st, resp))
  {
  }

  lemma PendingIsKept(st: State, s: Store, e: Event, c: Child)
    requires Asking(st) && e.req == Ask(st) && Admits(s, e) && Pending(st) == Some(c)
    requires e.resp == Failed(AlreadyExists) || !e.resp.Failed?
    ensures After(s, e).Has(ChildKey(st.ti, c))
  {
  }

  lemma CoveredStep(st: State, s: Store, e: Event)
    requires Asking(st) && Sane(st) && Covered(st, s) && e.req == Ask(st) && Admits(s, e)
    ensures Covered(Tell(st, e.resp), After(s, e))
  {
    var next := Tell(st, e.resp);
    if Flawless(next) {
      FlawlessBefore(st, e.resp);
      TellKeepsInterface(st, e.resp);
      forall c | Wanted(st.ti, c) ensures ToCome(next, c) || After(s, e).Has(ChildKey(st.ti, c)) {
        if ToCome(st, c) && !ToCome(next, c) {
          NothingIsSkipped(st, e.resp, c);
          PendingIsKept(st, s, e, c);
        }
      }
    }
  }

  lemma TellKeepsInterface(st: State, resp: Response)
    requires Asking(st)
    ensures Tell(st, resp).ti == st.ti
  {
  }

  lemma {:induction false} AttemptIsCovered(ti: TwinInterface, s: Store, moves: seq<Move>)
    requires s.Valid() && IsRun(Attempt(ti, s), moves) && KeepsKeys(Attempt(ti, s), moves)
    ensures Covered(StateAfter(ti, s, moves), WorldAfter(Attempt(ti, s), moves).store)
    ensures Tidy(StateAfter(ti, s, moves))
  {
    if moves == [] {
      StartIsCovered(ti, s);
    } else {
      var front, last := moves[..|moves| - 1], moves[|moves| - 1];
      AttemptIsCovered(ti, s, front);
      var st := StateAfter(ti, s, front);
      if last.Act? {
        CoveredStep(st, WorldAfter(Attempt(ti, s), front).store, last.event);
        TidyStep(st, last.event.resp);
      }
    }
  }

  lemma StartIsCovered(ti: TwinInterface, s: Store)
    ensures Covered(Start(ti), s) && Tidy(Start(ti))
  {
    forall c | Wanted(ti, c) ensures ToCome(Start(ti), c) {
    }
  }

  lemma CoveredIsComplete(st: State, s: Store)
    requires Covered(st, s) && Tidy(st) && (st.step.UpdateInterface? || st.step == Finished(Succeeded))
    ensures st.errors == [] && forall c :: Wanted(st.ti, c) ==> s.Has(ChildKey(st.ti, c))
  {
    assert Flawless(st);
    forall c | Wanted(st.ti, c) ensures s.Has(ChildKey(st.ti, c)) {
      assert !ToCome(st, c);
    }
  }

  /** At the final Update, and when success is reported, nothing has been recorded and every
      wanted child is in the store, whatever happened on the way, as long as nobody deletes. */
  lemma EndMeansComplete(ti: TwinInterface, s: Store, moves: seq<Move>)
    requires s.Valid() && IsRun(Attempt(ti, s), moves) && KeepsKeys(Attempt(ti, s), moves)
    requires StateAfter(ti, s, moves).step.UpdateInterface?
             || StateAfter(ti, s, moves).step == Finished(Succeeded)
    ensures StateAfter(ti, s, moves).errors == []
    ensures forall c :: Wanted(ti, c) ==> WorldAfter(Attempt(ti, s), moves).store.Has(ChildKey(ti, c))
  {
    AttemptIsCovered(ti, s, moves);
    CoveredIsComplete(StateAfter(ti, s, moves), WorldAfter(Attempt(ti, s), moves).store);
  }

  // ---------- the update of the interface itself ----------

  predicate UpdatesInterface(m: Move) {
    m.Act? && m.event.req.Update? && m.event.req.obj.body.TwinInterfaceBody?
  }

  /** The interface as it was read, with status Running and the one label. */
  predicate IsSentBack(ti: TwinInterface, o: Object) {
    && o.KeyOf() == Key(TwinInterfaceKind, ti.id.ns, ti.id.name)
    && o.body == TwinInterfaceBody(ti.spec, "Running")
    && o.meta.labels == Entries(map["twinscale/twin-interface" := ti.id.name])
    && o.meta.annotations == ti.annotations && o.meta.owners == ti.owners
  }

  lemma SentBack(st: State)
    requires st.step.UpdateInterface?
    ensures Ask(st).Update? && IsSentBack(st.ti, Ask(st).obj)
  {
  }

  lemma OnlyTheLastStepUpdatesInterface(st: State)
    requires Asking(st) && Ask(st).Update?
    ensures Ask(st).obj.body.TwinInterfaceBody? <==> st.step.UpdateInterface?
    ensures st.step.UpdateInterface? ==> IsSentBack(st.ti, Ask(st).obj)
  {
  }

  /** The j-th move is the call the state before it asks for. */
  lemma CallAt(ti: TwinInterface, s: Store, moves: seq<Move>, j: nat)
    requires s.Valid() && IsRun(Attempt(ti, s), moves)
    requires j < |moves| && moves[j].Act?
    ensures IsRun(Attempt(ti, s), moves[..j]) && IsRun(Attempt(ti, s), moves[..j + 1])
    ensures var st := StateAfter(ti, s, moves[..j]);
            && Asking(st) && moves[j].event.req == Ask(st)
            && Admits(WorldAfter(Attempt(ti, s), moves[..j]).store, moves[j].event)
            && StateAfter(ti, s, moves[..j + 1]) == Tell(st, moves[j].event.resp)
            && WorldAfter(Attempt(ti, s), moves[..j + 1]).store
               == After(WorldAfter(Attempt(ti, s), moves[..j]).store, moves[j].event)
  {
    MoveAt(Attempt(ti, s), moves, j);
    CallOfState(StateAfter(ti, s, moves[..j]), WorldAfter(Attempt(ti, s), moves[..j]), moves[j]);
  }

  lemma CallOfState(st: State, w: World, m: Move)
    requires w.proc == Interface(st) && m.Act? && MayMove(w, m)
    ensures Asking(st) && m.event.req == Ask(st) && Admits(w.store, m.event)
    ensures Moved(w, m) == World(Interface(Tell(st, m.event.resp)), After(w.store, m.event))
  {
  }

  lemma UpdateStep(ti: TwinInterface, s: Store, moves: seq<Move>, j: nat)
    requires s.Valid() && IsRun(Attempt(ti, s), moves)
    requires j < |moves| && UpdatesInterface(moves[j])
    ensures IsSentBack(ti, moves[j].event.req.obj)
    ensures IsRun(Attempt(ti, s), moves[..j]) && StateAfter(ti, s, moves[..j]).step.UpdateInterface?
    ensures IsRun(Attempt(ti, s), moves[..j + 1]) && StateAfter(ti, s, moves[..j + 1]).step == Finished(Succeeded)
  {
    CallAt(ti, s, moves, j);
    OnlyTheLastStepUpdatesInterface(StateAfter(ti, s, moves[..j]));
  }

  lemma UpdateComesWhenComplete(ti: TwinInterface, s: Store, moves: seq<Move>, j: nat)
    requires s.Valid() && IsRun(Attempt(ti, s), moves) && KeepsKeys(Attempt(ti, s), moves)
    requires j < |moves| && UpdatesInterface(moves[j])
    ensures IsRun(Attempt(ti, s), moves[..j]) && StateAfter(ti, s, moves[..j]).errors == []
    ensures forall c :: Wanted(ti, c) ==> WorldAfter(Attempt(ti, s), moves[..j]).store.Has(ChildKey(ti, c))
  {
    UpdateStep(ti, s, moves, j);
    KeepsKeysPrefix(Attempt(ti, s), moves, j);
    EndMeansComplete(ti, s, moves[..j]);
  }

  lemma NothingAfterUpdate(ti: TwinInterface, s: Store, moves: seq<Move>, j: nat)
    requires s.Valid() && IsRun(Attempt(ti, s), moves) && j < |moves| && UpdatesInterface(moves[j])
    ensures IsSentBack(ti, moves[j].event.req.obj)
    ensures forall k :: j < k < |moves| ==> moves[k].Outside?
    ensures StateAfter(ti, s, moves).step == Finished(Succeeded)
  {
    UpdateStep(ti, s, moves, j);
    NothingAfterTheEnd(ti, s, moves, j + 1);
  }

  /** The interface is updated at most once, by the last call of the attempt: it is sent back as it
      was read, with status Running, with nothing recorded and every wanted child in the store;
      status Failed is never sent. */
  lemma InterfaceUpdateIsLast(ti: TwinInterface, s: Store, moves: seq<Move>, j: nat)
    requires s.Valid() && IsRun(Attempt(ti, s), moves) && KeepsKeys(Attempt(ti, s), moves)
    requires j < |moves| && UpdatesInterface(moves[j])
    ensures IsSentBack(ti, moves[j].event.req.obj)
    ensures IsRun(Attempt(ti, s), moves[..j]) && StateAfter(ti, s, moves[..j]).errors == []
    ensures forall c :: Wanted(ti, c) ==> WorldAfter(Attempt(ti, s), moves[..j]).store.Has(ChildKey(ti, c))
    ensures forall k :: j < k < |moves| ==> moves[k].Outside?
    ensures StateAfter(ti, s, moves).step == Finished(Succeeded)
  {
    UpdateComesWhenComplete(ti, s, moves, j);
    NothingAfterUpdate(ti, s, moves, j);
  }

  lemma {:induction false} KeepsKeysPrefix(w: World, moves: seq<Move>, j: nat)
    requires KeepsKeys(w, moves) && j <= |moves|
    ensures KeepsKeys(w, moves[..j])
  {
    if j < |moves| {
      var front := moves[..|moves| - 1];
      KeepsKeysPrefix(w, front, j);
      assert front[..j] == moves[..j];
    } else {
      assert moves[..j] == moves;
    }
  }

  lemma FinishedIsQuiet(w: World, m: Move, st: State)
    requires w.proc == Interface(st) && st.step.Finished? && MayMove(w, m)
    ensures m.Outside? && Moved(w, m).proc == w.proc
  {
  }

  lemma {:induction false} QuietFromHere(w: World, moves: seq<Move>, st: State)
    requires w.proc == Interface(st) && st.step.Finished? && IsRun(w, moves)
    ensures WorldAfter(w, moves).proc == Interface(st) && forall k :: 0 <= k < |moves| ==> moves[k].Outside?
  {
    if moves != [] {
      var front, last := moves[..|moves| - 1], moves[|moves| - 1];
      QuietFromHere(w, front, st);
      FinishedIsQuiet(WorldAfter(w, front), last, st);
      assert moves == front + [last];
    }
  }

  lemma QuietAfter(w: World, moves: seq<Move>, j: nat, st: State)
    requires j <= |moves| && WorldAfter(w, moves[..j]).proc == Interface(st) && st.step.Finished? && IsRun(w, moves)
    ensures WorldAfter(w, moves).proc == Interface(st) && forall k :: j <= k < |moves| ==> moves[k].Outside?
  {
    assert moves == moves[..j] + moves[j..];
    RunsCompose(w, moves[..j], moves[j..]);
    QuietFromHere(WorldAfter(w, moves[..j]), moves[j..], st);
    assert forall k :: j <= k < |moves| ==> moves[k] == moves[j..][k - j];
  }

  lemma NothingAfterTheEnd(ti: TwinInterface, s: Store, moves: seq<Move>, j: nat)
    requires s.Valid() && IsRun(Attempt(ti, s), moves) && j <= |moves|
    requires IsRun(Attempt(ti, s), moves[..j]) && StateAfter(ti, s, moves[..j]).step.Finished?
    ensures forall k :: j <= k < |moves| ==> moves[k].Outside?
    ensures StateAfter(ti, s, moves) == StateAfter(ti, s, moves[..j])
  {
    QuietAfter(Attempt(ti, s), moves, j, StateAfter(ti, s, moves[..j]));
  }
}
