/** An attempt of `createUpdateTwinInterface` is never stuck: from wherever it is, a server that
    answers takes it to its end. */
module InterfaceProgress {
  import opened Resources
  import opened ClusterApi
  import opened Runs
  import opened TwinInterfaceMachine
  import opened InterfaceSteps
  import opened InterfaceRuns
  import opened InterfaceConvergence

  lemma {:induction false} SomeListing(s: Store, keys: set<Key>) returns (items: seq<Object>)
    requires s.Valid() && forall k :: k in keys ==> s.Has(k)
    ensures Enumerates(items, s, keys)
    decreases |keys|
  {
    if keys == {} {
      items := [];
    } else {
      var k :| k in keys;
      var rest := SomeListing(s, keys - {k});
      items := rest + [s.objects[k]];
    }
  }

  /** The server has an answer to every call. */
  lemma SomeAnswer(s: Store, req: Request) returns (e: Event)
    requires s.Valid()
    ensures e.req == req && Admits(s, e) && !Unanswered(e.resp)
  {
    match req
    case Create(o) =>
      e := if s.Has(o.KeyOf()) then Event(req, Failed(AlreadyExists), false) else Event(req, Done, true);
    case Get(k) =>
      e := Event(req, if s.Has(k) then Fetched(s.objects[k]) else Failed(NotFound), false);
    case List(kind, ns, selector) =>
      var items := SomeListing(s, Matching(s, kind, ns, selector));
      e := Event(req, Listed(items), false);
    case Update(o) =>
      e := if s.Has(o.KeyOf()) then Event(req, Done, true) else Event(req, Failed(NotFound), false);
    case UpdateStatus(o) =>
      e := if s.Has(o.KeyOf()) then Event(req, Done, true) else Event(req, Failed(NotFound), false);
  }

  predicate Smooth(moves: seq<Move>) {
    Alone(moves) && Healthy(moves)
  }

  lemma SmoothCons(m: Move, moves: seq<Move>)
    requires Smooth(moves) && m.Act? && !Unanswered(m.event.resp)
    ensures Smooth([m] + moves)
  {
  }

  /** An attempt in a sane state on a valid store. */
  ghost predicate Going(w: World) {
    w.proc.Interface? && Sane(w.proc.ti) && w.store.Valid()
  }

  /** The next call, answered. */
  lemma NextCall(w: World) returns (m: Move)
    requires Going(w) && Asking(w.proc.ti)
    ensures m.Act? && !Unanswered(m.event.resp) && MayMove(w, m)
    ensures Going(Moved(w, m)) && CallsLeft(Moved(w, m).proc.ti) < CallsLeft(w.proc.ti)
  {
    var st := w.proc.ti;
    var e := SomeAnswer(w.store, Ask(st));
    CallsLeftDrop(st, e.resp);
    AdmittedIsPlausible(st, w.store, e);
    SaneStep(st, e.resp);
    AfterIsValid(w.store, e);
    m := Act(e);
    CallOfState(st, w, m);
  }

  lemma FirstMove(w: World, m: Move, rest: seq<Move>)
    requires MayMove(w, m) && IsRun(Moved(w, m), rest)
    ensures IsRun(w, [m] + rest) && WorldAfter(w, [m] + rest) == WorldAfter(Moved(w, m), rest)
  {
    assert [m] == [] + [m];
    OneMoreMove(w, [], m);
    RunsCompose(w, [m], rest);
  }

  lemma {:induction false} CanFinishFrom(w: World) returns (more: seq<Move>)
    requires Going(w)
    ensures IsRun(w, more) && Smooth(more)
    ensures Going(WorldAfter(w, more)) && WorldAfter(w, more).proc.ti.step.Finished?
    decreases CallsLeft(w.proc.ti)
  {
    if w.proc.ti.step.Finished? {
      more := [];
    } else {
      var m := NextCall(w);
      var rest := CanFinishFrom(Moved(w, m));
      more := [m] + rest;
      FirstMove(w, m, rest);
      SmoothCons(m, rest);
    }
  }

  /** Wherever an attempt is, whatever happened to it on the way there, answered calls alone take
      it to its end. */
  lemma CanAlwaysFinish(ti: TwinInterface, s: Store, moves: seq<Move>) returns (more: seq<Move>)
    requires s.Valid() && IsRun(Attempt(ti, s), moves)
    ensures IsRun(Attempt(ti, s), moves + more) && Smooth(more)
    ensures StateAfter(ti, s, moves + more).step.Finished?
  {
    AttemptIsSane(ti, s, moves);
    more := CanFinishFrom(WorldAfter(Attempt(ti, s), moves));
    RunsCompose(Attempt(ti, s), moves, more);
  }

  /** From every store that holds what the attempt reads there is a run that succeeds and leaves
      every wanted child. */
  lemma CanSucceed(ti: TwinInterface, s: Store) returns (moves: seq<Move>)
    requires s.Valid() && Ready(ti, s)
    ensures IsRun(Attempt(ti, s), moves) && Smooth(moves)
    ensures StateAfter(ti, s, moves).step == Finished(Succeeded)
    ensures Complete(ti, WorldAfter(Attempt(ti, s), moves).store)
  {
    moves := CanAlwaysFinish(ti, s, []);
    assert [] + moves == moves;
    Quietly(ti, s, moves);
    HealthyAttemptIsFine(ti, s, moves);
    EndMeansComplete(ti, s, moves);
  }

  lemma Quietly(ti: TwinInterface, s: Store, moves: seq<Move>)
    requires Ready(ti, s) && Alone(moves)
    ensures Friendly(ti, Attempt(ti, s), moves)
  {
    AloneKeepsKeys(Attempt(ti, s), moves);
  }

  lemma StillReady(ti: TwinInterface, s: Store, moves: seq<Move>)
    requires s.Valid() && Ready(ti, s) && IsRun(Attempt(ti, s), moves) && Smooth(moves)
    ensures WorldAfter(Attempt(ti, s), moves).store.Valid() && Ready(ti, WorldAfter(Attempt(ti, s), moves).store)
    ensures WorldAfter(Attempt(ti, s), moves).store.codec == s.codec
  {
    Quietly(ti, s, moves);
    HealthyAttemptIsFine(ti, s, moves);
    RunsStayValid(Attempt(ti, s), moves);
  }
}
