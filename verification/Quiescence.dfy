/** When the Knative Service of an interface stops being updated. */
module Quiescence {
  import opened Resources
  import opened ClusterApi
  import opened Runs
  import opened TwinService
  import opened TwinInterfaceMachine
  import opened InterfaceSteps
  import opened InterfaceRuns
  import opened InterfaceEffect
  import opened InterfaceConvergence
  import P = InterfaceProgress

  /** The addresses go into the environment, which is never compared. */
  lemma ProjectionIgnoresAddresses(ti: TwinInterface, f: Found, g: Found)
    requires ti.spec.service.Some?
    ensures ProjectionOf(Build(ti, OwnService, f).body.config) == ProjectionOf(Build(ti, OwnService, g).body.config)
  {
    var a, b := Build(ti, OwnService, f).body.config, Build(ti, OwnService, g).body.config;
    assert ProjectionOf(a).images == ProjectionOf(b).images;
    assert ProjectionOf(a).resources == ProjectionOf(b).resources;
  }

  /** The store reads the annotations back as they were sent. */
  predicate KeepsAnnotations(codec: Codec, ti: TwinInterface)
    requires ti.spec.service.Some?
  {
    codec == Verbatim || ti.spec.service.value.autoScaling != NO_AUTO_SCALING
  }

  lemma StoredAnnotations(codec: Codec, ti: TwinInterface, f: Found)
    requires ti.spec.service.Some?
    ensures var config := Build(ti, OwnService, f).body.config;
            StoredConfig(codec, config).annotations == config.annotations <==> KeepsAnnotations(codec, ti)
  {
    var a := ti.spec.service.value.autoScaling;
    assert AutoScalingAnnotations(a) == map[] <==> a == NO_AUTO_SCALING;
  }

  /** A merge makes the comparison succeed on the object it returns; on the object the store
      reads back it does so exactly if the annotations survive. */
  lemma MergeThenCompare(st: State, codec: Codec, current: Object)
    requires st.ti.spec.service.Some? && current.body.KServiceBody?
    ensures UpToDate(st, MergeService(current, Build(st.ti, OwnService, st.found)))
    ensures UpToDate(st, Stored(codec, MergeService(current, Build(st.ti, OwnService, st.found))))
            <==> KeepsAnnotations(codec, st.ti)
  {
    StoredAnnotations(codec, st.ti, st.found);
    var desired := Build(st.ti, OwnService, st.found).body.config;
    SameContainers(desired, StoredConfig(codec, desired));
  }

  lemma SameContainers(a: Configuration, b: Configuration)
    requires a.containers == b.containers
    ensures ProjectionOf(a) == ProjectionOf(b) <==> a.annotations == b.annotations
  {
  }

  /** With annotations that do not survive, nothing the store holds ever counts as up to date. */
  lemma NeverUpToDate(st: State, s: Store, o: Object)
    requires st.ti.spec.service.Some? && !KeepsAnnotations(s.codec, st.ti)
    requires o.body.KServiceBody? && Stored(s.codec, o) == o
    ensures !UpToDate(st, o)
  {
    StoredAnnotations(s.codec, st.ti, st.found);
  }

  /** What a successful attempt leaves counts as up to date for any later attempt on the same
      interface exactly if the annotations survive the store. */
  lemma ResultIsUpToDateIff(first: State, later: State, s0: Store)
    requires s0.Valid() && first.ti == later.ti && first.ti.spec.service.Some?
    ensures UpToDate(later, ServiceResult(first, s0)) <==> KeepsAnnotations(s0.codec, first.ti)
  {
    var k, desired := ChildKey(first.ti, OwnService), Build(first.ti, OwnService, first.found);
    ProjectionIgnoresAddresses(first.ti, first.found, later.found);
    if !s0.Has(k) {
      StoredAnnotations(s0.codec, first.ti, first.found);
      SameContainers(desired.body.config, StoredConfig(s0.codec, desired.body.config));
    } else if UpToDate(first, s0.objects[k]) {
      if !KeepsAnnotations(s0.codec, first.ti) {
        NeverUpToDate(first, s0, s0.objects[k]);
      }
    } else {
      MergeThenCompare(first, s0.codec, s0.objects[k]);
    }
  }

  // ---------- a second attempt ----------

  predicate UpdatesService(m: Move) {
    m.Act? && m.event.req.Update? && m.event.req.obj.body.KServiceBody?
  }

  predicate SendsUpdate(moves: seq<Move>) {
    exists m :: m in moves && UpdatesService(m)
  }

  lemma OneMoreSend(moves: seq<Move>, m: Move)
    ensures SendsUpdate(moves + [m]) <==> SendsUpdate(moves) || UpdatesService(m)
  {
    assert m in moves + [m];
    if SendsUpdate(moves) {
      var n :| n in moves && UpdatesService(n);
      assert n in moves + [m];
    }
  }

  /** `updated` says whether the attempt has sent a service update; it has exactly if the
      service it found was not up to date. */
  ghost predicate OnRecord(st: State, s0: Store, updated: bool)
    requires s0.Valid()
  {
    var k := ChildKey(st.ti, OwnService);
    Flawless(st) && st.ti.spec.service.Some? && s0.Has(k) ==>
      if st.step.FetchService? || st.step.UpdateService? || StageOf(st) == 0 then !updated
      else updated <==> !UpToDate(st, s0.objects[k])
  }

  lemma OnRecordStep(st: State, s0: Store, s: Store, e: Event, updated: bool)
    requires s0.Valid() && s.Valid() && s.codec == s0.codec
    requires Asking(st) && Sane(st) && ServiceOnTrack(st, s0, s) && OnRecord(st, s0, updated)
    requires e.req == Ask(st) && Admits(s, e)
    ensures OnRecord(Tell(st, e.resp), s0, updated || UpdatesService(Act(e)))
  {
    var next, k := Tell(st, e.resp), ChildKey(st.ti, OwnService);
    TellKeepsInterface(st, e.resp);
    if Flawless(next) && st.ti.spec.service.Some? && s0.Has(k) {
      FlawlessBefore(st, e.resp);
      ProjectionIgnoresAddresses(st.ti, st.found, next.found);
      UpdatesServiceOnlyThen(st, e);
      StageRises(st, e.resp);
    }
  }

  lemma UpdatesServiceOnlyThen(st: State, e: Event)
    requires Asking(st) && Sane(st) && e.req == Ask(st)
    ensures UpdatesService(Act(e)) <==> st.step.UpdateService?
  {
  }

  lemma {:induction false} AttemptOnRecord(ti: TwinInterface, s: Store, moves: seq<Move>)
    requires s.Valid() && IsRun(Attempt(ti, s), moves) && Alone(moves)
    ensures OnRecord(StateAfter(ti, s, moves), s, SendsUpdate(moves))
  {
    if moves != [] {
      var front, last := moves[..|moves| - 1], moves[|moves| - 1];
      assert moves == front + [last];
      AttemptOnRecord(ti, s, front);
      EffectOfAttempt(ti, s, front);
      RunsStayValid(Attempt(ti, s), front);
      var st := StateAfter(ti, s, front);
      assert last in moves;
      CallOfState(st, WorldAfter(Attempt(ti, s), front), last);
      OnRecordStep(st, s, WorldAfter(Attempt(ti, s), front).store, last.event, SendsUpdate(front));
      OneMoreSend(front, last);
    }
  }

  /** After a successful attempt, a second successful attempt on the same interface sends no
      service update if the annotations survive the store, and sends one every time if not:
      an interface without auto-scaling on a store that drops empty maps is never quiescent. */
  lemma SecondAttemptIsQuietIff(ti: TwinInterface, s: Store, first: seq<Move>, second: seq<Move>)
    requires s.Valid() && ti.spec.service.Some?
    requires IsRun(Attempt(ti, s), first) && Alone(first)
    requires StateAfter(ti, s, first).step == Finished(Succeeded)
    requires var t := WorldAfter(Attempt(ti, s), first).store;
             && t.Valid() && IsRun(Attempt(ti, t), second) && Alone(second)
             && StateAfter(ti, t, second).step == Finished(Succeeded)
    ensures SendsUpdate(second) <==> !KeepsAnnotations(s.codec, ti)
  {
    var t := WorldAfter(Attempt(ti, s), first).store;
    FirstLeaves(ti, s, first);
    var one, two := StateAfter(ti, s, first), StateAfter(ti, t, second);
    ResultIsUpToDateIff(one, two, s);
    AttemptOnRecord(ti, t, second);
    SuccessIsFlawless(ti, t, second);
  }

  lemma SuccessIsFlawless(ti: TwinInterface, s: Store, moves: seq<Move>)
    requires s.Valid() && IsRun(Attempt(ti, s), moves) && Alone(moves)
    requires StateAfter(ti, s, moves).step == Finished(Succeeded)
    ensures Flawless(StateAfter(ti, s, moves))
  {
    AloneKeepsKeys(Attempt(ti, s), moves);
    EndMeansComplete(ti, s, moves);
  }

  lemma FirstLeaves(ti: TwinInterface, s: Store, moves: seq<Move>)
    requires s.Valid() && ti.spec.service.Some?
    requires IsRun(Attempt(ti, s), moves) && Alone(moves) && StateAfter(ti, s, moves).step == Finished(Succeeded)
    ensures var t, k := WorldAfter(Attempt(ti, s), moves).store, ChildKey(ti, OwnService);
            t.Has(k) && t.objects[k] == ServiceResult(StateAfter(ti, s, moves), s)
  {
    SuccessIsFlawless(ti, s, moves);
    EffectOfAttempt(ti, s, moves);
  }

  // ---------- any number of attempts ----------

  ghost function StoreAfter(ti: TwinInterface, s: Store, moves: seq<Move>): Store {
    WorldAfter(Attempt(ti, s), moves).store
  }

  ghost predicate Succeeds(ti: TwinInterface, s: Store, moves: seq<Move>) {
    && s.Valid() && IsRun(Attempt(ti, s), moves) && Alone(moves)
    && StateAfter(ti, s, moves).step == Finished(Succeeded)
  }

  /** Undisturbed successes, each in the store the one before it left. */
  ghost predicate Succession(ti: TwinInterface, s: Store, runs: seq<seq<Move>>)
    decreases |runs|
  {
    runs == [] || (Succeeds(ti, s, runs[0]) && Succession(ti, StoreAfter(ti, s, runs[0]), runs[1..]))
  }

  predicate AllSend(runs: seq<seq<Move>>) {
    forall run :: run in runs ==> SendsUpdate(run)
  }

  predicate NoneSends(runs: seq<seq<Move>>) {
    forall run :: run in runs ==> !SendsUpdate(run)
  }

  /** From the second success on all are quiet if the annotations survive the store, and none is
      if they do not. */
  lemma {:induction false} SuccessionIsQuietIff(ti: TwinInterface, s: Store, runs: seq<seq<Move>>)
    requires ti.spec.service.Some? && runs != [] && Succession(ti, s, runs)
    ensures if KeepsAnnotations(s.codec, ti) then NoneSends(runs[1..]) else AllSend(runs[1..])
    decreases |runs|
  {
    var rest := runs[1..];
    if rest != [] {
      SecondOfSuccession(ti, s, runs);
      SuccessionIsQuietIff(ti, StoreAfter(ti, s, runs[0]), rest);
      assert rest == [rest[0]] + rest[1..];
    }
  }

  lemma SecondOfSuccession(ti: TwinInterface, s: Store, runs: seq<seq<Move>>)
    requires ti.spec.service.Some? && |runs| >= 2 && Succession(ti, s, runs)
    ensures StoreAfter(ti, s, runs[0]).codec == s.codec && Succession(ti, StoreAfter(ti, s, runs[0]), runs[1..])
    ensures SendsUpdate(runs[1]) <==> !KeepsAnnotations(s.codec, ti)
  {
    var t := StoreAfter(ti, s, runs[0]);
    assert Succeeds(ti, t, runs[1..][0]);
    RunsStayValid(Attempt(ti, s), runs[0]);
    SecondAttemptIsQuietIff(ti, s, runs[0], runs[1]);
  }

  lemma SomeSuccess(ti: TwinInterface, s: Store) returns (moves: seq<Move>)
    requires s.Valid() && Ready(ti, s)
    ensures Succeeds(ti, s, moves) && StoreAfter(ti, s, moves).Valid() && Ready(ti, StoreAfter(ti, s, moves))
  {
    moves := P.CanSucceed(ti, s);
    P.StillReady(ti, s, moves);
  }

  /** There are such successions of every length. */
  lemma {:induction false} SomeSuccession(ti: TwinInterface, s: Store, n: nat) returns (runs: seq<seq<Move>>)
    requires s.Valid() && Ready(ti, s)
    ensures |runs| == n && Succession(ti, s, runs)
    decreases n
  {
    if n == 0 {
      runs := [];
    } else {
      var first := SomeSuccess(ti, s);
      var rest := SomeSuccession(ti, StoreAfter(ti, s, first), n - 1);
      runs := [first] + rest;
      assert runs[1..] == rest;
    }
  }

  /** An interface without auto-scaling on a store that drops empty maps has its service updated
      again and again. */
  lemma NeverQuiet(ti: TwinInterface, s: Store, n: nat) returns (runs: seq<seq<Move>>)
    requires s.Valid() && Ready(ti, s) && s.codec.OmitEmpty?
    requires ti.spec.service.Some? && ti.spec.service.value.autoScaling == NO_AUTO_SCALING
    ensures |runs| == n + 1 && Succession(ti, s, runs) && AllSend(runs[1..])
  {
    runs := SomeSuccession(ti, s, n + 1);
    SuccessionIsQuietIff(ti, s, runs);
  }
}
