/** Reconcile attempts of any of the controllers, running against a store that other clients
    may change between any two calls. */
module Runs {
  import opened Resources
  import opened ClusterApi
  import TI = TwinInterfaceMachine
  import ST = ServiceTriggerMachine
  import MQ = MqttTriggerMachine

  datatype Proc =
    | Interface(ti: TI.State)
    | ServiceAndTrigger(st: ST.State)
    | Mqtt(mq: MQ.State)
  {
    predicate Asking() {
      match this
      case Interface(s) => TI.Asking(s)
      case ServiceAndTrigger(s) => ST.Asking(s)
      case Mqtt(s) => MQ.Asking(s)
    }

    function Ask(): Request
      requires Asking()
    {
      match this
      case Interface(s) => TI.Ask(s)
      case ServiceAndTrigger(s) => ST.Ask(s)
      case Mqtt(s) => MQ.Ask(s)
    }

    function Tell(resp: Response): Proc
      requires Asking()
    {
      match this
      case Interface(s) => Interface(TI.Tell(s, resp))
      case ServiceAndTrigger(s) => ServiceAndTrigger(ST.Tell(s, resp))
      case Mqtt(s) => Mqtt(MQ.Tell(s, resp))
    }

    predicate Ended(outcome: Outcome) {
      match this
      case Interface(s) => s.step == TI.Finished(outcome)
      case ServiceAndTrigger(s) => s.step == ST.Finished(outcome)
      case Mqtt(s) => s.step == MQ.Finished(outcome)
    }
  }

  /** One attempt in the middle of its run. */
  datatype World = World(proc: Proc, store: Store)

  ghost predicate MayMove(w: World, m: Move) {
    match m
    case Outside(s) => s.Valid() && s.codec == w.store.codec
    case Act(e) => w.proc.Asking() && e.req == w.proc.Ask() && Admits(w.store, e)
  }

  function Moved(w: World, m: Move): World {
    match m
    case Outside(s) => w.(store := s)
    case Act(e) => World(if w.proc.Asking() then w.proc.Tell(e.resp) else w.proc, After(w.store, e))
  }

  /** Where a sequence of moves leads. */
  function WorldAfter(w: World, moves: seq<Move>): World {
    if moves == [] then w else Moved(WorldAfter(w, moves[..|moves| - 1]), moves[|moves| - 1])
  }

  /** Every move is one the attempt, the server or somebody else could make. A run may stop
      anywhere: an attempt that stops before its end has crashed. */
  ghost predicate IsRun(w: World, moves: seq<Move>) {
    moves == []
    || (var front, last := moves[..|moves| - 1], moves[|moves| - 1];
        IsRun(w, front) && MayMove(WorldAfter(w, front), last))
  }

  /** Nobody else touches the store during the run. */
  predicate Alone(moves: seq<Move>) {
    forall m :: m in moves ==> m.Act?
  }

  /** No call of the run went unanswered. */
  predicate Healthy(moves: seq<Move>) {
    forall m :: m in moves && m.Act? ==> !Unanswered(m.event.resp)
  }

  lemma OneMoreMove(w: World, moves: seq<Move>, m: Move)
    ensures WorldAfter(w, moves + [m]) == Moved(WorldAfter(w, moves), m)
    ensures IsRun(w, moves + [m]) <==> IsRun(w, moves) && MayMove(WorldAfter(w, moves), m)
  {
    assert (moves + [m])[..|moves|] == moves;
  }

  lemma {:induction false} RunsStayValid(w: World, moves: seq<Move>)
    requires w.store.Valid() && IsRun(w, moves)
    ensures WorldAfter(w, moves).store.Valid() && WorldAfter(w, moves).store.codec == w.store.codec
  {
    if moves != [] {
      var front, last := moves[..|moves| - 1], moves[|moves| - 1];
      RunsStayValid(w, front);
      if last.Act? {
        AfterIsValid(WorldAfter(w, front).store, last.event);
      }
    }
  }

  lemma {:induction false} RunsCompose(w: World, a: seq<Move>, b: seq<Move>)
    ensures WorldAfter(w, a + b) == WorldAfter(WorldAfter(w, a), b)
    ensures IsRun(w, a + b) <==> IsRun(w, a) && IsRun(WorldAfter(w, a), b)
  {
    if b == [] {
      assert a + b == a;
    } else {
      var front, last := b[..|b| - 1], b[|b| - 1];
      assert a + b == (a + front) + [last];
      OneMoreMove(w, a + front, last);
      RunsCompose(w, a, front);
    }
  }

  lemma {:induction false} Prefix(w: World, moves: seq<Move>, j: nat)
    requires IsRun(w, moves) && j <= |moves|
    ensures IsRun(w, moves[..j])
  {
    if j < |moves| {
      var front := moves[..|moves| - 1];
      Prefix(w, front, j);
      assert front[..j] == moves[..j];
    } else {
      assert moves[..j] == moves;
    }
  }

  lemma OneMoreElement<X>(s: seq<X>, j: nat)
    requires j < |s|
    ensures s[..j + 1] == s[..j] + [s[j]]
  {
  }

  lemma MoveAt(w: World, moves: seq<Move>, j: nat)
    requires IsRun(w, moves) && j < |moves|
    ensures IsRun(w, moves[..j]) && IsRun(w, moves[..j + 1])
    ensures MayMove(WorldAfter(w, moves[..j]), moves[j])
    ensures WorldAfter(w, moves[..j + 1]) == Moved(WorldAfter(w, moves[..j]), moves[j])
  {
    OneMoreElement(moves, j);
    Prefix(w, moves, j + 1);
    OneMoreMove(w, moves[..j], moves[j]);
  }

  /** A call of a client, with others at work before it. */
  lemma CallAfterOthers(w: World, moves: seq<Move>, p: Proc, s: Store, between: Store, e: Event)
    requires IsRun(w, moves) && WorldAfter(w, moves) == World(p, s)
    requires between.Valid() && between.codec == s.codec
    requires p.Asking() && e.req == p.Ask() && Admits(between, e)
    ensures IsRun(w, (moves + [Outside(between)]) + [Act(e)])
    ensures WorldAfter(w, (moves + [Outside(between)]) + [Act(e)]) == World(p.Tell(e.resp), After(between, e))
  {
    OneMoreMove(w, moves, Outside(between));
    OneMoreMove(w, moves + [Outside(between)], Act(e));
  }

  // ---------- runs nobody disturbs on certain keys ----------

  predicate SameAt(s: Store, t: Store, k: Key) {
    && (s.Has(k) <==> t.Has(k))
    && (s.Has(k) ==> s.objects[k] == t.objects[k])
  }

  /** Others may do anything but write or delete these keys. */
  ghost predicate Spares(w: World, moves: seq<Move>, keys: set<Key>) {
    moves == []
    || (var front, last := moves[..|moves| - 1], moves[|moves| - 1];
        && Spares(w, front, keys)
        && (last.Outside? ==> forall k :: k in keys ==> SameAt(WorldAfter(w, front).store, last.store, k)))
  }

  lemma {:induction false} SparesPrefix(w: World, moves: seq<Move>, keys: set<Key>, j: nat)
    requires Spares(w, moves, keys) && j <= |moves|
    ensures Spares(w, moves[..j], keys)
  {
    if j < |moves| {
      var front := moves[..|moves| - 1];
      SparesPrefix(w, front, keys, j);
      assert front[..j] == moves[..j];
    } else {
      assert moves[..j] == moves;
    }
  }

  lemma {:induction false} AloneSpares(w: World, moves: seq<Move>, keys: set<Key>)
    requires Alone(moves)
    ensures Spares(w, moves, keys)
  {
    if moves != [] {
      assert moves == moves[..|moves| - 1] + [moves[|moves| - 1]];
      assert moves[|moves| - 1] in moves;
      AloneSpares(w, moves[..|moves| - 1], keys);
    }
  }

  lemma SameEverywhere(s: Store, t: Store)
    requires s.codec == t.codec && forall k :: SameAt(s, t, k)
    ensures s == t
  {
    assert forall k :: k in s.objects <==> k in t.objects by {
      forall k ensures k in s.objects <==> k in t.objects {
        assert SameAt(s, t, k);
      }
    }
    assert s.objects.Keys == t.objects.Keys;
    forall k | k in s.objects ensures s.objects[k] == t.objects[k] {
      assert SameAt(s, t, k);
    }
    assert s.objects == t.objects;
  }
}
