/** Many attempts at once, taking turns call by call: when no attempt writes what another one
    touches, every interleaving can be sorted into attempts run one after the other. */
module Interleaving {
  import opened Resources
  import opened ClusterApi
  import opened Runs

  // ---------- what a call touches ----------

  predicate Writes(req: Request, k: Key) {
    match req
    case Create(o) => k == o.KeyOf()
    case Update(o) => k == o.KeyOf()
    case UpdateStatus(o) => k == o.KeyOf()
    case _ => false
  }

  predicate Unlabelled(o: Object) {
    o.meta.labels.Nil? || TRIGGER_LABEL !in o.meta.labels.m
  }

  /** Objects under hidden keys carry no trigger label, so no listing by trigger shows them. */
  ghost predicate Hides(s: Store, hidden: set<Key>) {
    forall k :: k in hidden && s.Has(k) ==> Unlabelled(s.objects[k])
  }

  /** The call does not bring a hidden object into the listings. */
  predicate Discreet(req: Request, hidden: set<Key>) {
    (req.Create? || req.Update?) && req.obj.KeyOf() in hidden ==> Unlabelled(req.obj)
  }

  /** A listing touches every key of its kind and namespace, there or not; a listing by trigger
      touches no hidden one. */
  predicate Touches(req: Request, k: Key, hidden: set<Key>) {
    match req
    case Get(key) => k == key
    case List(kind, ns, selector) => k.kind == kind && k.ns == ns && !(k in hidden && TRIGGER_LABEL in selector)
    case _ => Writes(req, k)
  }

  ghost predicate Independent(p: Request, q: Request, hidden: set<Key>) {
    forall k :: !(Writes(p, k) && Touches(q, k, hidden)) && !(Writes(q, k) && Touches(p, k, hidden))
  }

  // ---------- turns ----------

  /** A kind of attempt: the call it is about to make, if any, and where an answer takes it. */
  datatype Machine<!P> = Machine(ask: P -> Option<Request>, tell: (P, Response) -> P)

  /** Attempts side by side on one store. */
  datatype Crew<!P> = Crew(machine: Machine<P>, procs: seq<P>, store: Store)

  datatype Turn = Turn(i: nat, event: Event)

  ghost predicate MayTurn<P>(c: Crew<P>, t: Turn) {
    && t.i < |c.procs| && c.machine.ask(c.procs[t.i]) == Some(t.event.req)
    && Admits(c.store, t.event)
  }

  function Turned<P>(c: Crew<P>, t: Turn): Crew<P> {
    if t.i < |c.procs| then
      c.(procs := c.procs[t.i := c.machine.tell(c.procs[t.i], t.event.resp)], store := After(c.store, t.event))
    else c
  }

  function CrewAfter<P>(c: Crew<P>, turns: seq<Turn>): Crew<P> {
    if turns == [] then c else Turned(CrewAfter(c, turns[..|turns| - 1]), turns[|turns| - 1])
  }

  /** Any order of calls the attempts and the server allow; an attempt may also stop short. */
  ghost predicate IsInterleaving<P>(c: Crew<P>, turns: seq<Turn>) {
    turns == []
    || (var front, last := turns[..|turns| - 1], turns[|turns| - 1];
        IsInterleaving(c, front) && MayTurn(CrewAfter(c, front), last))
  }

  lemma OneMoreTurn<P>(c: Crew<P>, turns: seq<Turn>, t: Turn)
    ensures CrewAfter(c, turns + [t]) == Turned(CrewAfter(c, turns), t)
    ensures IsInterleaving(c, turns + [t]) <==> IsInterleaving(c, turns) && MayTurn(CrewAfter(c, turns), t)
  {
    assert (turns + [t])[..|turns|] == turns;
  }

  lemma {:induction false} TurnsCompose<P>(c: Crew<P>, a: seq<Turn>, b: seq<Turn>)
    ensures CrewAfter(c, a + b) == CrewAfter(CrewAfter(c, a), b)
    ensures IsInterleaving(c, a + b) <==> IsInterleaving(c, a) && IsInterleaving(CrewAfter(c, a), b)
  {
    if b == [] {
      assert a + b == a;
    } else {
      var front, last := b[..|b| - 1], b[|b| - 1];
      assert a + b == (a + front) + [last];
      OneMoreTurn(c, a + front, last);
      TurnsCompose(c, a, front);
    }
  }

  // ---------- independent calls commute ----------

  lemma OnlyWrittenKeysChange(s: Store, e: Event, k: Key)
    requires s.Valid() && !Writes(e.req, k)
    ensures SameAt(s, After(s, e), k)
  {
    if e.effect && e.req.UpdateStatus? && s.Has(e.req.obj.KeyOf()) {
      assert WithStatus(s.objects[e.req.obj.KeyOf()], e.req.obj).KeyOf() == e.req.obj.KeyOf();
    }
  }

  lemma HidesAfter(s: Store, e: Event, hidden: set<Key>)
    requires s.Valid() && Hides(s, hidden) && Discreet(e.req, hidden)
    ensures Hides(After(s, e), hidden)
  {
    if e.effect && e.req.UpdateStatus? && s.Has(e.req.obj.KeyOf()) {
      assert WithStatus(s.objects[e.req.obj.KeyOf()], e.req.obj).KeyOf() == e.req.obj.KeyOf();
    }
  }

  lemma SameMatching(s: Store, t: Store, kind: Kind, ns: string, selector: map<string, string>, hidden: set<Key>)
    requires Hides(s, hidden) && Hides(t, hidden)
    requires forall k: Key :: Touches(List(kind, ns, selector), k, hidden) ==> SameAt(s, t, k)
    ensures Matching(s, kind, ns, selector) == Matching(t, kind, ns, selector)
    ensures forall k :: k in Matching(s, kind, ns, selector) ==> SameAt(s, t, k)
  {
    var here, there := Matching(s, kind, ns, selector), Matching(t, kind, ns, selector);
    forall k ensures k in here <==> k in there {
      if Touches(List(kind, ns, selector), k, hidden) {
        assert SameAt(s, t, k);
      }
    }
    forall k | k in here ensures SameAt(s, t, k) {
      assert Touches(List(kind, ns, selector), k, hidden);
    }
  }

  lemma SameListing(s: Store, t: Store, items: seq<Object>, kind: Kind, ns: string, selector: map<string, string>,
                    hidden: set<Key>)
    requires Hides(s, hidden) && Hides(t, hidden)
    requires forall k: Key :: Touches(List(kind, ns, selector), k, hidden) ==> SameAt(s, t, k)
    requires Enumerates(items, s, Matching(s, kind, ns, selector))
    ensures Enumerates(items, t, Matching(t, kind, ns, selector))
  {
    SameMatching(s, t, kind, ns, selector, hidden);
  }

  /** An answer stays possible when only keys the call does not touch have changed. */
  lemma AdmittedElsewhere(s: Store, t: Store, e: Event, hidden: set<Key>)
    requires Hides(s, hidden) && Hides(t, hidden)
    requires Admits(s, e) && forall k :: Touches(e.req, k, hidden) ==> SameAt(s, t, k)
    ensures Admits(t, e)
  {
    match e.req
    case List(kind, ns, selector) =>
      if e.resp.Listed? {
        SameListing(s, t, e.resp.items, kind, ns, selector, hidden);
      }
    case Get(k) => assert SameAt(s, t, k);
    case Create(o) => assert SameAt(s, t, o.KeyOf());
    case Update(o) => assert SameAt(s, t, o.KeyOf());
    case UpdateStatus(o) => assert SameAt(s, t, o.KeyOf());
  }

  function WriteOf(s: Store, e: Event): Option<Object> {
    if !e.effect then None
    else
      match e.req
      case Create(o) => Some(o)
      case Update(o) => Some(o)
      case UpdateStatus(o) => if s.Has(o.KeyOf()) then Some(WithStatus(s.objects[o.KeyOf()], o)) else None
      case _ => None
  }

  lemma AfterIsAPut(s: Store, e: Event)
    requires s.Valid()
    ensures After(s, e) == if WriteOf(s, e).Some? then s.Put(WriteOf(s, e).value) else s
    ensures WriteOf(s, e).Some? ==> Writes(e.req, WriteOf(s, e).value.KeyOf())
  {
  }

  lemma PutsCommute(s: Store, a: Object, b: Object)
    requires a.KeyOf() != b.KeyOf()
    ensures s.Put(a).Put(b) == s.Put(b).Put(a)
  {
    assert s.Put(a).Put(b).objects == s.Put(b).Put(a).objects;
  }

  lemma SameWrite(s: Store, t: Store, e: Event)
    requires forall k :: Writes(e.req, k) ==> SameAt(s, t, k)
    ensures WriteOf(s, e) == WriteOf(t, e)
  {
    match e.req
    case UpdateStatus(o) => assert SameAt(s, t, o.KeyOf());
    case _ =>
  }

  lemma CallsCommute(s: Store, d: Event, e: Event, hidden: set<Key>)
    requires s.Valid() && Hides(s, hidden) && Discreet(d.req, hidden) && Discreet(e.req, hidden)
    requires Independent(d.req, e.req, hidden)
    requires Admits(s, d) && Admits(After(s, d), e)
    ensures Admits(s, e) && Admits(After(s, e), d)
    ensures After(After(s, d), e) == After(After(s, e), d)
  {
    HidesAfter(s, d, hidden);
    HidesAfter(s, e, hidden);
    forall k | Touches(e.req, k, hidden) ensures SameAt(After(s, d), s, k) {
      OnlyWrittenKeysChange(s, d, k);
    }
    AdmittedElsewhere(After(s, d), s, e, hidden);
    forall k | Touches(d.req, k, hidden) ensures SameAt(s, After(s, e), k) {
      OnlyWrittenKeysChange(s, e, k);
    }
    AdmittedElsewhere(s, After(s, e), d, hidden);
    WritesAreTouches(d.req, hidden);
    WritesAreTouches(e.req, hidden);
    StoresCommute(s, d, e);
  }

  lemma StoresCommute(s: Store, d: Event, e: Event)
    requires s.Valid() && forall k :: !(Writes(d.req, k) && Writes(e.req, k))
    requires forall k :: Writes(e.req, k) ==> SameAt(After(s, d), s, k)
    requires forall k :: Writes(d.req, k) ==> SameAt(s, After(s, e), k)
    ensures After(After(s, d), e) == After(After(s, e), d)
  {
    AfterIsValid(s, d);
    AfterIsValid(s, e);
    SameWrite(After(s, d), s, e);
    SameWrite(s, After(s, e), d);
    AfterIsAPut(s, d);
    AfterIsAPut(s, e);
    AfterIsAPut(After(s, d), e);
    AfterIsAPut(After(s, e), d);
    if WriteOf(s, d).Some? && WriteOf(s, e).Some? {
      PutsCommute(s, WriteOf(s, d).value, WriteOf(s, e).value);
    }
  }

  lemma WritesAreTouches(req: Request, hidden: set<Key>)
    ensures forall k :: Writes(req, k) ==> Touches(req, k, hidden)
  {
  }

  lemma TurnsCommute<P>(c: Crew<P>, t: Turn, u: Turn, hidden: set<Key>)
    requires c.store.Valid() && Hides(c.store, hidden)
    requires Discreet(t.event.req, hidden) && Discreet(u.event.req, hidden)
    requires t.i != u.i && Independent(t.event.req, u.event.req, hidden)
    requires MayTurn(c, t) && MayTurn(Turned(c, t), u)
    ensures MayTurn(c, u) && MayTurn(Turned(c, u), t)
    ensures Turned(Turned(c, t), u) == Turned(Turned(c, u), t)
  {
    CallsCommute(c.store, t.event, u.event, hidden);
    assert Turned(Turned(c, t), u).procs == Turned(Turned(c, u), t).procs;
  }

  // ---------- sorting ----------

  ghost predicate AllDiscreet(turns: seq<Turn>, hidden: set<Key>) {
    forall j :: 0 <= j < |turns| ==> Discreet(turns[j].event.req, hidden)
  }

  ghost predicate Orderly(s: Store, hidden: set<Key>) {
    s.Valid() && Hides(s, hidden)
  }

  lemma {:induction false} TurnsStayOrderly<P>(c: Crew<P>, turns: seq<Turn>, hidden: set<Key>)
    requires Orderly(c.store, hidden) && AllDiscreet(turns, hidden)
    ensures Orderly(CrewAfter(c, turns).store, hidden) && |CrewAfter(c, turns).procs| == |c.procs|
  {
    if turns != [] {
      var front, last := turns[..|turns| - 1], turns[|turns| - 1];
      TurnsStayOrderly(c, front, hidden);
      AfterIsValid(CrewAfter(c, front).store, last.event);
      HidesAfter(CrewAfter(c, front).store, last.event, hidden);
    }
  }

  /** The turns of one attempt, and those of all others. */
  function Only(i: nat, turns: seq<Turn>): (r: seq<Turn>)
    ensures forall j :: 0 <= j < |r| ==> r[j] in turns && r[j].i == i
  {
    if turns == [] then []
    else
      var last := turns[|turns| - 1];
      Only(i, turns[..|turns| - 1]) + if last.i == i then [last] else []
  }

  function Others(i: nat, turns: seq<Turn>): (r: seq<Turn>)
    ensures forall j :: 0 <= j < |r| ==> r[j] in turns && r[j].i != i
  {
    if turns == [] then []
    else
      var last := turns[|turns| - 1];
      Others(i, turns[..|turns| - 1]) + if last.i != i then [last] else []
  }

  /** No attempt's calls write what another attempt's calls touch. */
  ghost predicate AllIndependent(turns: seq<Turn>, hidden: set<Key>) {
    && AllDiscreet(turns, hidden)
    && forall j, k :: 0 <= j < |turns| && 0 <= k < |turns| && turns[j].i != turns[k].i
         ==> Independent(turns[j].event.req, turns[k].event.req, hidden)
  }

  /** The turn is independent of all turns of this list, and of another attempt. */
  ghost predicate Clear(rest: seq<Turn>, t: Turn, hidden: set<Key>) {
    rest == []
    || (var front, last := rest[..|rest| - 1], rest[|rest| - 1];
        && Clear(front, t, hidden) && last.i != t.i
        && Discreet(last.event.req, hidden) && Independent(last.event.req, t.event.req, hidden))
  }

  lemma {:induction false} ClearIsDiscreet(rest: seq<Turn>, t: Turn, hidden: set<Key>)
    requires Clear(rest, t, hidden)
    ensures AllDiscreet(rest, hidden)
  {
    if rest != [] {
      ClearIsDiscreet(rest[..|rest| - 1], t, hidden);
    }
  }

  lemma OvertakeOne<P>(c: Crew<P>, front: seq<Turn>, last: Turn, t: Turn, hidden: set<Key>)
    requires Orderly(c.store, hidden) && AllDiscreet(front, hidden)
    requires Discreet(last.event.req, hidden) && Discreet(t.event.req, hidden)
    requires last.i != t.i && Independent(last.event.req, t.event.req, hidden)
    requires IsInterleaving(c, front + [last]) && MayTurn(CrewAfter(c, front + [last]), t)
    ensures IsInterleaving(c, front + [t]) && MayTurn(CrewAfter(c, front + [t]), last)
    ensures Turned(CrewAfter(c, front + [t]), last) == Turned(CrewAfter(c, front + [last]), t)
  {
    OneMoreTurn(c, front, last);
    OneMoreTurn(c, front, t);
    TurnsStayOrderly(c, front, hidden);
    TurnsCommute(CrewAfter(c, front), last, t, hidden);
  }

  lemma FirstOfMany(t: Turn, front: seq<Turn>, last: Turn)
    ensures [t] + (front + [last]) == ([t] + front) + [last]
  {
  }

  /** A turn may overtake turns it is clear of. */
  lemma {:induction false} Overtake<P>(c: Crew<P>, rest: seq<Turn>, t: Turn, hidden: set<Key>)
    requires Orderly(c.store, hidden) && Clear(rest, t, hidden) && Discreet(t.event.req, hidden)
    requires IsInterleaving(c, rest) && MayTurn(CrewAfter(c, rest), t)
    ensures IsInterleaving(c, [t] + rest) && CrewAfter(c, [t] + rest) == Turned(CrewAfter(c, rest), t)
  {
    if rest == [] {
      OneMoreTurn(c, [], t);
      assert [t] + rest == [] + [t];
    } else {
      var front, last := rest[..|rest| - 1], rest[|rest| - 1];
      assert rest == front + [last];
      ClearIsDiscreet(front, t, hidden);
      OvertakeOne(c, front, last, t, hidden);
      OneMoreTurn(c, front, t);
      Overtake(c, front, t, hidden);
      OneMoreTurn(c, [t] + front, last);
      FirstOfMany(t, front, last);
    }
  }

  lemma SubsetIsIndependent(turns: seq<Turn>, part: seq<Turn>, hidden: set<Key>)
    requires AllIndependent(turns, hidden) && forall j :: 0 <= j < |part| ==> part[j] in turns
    ensures AllIndependent(part, hidden)
  {
    forall j | 0 <= j < |part| ensures Discreet(part[j].event.req, hidden) {
      var jj :| 0 <= jj < |turns| && turns[jj] == part[j];
      assert Discreet(turns[jj].event.req, hidden);
    }
    forall j, k | 0 <= j < |part| && 0 <= k < |part| && part[j].i != part[k].i
      ensures Independent(part[j].event.req, part[k].event.req, hidden)
    {
      var jj :| 0 <= jj < |turns| && turns[jj] == part[j];
      var kk :| 0 <= kk < |turns| && turns[kk] == part[k];
      assert Independent(turns[jj].event.req, turns[kk].event.req, hidden);
    }
  }

  lemma Regroup(a: seq<Turn>, t: Turn, b: seq<Turn>)
    ensures (a + [t]) + b == a + ([t] + b)
    ensures (a + b) + [t] == a + (b + [t])
  {
  }

  /** A turn of the attempt that goes first overtakes the others' turns to join its own. */
  lemma JoinsItsOwn<P>(c: Crew<P>, mine: seq<Turn>, rest: seq<Turn>, t: Turn, hidden: set<Key>)
    requires Orderly(c.store, hidden) && AllDiscreet(mine, hidden)
    requires Clear(rest, t, hidden) && Discreet(t.event.req, hidden)
    requires IsInterleaving(c, mine + rest) && MayTurn(CrewAfter(c, mine + rest), t)
    ensures IsInterleaving(c, (mine + [t]) + rest)
    ensures CrewAfter(c, (mine + [t]) + rest) == Turned(CrewAfter(c, mine + rest), t)
  {
    TurnsCompose(c, mine, rest);
    TurnsStayOrderly(c, mine, hidden);
    Overtake(CrewAfter(c, mine), rest, t, hidden);
    TurnsCompose(c, mine, [t] + rest);
    Regroup(mine, t, rest);
  }

  /** A turn of another attempt comes last. */
  lemma StaysBehind<P>(c: Crew<P>, mine: seq<Turn>, rest: seq<Turn>, t: Turn)
    requires IsInterleaving(c, mine + rest) && MayTurn(CrewAfter(c, mine + rest), t)
    ensures IsInterleaving(c, mine + (rest + [t]))
    ensures CrewAfter(c, mine + (rest + [t])) == Turned(CrewAfter(c, mine + rest), t)
  {
    OneMoreTurn(c, mine + rest, t);
    Regroup(mine, t, rest);
  }

  lemma OneMoreOnly(turns: seq<Turn>, i: nat)
    requires turns != []
    ensures var front, t := turns[..|turns| - 1], turns[|turns| - 1];
            && Only(i, turns) == (if t.i == i then Only(i, front) + [t] else Only(i, front))
            && Others(i, turns) == (if t.i == i then Others(i, front) else Others(i, front) + [t])
  {
  }

  lemma LastTurn<P>(c: Crew<P>, turns: seq<Turn>)
    requires turns != [] && IsInterleaving(c, turns)
    ensures var front, t := turns[..|turns| - 1], turns[|turns| - 1];
            && IsInterleaving(c, front) && MayTurn(CrewAfter(c, front), t)
            && CrewAfter(c, turns) == Turned(CrewAfter(c, front), t)
  {
  }

  /** One attempt may go first: the same calls with the same answers, and the same end. */
  lemma {:induction false} GoesFirst<P>(c: Crew<P>, turns: seq<Turn>, i: nat, hidden: set<Key>)
    requires Orderly(c.store, hidden) && IsInterleaving(c, turns) && AllIndependent(turns, hidden)
    ensures IsInterleaving(c, Only(i, turns) + Others(i, turns))
    ensures CrewAfter(c, Only(i, turns) + Others(i, turns)) == CrewAfter(c, turns)
  {
    if turns == [] {
      assert Only(i, turns) + Others(i, turns) == turns;
    } else {
      var front, last := turns[..|turns| - 1], turns[|turns| - 1];
      LastTurn(c, turns);
      SubsetIsIndependent(turns, front, hidden);
      GoesFirst(c, front, i, hidden);
      OneMoreOnly(turns, i);
      if last.i == i {
        RestIsClear(turns, front, last, hidden);
        SubsetIsIndependent(front, Only(i, front), hidden);
        JoinsItsOwn(c, Only(i, front), Others(i, front), last, hidden);
      } else {
        StaysBehind(c, Only(i, front), Others(i, front), last);
      }
    }
  }

  lemma {:induction false} RestIsClear(turns: seq<Turn>, front: seq<Turn>, t: Turn, hidden: set<Key>)
    requires AllIndependent(turns, hidden) && t in turns && forall j :: 0 <= j < |front| ==> front[j] in turns
    ensures Clear(Others(t.i, front), t, hidden)
  {
    if front != [] {
      var last := front[|front| - 1];
      RestIsClear(turns, front[..|front| - 1], t, hidden);
      if last.i != t.i {
        TwoAreIndependent(turns, last, t, hidden);
        OneMoreClear(Others(t.i, front[..|front| - 1]), last, t, hidden);
      }
      OneMoreOnly(front, t.i);
    }
  }

  lemma OneMoreClear(rest: seq<Turn>, last: Turn, t: Turn, hidden: set<Key>)
    requires Clear(rest, t, hidden) && last.i != t.i
    requires Discreet(last.event.req, hidden) && Independent(last.event.req, t.event.req, hidden)
    ensures Clear(rest + [last], t, hidden)
  {
    assert (rest + [last])[..|rest|] == rest;
  }

  lemma TwoAreIndependent(turns: seq<Turn>, t: Turn, u: Turn, hidden: set<Key>)
    requires AllIndependent(turns, hidden) && t in turns && u in turns && t.i != u.i
    ensures Independent(t.event.req, u.event.req, hidden) && Discreet(t.event.req, hidden)
  {
    var j :| 0 <= j < |turns| && turns[j] == t;
    var k :| 0 <= k < |turns| && turns[k] == u;
    assert Independent(turns[j].event.req, turns[k].event.req, hidden);
  }

  /** The turns of the attempts in this order, one attempt after the other; then the rest. */
  function Sorted(turns: seq<Turn>, order: seq<nat>): seq<Turn>
    decreases |order|
  {
    if order == [] then turns
    else Only(order[0], turns) + Sorted(Others(order[0], turns), order[1..])
  }

  /** Any interleaving of independent attempts ends where running them one after the other, in
      any order one likes, ends: every attempt makes the same calls and gets the same answers. */
  lemma {:induction false} InterleavingsSort<P>(c: Crew<P>, turns: seq<Turn>, order: seq<nat>, hidden: set<Key>)
    requires Orderly(c.store, hidden) && IsInterleaving(c, turns) && AllIndependent(turns, hidden)
    ensures IsInterleaving(c, Sorted(turns, order))
    ensures CrewAfter(c, Sorted(turns, order)) == CrewAfter(c, turns)
    decreases |order|
  {
    if order != [] {
      var first, rest := Only(order[0], turns), Others(order[0], turns);
      GoesFirst(c, turns, order[0], hidden);
      TurnsCompose(c, first, rest);
      SubsetIsIndependent(turns, rest, hidden);
      SubsetIsIndependent(turns, first, hidden);
      TurnsStayOrderly(c, first, hidden);
      InterleavingsSort(CrewAfter(c, first), rest, order[1..], hidden);
      TurnsCompose(c, first, Sorted(rest, order[1..]));
    }
  }

  // ---------- sorted means one after the other ----------

  lemma {:induction false} OthersHaveTheRest(turns: seq<Turn>, i: nat, j: nat)
    requires i != j
    ensures Only(j, Others(i, turns)) == Only(j, turns)
  {
    if turns != [] {
      var front, last := turns[..|turns| - 1], turns[|turns| - 1];
      OthersHaveTheRest(front, i, j);
      var others := Others(i, front);
      if last.i != i {
        assert (others + [last])[..|others|] == others;
      } else {
        assert Others(i, turns) == others;
      }
    }
  }

  function Blocks(turns: seq<Turn>, order: seq<nat>): seq<Turn> {
    if order == [] then [] else Only(order[0], turns) + Blocks(turns, order[1..])
  }

  lemma {:induction false} BlocksWithout(turns: seq<Turn>, i: nat, order: seq<nat>)
    requires forall k :: 0 <= k < |order| ==> order[k] != i
    ensures Blocks(Others(i, turns), order) == Blocks(turns, order)
  {
    if order != [] {
      OthersHaveTheRest(turns, i, order[0]);
      BlocksWithout(turns, i, order[1..]);
    }
  }

  function Attempts(turns: seq<Turn>): set<nat> {
    set t | t in turns :: t.i
  }

  lemma NoAttemptNoTurn(turns: seq<Turn>)
    ensures Attempts(turns) == {} <==> turns == []
  {
    if turns != [] {
      assert turns[0] in turns;
      assert turns[0].i in Attempts(turns);
    }
  }

  /** With every attempt named once in the order nothing is left over: the sorted turns are one
      block per attempt. */
  lemma {:induction false} SortedIsBlocks(turns: seq<Turn>, order: seq<nat>)
    requires forall i :: i in Attempts(turns) ==> i in order
    requires forall j, k :: 0 <= j < k < |order| ==> order[j] != order[k]
    ensures Sorted(turns, order) == Blocks(turns, order)
    decreases |order|
  {
    if order == [] {
      NoAttemptNoTurn(turns);
      assert Attempts(turns) == {};
    } else {
      var rest := Others(order[0], turns);
      assert order == [order[0]] + order[1..];
      forall i | i in Attempts(rest) ensures i in order[1..] {
        assert i in Attempts(turns);
        assert i != order[0];
      }
      SortedIsBlocks(rest, order[1..]);
      BlocksWithout(turns, order[0], order[1..]);
    }
  }

  // ---------- one attempt alone ----------

  datatype Solo<!P> = Solo(proc: P, store: Store)

  function SoloAfter<P>(machine: Machine<P>, w: Solo<P>, turns: seq<Turn>): Solo<P> {
    if turns == [] then w
    else
      var v, e := SoloAfter(machine, w, turns[..|turns| - 1]), turns[|turns| - 1].event;
      Solo(machine.tell(v.proc, e.resp), After(v.store, e))
  }

  ghost predicate IsSolo<P>(machine: Machine<P>, w: Solo<P>, turns: seq<Turn>) {
    turns == []
    || (var front, e := turns[..|turns| - 1], turns[|turns| - 1].event;
        var v := SoloAfter(machine, w, front);
        IsSolo(machine, w, front) && machine.ask(v.proc) == Some(e.req) && Admits(v.store, e))
  }

  /** A block of turns of one attempt is the attempt alone. */
  lemma {:induction false} BlockIsSolo<P>(c: Crew<P>, turns: seq<Turn>, i: nat)
    requires IsInterleaving(c, turns) && i < |c.procs|
    requires forall j :: 0 <= j < |turns| ==> turns[j].i == i
    ensures IsSolo(c.machine, Solo(c.procs[i], c.store), turns)
    ensures var w := SoloAfter(c.machine, Solo(c.procs[i], c.store), turns);
            CrewAfter(c, turns) == Crew(c.machine, c.procs[i := w.proc], w.store)
  {
    if turns == [] {
      assert c.procs[i := c.procs[i]] == c.procs;
    } else {
      BlockIsSolo(c, turns[..|turns| - 1], i);
      var d := CrewAfter(c, turns[..|turns| - 1]);
      var w := SoloAfter(c.machine, Solo(c.procs[i], c.store), turns);
      assert d.procs[i := w.proc] == c.procs[i := w.proc];
    }
  }
}
