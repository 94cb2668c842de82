/** Several MQTTTriggers of one namespace write the same six objects: which specs those end up
    with, and whose they stay. */
module MqttTriggerSharing {
  import opened Resources
  import opened ClusterApi
  import opened Runs
  import opened MqttTriggerMachine
  import opened MqttTriggerRuns

  // ---------- one secret, one exchange ----------

  /** If the move reads the secret or the exchanges, it finds these. */
  predicate Sees(m: Move, secret: map<string, string>, exchange: string) {
    m.Act? ==>
      && (m.event.req == Get(SECRET_KEY) && m.event.resp.Fetched? && m.event.resp.obj.body.SecretBody?
          ==> m.event.resp.obj.body.data == secret)
      && (m.event.req.List? && m.event.resp.Listed? && m.event.resp.items != []
          ==> m.event.resp.items[0].meta.name == exchange)
  }

  ghost predicate AllSee(moves: seq<Move>, secret: map<string, string>, exchange: string) {
    forall i :: 0 <= i < |moves| ==> Sees(moves[i], secret, exchange)
  }

  /** With this secret and this one exchange in the store nothing else can be seen. */
  lemma OneSecretOneExchange(s: Store, e: Event, secret: map<string, string>, exchange: Key)
    requires s.Valid() && Admits(s, e)
    requires s.Has(SECRET_KEY) && s.objects[SECRET_KEY].body == SecretBody(secret)
    requires e.req.List? ==> Matching(s, e.req.kind, e.req.ns, e.req.selector) == {exchange}
    ensures Sees(Act(e), secret, exchange.name)
  {
    if e.req.List? && e.resp.Listed? && e.resp.items != [] {
      assert e.resp.items[0] in e.resp.items;
    }
  }

  /** The store holds this secret and, of the exchanges the attempt lists, this one. */
  ghost predicate Fixed(s: Store, secret: map<string, string>, exchange: Key) {
    && s.Has(SECRET_KEY) && s.objects[SECRET_KEY].body == SecretBody(secret)
    && Matching(s, ExchangeKind, "twinscale", EXCHANGE_SELECTOR) == {exchange}
  }

  lemma ListsOnlyExchanges(st: State)
    requires Asking(st)
    ensures Ask(st).List? ==> Ask(st) == List(ExchangeKind, "twinscale", EXCHANGE_SELECTOR)
  {
  }

  lemma WritesNothingItReads(st: State, n: nat)
    requires Asking(st) && Reached(st, n) && Homed(st, n)
    ensures Ask(st).Create? || Ask(st).Update? || Ask(st).UpdateStatus?
            ==> !Ask(st).obj.KeyOf().kind.SecretKind? && !Ask(st).obj.KeyOf().kind.ExchangeKind?
  {
    if st.step.CreateChild? || st.step.UpdateChild? {
      KeysOfChildren(st.id, st.secret, st.exchange);
      assert Plan(st)[n..][0] == Plan(st)[n];
    }
  }

  lemma FixedStays(s: Store, e: Event, secret: map<string, string>, exchange: Key)
    requires s.Valid() && Fixed(s, secret, exchange)
    requires e.req.Create? || e.req.Update? || e.req.UpdateStatus?
             ==> !e.req.obj.KeyOf().kind.SecretKind? && !e.req.obj.KeyOf().kind.ExchangeKind?
    ensures Fixed(After(s, e), secret, exchange)
  {
    var t := After(s, e);
    if e.req.UpdateStatus? && s.Has(e.req.obj.KeyOf()) {
      assert WithStatus(s.objects[e.req.obj.KeyOf()], e.req.obj).KeyOf() == e.req.obj.KeyOf();
    }
    assert forall k: Key :: k.kind.SecretKind? || k.kind.ExchangeKind? ==> SameAt(s, t, k);
    assert SameAt(s, t, SECRET_KEY);
    var here, there := Matching(s, ExchangeKind, "twinscale", EXCHANGE_SELECTOR),
                       Matching(t, ExchangeKind, "twinscale", EXCHANGE_SELECTOR);
    assert forall k :: k in here <==> k in there;
  }

  lemma FixedMove(w: World, n: nat, m: Move, secret: map<string, string>, exchange: Key)
    requires w.proc.Mqtt? && w.store.Valid() && Reached(w.proc.mq, n) && Homed(w.proc.mq, n)
    requires MayMove(w, m) && Fixed(w.store, secret, exchange) && (m.Outside? ==> Fixed(m.store, secret, exchange))
    ensures Fixed(Moved(w, m).store, secret, exchange) && Sees(m, secret, exchange.name)
  {
    if m.Act? {
      CallOfState(w.proc.mq, w, m);
      WritesNothingItReads(w.proc.mq, n);
      ListsOnlyExchanges(w.proc.mq);
      FixedStays(w.store, m.event, secret, exchange);
      OneSecretOneExchange(w.store, m.event, secret, exchange);
    }
  }

  /** Whatever others do, they keep the secret and the one exchange. */
  ghost predicate OthersKeepFixed(moves: seq<Move>, secret: map<string, string>, exchange: Key) {
    moves == []
    || (var front, last := moves[..|moves| - 1], moves[|moves| - 1];
        OthersKeepFixed(front, secret, exchange) && (last.Outside? ==> Fixed(last.store, secret, exchange)))
  }

  lemma OneMoreSees(moves: seq<Move>, m: Move, secret: map<string, string>, exchange: string)
    requires AllSee(moves, secret, exchange) && Sees(m, secret, exchange)
    ensures AllSee(moves + [m], secret, exchange)
  {
  }

  /** For a whole attempt: as long as others keep the secret and the one exchange, nothing else is
      ever seen. */
  lemma {:induction false} FixedMeansAllSee(ns: string, name: string, s0: Store, moves: seq<Move>,
                                            secret: map<string, string>, exchange: Key)
    requires s0.Valid() && IsRun(Begin(ns, name, s0), moves) && Fixed(s0, secret, exchange)
    requires OthersKeepFixed(moves, secret, exchange)
    ensures AllSee(moves, secret, exchange.name)
    ensures Fixed(WorldAfter(Begin(ns, name, s0), moves).store, secret, exchange)
  {
    if moves != [] {
      var front, last := moves[..|moves| - 1], moves[|moves| - 1];
      FixedMeansAllSee(ns, name, s0, front, secret, exchange);
      WritesArePrefix(ns, name, s0, front);
      FixedMove(WorldAfter(Begin(ns, name, s0), front), |Written(front)|, last, secret, exchange);
      OneMoreSees(front, last, secret, exchange.name);
      assert moves == front + [last];
    }
  }

  /** What the attempt has read by now is the one secret and the one exchange. */
  predicate Known(st: State, n: nat, secret: map<string, string>, exchange: string) {
    && (st.step.ListExchange? ==> st.secret == secret)
    && (n > 0 || st.step.FetchChild? || st.step.CreateChild? || st.step.UpdateChild?
        ==> st.secret == secret && st.exchange == exchange)
  }

  lemma KnownStep(st: State, n: nat, e: Event, secret: map<string, string>, exchange: string)
    requires Asking(st) && Reached(st, n) && Known(st, n, secret, exchange) && e.req == Ask(st)
    requires Sees(Act(e), secret, exchange)
    requires WritesChild(Act(e)) ==> st.step.CreateChild? || st.step.UpdateChild?
    ensures Known(Tell(st, e.resp), n + Wrote(Act(e)), secret, exchange)
  {
  }

  lemma KnownMove(w: World, n: nat, m: Move, secret: map<string, string>, exchange: string)
    requires w.proc.Mqtt? && Reached(w.proc.mq, n) && Known(w.proc.mq, n, secret, exchange)
    requires MayMove(w, m) && Sees(m, secret, exchange)
    ensures Moved(w, m).proc.Mqtt? && Known(Moved(w, m).proc.mq, n + Wrote(m), secret, exchange)
  {
    if m.Act? {
      CallOfState(w.proc.mq, w, m);
      WritesOnlyChildren(w.proc.mq);
      KnownStep(w.proc.mq, n, m.event, secret, exchange);
    }
  }

  lemma {:induction false} AttemptKnows(ns: string, name: string, s0: Store, moves: seq<Move>,
                                        secret: map<string, string>, exchange: string)
    requires s0.Valid() && IsRun(Begin(ns, name, s0), moves) && AllSee(moves, secret, exchange)
    ensures WorldAfter(Begin(ns, name, s0), moves).proc.Mqtt?
    ensures Known(WorldAfter(Begin(ns, name, s0), moves).proc.mq, |Written(moves)|, secret, exchange)
  {
    if moves != [] {
      var front, last := moves[..|moves| - 1], moves[|moves| - 1];
      AttemptKnows(ns, name, s0, front, secret, exchange);
      WritesArePrefix(ns, name, s0, front);
      KnownMove(WorldAfter(Begin(ns, name, s0), front), |Written(front)|, last, secret, exchange);
    }
  }

  // ---------- the shared specs ----------

  function Anyone(ns: string): Identity {
    Identity("", "", ns, "", "")
  }

  lemma BodiesIgnoreTheOwner(id: Identity, secret: map<string, string>, exchange: string)
    ensures forall i :: 0 <= i < 6 ==>
              Children(id, secret, exchange)[i].body == Children(Anyone(id.ns), secret, exchange)[i].body
  {
  }

  /** All six objects are there with these specs. */
  predicate InShape(keys: seq<Key>, plan: seq<Object>, s: Store)
    requires |keys| == |plan|
  {
    forall i :: 0 <= i < |keys| ==> s.Has(keys[i]) && s.objects[keys[i]].body == plan[i].body
  }

  ghost predicate Shared(ns: string, secret: map<string, string>, exchange: string, s: Store) {
    InShape(ChildKeys(ns), Children(Anyone(ns), secret, exchange), s)
  }

  lemma AppliedKeepsShape(keys: seq<Key>, plan: seq<Object>, s0: Store, s: Store, n: nat)
    requires |keys| == |plan| && n <= |plan| && AppliedUpTo(keys, plan, s0, s, n)
    requires forall i :: 0 <= i < |plan| ==> !plan[i].body.KServiceBody?
    requires InShape(keys, plan, s0) || n == |plan|
    ensures InShape(keys, plan, s)
  {
    forall i | 0 <= i < |keys| ensures s.Has(keys[i]) && s.objects[keys[i]].body == plan[i].body {
      if i < n {
        assert s.objects[keys[i]] == Applied(s0, keys[i], plan[i]);
      } else {
        assert SameAt(s0, s, keys[i]);
      }
    }
  }

  lemma SameShape(keys: seq<Key>, a: seq<Object>, b: seq<Object>, s: Store)
    requires |keys| == |a| == |b| && forall i :: 0 <= i < |a| ==> a[i].body == b[i].body
    ensures InShape(keys, a, s) <==> InShape(keys, b, s)
  {
  }

  lemma UntouchedKeepsShape(keys: seq<Key>, plan: seq<Object>, shape: seq<Object>, s0: Store, s: Store)
    requires |keys| == |plan| == |shape| && AppliedUpTo(keys, plan, s0, s, 0) && InShape(keys, shape, s0)
    ensures InShape(keys, shape, s)
  {
    forall i | 0 <= i < |keys| ensures s.Has(keys[i]) && s.objects[keys[i]].body == shape[i].body {
      assert SameAt(s0, s, keys[i]);
    }
  }

  // ---------- attempts one after the other ----------

  /** One attempt on the trigger of this name, run to its end or crashed. */
  datatype MqttTry = MqttTry(name: string, start: Store, moves: seq<Move>)

  ghost predicate Legal(ns: string, t: MqttTry) {
    && t.start.Valid() && IsRun(Begin(ns, t.name, t.start), t.moves)
    && Spares(Begin(ns, t.name, t.start), t.moves, KeySet(ns))
  }

  function EndOf(ns: string, t: MqttTry): Store {
    WorldAfter(Begin(ns, t.name, t.start), t.moves).store
  }

  /** Attempts of any triggers of the namespace; in between others spare the six keys. */
  ghost predicate Tries(ns: string, tries: seq<MqttTry>) {
    && (forall i :: 0 <= i < |tries| ==> Legal(ns, tries[i]))
    && (forall i :: 0 <= i < |tries| - 1 ==> SameChildren(ns, EndOf(ns, tries[i]), tries[i + 1].start))
  }

  predicate SameChildren(ns: string, s: Store, t: Store) {
    s.codec == t.codec && forall c :: 0 <= c < 6 ==> SameAt(s, t, ChildKeys(ns)[c])
  }

  /** An attempt that wrote all six leaves the shared specs; one that finds them keeps them,
      wherever it stops. */
  lemma TryShares(ns: string, t: MqttTry, secret: map<string, string>, exchange: string)
    requires Legal(ns, t) && AllSee(t.moves, secret, exchange)
    requires |Written(t.moves)| == 6 || Shared(ns, secret, exchange, t.start)
    ensures Shared(ns, secret, exchange, EndOf(ns, t))
  {
    AttemptOnTrack(ns, t.name, t.start, t.moves);
    AttemptKnows(ns, t.name, t.start, t.moves, secret, exchange);
    WritesArePrefix(ns, t.name, t.start, t.moves);
    var w, n := WorldAfter(Begin(ns, t.name, t.start), t.moves), |Written(t.moves)|;
    StateShares(w.proc.mq, n, t.start, w.store, secret, exchange);
  }

  lemma StateShares(st: State, n: nat, s0: Store, s: Store, secret: map<string, string>, exchange: string)
    requires n <= 6 && OnTrack(st, n, s0, s) && Known(st, n, secret, exchange)
    requires n > 0 ==> st.id.ns == st.self.ns
    requires n == 6 || Shared(st.self.ns, secret, exchange, s0)
    ensures Shared(st.self.ns, secret, exchange, s)
  {
    var ns := st.self.ns;
    var keys, shared := ChildKeys(ns), Children(Anyone(ns), secret, exchange);
    if n == 0 {
      UntouchedKeepsShape(keys, Plan(st), shared, s0, s);
    } else {
      BodiesIgnoreTheOwner(st.id, secret, exchange);
      ChildrenAreNoServices(st.id, secret, exchange);
      SameShape(keys, Plan(st), shared, s0);
      AppliedKeepsShape(keys, Plan(st), s0, s, n);
      SameShape(keys, Plan(st), shared, s);
    }
  }

  /** Once some attempt wrote all six, the six objects have the specs built from the secret and
      the exchange for good, whichever triggers come later and however they fare. */
  lemma {:induction false} SharingConverges(ns: string, tries: seq<MqttTry>, secret: map<string, string>,
                                            exchange: string, i: nat, j: nat)
    requires Tries(ns, tries) && i <= j < |tries| && |Written(tries[i].moves)| == 6
    requires forall k :: 0 <= k < |tries| ==> AllSee(tries[k].moves, secret, exchange)
    ensures Shared(ns, secret, exchange, EndOf(ns, tries[j]))
    ensures i < j ==> Shared(ns, secret, exchange, tries[j].start)
  {
    if i < j {
      SharingConverges(ns, tries, secret, exchange, i, j - 1);
      assert SameChildren(ns, EndOf(ns, tries[j - 1]), tries[j - 1 + 1].start);
      BetweenKeepsShape(ns, Children(Anyone(ns), secret, exchange), EndOf(ns, tries[j - 1]), tries[j].start);
    }
    TryShares(ns, tries[j], secret, exchange);
  }

  lemma BetweenKeepsShape(ns: string, plan: seq<Object>, s: Store, t: Store)
    requires |plan| == 6 && SameChildren(ns, s, t) && InShape(ChildKeys(ns), plan, s)
    ensures InShape(ChildKeys(ns), plan, t)
  {
    forall i | 0 <= i < 6 ensures t.Has(ChildKeys(ns)[i]) && t.objects[ChildKeys(ns)[i]].body == plan[i].body {
      assert SameAt(s, t, ChildKeys(ns)[i]);
    }
  }

  // ---------- whose the objects stay ----------

  lemma AppliedKeepsMeta(keys: seq<Key>, plan: seq<Object>, s0: Store, s: Store, n: nat, c: nat)
    requires s0.Valid() && |keys| == |plan| && n <= |plan| && AppliedUpTo(keys, plan, s0, s, n) && c < |keys|
    ensures s0.Has(keys[c]) ==> s.Has(keys[c]) && s.objects[keys[c]].meta == s0.objects[keys[c]].meta
    ensures !s0.Has(keys[c]) && s.Has(keys[c])
            ==> c < n && s.objects[keys[c]].meta.owners == plan[c].meta.owners
  {
    if c < n {
      assert s.objects[keys[c]] == Applied(s0, keys[c], plan[c]);
      if s0.Has(keys[c]) {
        assert Stored(s0.codec, s0.objects[keys[c]]) == s0.objects[keys[c]];
      }
    } else {
      assert SameAt(s0, s, keys[c]);
    }
  }

  lemma OwnedByTheTrigger(id: Identity, secret: map<string, string>, exchange: string)
    ensures forall c :: 0 <= c < 6 ==> Children(id, secret, exchange)[c].meta.owners == [id.AsOwner()]
  {
  }

  /** The owner is the trigger the attempt read, by kind, name and uid. */
  ghost predicate IsOwner(ns: string, t: MqttTry, owners: seq<Owner>) {
    exists id: Identity ::
      owners == [id.AsOwner()] && id.ns == ns && id.name == t.name
      && HasFoundSelf(t.moves, Key(MqttTriggerKind, ns, t.name), id)
  }

  /** An attempt keeps the metadata of the objects it finds, and makes the trigger it has read the
      one owner of those it creates. */
  lemma TryKeepsOwners(ns: string, t: MqttTry, c: nat)
    requires Legal(ns, t) && c < 6
    ensures var k, s := ChildKeys(ns)[c], EndOf(ns, t);
            && (t.start.Has(k) ==> s.Has(k) && s.objects[k].meta == t.start.objects[k].meta)
            && (!t.start.Has(k) && s.Has(k) ==> IsOwner(ns, t, s.objects[k].meta.owners))
  {
    AttemptOnTrack(ns, t.name, t.start, t.moves);
    WritesArePrefix(ns, t.name, t.start, t.moves);
    var w, n := WorldAfter(Begin(ns, t.name, t.start), t.moves), |Written(t.moves)|;
    AppliedKeepsMeta(ChildKeys(ns), Plan(w.proc.mq), t.start, w.store, n, c);
    OwnedByTheTrigger(w.proc.mq.id, w.proc.mq.secret, w.proc.mq.exchange);
    AttemptIsTold(ns, t.name, t.start, t.moves);
  }

  /** An object once there keeps its metadata, its owner included, through all later attempts of
      all triggers. */
  lemma {:induction false} FirstCreatorStaysOwner(ns: string, tries: seq<MqttTry>, c: nat, i: nat, j: nat)
    requires Tries(ns, tries) && c < 6 && i <= j < |tries| && EndOf(ns, tries[i]).Has(ChildKeys(ns)[c])
    ensures var k := ChildKeys(ns)[c];
            && EndOf(ns, tries[j]).Has(k)
            && EndOf(ns, tries[j]).objects[k].meta == EndOf(ns, tries[i]).objects[k].meta
    ensures var k := ChildKeys(ns)[c];
            !tries[i].start.Has(k) ==> IsOwner(ns, tries[i], EndOf(ns, tries[j]).objects[k].meta.owners)
  {
    TryKeepsOwners(ns, tries[i], c);
    if i < j {
      FirstCreatorStaysOwner(ns, tries, c, i, j - 1);
      assert SameChildren(ns, EndOf(ns, tries[j - 1]), tries[j - 1 + 1].start);
      assert SameAt(EndOf(ns, tries[j - 1]), tries[j].start, ChildKeys(ns)[c]);
      TryKeepsOwners(ns, tries[j], c);
    }
  }
}
