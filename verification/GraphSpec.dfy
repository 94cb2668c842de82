/** What the twin graph computes, on values. A resource of type T is stored under its key: the
    name of a TwinInstance, the Spec.Id of a TwinInterface.

    A vertex is created once and keeps its identity, a value of type V; an edge is a pointer,
    so it is remembered with the identity of the vertex it points at as well as with its name.
    Looking up an edge compares names only (`findEdgeIndex`), which is why a dangling pointer
    can hide behind the name of a vertex that was added again later. */
module GraphSpec {
  import opened GoSlices

  /** Where `findEdgeIndex` reports that there is no such edge. */
  const NO_INDEX := -1

  datatype Ref<V> = Ref(name: string, id: V)

  datatype Node<T, V> = Node(id: V, value: T, temporary: bool, edges: seq<Ref<V>>)

  /** `count` is the field NumberOfVertex. */
  datatype Graph<T, V> = Graph(nodes: map<string, Node<T, V>>, count: int)

  function Empty<T, V>(): Graph<T, V> {
    Graph(map[], 0)
  }

  // ---------- edge lists ----------

  function FirstIndex<V>(edges: seq<Ref<V>>, name: string): (i: int)
    ensures i == NO_INDEX <==> forall r :: r in edges ==> r.name != name
    ensures i != NO_INDEX ==> 0 <= i < |edges| && edges[i].name == name
                              && forall j :: 0 <= j < i ==> edges[j].name != name
  {
    if edges == [] then NO_INDEX
    else if edges[0].name == name then 0
    else
      var i := FirstIndex(edges[1..], name);
      if i == NO_INDEX then NO_INDEX else i + 1
  }

  /** What `RemoveVertex` keeps of a list: all but the first edge of that name. */
  function DropFirst<V>(edges: seq<Ref<V>>, name: string): seq<Ref<V>> {
    var i := FirstIndex(edges, name);
    if i == NO_INDEX then edges else Without(edges, i)
  }

  /** What `RemoveEdge` leaves in a list: the tail moves down over the first edge of that
      name, but the length stays, so the last edge is there twice. */
  function ShiftFirst<V>(edges: seq<Ref<V>>, name: string): seq<Ref<V>> {
    var i := FirstIndex(edges, name);
    if i == NO_INDEX then edges else ShiftedDown(edges, i)
  }

  function Names<V>(edges: seq<Ref<V>>): (ns: seq<string>)
    ensures |ns| == |edges|
    ensures forall i :: 0 <= i < |ns| ==> ns[i] == edges[i].name
  {
    seq(|edges|, i requires 0 <= i < |edges| => edges[i].name)
  }

  function Multiplicity<V>(edges: seq<Ref<V>>, name: string): nat {
    multiset(Names(edges))[name]
  }

  // ---------- operations; each `id` is the identity a new vertex would get ----------

  function AddVertex<T, V>(g: Graph<T, V>, name: string, value: T, id: V): Graph<T, V> {
    if name in g.nodes then
      var node := g.nodes[name];
      if node.temporary then g.(nodes := g.nodes[name := node.(value := value, temporary := false)]) else g
    else
      Graph(g.nodes[name := Node(id, value, false, [])], g.count + 1)
  }

  function AddTemporaryVertex<T, V>(g: Graph<T, V>, name: string, value: T, id: V): Graph<T, V> {
    if name in g.nodes then g
    else Graph(g.nodes[name := Node(id, value, true, [])], g.count + 1)
  }

  /** The vertex stored under `source` gets one more pointer; the counter goes up as well. */
  function Point<T, V>(g: Graph<T, V>, source: string, r: Ref<V>): Graph<T, V>
    requires source in g.nodes
  {
    Graph(g.nodes[source := g.nodes[source].(edges := g.nodes[source].edges + [r])], g.count + 1)
  }

  function WithEndpoints<T, V>(g: Graph<T, V>, source: string, sourceValue: T, sourceId: V,
                               target: string, targetValue: T, targetId: V): (h: Graph<T, V>)
    ensures source in h.nodes && target in h.nodes
  {
    AddTemporaryVertex(AddTemporaryVertex(g, source, sourceValue, sourceId), target, targetValue, targetId)
  }

  function AddEdge<T, V>(g: Graph<T, V>, source: string, sourceValue: T, sourceId: V,
                         target: string, targetValue: T, targetId: V): Graph<T, V> {
    var h := WithEndpoints(g, source, sourceValue, sourceId, target, targetValue, targetId);
    Point(h, source, Ref(target, h.nodes[target].id))
  }

  function DropEverywhere<T, V>(nodes: map<string, Node<T, V>>, name: string): map<string, Node<T, V>> {
    map n | n in nodes :: nodes[n].(edges := DropFirst(nodes[n].edges, name))
  }

  /** Part of the way to `DropEverywhere`: the lists of the names in `todo` are as they were. */
  ghost predicate DroppedBut<T, V>(before: map<string, Node<T, V>>, now: map<string, Node<T, V>>,
                                   name: string, todo: set<string>)
  {
    && now.Keys == before.Keys
    && forall n :: n in before ==>
         now[n] == if n in todo then before[n] else before[n].(edges := DropFirst(before[n].edges, name))
  }

  lemma DroppedNone<T, V>(before: map<string, Node<T, V>>, name: string)
    ensures DroppedBut(before, before, name, before.Keys)
  {
  }

  lemma DroppedOneMore<T, V>(before: map<string, Node<T, V>>, now: map<string, Node<T, V>>,
                             next: map<string, Node<T, V>>, name: string, todo: set<string>, n: string)
    requires DroppedBut(before, now, name, todo) && n in todo && n in now
    requires next == now[n := now[n].(edges := DropFirst(now[n].edges, name))]
    ensures DroppedBut(before, next, name, todo - {n})
  {
  }

  lemma DroppedAll<T, V>(before: map<string, Node<T, V>>, now: map<string, Node<T, V>>, name: string)
    requires DroppedBut(before, now, name, {})
    ensures now == DropEverywhere(before, name)
  {
  }

  function RemoveVertex<T, V>(g: Graph<T, V>, name: string): Graph<T, V> {
    if name !in g.nodes then g
    else Graph(DropEverywhere(g.nodes - {name}, name), g.count - 1)
  }

  function ShiftOut<T, V>(g: Graph<T, V>, at: string, name: string): Graph<T, V> {
    if at !in g.nodes then g
    else g.(nodes := g.nodes[at := g.nodes[at].(edges := ShiftFirst(g.nodes[at].edges, name))])
  }

  /** First the edge source -> target, then the reverse edge target -> source. */
  function RemoveEdge<T, V>(g: Graph<T, V>, source: string, target: string): Graph<T, V> {
    ShiftOut(ShiftOut(g, source, target), target, source)
  }

  // ---------- runs ----------

  datatype Op<T, V> =
    | AddVertexOp(name: string, value: T, id: V)
    | AddEdgeOp(name: string, value: T, id: V, target: string, targetValue: T, targetId: V)
    | RemoveVertexOp(name: string)
    | RemoveEdgeOp(name: string, target: string)

  function Apply<T, V>(g: Graph<T, V>, op: Op<T, V>): Graph<T, V> {
    match op
    case AddVertexOp(n, v, id) => AddVertex(g, n, v, id)
    case AddEdgeOp(s, sv, sid, t, tv, tid) => AddEdge(g, s, sv, sid, t, tv, tid)
    case RemoveVertexOp(n) => RemoveVertex(g, n)
    case RemoveEdgeOp(s, t) => RemoveEdge(g, s, t)
  }

  /** The graph after a run of operations from the empty graph. */
  function Run<T, V>(ops: seq<Op<T, V>>): Graph<T, V> {
    if ops == [] then Empty() else Apply(Run(ops[..|ops| - 1]), ops[|ops| - 1])
  }

  function EdgeCalls<T, V>(ops: seq<Op<T, V>>): nat {
    if ops == [] then 0
    else EdgeCalls(ops[..|ops| - 1]) + Owed(ops[|ops| - 1])
  }

  function Owed<T, V>(op: Op<T, V>): nat {
    if op.AddEdgeOp? then 1 else 0
  }

  lemma StepKeys<T, V>(g: Graph<T, V>, op: Op<T, V>)
    ensures Apply(g, op).nodes.Keys ==
            match op
            case AddVertexOp(n, _, _) => g.nodes.Keys + {n}
            case AddEdgeOp(s, _, _, t, _, _) => g.nodes.Keys + {s} + {t}
            case RemoveVertexOp(n) => g.nodes.Keys - {n}
            case RemoveEdgeOp(_, _) => g.nodes.Keys
  {
  }

  lemma SizeWith<X, Y>(m: map<X, Y>, x: X)
    ensures |m.Keys + {x}| == |m| + if x in m then 0 else 1
    ensures |m.Keys - {x}| == |m| - if x in m then 1 else 0
  {
    assert x in m ==> m.Keys + {x} == m.Keys;
    assert x !in m ==> m.Keys - {x} == m.Keys;
  }

  lemma TemporaryIsCounted<T, V>(g: Graph<T, V>, name: string, value: T, id: V)
    ensures var h := AddTemporaryVertex(g, name, value, id); h.count - |h.nodes| == g.count - |g.nodes|
  {
    SizeWith(g.nodes, name);
    assert name !in g.nodes ==> AddTemporaryVertex(g, name, value, id).nodes.Keys == g.nodes.Keys + {name};
  }

  lemma PointIsCounted<T, V>(g: Graph<T, V>, source: string, r: Ref<V>)
    requires source in g.nodes
    ensures var h := Point(g, source, r); h.count == g.count + 1 && |h.nodes| == |g.nodes|
  {
    assert Point(g, source, r).nodes.Keys == g.nodes.Keys;
  }

  lemma CounterStep<T, V>(g: Graph<T, V>, op: Op<T, V>)
    ensures Apply(g, op).count - |Apply(g, op).nodes| == g.count - |g.nodes| + Owed(op)
  {
    StepKeys(g, op);
    match op
    case AddVertexOp(n, v, id) =>
      SizeWith(g.nodes, n);
    case AddEdgeOp(s, sv, sid, t, tv, tid) =>
      TemporaryIsCounted(g, s, sv, sid);
      TemporaryIsCounted(AddTemporaryVertex(g, s, sv, sid), t, tv, tid);
      var h := WithEndpoints(g, s, sv, sid, t, tv, tid);
      PointIsCounted(h, s, Ref(t, h.nodes[t].id));
    case RemoveVertexOp(n) =>
    case RemoveEdgeOp(_, _) =>
  }

  /** NumberOfVertex counts vertices plus every `AddEdge` call ever made: removing a vertex
      takes its own unit back but none of its edges'. */
  lemma {:induction false} CounterLaw<T, V>(ops: seq<Op<T, V>>)
    ensures Run(ops).count == |Run(ops).nodes| + EdgeCalls(ops)
  {
    if ops != [] {
      CounterLaw(ops[..|ops| - 1]);
      CounterStep(Run(ops[..|ops| - 1]), ops[|ops| - 1]);
    }
  }

  // ---------- RemoveEdge does not remove ----------

  function One(b: bool): nat {
    if b then 1 else 0
  }

  lemma CutOut<X>(s: seq<X>, i: nat)
    requires i < |s|
    ensures multiset(s) == multiset(Without(s, i)) + multiset{s[i]}
  {
    assert s == s[..i] + ([s[i]] + s[i + 1..]);
    assert multiset([s[i]] + s[i + 1..]) == multiset{s[i]} + multiset(s[i + 1..]);
  }

  lemma CountWithout<X>(s: seq<X>, i: nat, x: X)
    requires i < |s|
    ensures multiset(Without(s, i))[x] == multiset(s)[x] - One(s[i] == x)
    ensures multiset(ShiftedDown(s, i))[x] == multiset(s)[x] - One(s[i] == x) + One(s[|s| - 1] == x)
  {
    CutOut(s, i);
    assert multiset(ShiftedDown(s, i)) == multiset(Without(s, i)) + multiset{s[|s| - 1]};
  }

  lemma NamesWithout<V>(edges: seq<Ref<V>>, i: nat)
    requires i < |edges|
    ensures Names(Without(edges, i)) == Without(Names(edges), i)
    ensures Names(ShiftedDown(edges, i)) == ShiftedDown(Names(edges), i)
  {
  }

  lemma Occurs<V>(edges: seq<Ref<V>>, name: string)
    ensures Multiplicity(edges, name) > 0 <==> FirstIndex(edges, name) != NO_INDEX
    ensures Multiplicity(edges, name) > 0 <==> exists r :: r in edges && r.name == name
  {
    var i := FirstIndex(edges, name);
    if i != NO_INDEX {
      assert edges[i] in edges && Names(edges)[i] in Names(edges);
    } else {
      forall k | 0 <= k < |edges| ensures Names(edges)[k] != name {
        assert edges[k] in edges;
      }
    }
  }

  lemma MultiplicityOfShiftFirst<V>(edges: seq<Ref<V>>, name: string, m: string)
    requires FirstIndex(edges, name) != NO_INDEX
    ensures Multiplicity(ShiftFirst(edges, name), m)
            == Multiplicity(edges, m) - One(m == name) + One(m == edges[|edges| - 1].name)
  {
    var i, ns := FirstIndex(edges, name), Names(edges);
    NamesWithout(edges, i);
    CountWithout(ns, i, m);
    var last := |edges| - 1;
    assert ns[i] == name && ns[last] == edges[last].name;
    assert Names(ShiftFirst(edges, name)) == ShiftedDown(ns, i);
  }

  /** `RemoveEdge` never changes the length of a list. When the name occurs, the list loses one
      occurrence of it, gains one of the name of its last entry and keeps all others, so the
      multiplicity of the removed name drops exactly when the last entry has another name. */
  lemma RemoveEdgeKeepsLength<V>(edges: seq<Ref<V>>, name: string)
    ensures |ShiftFirst(edges, name)| == |edges|
    ensures Multiplicity(edges, name) == 0 ==> ShiftFirst(edges, name) == edges
    ensures Multiplicity(edges, name) > 0 ==>
              && |edges| > 0
              && (Multiplicity(ShiftFirst(edges, name), name) == Multiplicity(edges, name) - 1
                  <==> edges[|edges| - 1].name != name)
              && forall m :: Multiplicity(ShiftFirst(edges, name), m)
                             == Multiplicity(edges, m) - One(m == name) + One(m == edges[|edges| - 1].name)
  {
    Occurs(edges, name);
    if Multiplicity(edges, name) > 0 {
      forall m {
        MultiplicityOfShiftFirst(edges, name, m);
      }
    }
  }

  lemma ShiftOutKeepsLengths<T, V>(g: Graph<T, V>, at: string, name: string)
    ensures ShiftOut(g, at, name).nodes.Keys == g.nodes.Keys
    ensures ShiftOut(g, at, name).count == g.count
    ensures forall n :: n in g.nodes ==> |ShiftOut(g, at, name).nodes[n].edges| == |g.nodes[n].edges|
  {
    if at in g.nodes {
      RemoveEdgeKeepsLength(g.nodes[at].edges, name);
    }
  }

  lemma RemoveEdgeKeepsEveryLength<T, V>(g: Graph<T, V>, source: string, target: string)
    ensures RemoveEdge(g, source, target).nodes.Keys == g.nodes.Keys
    ensures RemoveEdge(g, source, target).count == g.count
    ensures forall n :: n in g.nodes ==>
              |RemoveEdge(g, source, target).nodes[n].edges| == |g.nodes[n].edges|
  {
    ShiftOutKeepsLengths(g, source, target);
    ShiftOutKeepsLengths(ShiftOut(g, source, target), target, source);
  }

  // ---------- closure: every pointer is live ----------

  ghost predicate Live<T, V>(g: Graph<T, V>, r: Ref<V>) {
    r.name in g.nodes && g.nodes[r.name].id == r.id
  }

  ghost predicate Closed<T, V>(g: Graph<T, V>) {
    forall n, r :: n in g.nodes && r in g.nodes[n].edges ==> Live(g, r)
  }

  ghost predicate NoRepeats<T, V>(g: Graph<T, V>) {
    forall n, m :: n in g.nodes ==> Multiplicity(g.nodes[n].edges, m) <= 1
  }

  lemma DropFirstTakesNothingNew<V>(edges: seq<Ref<V>>, name: string)
    ensures forall r :: r in DropFirst(edges, name) ==> r in edges
  {
  }

  lemma MultiplicityOfDropFirst<V>(edges: seq<Ref<V>>, name: string, m: string)
    ensures Multiplicity(DropFirst(edges, name), m)
            == if m == name && Multiplicity(edges, m) > 0 then Multiplicity(edges, m) - 1 else Multiplicity(edges, m)
  {
    Occurs(edges, name);
    var i, ns := FirstIndex(edges, name), Names(edges);
    if i != NO_INDEX {
      NamesWithout(edges, i);
      CountWithout(ns, i, m);
    }
  }

  lemma DropFirstNames<V>(edges: seq<Ref<V>>, name: string)
    ensures forall r :: r in DropFirst(edges, name) ==> r in edges
    ensures forall m :: Multiplicity(DropFirst(edges, name), m)
                        == if m == name && Multiplicity(edges, m) > 0 then Multiplicity(edges, m) - 1
                           else Multiplicity(edges, m)
  {
    DropFirstTakesNothingNew(edges, name);
    forall m {
      MultiplicityOfDropFirst(edges, name, m);
    }
  }

  lemma NoneOfName<V>(edges: seq<Ref<V>>, name: string)
    ensures Multiplicity(edges, name) == 0 <==> forall r :: r in edges ==> r.name != name
  {
    Occurs(edges, name);
  }

  /** One list after the removal: its pointers are live exactly if it does not name the vertex,
      and it does not exactly if it named it at most once before. */
  lemma ListAfterRemoval<T, V>(g: Graph<T, V>, name: string, n: string)
    requires Closed(g) && name in g.nodes && n in RemoveVertex(g, name).nodes
    ensures var h, edges := RemoveVertex(g, name), RemoveVertex(g, name).nodes[n].edges;
            && (Multiplicity(edges, name) == 0 <==> forall r :: r in edges ==> Live(h, r))
            && (Multiplicity(edges, name) == 0 <==> Multiplicity(g.nodes[n].edges, name) <= 1)
  {
    var h := RemoveVertex(g, name);
    var edges := h.nodes[n].edges;
    DropFirstTakesNothingNew(g.nodes[n].edges, name);
    MultiplicityOfDropFirst(g.nodes[n].edges, name, name);
    NoneOfName(edges, name);
    forall r | r in edges ensures Live(h, r) <==> r.name != name {
      assert Live(g, r);
    }
  }

  /** Removing a vertex from a graph of live pointers leaves only live pointers exactly when
      no other list names the vertex twice; then none of the remaining lists names it. */
  lemma RemoveVertexClosedIff<T, V>(g: Graph<T, V>, name: string)
    requires Closed(g) && name in g.nodes
    ensures Closed(RemoveVertex(g, name))
            <==> forall n :: n in g.nodes && n != name ==> Multiplicity(g.nodes[n].edges, name) <= 1
    ensures Closed(RemoveVertex(g, name))
            <==> forall n :: n in RemoveVertex(g, name).nodes
                             ==> Multiplicity(RemoveVertex(g, name).nodes[n].edges, name) == 0
  {
    var h := RemoveVertex(g, name);
    forall n | n in h.nodes
      ensures Multiplicity(h.nodes[n].edges, name) == 0 <==> forall r :: r in h.nodes[n].edges ==> Live(h, r)
      ensures Multiplicity(h.nodes[n].edges, name) == 0 <==> Multiplicity(g.nodes[n].edges, name) <= 1
    {
      ListAfterRemoval(g, name, n);
    }
  }

  /** A run that never calls `RemoveEdge` and never adds an edge its source already lists. */
  ghost predicate Simple<T, V>(ops: seq<Op<T, V>>) {
    ops == []
    || (var g, op := Run(ops[..|ops| - 1]), ops[|ops| - 1];
        && Simple(ops[..|ops| - 1])
        && !op.RemoveEdgeOp?
        && (op.AddEdgeOp? && op.name in g.nodes ==> Multiplicity(g.nodes[op.name].edges, op.target) == 0))
  }

  lemma AddTemporaryKeepsClosed<T, V>(g: Graph<T, V>, name: string, value: T, id: V)
    requires Closed(g)
    ensures Closed(AddTemporaryVertex(g, name, value, id))
    ensures NoRepeats(g) ==> NoRepeats(AddTemporaryVertex(g, name, value, id))
  {
    var h := AddTemporaryVertex(g, name, value, id);
    forall n, r | n in h.nodes && r in h.nodes[n].edges ensures Live(h, r) {
      assert n in g.nodes && Live(g, r);
    }
    assert forall n :: n in g.nodes ==> h.nodes[n].edges == g.nodes[n].edges;
  }

  lemma PointKeepsClosed<T, V>(g: Graph<T, V>, source: string, r: Ref<V>)
    requires Closed(g) && source in g.nodes && Live(g, r)
    ensures Closed(Point(g, source, r))
    ensures NoRepeats(g) && Multiplicity(g.nodes[source].edges, r.name) == 0 ==> NoRepeats(Point(g, source, r))
  {
    var h := Point(g, source, r);
    forall n, e | n in h.nodes && e in h.nodes[n].edges ensures Live(h, e) {
      assert e == r || e in g.nodes[n].edges;
      assert Live(g, e);
    }
    assert Names(h.nodes[source].edges) == Names(g.nodes[source].edges) + [r.name];
    if NoRepeats(g) && Multiplicity(g.nodes[source].edges, r.name) == 0 {
      forall n, m | n in h.nodes ensures Multiplicity(h.nodes[n].edges, m) <= 1 {
        assert Multiplicity(g.nodes[n].edges, m) <= 1;
      }
    }
  }

  lemma AddEdgeKeepsClosed<T, V>(g: Graph<T, V>, s: string, sv: T, sid: V, t: string, tv: T, tid: V)
    requires Closed(g)
    ensures Closed(AddEdge(g, s, sv, sid, t, tv, tid))
    ensures NoRepeats(g) && (s in g.nodes ==> Multiplicity(g.nodes[s].edges, t) == 0)
            ==> NoRepeats(AddEdge(g, s, sv, sid, t, tv, tid))
  {
    AddTemporaryKeepsClosed(g, s, sv, sid);
    AddTemporaryKeepsClosed(AddTemporaryVertex(g, s, sv, sid), t, tv, tid);
    var h := WithEndpoints(g, s, sv, sid, t, tv, tid);
    assert Names<V>([]) == [];
    PointKeepsClosed(h, s, Ref(t, h.nodes[t].id));
  }

  lemma AddVertexKeepsClosed<T, V>(g: Graph<T, V>, name: string, value: T, id: V)
    requires Closed(g)
    ensures Closed(AddVertex(g, name, value, id))
    ensures NoRepeats(g) ==> NoRepeats(AddVertex(g, name, value, id))
  {
    var h := AddVertex(g, name, value, id);
    forall n, r | n in h.nodes && r in h.nodes[n].edges ensures Live(h, r) {
      assert r in g.nodes[n].edges;
      assert Live(g, r);
    }
    if NoRepeats(g) {
      forall n, m | n in h.nodes ensures Multiplicity(h.nodes[n].edges, m) <= 1 {
        assert n in g.nodes ==> h.nodes[n].edges == g.nodes[n].edges;
      }
    }
  }

  /** Edge closure over whole runs: along a simple run every edge is a pointer to the vertex
      stored under its name, and no list names a vertex twice. */
  lemma {:induction false} SimpleRunsAreClosed<T, V>(ops: seq<Op<T, V>>)
    requires Simple(ops)
    ensures Closed(Run(ops)) && NoRepeats(Run(ops))
  {
    if ops != [] {
      SimpleRunsAreClosed(ops[..|ops| - 1]);
      var g, op := Run(ops[..|ops| - 1]), ops[|ops| - 1];
      match op
      case AddVertexOp(n, v, id) => AddVertexKeepsClosed(g, n, v, id);
      case AddEdgeOp(s, sv, sid, t, tv, tid) => AddEdgeKeepsClosed(g, s, sv, sid, t, tv, tid);
      case RemoveVertexOp(name) =>
        if name in g.nodes {
          RemoveVertexClosedIff(g, name);
          forall n, m | n in Run(ops).nodes ensures Multiplicity(Run(ops).nodes[n].edges, m) <= 1 {
            DropFirstNames(g.nodes[n].edges, name);
          }
        }
      case RemoveEdgeOp(_, _) => assert false;
    }
  }

  lemma ShiftOutKeepsClosed<T, V>(g: Graph<T, V>, at: string, name: string)
    requires Closed(g)
    ensures Closed(ShiftOut(g, at, name))
  {
    var h := ShiftOut(g, at, name);
    forall n, r | n in h.nodes && r in h.nodes[n].edges ensures Live(h, r) {
      ShiftFirstTakesNothingNew(g.nodes[n].edges, name);
      assert r in g.nodes[n].edges;
      assert Live(g, r);
    }
  }

  lemma ShiftFirstTakesNothingNew<V>(edges: seq<Ref<V>>, name: string)
    ensures forall r :: r in ShiftFirst(edges, name) ==> r in edges
  {
  }

  /** If the operation removes a vertex, no other list names it twice. */
  ghost predicate SafeRemoval<T, V>(g: Graph<T, V>, op: Op<T, V>) {
    op.RemoveVertexOp? && op.name in g.nodes ==>
      forall n :: n in g.nodes && n != op.name ==> Multiplicity(g.nodes[n].edges, op.name) <= 1
  }

  lemma StepClosedIff<T, V>(g: Graph<T, V>, op: Op<T, V>)
    requires Closed(g)
    ensures Closed(Apply(g, op)) <==> SafeRemoval(g, op)
  {
    match op
    case AddVertexOp(n, v, id) => AddVertexKeepsClosed(g, n, v, id);
    case AddEdgeOp(s, sv, sid, t, tv, tid) => AddEdgeKeepsClosed(g, s, sv, sid, t, tv, tid);
    case RemoveVertexOp(name) =>
      if name in g.nodes {
        RemoveVertexClosedIff(g, name);
      }
    case RemoveEdgeOp(s, t) =>
      ShiftOutKeepsClosed(g, s, t);
      ShiftOutKeepsClosed(ShiftOut(g, s, t), t, s);
  }

  /** At every point of the run all pointers are live. */
  ghost predicate AlwaysClosed<T, V>(ops: seq<Op<T, V>>) {
    Closed(Run(ops)) && (ops == [] || AlwaysClosed(ops[..|ops| - 1]))
  }

  ghost predicate SafeRemovals<T, V>(ops: seq<Op<T, V>>) {
    ops == [] || (SafeRemovals(ops[..|ops| - 1]) && SafeRemoval(Run(ops[..|ops| - 1]), ops[|ops| - 1]))
  }

  /** Over all runs of all four operations: all pointers are live at every point exactly if no
      RemoveVertex ever meets another list that names its vertex twice. RemoveEdge never breaks a
      pointer. */
  lemma {:induction false} AlwaysClosedIff<T, V>(ops: seq<Op<T, V>>)
    ensures AlwaysClosed(ops) <==> SafeRemovals(ops)
  {
    if ops != [] {
      AlwaysClosedIff(ops[..|ops| - 1]);
      if AlwaysClosed(ops[..|ops| - 1]) {
        StepClosedIff(Run(ops[..|ops| - 1]), ops[|ops| - 1]);
      }
    }
  }

  /** In particular a simple run that ends by removing a vertex has erased all its in-edges. */
  lemma SimpleRemovalErasesInEdges<T, V>(ops: seq<Op<T, V>>, name: string)
    requires Simple(ops) && name in Run(ops).nodes
    ensures var g := Run(ops + [RemoveVertexOp(name)]);
            forall n, r :: (n in g.nodes && r in g.nodes[n].edges) ==> r.name != name
  {
    var more := ops + [RemoveVertexOp(name)];
    assert more[..|more| - 1] == ops;
    SimpleRunsAreClosed(more);
    forall n, r | n in Run(more).nodes && r in Run(more).nodes[n].edges ensures r.name != name {
      assert Live(Run(more), r);
    }
  }

  lemma RunOneMore<T, V>(ops: seq<Op<T, V>>, op: Op<T, V>)
    ensures Run(ops + [op]) == Apply(Run(ops), op)
  {
    assert (ops + [op])[..|ops|] == ops;
  }

  lemma RunTwoEdges<T, V>(add: Op<T, V>)
    requires add.AddEdgeOp? && add.name != add.target
    ensures var r := Ref(add.target, add.targetId);
            Run([add, add]).nodes == map[add.name := Node(add.id, add.value, true, [r, r]),
                                         add.target := Node(add.targetId, add.targetValue, true, [])]
  {
    var r := Ref(add.target, add.targetId);
    RunOneMore<T, V>([], add);
    assert [] + [add] == [add] && [] + [r] == [r];
    assert Run([add]).nodes == map[add.name := Node(add.id, add.value, true, [r]),
                                   add.target := Node(add.targetId, add.targetValue, true, [])];
    RunOneMore([add], add);
    assert [add] + [add] == [add, add] && [r] + [r] == [r, r];
  }

  lemma DropOneOfTwo<V>(r: Ref<V>)
    ensures DropFirst([r, r], r.name) == [r]
  {
    assert FirstIndex([r, r], r.name) == 0;
  }

  lemma RunTwoEdgesAndRemove<T, V>(add: Op<T, V>)
    requires add.AddEdgeOp? && add.name != add.target
    ensures var g := Run([add, add, RemoveVertexOp(add.target)]);
            g.nodes.Keys == {add.name} && g.nodes[add.name].edges == [Ref(add.target, add.targetId)]
  {
    var remove := RemoveVertexOp(add.target);
    RunOneMore([add, add], remove);
    assert [add, add] + [remove] == [add, add, remove];
    RunTwoEdges(add);
    DropOneOfTwo(Ref(add.target, add.targetId));
  }

  lemma DeadPointer<T, V>(g: Graph<T, V>, n: string, r: Ref<V>)
    requires n in g.nodes && g.nodes[n].edges == [r] && !Live(g, r)
    ensures !Closed(g)
  {
    assert r in g.nodes[n].edges;
  }

  /** Repeating one edge is enough to break closure: after adding a -> b twice and removing b,
      the list of a still holds the pointer to the removed vertex. */
  lemma RepeatedEdgeDangles<T, V>(add: Op<T, V>)
    requires add.AddEdgeOp? && add.name != add.target
    ensures var g := Run([add, add, RemoveVertexOp(add.target)]);
            && g.nodes.Keys == {add.name} && g.nodes[add.name].edges == [Ref(add.target, add.targetId)] && !Closed(g)
  {
    RunTwoEdgesAndRemove(add);
    DeadPointer(Run([add, add, RemoveVertexOp(add.target)]), add.name, Ref(add.target, add.targetId));
  }

  /** Adding b again hides the dangling pointer behind the new vertex's name. */
  lemma DanglingIsHidden<T, V>(add: Op<T, V>, later: V)
    requires add.AddEdgeOp? && add.name != add.target && add.targetId != later
    ensures var h := Run([add, add, RemoveVertexOp(add.target), AddVertexOp(add.target, add.targetValue, later)]);
            && h.nodes.Keys == {add.name, add.target}
            && h.nodes[add.name].edges == [Ref(add.target, add.targetId)]
            && h.nodes[add.target].id == later && !Closed(h)
  {
    var remove, again := RemoveVertexOp(add.target), AddVertexOp(add.target, add.targetValue, later);
    RunTwoEdgesAndRemove(add);
    RunOneMore([add, add, remove], again);
    assert [add, add, remove] + [again] == [add, add, remove, again];
    DeadPointer(Run([add, add, remove, again]), add.name, Ref(add.target, add.targetId));
  }

  // ---------- the simple map behind the graph ----------

  /** A vertex as a reader of names sees it. */
  datatype View<T> = View(value: T, temporary: bool, targets: seq<string>)

  function ViewOf<T, V>(g: Graph<T, V>): map<string, View<T>> {
    map n | n in g.nodes :: View(g.nodes[n].value, g.nodes[n].temporary, Names(g.nodes[n].edges))
  }

  /** The position of the first `name` in a list of names. */
  function FirstName(ns: seq<string>, name: string): (i: int)
    ensures i == NO_INDEX || 0 <= i < |ns|
  {
    if ns == [] then NO_INDEX
    else if ns[0] == name then 0
    else var i := FirstName(ns[1..], name); if i == NO_INDEX then NO_INDEX else i + 1
  }

  function DropName(ns: seq<string>, name: string): seq<string> {
    var i := FirstName(ns, name);
    if i == NO_INDEX then ns else Without(ns, i)
  }

  function ShiftName(ns: seq<string>, name: string): seq<string> {
    var i := FirstName(ns, name);
    if i == NO_INDEX then ns else ShiftedDown(ns, i)
  }

  function ViewAdd<T>(m: map<string, View<T>>, name: string, value: T, temporary: bool): map<string, View<T>> {
    if name in m then m else m[name := View(value, temporary, [])]
  }

  function ViewShift<T>(m: map<string, View<T>>, at: string, name: string): map<string, View<T>> {
    if at in m then m[at := m[at].(targets := ShiftName(m[at].targets, name))] else m
  }

  /** The operations on a plain map from names to (value, temporary flag, target names). */
  function ViewApply<T, V>(m: map<string, View<T>>, op: Op<T, V>): map<string, View<T>> {
    match op
    case AddVertexOp(n, v, _) =>
      if n in m && m[n].temporary then m[n := m[n].(value := v, temporary := false)]
      else ViewAdd(m, n, v, false)
    case AddEdgeOp(s, sv, _, t, tv, _) =>
      var m2 := ViewAdd(ViewAdd(m, s, sv, true), t, tv, true);
      m2[s := m2[s].(targets := m2[s].targets + [t])]
    case RemoveVertexOp(name) =>
      if name !in m then m
      else map n | n in m && n != name :: m[n].(targets := DropName(m[n].targets, name))
    case RemoveEdgeOp(s, t) => ViewShift(ViewShift(m, s, t), t, s)
  }

  function ViewRun<T, V>(ops: seq<Op<T, V>>): map<string, View<T>> {
    if ops == [] then map[] else ViewApply(ViewRun(ops[..|ops| - 1]), ops[|ops| - 1])
  }

  lemma {:induction false} FirstIndexIsFirstName<V>(edges: seq<Ref<V>>, name: string)
    ensures FirstIndex(edges, name) == FirstName(Names(edges), name)
  {
    if edges != [] {
      FirstIndexIsFirstName(edges[1..], name);
      assert Names(edges)[1..] == Names(edges[1..]);
    }
  }

  lemma ListViews<V>(edges: seq<Ref<V>>, name: string)
    ensures Names(DropFirst(edges, name)) == DropName(Names(edges), name)
    ensures Names(ShiftFirst(edges, name)) == ShiftName(Names(edges), name)
  {
    FirstIndexIsFirstName(edges, name);
    if FirstIndex(edges, name) != NO_INDEX {
      NamesWithout(edges, FirstIndex(edges, name));
    }
  }

  lemma ShiftView<T, V>(g: Graph<T, V>, at: string, name: string)
    ensures ViewOf(ShiftOut(g, at, name)) == ViewShift(ViewOf(g), at, name)
  {
    if at in g.nodes {
      ListViews(g.nodes[at].edges, name);
    }
  }

  lemma AddTemporaryView<T, V>(g: Graph<T, V>, name: string, value: T, id: V)
    ensures ViewOf(AddTemporaryVertex(g, name, value, id)) == ViewAdd(ViewOf(g), name, value, true)
  {
    assert Names<V>([]) == [];
  }

  lemma PointView<T, V>(g: Graph<T, V>, source: string, r: Ref<V>)
    requires source in g.nodes
    ensures ViewOf(Point(g, source, r))
            == ViewOf(g)[source := ViewOf(g)[source].(targets := ViewOf(g)[source].targets + [r.name])]
  {
    assert Names(g.nodes[source].edges + [r]) == Names(g.nodes[source].edges) + [r.name];
  }

  lemma AddEdgeView<T, V>(g: Graph<T, V>, s: string, sv: T, sid: V, t: string, tv: T, tid: V)
    ensures ViewOf(AddEdge(g, s, sv, sid, t, tv, tid)) == ViewApply(ViewOf(g), AddEdgeOp(s, sv, sid, t, tv, tid))
  {
    AddTemporaryView(g, s, sv, sid);
    AddTemporaryView(AddTemporaryVertex(g, s, sv, sid), t, tv, tid);
    var h := WithEndpoints(g, s, sv, sid, t, tv, tid);
    PointView(h, s, Ref(t, h.nodes[t].id));
  }

  lemma RemoveVertexView<T, V>(g: Graph<T, V>, name: string)
    ensures ViewOf(RemoveVertex(g, name)) == ViewApply<T, V>(ViewOf(g), RemoveVertexOp(name))
  {
    var a, b := ViewOf(RemoveVertex(g, name)), ViewApply<T, V>(ViewOf(g), RemoveVertexOp(name));
    assert a.Keys == b.Keys;
    forall n | n in a ensures a[n] == b[n] {
      ListViews(g.nodes[n].edges, name);
    }
  }

  lemma StepView<T, V>(g: Graph<T, V>, op: Op<T, V>)
    ensures ViewOf(Apply(g, op)) == ViewApply(ViewOf(g), op)
  {
    match op
    case AddVertexOp(_, _, _) => assert Names<V>([]) == [];
    case AddEdgeOp(s, sv, sid, t, tv, tid) => AddEdgeView(g, s, sv, sid, t, tv, tid);
    case RemoveVertexOp(name) => RemoveVertexView(g, name);
    case RemoveEdgeOp(s, t) =>
      ShiftView(g, s, t);
      ShiftView(ShiftOut(g, s, t), t, s);
  }

  /** Identities are never observed: every run refines the plain map of names. */
  lemma {:induction false} RunsRefineTheMap<T, V>(ops: seq<Op<T, V>>)
    ensures ViewOf(Run(ops)) == ViewRun(ops)
  {
    if ops != [] {
      RunsRefineTheMap(ops[..|ops| - 1]);
      StepView(Run(ops[..|ops| - 1]), ops[|ops| - 1]);
    }
  }
}
