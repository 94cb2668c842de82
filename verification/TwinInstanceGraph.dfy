/** The twin instance graph as the graph server uses it: rebuilt from a list of TwinInstances
    and exported as a list of settings. */
module TwinInstanceGraph {
  import opened TwinGraph
  import S = GraphSpec

  datatype InstanceRelationship = InstanceRelationship(name: string, iface: string, instance: string)

  /** `rest` stands for the fields the graph never looks at. */
  datatype TwinInstance =
    TwinInstance(name: string, iface: string, relationships: seq<InstanceRelationship>, rest: string)

  /** One entry of the exported graph settings. */
  datatype Settings = Settings(name: string, iface: string, relationships: seq<InstanceRelationship>)

  type InstanceGraph<V> = S.Graph<TwinInstance, V>

  // ---------- what a list of instances asks for ----------

  function NameOf(x: TwinInstance): string {
    x.name
  }

  function NamesOf(inputs: seq<TwinInstance>): set<string> {
    set x | x in inputs :: x.name
  }

  ghost predicate DistinctNames(inputs: seq<TwinInstance>) {
    forall i, j :: 0 <= i < j < |inputs| ==> inputs[i].name != inputs[j].name
  }

  /** The instance a name stands for: the first one listed under it. */
  function FirstNamed(inputs: seq<TwinInstance>, name: string): (x: TwinInstance)
    requires name in NamesOf(inputs)
    ensures x in inputs && x.name == name
  {
    if inputs[0].name == name then inputs[0]
    else
      assert forall x :: x in inputs ==> x == inputs[0] || x in inputs[1..];
      FirstNamed(inputs[1..], name)
  }

  /** The relationship targets that are themselves listed, in order. */
  function Targets(relationships: seq<InstanceRelationship>, present: set<string>): (ts: seq<string>)
    ensures |ts| <= |relationships|
  {
    if relationships == [] then []
    else
      var r := relationships[|relationships| - 1];
      Targets(relationships[..|relationships| - 1], present) + if r.instance in present then [r.instance] else []
  }

  datatype Link = Link(source: string, target: string)

  function LinksOf(source: string, targets: seq<string>): (ls: seq<Link>)
    ensures |ls| == |targets|
    ensures forall i :: 0 <= i < |ls| ==> ls[i] == Link(source, targets[i])
  {
    seq(|targets|, i requires 0 <= i < |targets| => Link(source, targets[i]))
  }

  function LinksFrom(x: TwinInstance, present: set<string>): seq<Link> {
    LinksOf(x.name, Targets(x.relationships, present))
  }

  /** Every wanted edge: the inputs in order, and for each its listed targets in order. */
  function Links(inputs: seq<TwinInstance>, present: set<string>): seq<Link> {
    if inputs == [] then []
    else Links(inputs[..|inputs| - 1], present) + LinksFrom(inputs[|inputs| - 1], present)
  }

  function TargetsAt(links: seq<Link>, name: string): seq<string> {
    if links == [] then []
    else
      var l := links[|links| - 1];
      TargetsAt(links[..|links| - 1], name) + if l.source == name then [l.target] else []
  }

  // ---------- the graph in between and at the end ----------

  /** The vertex stored under `n` is the first input of that name, not temporary, and lists
      the targets `links` gives it, in order. */
  ghost predicate HoldsAt<V>(g: InstanceGraph<V>, inputs: seq<TwinInstance>, links: seq<Link>, n: string)
    requires n in g.nodes && n in NamesOf(inputs)
  {
    && g.nodes[n].value == FirstNamed(inputs, n) && !g.nodes[n].temporary
    && S.Names(g.nodes[n].edges) == TargetsAt(links, n)
  }

  /** All inputs so far are vertices and the edges are exactly `links`, each pointing at the
      live vertex of its name. */
  ghost predicate Holds<V>(g: InstanceGraph<V>, inputs: seq<TwinInstance>, links: seq<Link>) {
    && g.nodes.Keys == NamesOf(inputs)
    && g.count == |NamesOf(inputs)| + |links|
    && S.Closed(g)
    && forall n :: n in g.nodes ==> HoldsAt(g, inputs, links, n)
  }

  ghost predicate Rebuilt<V>(g: InstanceGraph<V>, inputs: seq<TwinInstance>) {
    Holds(g, inputs, Links(inputs, NamesOf(inputs)))
  }

  lemma OneMoreName(inputs: seq<TwinInstance>, x: TwinInstance)
    ensures NamesOf(inputs + [x]) == NamesOf(inputs) + {x.name}
  {
    assert forall y :: y in inputs + [x] <==> y in inputs || y == x;
  }

  lemma {:induction false} FirstNamedKeeps(inputs: seq<TwinInstance>, x: TwinInstance, name: string)
    requires name in NamesOf(inputs + [x])
    ensures FirstNamed(inputs + [x], name) == if name in NamesOf(inputs) then FirstNamed(inputs, name) else x
  {
    OneMoreName(inputs, x);
    if inputs != [] && inputs[0].name != name {
      assert (inputs + [x])[1..] == inputs[1..] + [x];
      OneMoreName(inputs[1..], x);
      assert inputs == [inputs[0]] + inputs[1..];
      assert name in NamesOf(inputs) <==> name in NamesOf(inputs[1..]);
      FirstNamedKeeps(inputs[1..], x, name);
    }
  }

  lemma LoadStepAt<V>(g: InstanceGraph<V>, inputs: seq<TwinInstance>, x: TwinInstance, id: V, n: string)
    requires Holds(g, inputs, [])
    requires n in S.AddVertex(g, x.name, x, id).nodes && n in NamesOf(inputs + [x])
    ensures HoldsAt(S.AddVertex(g, x.name, x, id), inputs + [x], [], n)
  {
    OneMoreName(inputs, x);
    FirstNamedKeeps(inputs, x, n);
    if n in g.nodes {
      assert HoldsAt(g, inputs, [], n);
    }
  }

  lemma LoadStep<V>(g: InstanceGraph<V>, inputs: seq<TwinInstance>, x: TwinInstance, id: V)
    requires Holds(g, inputs, [])
    ensures Holds(S.AddVertex(g, x.name, x, id), inputs + [x], [])
  {
    var h := S.AddVertex(g, x.name, x, id);
    OneMoreName(inputs, x);
    S.AddVertexKeepsClosed(g, x.name, x, id);
    S.StepKeys(g, S.AddVertexOp(x.name, x, id));
    S.CounterStep(g, S.AddVertexOp(x.name, x, id));
    assert h.nodes.Keys == NamesOf(inputs + [x]) && |h.nodes| == |h.nodes.Keys| && |g.nodes| == |g.nodes.Keys|;
    forall n | n in h.nodes ensures HoldsAt(h, inputs + [x], [], n) {
      LoadStepAt(g, inputs, x, id, n);
    }
  }

  lemma OneMoreTarget(links: seq<Link>, l: Link, n: string)
    ensures TargetsAt(links + [l], n) == TargetsAt(links, n) + if l.source == n then [l.target] else []
  {
    assert (links + [l])[..|links|] == links;
  }

  lemma PointStepAt<V>(g: InstanceGraph<V>, inputs: seq<TwinInstance>, links: seq<Link>, s: string, r: S.Ref<V>,
                       n: string)
    requires s in g.nodes && n in g.nodes && n in NamesOf(inputs) && HoldsAt(g, inputs, links, n)
    ensures HoldsAt(S.Point(g, s, r), inputs, links + [Link(s, r.name)], n)
  {
    OneMoreTarget(links, Link(s, r.name), n);
    assert S.Names(g.nodes[s].edges + [r]) == S.Names(g.nodes[s].edges) + [r.name];
    assert TargetsAt(links, n) + [] == TargetsAt(links, n);
  }

  lemma PointStep<V>(g: InstanceGraph<V>, inputs: seq<TwinInstance>, links: seq<Link>, s: string, t: string)
    requires Holds(g, inputs, links) && s in g.nodes && t in g.nodes
    ensures Holds(S.Point(g, s, S.Ref(t, g.nodes[t].id)), inputs, links + [Link(s, t)])
  {
    var r := S.Ref(t, g.nodes[t].id);
    var h := S.Point(g, s, r);
    S.PointKeepsClosed(g, s, r);
    assert h.nodes.Keys == g.nodes.Keys;
    forall n | n in h.nodes ensures HoldsAt(h, inputs, links + [Link(s, t)], n) {
      PointStepAt(g, inputs, links, s, r, n);
    }
  }

  // ---------- the server ----------

  class TwinGraphServer {
    var twinGraphInstance: TwinGraph<TwinInstance>

    constructor ()
      ensures fresh(twinGraphInstance) && twinGraphInstance.Valid() && Rebuilt(twinGraphInstance.Abs(), [])
    {
      twinGraphInstance := new TwinGraph<TwinInstance>(NameOf);
    }

    method UpdateGraphFunc(twinInstances: seq<TwinInstance>)
      modifies this
      ensures fresh(twinGraphInstance) && twinGraphInstance.keyOf == NameOf && twinGraphInstance.Valid()
      ensures Rebuilt(twinGraphInstance.Abs(), twinInstances)
    {
      var g := Rebuild(twinInstances);
      ghost var rebuilt := g.Abs();
      label before:
      twinGraphInstance := g;
      g.Kept@before();
      assert g.Abs() == rebuilt;
    }
  }

  /** Rebuilds the graph from scratch: first every vertex, then every edge whose target is
      listed. */
  method Rebuild(inputs: seq<TwinInstance>) returns (g: TwinGraph<TwinInstance>)
    ensures fresh(g) && g.keyOf == NameOf && g.Valid() && Rebuilt(g.Abs(), inputs)
  {
    g := LoadVertices(inputs);
    ghost var present := NamesOf(inputs);
    for i := 0 to |inputs|
      invariant fresh(g) && Own(g) && g.Valid()
      invariant Holds(g.Abs(), inputs, Links(inputs[..i], present))
    {
      assert inputs[..i + 1][..i] == inputs[..i];
      var x := inputs[i];
      assert x in inputs && SoFar(Links(inputs[..i], present), x, 0, present) == Links(inputs[..i], present);
      assert x.relationships[..|x.relationships|] == x.relationships;
      LinkInstance(g, x, inputs, Links(inputs[..i], present));
    }
    assert inputs[..|inputs|] == inputs;
  }

  /** A graph of instances by name that shares nothing with anything there was before. */
  twostate predicate Own(new g: TwinGraph<TwinInstance>)
    reads g
  {
    && g.keyOf == NameOf
    && (forall v :: v in g.all ==> fresh(v))
    && (forall a :: a in g.owner ==> fresh(a))
  }

  method LoadVertices(inputs: seq<TwinInstance>) returns (g: TwinGraph<TwinInstance>)
    ensures fresh(g) && Own(g) && g.Valid() && Holds(g.Abs(), inputs, [])
  {
    g := new TwinGraph<TwinInstance>(NameOf);
    for i := 0 to |inputs|
      invariant fresh(g) && Own(g) && g.Valid()
      invariant Holds(g.Abs(), inputs[..i], [])
    {
      assert inputs[..i + 1] == inputs[..i] + [inputs[i]];
      LoadOne(g, inputs[..i], inputs[i]);
    }
    assert inputs[..|inputs|] == inputs;
  }

  method LoadOne(g: TwinGraph<TwinInstance>, ghost inputs: seq<TwinInstance>, x: TwinInstance)
    requires g.keyOf == NameOf && g.Valid() && Holds(g.Abs(), inputs, [])
    modifies g, g.all
    ensures g.Valid() && g.Grew() && Holds(g.Abs(), inputs + [x], [])
  {
    ghost var before := g.Abs();
    var v, _ := g.AddVertex(x);
    LoadStep(before, inputs, x, v);
  }

  /** The links after `j` relationships of the inner loop. */
  ghost function SoFar(links: seq<Link>, x: TwinInstance, j: nat, present: set<string>): seq<Link>
    requires j <= |x.relationships|
  {
    links + LinksOf(x.name, Targets(x.relationships[..j], present))
  }

  lemma SoFarStep(links: seq<Link>, x: TwinInstance, j: nat, present: set<string>)
    requires j < |x.relationships|
    ensures var t := x.relationships[j].instance;
            SoFar(links, x, j + 1, present)
            == SoFar(links, x, j, present) + if t in present then [Link(x.name, t)] else []
  {
    var rs, t := x.relationships, x.relationships[j].instance;
    assert rs[..j + 1][..j] == rs[..j];
    var done := Targets(rs[..j], present);
    assert done + [] == done;
    assert LinksOf(x.name, done + [t]) == LinksOf(x.name, done) + [Link(x.name, t)];
    assert SoFar(links, x, j, present) + [] == SoFar(links, x, j, present);
  }

  /** One relationship of the inner loop. */
  method LinkOne(g: TwinGraph<TwinInstance>, x: TwinInstance, j: nat,
                 ghost inputs: seq<TwinInstance>, ghost links: seq<Link>)
    requires j < |x.relationships| && x in inputs
    requires g.keyOf == NameOf && g.Valid() && Holds(g.Abs(), inputs, SoFar(links, x, j, NamesOf(inputs)))
    modifies g, g.all, g.owner.Keys
    ensures g.Valid() && g.Grew()
    ensures Holds(g.Abs(), inputs, SoFar(links, x, j + 1, NamesOf(inputs)))
  {
    ghost var before, sofar := g.Abs(), SoFar(links, x, j, NamesOf(inputs));
    SoFarStep(links, x, j, NamesOf(inputs));
    var target := x.relationships[j].instance;
    var vertex := g.GetVertex(target);
    if vertex != null {
      assert HoldsAt(before, inputs, sofar, target);
      assert vertex.resource.name == target;
      var _, _ := g.AddEdge(x, vertex.resource);
      PointStep(before, inputs, sofar, x.name, target);
    } else {
      assert sofar + [] == sofar;
    }
  }

  /** The inner loop: the edges of one input. */
  method LinkInstance(g: TwinGraph<TwinInstance>, x: TwinInstance,
                      ghost inputs: seq<TwinInstance>, ghost links: seq<Link>)
    requires g.keyOf == NameOf && x in inputs
    requires g.Valid() && Holds(g.Abs(), inputs, SoFar(links, x, 0, NamesOf(inputs)))
    modifies g, g.all, g.owner.Keys
    ensures g.Valid() && g.Grew()
    ensures Holds(g.Abs(), inputs, SoFar(links, x, |x.relationships|, NamesOf(inputs)))
  {
    for j := 0 to |x.relationships|
      invariant g.Valid() && g.Grew()
      invariant Holds(g.Abs(), inputs, SoFar(links, x, j, NamesOf(inputs)))
    {
      LinkOne(g, x, j, inputs, links);
    }
  }
}
