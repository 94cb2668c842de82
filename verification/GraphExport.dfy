/** The settings list behind MarshalJson, and what a rebuild does not depend on. */
module GraphExport {
  import opened TwinGraph
  import opened TwinInstanceGraph
  import S = GraphSpec

  function SettingsOf(x: TwinInstance): Settings {
    Settings(x.name, x.iface, x.relationships)
  }

  /** `settings` lists every vertex of the graph once, in the order `order`. */
  ghost predicate Exports<V>(settings: seq<Settings>, order: seq<string>, g: InstanceGraph<V>) {
    && |settings| == |order|
    && (forall n :: n in order <==> n in g.nodes)
    && (forall i, j :: 0 <= i < j < |order| ==> order[i] != order[j])
    && (forall i :: 0 <= i < |order| ==> settings[i] == SettingsOf(g.nodes[order[i]].value))
  }

  method CopyRelationships(relationships: seq<InstanceRelationship>) returns (copy: seq<InstanceRelationship>)
    ensures copy == relationships
  {
    copy := [];
    for i := 0 to |relationships|
      invariant copy == relationships[..i]
    {
      var r := relationships[i];
      copy := copy + [InstanceRelationship(r.name, r.iface, r.instance)];
    }
  }

  /** The list MarshalJson encodes; the table is walked in any order. */
  method ListSettings(g: TwinGraph<TwinInstance>) returns (settings: seq<Settings>)
    requires g.Valid()
    ensures exists order :: Exports(settings, order, g.Abs())
  {
    settings := [];
    ghost var order := [];
    var todo := g.vertexes.Keys;
    while todo != {}
      invariant todo <= g.vertexes.Keys && |settings| == |order|
      invariant forall n :: n in g.vertexes ==> (n in order <==> n !in todo)
      invariant forall n :: n in order ==> n in g.vertexes
      invariant forall i, j :: 0 <= i < j < |order| ==> order[i] != order[j]
      invariant forall i :: 0 <= i < |order| ==>
                  order[i] in g.vertexes && settings[i] == SettingsOf(g.vertexes[order[i]].resource)
    {
      var n :| n in todo;
      var x := g.vertexes[n].resource;
      var relationships := CopyRelationships(x.relationships);
      settings := settings + [Settings(x.name, x.iface, relationships)];
      order := order + [n];
      todo := todo - {n};
    }
    assert Exports(settings, order, g.Abs());
  }

  // ---------- edges of a name, input by input ----------

  /** In-order concatenation over the inputs of this name: what a vertex should list. */
  function WantedAt(inputs: seq<TwinInstance>, present: set<string>, name: string): seq<string> {
    if inputs == [] then []
    else
      WantedAt(inputs[..|inputs| - 1], present, name)
      + if inputs[|inputs| - 1].name == name then Targets(inputs[|inputs| - 1].relationships, present) else []
  }

  lemma {:induction false} TargetsOfConcat(a: seq<Link>, b: seq<Link>, n: string)
    ensures TargetsAt(a + b, n) == TargetsAt(a, n) + TargetsAt(b, n)
  {
    if b == [] {
      assert a + b == a;
    } else {
      var c := b[..|b| - 1];
      assert a + b == (a + c) + [b[|b| - 1]];
      OneMoreTarget(a + c, b[|b| - 1], n);
      TargetsOfConcat(a, c, n);
    }
  }

  lemma {:induction false} TargetsOfLinksOf(source: string, ts: seq<string>, n: string)
    ensures TargetsAt(LinksOf(source, ts), n) == if source == n then ts else []
  {
    if ts != [] {
      var us := ts[..|ts| - 1];
      assert LinksOf(source, ts) == LinksOf(source, us) + [Link(source, ts[|ts| - 1])];
      OneMoreTarget(LinksOf(source, us), Link(source, ts[|ts| - 1]), n);
      TargetsOfLinksOf(source, us, n);
    }
  }

  lemma {:induction false} LinksGiveWanted(inputs: seq<TwinInstance>, present: set<string>, n: string)
    ensures TargetsAt(Links(inputs, present), n) == WantedAt(inputs, present, n)
  {
    if inputs != [] {
      var front, x := inputs[..|inputs| - 1], inputs[|inputs| - 1];
      TargetsOfConcat(Links(front, present), LinksFrom(x, present), n);
      TargetsOfLinksOf(x.name, Targets(x.relationships, present), n);
      LinksGiveWanted(front, present, n);
    }
  }

  // ---------- all edges ----------

  /** The lengths of the lists of these vertices, added up. */
  ghost function EdgesOf<V>(nodes: map<string, S.Node<TwinInstance, V>>, names: set<string>): nat
    requires names <= nodes.Keys
  {
    if names == {} then 0
    else
      var n :| n in names;
      |nodes[n].edges| + EdgesOf(nodes, names - {n})
  }

  function LinksWithin(links: seq<Link>, names: set<string>): nat {
    if links == [] then 0
    else LinksWithin(links[..|links| - 1], names) + if links[|links| - 1].source in names then 1 else 0
  }

  lemma {:induction false} WithinSplits(links: seq<Link>, names: set<string>, n: string)
    requires n in names
    ensures LinksWithin(links, names) == |TargetsAt(links, n)| + LinksWithin(links, names - {n})
  {
    if links != [] {
      WithinSplits(links[..|links| - 1], names, n);
    }
  }

  lemma {:induction false} NothingWithin(links: seq<Link>)
    ensures LinksWithin(links, {}) == 0
  {
    if links != [] {
      NothingWithin(links[..|links| - 1]);
    }
  }

  lemma {:induction false} EdgesAreLinks<V>(nodes: map<string, S.Node<TwinInstance, V>>, names: set<string>,
                                            links: seq<Link>)
    requires names <= nodes.Keys && forall n :: n in names ==> S.Names(nodes[n].edges) == TargetsAt(links, n)
    ensures EdgesOf(nodes, names) == LinksWithin(links, names)
    decreases |names|
  {
    if names == {} {
      NothingWithin(links);
    } else {
      var n :| n in names && EdgesOf(nodes, names) == |nodes[n].edges| + EdgesOf(nodes, names - {n});
      EdgesAreLinks(nodes, names - {n}, links);
      WithinSplits(links, names, n);
      assert |S.Names(nodes[n].edges)| == |nodes[n].edges|;
    }
  }

  lemma {:induction false} AllWithin(links: seq<Link>, names: set<string>)
    requires forall i :: 0 <= i < |links| ==> links[i].source in names
    ensures LinksWithin(links, names) == |links|
  {
    if links != [] {
      AllWithin(links[..|links| - 1], names);
    }
  }

  lemma {:induction false} LinksHaveSources(inputs: seq<TwinInstance>, present: set<string>)
    ensures forall i :: 0 <= i < |Links(inputs, present)| ==> Links(inputs, present)[i].source in NamesOf(inputs)
  {
    if inputs != [] {
      var front, x := inputs[..|inputs| - 1], inputs[|inputs| - 1];
      assert inputs == front + [x];
      LinksHaveSources(front, present);
      OneMoreName(front, x);
    }
  }

  lemma LinksAreEdges<V>(g: InstanceGraph<V>, inputs: seq<TwinInstance>)
    requires Rebuilt(g, inputs)
    ensures |Links(inputs, NamesOf(inputs))| == EdgesOf(g.nodes, g.nodes.Keys)
  {
    var links := Links(inputs, NamesOf(inputs));
    forall n | n in g.nodes.Keys ensures S.Names(g.nodes[n].edges) == TargetsAt(links, n) {
      assert HoldsAt(g, inputs, links, n);
    }
    EdgesAreLinks(g.nodes, g.nodes.Keys, links);
    LinksHaveSources(inputs, NamesOf(inputs));
    AllWithin(links, g.nodes.Keys);
  }

  /** The rebuild is exact: the vertices are the listed names with their first instance, none
      temporary, every pointer is live, and a vertex lists, in order, the listed targets of all
      inputs of its name. */
  lemma RebuildIsExact<V>(g: InstanceGraph<V>, inputs: seq<TwinInstance>)
    requires Rebuilt(g, inputs)
    ensures g.nodes.Keys == NamesOf(inputs) && S.Closed(g)
    ensures g.count == |g.nodes| + EdgesOf(g.nodes, g.nodes.Keys)
    ensures forall n :: n in g.nodes ==>
              && g.nodes[n].value == FirstNamed(inputs, n) && !g.nodes[n].temporary
              && S.Names(g.nodes[n].edges) == WantedAt(inputs, NamesOf(inputs), n)
  {
    LinksAreEdges(g, inputs);
    assert |g.nodes| == |g.nodes.Keys|;
    forall n | n in g.nodes
      ensures g.nodes[n].value == FirstNamed(inputs, n) && !g.nodes[n].temporary
      ensures S.Names(g.nodes[n].edges) == WantedAt(inputs, NamesOf(inputs), n)
    {
      assert HoldsAt(g, inputs, Links(inputs, NamesOf(inputs)), n);
      LinksGiveWanted(inputs, NamesOf(inputs), n);
    }
  }

  // ---------- export agrees with the edges ----------

  /** No input of this name after the first one has a listed target. */
  predicate RepeatsAddNothing(inputs: seq<TwinInstance>, present: set<string>, name: string) {
    inputs == []
    || (var front, x := inputs[..|inputs| - 1], inputs[|inputs| - 1];
        && RepeatsAddNothing(front, present, name)
        && (x.name == name && name in NamesOf(front) ==> Targets(x.relationships, present) == []))
  }

  lemma {:induction false} DistinctNamesNeverRepeat(inputs: seq<TwinInstance>, present: set<string>, name: string)
    requires DistinctNames(inputs)
    ensures RepeatsAddNothing(inputs, present, name)
  {
    if inputs != [] {
      DistinctNamesNeverRepeat(inputs[..|inputs| - 1], present, name);
    }
  }

  lemma {:induction false} NothingWantedUnlisted(inputs: seq<TwinInstance>, present: set<string>, name: string)
    requires name !in NamesOf(inputs)
    ensures WantedAt(inputs, present, name) == []
  {
    if inputs != [] {
      assert inputs[|inputs| - 1] in inputs;
      assert forall x :: x in inputs[..|inputs| - 1] ==> x in inputs;
      NothingWantedUnlisted(inputs[..|inputs| - 1], present, name);
    }
  }

  lemma {:induction false} WantedOfFirst(inputs: seq<TwinInstance>, present: set<string>, name: string)
    requires name in NamesOf(inputs)
    ensures var mine := Targets(FirstNamed(inputs, name).relationships, present);
            && mine <= WantedAt(inputs, present, name)
            && (WantedAt(inputs, present, name) == mine <==> RepeatsAddNothing(inputs, present, name))
  {
    var front, x := inputs[..|inputs| - 1], inputs[|inputs| - 1];
    assert inputs == front + [x];
    OneMoreName(front, x);
    FirstNamedKeeps(front, x, name);
    if name in NamesOf(front) {
      WantedOfFirst(front, present, name);
    } else {
      NothingWantedUnlisted(front, present, name);
      UnlistedNeverRepeats(front, present, name);
    }
  }

  lemma {:induction false} UnlistedNeverRepeats(inputs: seq<TwinInstance>, present: set<string>, name: string)
    requires name !in NamesOf(inputs)
    ensures RepeatsAddNothing(inputs, present, name)
  {
    if inputs != [] {
      assert inputs[|inputs| - 1] in inputs;
      assert forall x :: x in inputs[..|inputs| - 1] ==> x in inputs;
      UnlistedNeverRepeats(inputs[..|inputs| - 1], present, name);
    }
  }

  lemma DistinctWanted(inputs: seq<TwinInstance>, present: set<string>, i: nat)
    requires DistinctNames(inputs) && i < |inputs|
    ensures inputs[i].name in NamesOf(inputs)
    ensures FirstNamed(inputs, inputs[i].name) == inputs[i]
    ensures WantedAt(inputs, present, inputs[i].name) == Targets(inputs[i].relationships, present)
  {
    var n := inputs[i].name;
    assert inputs[i] in inputs;
    var k :| 0 <= k < |inputs| && inputs[k] == FirstNamed(inputs, n);
    DistinctNamesNeverRepeat(inputs, present, n);
    WantedOfFirst(inputs, present, n);
  }

  lemma {:induction false} FirstNamedAt(inputs: seq<TwinInstance>, name: string) returns (j: nat)
    requires name in NamesOf(inputs)
    ensures j < |inputs| && inputs[j] == FirstNamed(inputs, name)
    ensures forall k :: 0 <= k < j ==> inputs[k].name != name
  {
    if inputs[0].name == name {
      j := 0;
    } else {
      assert forall x :: x in inputs ==> x == inputs[0] || x in inputs[1..];
      var i := FirstNamedAt(inputs[1..], name);
      j := i + 1;
      assert inputs[j] == inputs[1..][i];
      assert forall k :: 1 <= k < j ==> inputs[k] == inputs[1..][k - 1];
    }
  }

  /** What is exported for a name are name, interface and relationships of the first input of that
      name. */
  lemma ExportSays<V>(g: InstanceGraph<V>, inputs: seq<TwinInstance>, settings: seq<Settings>,
                      order: seq<string>, i: nat) returns (j: nat)
    requires Rebuilt(g, inputs) && Exports(settings, order, g) && i < |settings|
    ensures j < |inputs| && forall k :: 0 <= k < j ==> inputs[k].name != inputs[j].name
    ensures settings[i].name == order[i] == inputs[j].name && settings[i].iface == inputs[j].iface
    ensures settings[i].relationships == inputs[j].relationships
  {
    RebuildIsExact(g, inputs);
    assert order[i] in order;
    j := FirstNamedAt(inputs, order[i]);
  }

  /** The exported relationships of a vertex, kept to the listed names, are its edges exactly
      when no later input of the same name adds an edge: the export shows the first instance
      only, while the edges collect all of them. */
  lemma ExportAgreesIff<V>(g: InstanceGraph<V>, inputs: seq<TwinInstance>, settings: seq<Settings>,
                           order: seq<string>, i: nat)
    requires Rebuilt(g, inputs) && Exports(settings, order, g) && i < |settings|
    ensures settings[i].name == order[i]
    ensures Targets(settings[i].relationships, NamesOf(inputs)) == S.Names(g.nodes[order[i]].edges)
            <==> RepeatsAddNothing(inputs, NamesOf(inputs), order[i])
  {
    RebuildIsExact(g, inputs);
    assert order[i] in order;
    WantedOfFirst(inputs, NamesOf(inputs), order[i]);
  }

  /** Two inputs of one name, of which the first has no relationships and the second one refers to
      that name. */
  predicate RepeatedInput(x: TwinInstance, y: TwinInstance) {
    && x.name == y.name && x.relationships == []
    && |y.relationships| == 1 && y.relationships[0].instance == x.name
  }

  lemma RepeatedInputWants(x: TwinInstance, y: TwinInstance)
    requires RepeatedInput(x, y)
    ensures NamesOf([x, y]) == {x.name} && WantedAt([x, y], {x.name}, x.name) == [x.name]
  {
    assert x in [x, y];
    assert [x, y][..1] == [x] && [x][..0] == [];
    assert y.relationships[..0] == [];
    assert Targets(y.relationships, {x.name}) == [] + [x.name];
    assert WantedAt([x], {x.name}, x.name) == [];
  }

  /** A failing input, for any two such inputs: the vertex has an edge, and its export none. */
  lemma RepeatedInputDisagrees<V>(g: InstanceGraph<V>, x: TwinInstance, y: TwinInstance, settings: seq<Settings>,
                                  order: seq<string>)
    requires RepeatedInput(x, y) && Rebuilt(g, [x, y]) && Exports(settings, order, g)
    ensures |settings| == 1 && settings[0].name == x.name && settings[0].relationships == []
    ensures g.nodes.Keys == {x.name} && S.Names(g.nodes[x.name].edges) == [x.name]
  {
    RepeatedInputWants(x, y);
    RebuildIsExact(g, [x, y]);
    OneName(order, x.name);
    assert FirstNamed([x, y], x.name) == x;
  }

  lemma OneName(order: seq<string>, n: string)
    requires forall m :: m in order <==> m == n
    requires forall i, j :: 0 <= i < j < |order| ==> order[i] != order[j]
    ensures order == [n]
  {
    assert n in order;
    assert order[0] in order && order[|order| - 1] in order;
  }

  /** The exported settings read back as instances. */
  function AsInstances(settings: seq<Settings>, rest: string): (xs: seq<TwinInstance>)
    ensures |xs| == |settings|
    ensures forall i :: 0 <= i < |xs| ==>
              xs[i] == TwinInstance(settings[i].name, settings[i].iface, settings[i].relationships, rest)
  {
    seq(|settings|, i requires 0 <= i < |settings| =>
      TwinInstance(settings[i].name, settings[i].iface, settings[i].relationships, rest))
  }

  lemma ExportNames<V>(g: InstanceGraph<V>, inputs: seq<TwinInstance>, settings: seq<Settings>,
                       order: seq<string>, rest: string)
    requires Rebuilt(g, inputs) && Exports(settings, order, g)
    ensures NamesOf(AsInstances(settings, rest)) == NamesOf(inputs)
    ensures DistinctNames(AsInstances(settings, rest))
    ensures forall i :: 0 <= i < |order| ==> settings[i].name == order[i]
  {
    var again := AsInstances(settings, rest);
    RebuildIsExact(g, inputs);
    forall i | 0 <= i < |order| ensures settings[i].name == order[i] {
      assert order[i] in order;
    }
    forall n | n in NamesOf(inputs) ensures n in NamesOf(again) {
      var i :| 0 <= i < |order| && order[i] == n;
      assert again[i] in again;
    }
  }

  /** Rebuilding from the export of a graph of distinct names gives the same names, interfaces,
      relationships and edge lists, whatever the order of the export. */
  lemma RebuildFromExport<V, W>(g: InstanceGraph<V>, inputs: seq<TwinInstance>, settings: seq<Settings>,
                                order: seq<string>, rest: string, h: InstanceGraph<W>)
    requires Rebuilt(g, inputs) && DistinctNames(inputs) && Exports(settings, order, g)
    requires Rebuilt(h, AsInstances(settings, rest))
    ensures h.nodes.Keys == g.nodes.Keys && S.Closed(h)
    ensures forall n :: n in g.nodes ==> S.Names(h.nodes[n].edges) == S.Names(g.nodes[n].edges)
    ensures forall n :: n in g.nodes ==>
              && h.nodes[n].value.name == g.nodes[n].value.name && h.nodes[n].value.iface == g.nodes[n].value.iface
              && h.nodes[n].value.relationships == g.nodes[n].value.relationships
  {
    var again := AsInstances(settings, rest);
    ExportNames(g, inputs, settings, order, rest);
    RebuildIsExact(h, again);
    forall n | n in g.nodes
      ensures S.Names(h.nodes[n].edges) == S.Names(g.nodes[n].edges)
      ensures h.nodes[n].value == AsInstances([SettingsOf(g.nodes[n].value)], rest)[0]
    {
      var i :| 0 <= i < |order| && order[i] == n;
      ExportAgreesIff(g, inputs, settings, order, i);
      DistinctNamesNeverRepeat(inputs, NamesOf(inputs), n);
      DistinctWanted(again, NamesOf(inputs), i);
    }
  }

  // ---------- order independence ----------

  lemma SameWanted(a: seq<TwinInstance>, b: seq<TwinInstance>, present: set<string>, n: string)
    requires DistinctNames(a) && DistinctNames(b) && multiset(a) == multiset(b)
    requires n in NamesOf(a) && n in NamesOf(b)
    ensures FirstNamed(a, n) == FirstNamed(b, n)
    ensures WantedAt(a, present, n) == WantedAt(b, present, n)
  {
    var x := FirstNamed(a, n);
    var i :| 0 <= i < |a| && a[i] == x;
    assert x in multiset(b);
    var j :| 0 <= j < |b| && b[j] == x;
    DistinctWanted(a, present, i);
    DistinctWanted(b, present, j);
  }

  lemma SameNames(a: seq<TwinInstance>, b: seq<TwinInstance>)
    requires multiset(a) == multiset(b)
    ensures NamesOf(a) == NamesOf(b)
  {
    forall x ensures x in a <==> x in b {
      assert x in a <==> x in multiset(a);
      assert x in b <==> x in multiset(b);
    }
  }

  lemma RebuiltView<V>(g: InstanceGraph<V>, inputs: seq<TwinInstance>)
    requires Rebuilt(g, inputs)
    ensures S.ViewOf(g) == map n | n in NamesOf(inputs) ::
              S.View(FirstNamed(inputs, n), false, WantedAt(inputs, NamesOf(inputs), n))
  {
    RebuildIsExact(g, inputs);
  }

  /** For distinct names the rebuilt graph does not depend on the order of the list. */
  lemma OrderDoesNotMatter<V, W>(a: seq<TwinInstance>, b: seq<TwinInstance>, g: InstanceGraph<V>, h: InstanceGraph<W>)
    requires DistinctNames(a) && DistinctNames(b) && multiset(a) == multiset(b)
    requires Rebuilt(g, a) && Rebuilt(h, b)
    ensures S.ViewOf(g) == S.ViewOf(h) && g.count == h.count
  {
    RebuiltView(g, a);
    RebuiltView(h, b);
    SameNames(a, b);
    LinkCountPermutes(a, b, NamesOf(a));
    forall n | n in NamesOf(a) {
      SameWanted(a, b, NamesOf(a), n);
    }
  }

  lemma LinksOfOneMore(a: seq<TwinInstance>, x: TwinInstance, present: set<string>)
    ensures Links(a + [x], present) == Links(a, present) + LinksFrom(x, present)
  {
    assert (a + [x])[..|a|] == a;
  }

  lemma {:induction false} LinksOfConcat(a: seq<TwinInstance>, b: seq<TwinInstance>, present: set<string>)
    ensures Links(a + b, present) == Links(a, present) + Links(b, present)
  {
    if b == [] {
      assert a + b == a;
    } else {
      var c, x := b[..|b| - 1], b[|b| - 1];
      calc {
        Links(a + b, present);
        { assert a + b == (a + c) + [x]; LinksOfOneMore(a + c, x, present); }
        Links(a + c, present) + LinksFrom(x, present);
        { LinksOfConcat(a, c, present); }
        Links(a, present) + Links(c, present) + LinksFrom(x, present);
        Links(a, present) + (Links(c, present) + LinksFrom(x, present));
        Links(a, present) + Links(b, present);
      }
    }
  }

  /** The last element of a, taken out of b wherever it is. */
  lemma TakeOut<X>(a: seq<X>, b: seq<X>) returns (l: seq<X>, r: seq<X>)
    requires a != [] && multiset(a) == multiset(b)
    ensures b == l + [a[|a| - 1]] + r && multiset(a[..|a| - 1]) == multiset(l + r)
  {
    var front, x := a[..|a| - 1], a[|a| - 1];
    assert a == front + [x];
    assert x in multiset(b);
    var k :| 0 <= k < |b| && b[k] == x;
    l, r := b[..k], b[k + 1..];
    assert b == l + [x] + r;
    assert multiset(front) == multiset(a) - multiset{x};
    assert multiset(l + r) == multiset(b) - multiset{x};
  }

  lemma {:induction false} LinkCountPermutes(a: seq<TwinInstance>, b: seq<TwinInstance>, present: set<string>)
    requires multiset(a) == multiset(b)
    ensures |Links(a, present)| == |Links(b, present)|
  {
    assert |a| == |multiset(a)| == |b|;
    if a != [] {
      var front, x := a[..|a| - 1], a[|a| - 1];
      var l, r := TakeOut(a, b);
      LinkCountPermutes(front, l + r, present);
      LinksOfOneMore(front, x, present);
      assert a == front + [x];
      LinksOfConcat(l, r, present);
      LinksOfConcat(l + [x], r, present);
      LinksOfOneMore(l, x, present);
    }
  }
}
