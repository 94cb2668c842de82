/** The pointer graph of pkg/graph, once for both of its instances: a resource of type T is
    stored under its key, the name of a TwinInstance or the Spec.Id of a TwinInterface. */
module TwinGraph {
  import opened GoSlices
  import S = GraphSpec

  /** `key` is the key of the resource the vertex was created with. */
  class Vertex<T> {
    ghost const key: string
    var resource: T
    var temporary: bool
    var edges: Slice<Vertex<T>>

    constructor (ghost key: string, resource: T, temporary: bool)
      ensures this.key == key && this.resource == resource && this.temporary == temporary
      ensures edges.Valid() && edges.len == 0 && fresh(edges.arr)
    {
      this.key, this.resource, this.temporary := key, resource, temporary;
      var none := new Vertex<T>[0];
      edges := Slice(none, 0);
    }

    ghost function AsNode(): S.Node<T, Vertex<T>>
      requires edges.Valid()
      reads this, edges.arr
    {
      S.Node(this, resource, temporary, Refs(edges.Elements()))
    }

    /** `v.EdgeInstances = append(v.EdgeInstances, t)` */
    method Point(t: Vertex<T>)
      requires edges.Valid()
      modifies this, edges.arr
      ensures edges.Valid() && (edges.arr == old(edges.arr) || fresh(edges.arr))
      ensures AsNode() == old(AsNode()).(edges := old(AsNode()).edges + [S.Ref(t.key, t)])
      ensures edges.Elements() == old(edges.Elements()) + [t]
    {
      edges := Append(edges, t);
    }

    /** The list is of vertices in `all`, and these have the keys they were created with. */
    ghost predicate PointsWell(keyOf: T -> string, all: set<Vertex<T>>)
      requires edges.Valid()
      reads this, edges.arr, all
    {
      Among(edges.Elements(), all) && forall u :: u in all ==> keyOf(u.resource) == u.key
    }

    /** Compares the keys of the resources the listed vertices hold now. */
    method FindEdgeIndex(keyOf: T -> string, name: string, ghost all: set<Vertex<T>>) returns (index: int)
      requires edges.Valid() && PointsWell(keyOf, all)
      ensures index == S.FirstIndex(AsNode().edges, name)
    {
      for i := 0 to edges.len
        invariant forall j :: 0 <= j < i ==> AsNode().edges[j].name != name
      {
        assert edges.Elements()[i] in all;
        if keyOf(edges.arr[i].resource) == name {
          assert AsNode().edges[i] in AsNode().edges && AsNode().edges[i].name == name;
          return i;
        }
      }
      return S.NO_INDEX;
    }

    /** What `RemoveEdge` does to a list: the shortened slice is dropped on the floor. */
    method ShiftOut(keyOf: T -> string, name: string, ghost all: set<Vertex<T>>)
      requires edges.Valid() && PointsWell(keyOf, all)
      modifies edges.arr
      ensures edges.Valid() && AsNode() == old(AsNode()).(edges := S.ShiftFirst(old(AsNode()).edges, name))
      ensures Among(edges.Elements(), all)
    {
      var index := FindEdgeIndex(keyOf, name, all);
      if index != S.NO_INDEX {
        RefsWithout(edges.Elements(), index);
        AmongWithout(edges.Elements(), index, all);
        var _ := RemoveIndex(edges, index);
      }
    }

    /** What `RemoveVertex` does to a list: the shortened slice is stored back. */
    method DropOut(keyOf: T -> string, name: string, ghost all: set<Vertex<T>>)
      requires edges.Valid() && PointsWell(keyOf, all)
      modifies this, edges.arr
      ensures edges.Valid() && edges.arr == old(edges.arr)
      ensures AsNode() == old(AsNode()).(edges := S.DropFirst(old(AsNode()).edges, name))
      ensures Among(edges.Elements(), all)
    {
      var index := FindEdgeIndex(keyOf, name, all);
      if index != S.NO_INDEX {
        RefsWithout(edges.Elements(), index);
        AmongWithout(edges.Elements(), index, all);
        edges := RemoveIndex(edges, index);
      }
    }
  }

  ghost predicate Among<X>(s: seq<X>, all: set<X>) {
    forall i :: 0 <= i < |s| ==> s[i] in all
  }

  lemma AmongWithout<X>(s: seq<X>, i: nat, all: set<X>)
    requires i < |s| && Among(s, all)
    ensures Among(Without(s, i), all) && Among(ShiftedDown(s, i), all)
  {
  }

  /** The edges a list of pointers stands for. */
  ghost function Refs<T>(s: seq<Vertex<T>>): (r: seq<S.Ref<Vertex<T>>>)
    ensures |r| == |s|
    ensures forall i :: 0 <= i < |s| ==> r[i] == S.Ref(s[i].key, s[i])
  {
    seq(|s|, i requires 0 <= i < |s| => S.Ref(s[i].key, s[i]))
  }

  lemma RefsWithout<T>(s: seq<Vertex<T>>, i: nat)
    requires i < |s|
    ensures Refs(Without(s, i)) == Without(Refs(s), i)
    ensures Refs(ShiftedDown(s, i)) == ShiftedDown(Refs(s), i)
  {
  }

  lemma Updated<X, Y>(a: map<X, Y>, x: X, b: map<X, Y>)
    requires x in b && b.Keys == a.Keys + {x} && forall k :: k in a && k != x ==> a[k] == b[k]
    ensures b == a[x := b[x]]
  {
  }

  class TwinGraph<T> {
    const keyOf: T -> string
    var count: int
    var vertexes: map<string, Vertex<T>>
    /** Every vertex there ever was in the table. */
    ghost var all: set<Vertex<T>>
    /** The key of the vertex each backing array belongs to. */
    ghost var owner: map<array<Vertex<T>>, string>

    /** Every vertex, removed ones included, holds a resource with the key it was created under;
        the table is keyed so; no two of its vertices share a backing array. */
    ghost predicate Valid()
      reads this`all, this`vertexes, this`owner, all, owner.Keys
    {
      && (forall v :: v in all ==> keyOf(v.resource) == v.key)
      && (forall n :: n in vertexes ==> StoredWell(n))
    }

    ghost predicate StoredWell(n: string)
      requires n in vertexes
      reads this`all, this`vertexes, this`owner, all, owner.Keys
    {
      var v := vertexes[n];
      && v in all && v.key == n
      && v.edges.arr in owner && owner[v.edges.arr] == n
      && v.edges.Valid() && Among(v.edges.Elements(), all)
    }

    ghost function Nodes(): map<string, S.Node<T, Vertex<T>>>
      requires Valid()
      reads this`all, this`vertexes, this`owner, all, owner.Keys
    {
      map n | n in vertexes :: vertexes[n].AsNode()
    }

    /** The graph on values that this graph stands for; identities are the vertices themselves. */
    ghost function Abs(): S.Graph<T, Vertex<T>>
      requires Valid()
      reads this, all, owner.Keys
    {
      S.Graph(Nodes(), count)
    }

    constructor (keyOf: T -> string)
      ensures this.keyOf == keyOf
      ensures Valid() && Abs() == S.Empty() && owner == map[] && all == {}
    {
      this.keyOf := keyOf;
      count, vertexes, owner, all := 0, map[], map[], {};
    }

    lemma Apart(key: string)
      requires Valid() && key in vertexes
      ensures forall n :: n in vertexes && n != key ==>
                vertexes[n] != vertexes[key] && vertexes[n].edges.arr != vertexes[key].edges.arr
    {
    }

    /** At most the vertex stored under `key` changed, and it is stored well. */
    twostate lemma StillValid(key: string)
      requires old(Valid()) && old(all) <= all && forall v :: v in all ==> keyOf(v.resource) == v.key
      requires key in vertexes && vertexes == old(vertexes)[key := vertexes[key]] && StoredWell(key)
      requires var arr := vertexes[key].edges.arr;
               owner == old(owner)[arr := key] && (arr in old(owner) ==> old(owner)[arr] == key)
      requires forall n :: n in old(vertexes) && n != key ==>
                 unchanged(old(vertexes)[n]) && unchanged(old(vertexes[n].edges.arr))
      ensures Valid()
    {
      forall n | n in vertexes ensures StoredWell(n) {
        if n != key {
          assert old(StoredWell(n)) && vertexes[n] == old(vertexes)[n];
        }
      }
    }

    /** At most the vertex stored under `key` changed. */
    twostate lemma Stored(key: string)
      requires old(Valid()) && Valid()
      requires key in vertexes && vertexes == old(vertexes)[key := vertexes[key]]
      requires forall n :: n in old(vertexes) && n != key ==>
                 unchanged(old(vertexes)[n]) && unchanged(old(vertexes[n].edges.arr))
      ensures Nodes() == old(Nodes())[key := vertexes[key].AsNode()]
    {
      var before, after := old(Nodes()), Nodes();
      forall n | n in before && n != key ensures n in after && before[n] == after[n] {
        assert vertexes[n] == old(vertexes)[n];
      }
      Updated(before, key, after);
    }

    twostate lemma Kept()
      requires old(Valid()) && Valid() && vertexes == old(vertexes)
      requires forall n :: n in vertexes ==> unchanged(vertexes[n]) && unchanged(old(vertexes[n].edges.arr))
      ensures Nodes() == old(Nodes())
    {
      var before, after := old(Nodes()), Nodes();
      assert forall n :: n in before ==> before[n] == after[n];
    }

    /** Vertices and backing arrays there were not before are newly allocated. */
    twostate predicate Grew()
      reads this
    {
      && (forall a :: a in owner ==> a in old(owner) || fresh(a))
      && (forall v :: v in all ==> v in old(all) || fresh(v))
    }

    method GetVertex(name: string) returns (v: Vertex?<T>)
      requires Valid()
      ensures v != null ==> keyOf(v.resource) == name
      ensures v != null <==> name in Nodes()
      ensures v != null ==> v.resource == Nodes()[name].value
    {
      v := if name in vertexes then vertexes[name] else null;
    }

    method Count(change: int)
      requires Valid()
      modifies this`count
      ensures Valid() && count == old(count) + change && Nodes() == old(Nodes())
    {
      count := count + change;
    }

    method NewVertex(resource: T, temporary: bool) returns (v: Vertex<T>)
      requires Valid() && keyOf(resource) !in vertexes
      modifies this
      ensures Valid() && fresh(v) && fresh(v.edges.arr)
      ensures vertexes == old(vertexes)[keyOf(resource) := v]
      ensures owner == old(owner)[v.edges.arr := keyOf(resource)] && all == old(all) + {v}
      ensures v.edges.Valid() && v.AsNode() == S.Node(v, resource, temporary, [])
      ensures count == old(count) + 1
    {
      var key := keyOf(resource);
      v := new Vertex(key, resource, temporary);
      all := all + {v};
      owner := owner[v.edges.arr := key];
      vertexes := vertexes[key := v];
      count := count + 1;
      StillValid(key);
    }

    /** `found` reports the error "already exist in the graph". A temporary vertex takes the
        resource and stops being temporary, but the error is reported all the same. */
    method AddVertex(resource: T) returns (v: Vertex<T>, found: bool)
      requires Valid()
      modifies this, vertexes.Values
      ensures Valid() && Grew()
      ensures found <==> keyOf(resource) in old(vertexes)
      ensures keyOf(resource) in vertexes && v == vertexes[keyOf(resource)]
      ensures found ==> vertexes == old(vertexes)
      ensures Abs() == S.AddVertex(old(Abs()), keyOf(resource), resource, v)
    {
      var key := keyOf(resource);
      if key in vertexes {
        v, found := vertexes[key], true;
        Apart(key);
        if v.temporary {
          v.resource := resource;
          v.temporary := false;
        }
        Stored(key);
        return;
      }
      label before:
      v := NewVertex(resource, false);
      found := false;
      Stored@before(key);
    }

    method AddTemporaryVertex(resource: T) returns (v: Vertex<T>, found: bool)
      requires Valid()
      modifies this
      ensures Valid() && v in all
      ensures found <==> keyOf(resource) in old(vertexes)
      ensures keyOf(resource) in vertexes && v == vertexes[keyOf(resource)] && v.key == keyOf(resource)
      ensures if found then vertexes == old(vertexes) else vertexes == old(vertexes)[keyOf(resource) := v]
      ensures Grew()
      ensures Abs() == S.AddTemporaryVertex(old(Abs()), keyOf(resource), resource, v)
    {
      var key := keyOf(resource);
      if key in vertexes {
        return vertexes[key], true;
      }
      label before:
      v := NewVertex(resource, true);
      found := false;
      Stored@before(key);
    }

    method PointAt(s: Vertex<T>, t: Vertex<T>)
      requires Valid() && s.key in vertexes && vertexes[s.key] == s && t in all
      modifies this`owner, s, s.edges.arr
      ensures Valid() && owner == old(owner)[s.edges.arr := s.key]
      ensures s.edges.arr == old(s.edges.arr) || fresh(s.edges.arr)
      ensures Nodes() == S.Point(old(Abs()), s.key, S.Ref(t.key, t)).nodes
    {
      Apart(s.key);
      s.Point(t);
      owner := owner[s.edges.arr := s.key];
      StillValid(s.key);
      Stored(s.key);
    }

    /** The last two statements of `AddEdge`. */
    method PointAndCount(s: Vertex<T>, t: Vertex<T>)
      requires Valid() && s.key in vertexes && vertexes[s.key] == s && t in all
      modifies this`owner, this`count, s, s.edges.arr
      ensures Valid() && Grew()
      ensures Abs() == S.Point(old(Abs()), s.key, S.Ref(t.key, t))
    {
      PointAt(s, t);
      Count(1);
    }

    /** Both endpoints are in the table: the first two statements of `AddEdge`. */
    method AddEndpoints(source: T, target: T) returns (s: Vertex<T>, t: Vertex<T>)
      requires Valid()
      modifies this
      ensures Valid() && Grew() && s.key == keyOf(source) && t.key == keyOf(target) && t in all
      ensures s.key in vertexes && s == vertexes[s.key] && t.key in vertexes && t == vertexes[t.key]
      ensures Abs() == S.WithEndpoints(old(Abs()), keyOf(source), source, s, keyOf(target), target, t)
    {
      var found;
      s, found := AddTemporaryVertex(source);
      ghost var between := Abs();
      t, found := AddTemporaryVertex(target);
      assert Abs() == S.AddTemporaryVertex(between, keyOf(target), target, t);
    }

    method AddEdge(source: T, target: T) returns (s: Vertex<T>, t: Vertex<T>)
      requires Valid()
      modifies this, all, owner.Keys
      ensures Valid() && Grew()
      ensures Abs() == S.AddEdge(old(Abs()), keyOf(source), source, s, keyOf(target), target, t)
    {
      s, t := AddEndpoints(source, target);
      PointAndCount(s, t);
    }

    method ShiftOutAt(key: string, name: string)
      requires Valid()
      modifies owner.Keys
      ensures Valid() && Abs() == S.ShiftOut(old(Abs()), key, name)
    {
      if key in vertexes {
        Apart(key);
        vertexes[key].ShiftOut(keyOf, name, all);
        Stored(key);
      }
    }

    method RemoveEdge(source: T, target: T)
      requires Valid()
      modifies owner.Keys
      ensures Valid() && Abs() == S.RemoveEdge(old(Abs()), keyOf(source), keyOf(target))
    {
      ShiftOutAt(keyOf(source), keyOf(target));
      ShiftOutAt(keyOf(target), keyOf(source));
    }

    method DropOutAt(key: string, name: string)
      requires Valid() && key in vertexes
      modifies vertexes.Values, owner.Keys
      ensures Valid()
      ensures Nodes() == old(Nodes())[key :=
                old(Nodes())[key].(edges := S.DropFirst(old(Nodes())[key].edges, name))]
    {
      Apart(key);
      vertexes[key].DropOut(keyOf, name, all);
      Stored(key);
    }

    /** The loop of `RemoveVertex`, over the vertices of the table in any order. */
    method DropOutEverywhere(name: string)
      requires Valid()
      modifies vertexes.Values, owner.Keys
      ensures Valid()
      ensures Nodes() == S.DropEverywhere(old(Nodes()), name)
    {
      ghost var before := Nodes();
      var todo := vertexes.Keys;
      S.DroppedNone(before, name);
      assert todo == before.Keys;
      while todo != {}
        invariant Valid() && todo <= vertexes.Keys
        invariant S.DroppedBut(before, Nodes(), name, todo)
      {
        var n :| n in todo;
        ghost var now := Nodes();
        DropOutAt(n, name);
        S.DroppedOneMore(before, now, Nodes(), name, todo, n);
        todo := todo - {n};
      }
      S.DroppedAll(before, Nodes(), name);
    }

    /** `delete(g.Vertexes, key)` */
    method Delete(key: string)
      requires Valid()
      modifies this`vertexes
      ensures Valid() && vertexes == old(vertexes) - {key}
      ensures Nodes() == old(Nodes()) - {key}
    {
      vertexes := vertexes - {key};
      forall n | n in vertexes ensures StoredWell(n) {
        assert old(StoredWell(n));
      }
    }

    method RemoveVertex(resource: T) returns (found: bool)
      requires Valid()
      modifies this, vertexes.Values, owner.Keys
      ensures Valid() && found == (keyOf(resource) in old(vertexes)) && owner == old(owner)
      ensures Abs() == S.RemoveVertex(old(Abs()), keyOf(resource))
    {
      var key := keyOf(resource);
      found := key in vertexes;
      if found {
        Delete(key);
        DropOutEverywhere(key);
        Count(-1);
      }
    }
  }
}
