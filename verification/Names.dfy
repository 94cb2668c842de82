/** The generated names of bindings: when two children get the same one, so that creating the
    second is answered "already exists" and swallowed. */
module Names {
  import opened Resources
  import opened Text
  import opened Words
  import opened TwinEvents
  import opened TwinInterfaceMachine

  // ---------- families and stems ----------

  datatype Family = Mqtt | Real | Command | Store

  function FamilyOf(c: Child): Family
    requires !c.OwnService? && !c.OwnTrigger?
  {
    match c
    case OwnMqtt => Mqtt
    case RelationshipMqtt(_) => Mqtt
    case RelationshipReal(_) => Real
    case CommandBound(_) => Command
    case EventStoreBound => Store
  }

  predicate IsBinding(c: Child) {
    !c.OwnService? && !c.OwnTrigger?
  }

  function Stem(ti: TwinInterface, c: Child): string
    requires IsBinding(c)
  {
    var n := ToLower(ti.id.name);
    match c
    case OwnMqtt => n
    case RelationshipMqtt(r) => n + "-" + ToLower(r.name)
    case RelationshipReal(r) => n + "-" + ToLower(r.name)
    case CommandBound(command) => n + "-" + ToLower(command)
    case EventStoreBound => n
  }

  function Suffix(f: Family): string {
    match f
    case Mqtt => "-real-mqtt-dispatcher"
    case Real => "-real-dispatcher"
    case Command => "-command-dispatcher"
    case Store => "-event-store"
  }

  lemma NameIsStemAndSuffix(ti: TwinInterface, c: Child)
    requires IsBinding(c)
    ensures ChildKey(ti, c) == Key(BindingKind, ti.id.ns, Stem(ti, c) + Suffix(FamilyOf(c)))
  {
  }

  /** The character 12 places from the end tells the dispatcher families apart. */
  function Mark(f: Family): char {
    match f
    case Mqtt => 't'
    case Real => 'l'
    case Command => 'd'
    case Store => 'e'
  }

  lemma SuffixShowsMark(x: string, f: Family)
    ensures var name := x + Suffix(f);
            && |name| >= 12
            && (f.Store? <==> name[|name| - 1] == 'e')
            && (!f.Store? ==> name[|name| - 12] == Mark(f))
  {
  }

  lemma SameConcat(x: string, y: string, suffix: string)
    ensures x + suffix == y + suffix <==> x == y
  {
    if x + suffix == y + suffix {
      assert (x + suffix)[..|x|] == x && (y + suffix)[..|y|] == y;
    }
  }

  lemma SameStemIff(a: TwinInterface, c: Child, b: TwinInterface, d: Child)
    requires IsBinding(c) && IsBinding(d)
    ensures ChildKey(a, c) == ChildKey(b, d)
            <==> a.id.ns == b.id.ns && FamilyOf(c) == FamilyOf(d) && Stem(a, c) == Stem(b, d)
  {
    NameIsStemAndSuffix(a, c);
    NameIsStemAndSuffix(b, d);
    SuffixShowsMark(Stem(a, c), FamilyOf(c));
    SuffixShowsMark(Stem(b, d), FamilyOf(d));
    SameConcat(Stem(a, c), Stem(b, d), Suffix(FamilyOf(c)));
  }

  /** What tells apart two children of one interface, up to letter case. */
  function Part(c: Child): string {
    match c
    case RelationshipMqtt(r) => ToLower(r.name)
    case RelationshipReal(r) => ToLower(r.name)
    case CommandBound(command) => ToLower(command)
    case _ => ""
  }

  predicate SameSlot(c: Child, d: Child) {
    && Part(c) == Part(d)
    && match c
       case OwnService => d.OwnService?
       case OwnTrigger => d.OwnTrigger?
       case OwnMqtt => d.OwnMqtt?
       case RelationshipMqtt(_) => d.RelationshipMqtt?
       case EventStoreBound => d.EventStoreBound?
       case RelationshipReal(_) => d.RelationshipReal?
       case CommandBound(_) => d.CommandBound?
  }

  /** Which names collide, for all names whatsoever, up to letter case: interface n-r with interface
      n that has a relationship r; and for two relationships or two commands, a part that has moved
      from the interface name to the other name, or nothing at all. */
  ghost predicate Collide(n: string, c: Child, m: string, d: Child)
    requires IsBinding(c) && IsBinding(d)
  {
    var x, y := Part(c), Part(d);
    if FamilyOf(c) != FamilyOf(d) then false
    else if OneName(c) && OneName(d) then n == m
    else if OneName(c) then n == m + "-" + y
    else if OneName(d) then m == n + "-" + x
    else (n == m && x == y) || PartMoved('-', n, x, m, y) || PartMoved('-', m, y, n, x)
  }

  /** The name is made of the interface's alone. */
  predicate OneName(c: Child) {
    c.OwnMqtt? || c.EventStoreBound?
  }

  lemma StemIsNames(ti: TwinInterface, c: Child)
    requires IsBinding(c)
    ensures Stem(ti, c) == if OneName(c) then ToLower(ti.id.name) else ToLower(ti.id.name) + ['-'] + Part(c)
  {
  }

  /** For all names: two bindings get the same key exactly if they are in one namespace and their
      names collide. */
  lemma SameKeyIff(a: TwinInterface, c: Child, b: TwinInterface, d: Child)
    requires IsBinding(c) && IsBinding(d)
    ensures ChildKey(a, c) == ChildKey(b, d)
            <==> a.id.ns == b.id.ns && Collide(ToLower(a.id.name), c, ToLower(b.id.name), d)
  {
    SameStemIff(a, c, b, d);
    StemIsNames(a, c);
    StemIsNames(b, d);
    SameJoinIff('-', ToLower(a.id.name), Part(c), ToLower(b.id.name), Part(d));
  }

  // ---------- names without '-' ----------

  predicate DashFree(ti: TwinInterface, c: Child) {
    && '-' !in ti.id.name
    && match c
       case RelationshipMqtt(r) => '-' !in r.name
       case RelationshipReal(r) => '-' !in r.name
       case CommandBound(command) => '-' !in command
       case _ => true
  }

  lemma LowerKeepsDashFree(s: string)
    requires '-' !in s
    ensures '-' !in ToLower(s)
  {
    var r := ToLower(s);
    forall i | 0 <= i < |r| ensures r[i] != '-' {
      assert s[i] in s;
    }
  }

  function StemWords(ti: TwinInterface, c: Child): seq<string> {
    if c.OwnMqtt? || c.EventStoreBound? then [ToLower(ti.id.name)] else [ToLower(ti.id.name), Part(c)]
  }

  lemma WordsOfStem(ti: TwinInterface, c: Child)
    requires IsBinding(c) && DashFree(ti, c)
    ensures Split(Stem(ti, c), '-') == StemWords(ti, c)
  {
    var n := ToLower(ti.id.name);
    LowerKeepsDashFree(ti.id.name);
    SplitOfOneWord(n, '-');
    if c.OwnMqtt? || c.EventStoreBound? {
    } else {
      PartIsOneWord(ti, c);
      SplitOfConcat(n, Part(c), '-');
      assert Stem(ti, c) == n + ['-'] + Part(c);
    }
  }

  lemma PartIsOneWord(ti: TwinInterface, c: Child)
    requires DashFree(ti, c) && (c.RelationshipMqtt? || c.RelationshipReal? || c.CommandBound?)
    ensures Split(Part(c), '-') == [Part(c)]
  {
    match c
    case RelationshipMqtt(r) => LowerKeepsDashFree(r.name); SplitOfOneWord(Part(c), '-');
    case RelationshipReal(r) => LowerKeepsDashFree(r.name); SplitOfOneWord(Part(c), '-');
    case CommandBound(command) => LowerKeepsDashFree(command); SplitOfOneWord(Part(c), '-');
  }

  /** For names without '-' only the same child of the same interface, up to letter case, gets
      the same key. */
  lemma DashFreeSameKeyIff(a: TwinInterface, c: Child, b: TwinInterface, d: Child)
    requires IsBinding(c) && IsBinding(d) && DashFree(a, c) && DashFree(b, d)
    ensures ChildKey(a, c) == ChildKey(b, d)
            <==> a.id.ns == b.id.ns && ToLower(a.id.name) == ToLower(b.id.name) && SameSlot(c, d)
  {
    SameStemIff(a, c, b, d);
    WordsOfStem(a, c);
    WordsOfStem(b, d);
    if Stem(a, c) == Stem(b, d) {
      assert StemWords(a, c)[0] == StemWords(b, d)[0];
      assert |StemWords(a, c)| == |StemWords(b, d)|;
      assert |StemWords(a, c)| == 2 ==> StemWords(a, c)[1] == StemWords(b, d)[1];
    }
  }

  // ---------- a whole set of interfaces ----------

  /** All bindings of an interface, in the order they are made. */
  function Bindings(ti: TwinInterface): (cs: seq<Child>)
    ensures forall i :: 0 <= i < |cs| ==> IsBinding(cs[i])
  {
    MqttChildren(ti) + [EventStoreBound] + RelationshipChildren(ti) + CommandChildren(ti)
  }

  predicate DistinctParts(parts: seq<string>) {
    forall i, j :: 0 <= i < j < |parts| ==> ToLower(parts[i]) != ToLower(parts[j])
  }

  function RelationshipNames(ti: TwinInterface): (ns: seq<string>)
    ensures |ns| == |Aggregated(ti.spec.relationships)|
    ensures forall i :: 0 <= i < |ns| ==> ns[i] == Aggregated(ti.spec.relationships)[i].name
  {
    var rs := Aggregated(ti.spec.relationships);
    seq(|rs|, i requires 0 <= i < |rs| => rs[i].name)
  }

  /** No '-' anywhere; relationships have different names, and so have commands. */
  ghost predicate WellNamed(ti: TwinInterface) {
    && '-' !in ti.id.name
    && (forall i :: 0 <= i < |RelationshipNames(ti)| ==> '-' !in RelationshipNames(ti)[i])
    && (forall i :: 0 <= i < |ti.spec.commands| ==> '-' !in ti.spec.commands[i])
    && DistinctParts(RelationshipNames(ti)) && DistinctParts(ti.spec.commands)
  }

  lemma BindingsAreDashFree(ti: TwinInterface, i: nat)
    requires WellNamed(ti) && i < |Bindings(ti)|
    ensures DashFree(ti, Bindings(ti)[i])
  {
    var c := Bindings(ti)[i];
    if c.RelationshipMqtt? {
      assert c.relationship.name == RelationshipNames(ti)[i - 1];
    } else if c.RelationshipReal? {
      assert c.relationship.name == RelationshipNames(ti)[i - |MqttChildren(ti)| - 1];
    } else if c.CommandBound? {
      assert c.command == ti.spec.commands[i - |MqttChildren(ti)| - 1 - |RelationshipChildren(ti)|];
    }
  }

  lemma BindingsFillDifferentSlots(ti: TwinInterface, i: nat, j: nat)
    requires WellNamed(ti) && i < j < |Bindings(ti)|
    ensures !SameSlot(Bindings(ti)[i], Bindings(ti)[j])
  {
    var c, d := Bindings(ti)[i], Bindings(ti)[j];
    var m := |MqttChildren(ti)| + 1;
    if c.RelationshipMqtt? && d.RelationshipMqtt? {
      assert ToLower(RelationshipNames(ti)[i - 1]) != ToLower(RelationshipNames(ti)[j - 1]);
    } else if c.RelationshipReal? && d.RelationshipReal? {
      assert ToLower(RelationshipNames(ti)[i - m]) != ToLower(RelationshipNames(ti)[j - m]);
    } else if c.CommandBound? && d.CommandBound? {
      var k := m + |RelationshipChildren(ti)|;
      assert ToLower(ti.spec.commands[i - k]) != ToLower(ti.spec.commands[j - k]);
    }
  }

  predicate SameInterface(a: TwinInterface, b: TwinInterface) {
    a.id.ns == b.id.ns && ToLower(a.id.name) == ToLower(b.id.name)
  }

  /** For any set of well-named interfaces, different up to letter case, all bindings get
      different keys: no Create is swallowed because of somebody else's binding. */
  lemma AllBindingsDiffer(tis: seq<TwinInterface>, p: nat, i: nat, q: nat, j: nat)
    requires forall n :: 0 <= n < |tis| ==> WellNamed(tis[n])
    requires forall n, m :: 0 <= n < m < |tis| ==> !SameInterface(tis[n], tis[m])
    requires p < |tis| && i < |Bindings(tis[p])| && q < |tis| && j < |Bindings(tis[q])|
    ensures ChildKey(tis[p], Bindings(tis[p])[i]) == ChildKey(tis[q], Bindings(tis[q])[j]) <==> p == q && i == j
  {
    BindingsAreDashFree(tis[p], i);
    BindingsAreDashFree(tis[q], j);
    DashFreeSameKeyIff(tis[p], Bindings(tis[p])[i], tis[q], Bindings(tis[q])[j]);
    if p == q && i != j {
      if i < j {
        BindingsFillDifferentSlots(tis[p], i, j);
      } else {
        BindingsFillDifferentSlots(tis[p], j, i);
      }
      SlotsAreSymmetric(Bindings(tis[p])[i], Bindings(tis[p])[j]);
    }
  }

  lemma SlotsAreSymmetric(c: Child, d: Child)
    ensures SameSlot(c, d) <==> SameSlot(d, c)
  {
  }

  // ---------- with '-' ----------

  lemma LowerOfConcat(s: string, t: string)
    ensures ToLower(s + t) == ToLower(s) + ToLower(t)
  {
  }

  /** With '-' in a name the claim fails: interface a with a relationship r and interface a-r
      claim the same binding, whatever a and r are. */
  lemma DashesCollide(a: TwinInterface, r: TwinRelationship, b: TwinInterface)
    requires a.id.ns == b.id.ns && b.id.name == a.id.name + "-" + r.name
    ensures ChildKey(a, RelationshipMqtt(r)) == ChildKey(b, OwnMqtt)
    ensures Wanted(b, OwnMqtt) && (r.aggregateData && r in a.spec.relationships ==> Wanted(a, RelationshipMqtt(r)))
  {
    LowerOfConcat(a.id.name, "-");
    LowerOfConcat(a.id.name + "-", r.name);
    assert ToLower("-") == "-";
    SameStemIff(a, RelationshipMqtt(r), b, OwnMqtt);
    if r.aggregateData && r in a.spec.relationships {
      var rs := Aggregated(a.spec.relationships);
      assert r in rs;
      var i :| 0 <= i < |rs| && rs[i] == r;
      assert MqttChildren(a)[i + 1] == RelationshipMqtt(r);
    }
  }
}
