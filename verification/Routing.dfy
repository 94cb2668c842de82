/** What the generated bindings deliver: which topics reach the MQTT dispatcher, and which
    events reach the queue of an interface. */
module Routing {
  import opened Resources
  import opened TwinEvents
  import opened Words
  import opened Amqp

  // ---------- topics to the MQTT dispatcher ----------

  /** An interface name or the target of an aggregating relationship. */
  predicate Announced(tis: seq<TwinInterface>, n: string) {
    exists p :: 0 <= p < |tis| && AnnouncedBy(tis[p], n)
  }

  predicate AnnouncedBy(ti: TwinInterface, n: string) {
    n == ti.id.name || exists i :: 0 <= i < |ti.spec.relationships| && Aggregates(ti.spec.relationships[i], n)
  }

  predicate Aggregates(r: TwinRelationship, n: string) {
    r.aggregateData && r.iface == n
  }

  predicate ToDispatcher(b: Object, routingKey: string) {
    && b.body.BindingBody? && b.body.binding.source == TOPIC_EXCHANGE
    && b.body.binding.destination == MQTT_DISPATCHER_QUEUE && TopicMatches(b.body.binding.routingKey, routingKey)
  }

  /** Some MQTT binding of some of these interfaces takes the key to the dispatcher's queue. */
  predicate ReachesDispatcher(tis: seq<TwinInterface>, routingKey: string) {
    exists p, i :: 0 <= p < |tis| && 0 <= i < |MqttBindings(tis[p])|
                   && ToDispatcher(MqttBindings(tis[p])[i], routingKey)
  }

  /** The words of twinscale.real.N. */
  function RealWords(n: string): seq<string> {
    Split(EventTypeReal(n), '.')
  }

  lemma TwoWordsThen(a: string, b: string, n: string)
    requires '.' !in a && '.' !in b
    ensures Split(a + "." + b + "." + n, '.') == [a, b] + Split(n, '.')
  {
    SplitOfOneWord(a, '.');
    SplitOfOneWord(b, '.');
    assert a + "." + b + "." + n == a + ['.'] + (b + ['.'] + n);
    SplitOfConcat(a, b + ['.'] + n, '.');
    SplitOfConcat(b, n, '.');
    assert [a] + ([b] + Split(n, '.')) == [a, b] + Split(n, '.');
  }

  lemma WordsOfReal(n: string)
    ensures RealWords(n) == ["twinscale", "real"] + Split(n, '.')
  {
    TwoWordsThen("twinscale", "real", n);
    assert "twinscale.real." == "twinscale" + "." + "real" + ".";
  }

  lemma WordsOfBindingKey(n: string)
    ensures Split(EventTypeReal(n + ".#"), '.') == RealWords(n) + [ANY_WORDS]
  {
    WordsOfReal(n + ".#");
    assert n + ".#" == n + ['.'] + "#";
    SplitOfConcat(n, "#", '.');
    SplitOfOneWord("#", '.');
    WordsOfReal(n);
    assert ["twinscale", "real"] + (Split(n, '.') + ["#"]) == RealWords(n) + ["#"];
  }

  predicate LiteralName(n: string) {
    Literal(Split(n, '.'))
  }

  /** The target of the i-th MQTT binding. */
  function Target(ti: TwinInterface, i: nat): string
    requires i <= |Aggregated(ti.spec.relationships)|
  {
    if i == 0 then ti.id.name else Aggregated(ti.spec.relationships)[i - 1].iface
  }

  lemma BindingOfTarget(ti: TwinInterface, i: nat)
    requires i < |MqttBindings(ti)|
    ensures MqttBindings(ti)[i] == MqttBinding(ti, MqttBindings(ti)[i].meta.name, Target(ti, i))
    ensures AnnouncedBy(ti, Target(ti, i))
  {
    if i > 0 {
      var r := Aggregated(ti.spec.relationships)[i - 1];
      assert r in Aggregated(ti.spec.relationships);
      var j :| 0 <= j < |ti.spec.relationships| && ti.spec.relationships[j] == r;
      assert Aggregates(ti.spec.relationships[j], r.iface);
    }
  }

  lemma AggregatedAt(rs: seq<TwinRelationship>, j: nat) returns (k: nat)
    requires j < |rs| && rs[j].aggregateData
    ensures k < |Aggregated(rs)| && Aggregated(rs)[k] == rs[j]
  {
    var agg, r := Aggregated(rs), rs[j];
    assert r in rs;
    k :| k < |agg| && agg[k] == r;
  }

  lemma EveryTargetHasABinding(ti: TwinInterface, n: string) returns (i: nat)
    requires AnnouncedBy(ti, n)
    ensures i <= |Aggregated(ti.spec.relationships)| && Target(ti, i) == n
  {
    if n == ti.id.name {
      i := 0;
    } else {
      var j :| 0 <= j < |ti.spec.relationships| && Aggregates(ti.spec.relationships[j], n);
      var k := AggregatedAt(ti.spec.relationships, j);
      i := k + 1;
    }
  }

  /** The key starts with the words of twinscale.real.N for some announced name N. */
  ghost predicate UnderAnnounced(tis: seq<TwinInterface>, routingKey: string) {
    exists n :: Announced(tis, n) && RealWords(n) <= Split(routingKey, '.')
  }

  /** The name starts with the words of an announced name without wildcards, perhaps itself. */
  ghost predicate GroundedName(tis: seq<TwinInterface>, n: string) {
    exists m :: Announced(tis, m) && LiteralName(m) && RealWords(m) <= RealWords(n)
  }

  ghost predicate Grounded(tis: seq<TwinInterface>) {
    forall n :: Announced(tis, n) ==> GroundedName(tis, n)
  }

  /** What one binding takes to the dispatcher, whatever its name. */
  predicate Takes(n: string, routingKey: string) {
    WordsMatch(RealWords(n) + [ANY_WORDS], Split(routingKey, '.'))
  }

  lemma ReachesByTaking(tis: seq<TwinInterface>, routingKey: string)
    ensures ReachesDispatcher(tis, routingKey) <==> exists n :: Announced(tis, n) && Takes(n, routingKey)
  {
    if ReachesDispatcher(tis, routingKey) {
      var p, i :| 0 <= p < |tis| && 0 <= i < |MqttBindings(tis[p])|
                  && ToDispatcher(MqttBindings(tis[p])[i], routingKey);
      BindingOfTarget(tis[p], i);
      WordsOfBindingKey(Target(tis[p], i));
      assert Announced(tis, Target(tis[p], i)) && Takes(Target(tis[p], i), routingKey);
    }
    forall n | Announced(tis, n) && Takes(n, routingKey) ensures ReachesDispatcher(tis, routingKey) {
      var p :| 0 <= p < |tis| && AnnouncedBy(tis[p], n);
      var i := EveryTargetHasABinding(tis[p], n);
      BindingOfTarget(tis[p], i);
      WordsOfBindingKey(n);
      assert ToDispatcher(MqttBindings(tis[p])[i], routingKey);
    }
  }

  lemma LiteralRealIsLiteralName(m: string)
    ensures Literal(RealWords(m)) <==> LiteralName(m)
  {
    WordsOfReal(m);
    assert "twinscale"[0] == 't' && "real"[0] == 'r';
    var ws, rest := RealWords(m), Split(m, '.');
    assert forall i :: 0 <= i < |rest| ==> rest[i] == ws[i + 2];
  }

  lemma LiteralNameTakes(m: string, routingKey: string)
    requires LiteralName(m)
    ensures Takes(m, routingKey) <==> RealWords(m) <= Split(routingKey, '.')
  {
    LiteralRealIsLiteralName(m);
    LiteralThenHash(RealWords(m), Split(routingKey, '.'));
  }

  /** A name that starts with the words of a literal name takes only keys that do so, too. */
  lemma TakesOnlyUnder(m: string, n: string, routingKey: string)
    requires LiteralName(m) && RealWords(m) <= RealWords(n) && Takes(n, routingKey)
    ensures RealWords(m) <= Split(routingKey, '.')
  {
    LiteralRealIsLiteralName(m);
    var front, whole := RealWords(m), RealWords(n) + [ANY_WORDS];
    assert whole == front + whole[|front|..];
    LiteralFront(front, whole[|front|..], Split(routingKey, '.'));
  }

  /** A name a grounded name stands on takes every key the grounded one takes, and every key under
      it. */
  lemma GroundTakes(tis: seq<TwinInterface>, n: string, routingKey: string) returns (m: string)
    requires GroundedName(tis, n) && (Takes(n, routingKey) || RealWords(n) <= Split(routingKey, '.'))
    ensures Announced(tis, m) && Takes(m, routingKey) && RealWords(m) <= Split(routingKey, '.')
  {
    m :| Announced(tis, m) && LiteralName(m) && RealWords(m) <= RealWords(n);
    if Takes(n, routingKey) {
      TakesOnlyUnder(m, n, routingKey);
    }
    LiteralNameTakes(m, routingKey);
  }

  lemma TakenMeansUnder(tis: seq<TwinInterface>, n: string, routingKey: string)
    requires Grounded(tis) && Announced(tis, n) && Takes(n, routingKey)
    ensures UnderAnnounced(tis, routingKey)
  {
    var _ := GroundTakes(tis, n, routingKey);
  }

  lemma UnderIsTaken(tis: seq<TwinInterface>, n: string, routingKey: string) returns (m: string)
    requires Grounded(tis) && Announced(tis, n) && RealWords(n) <= Split(routingKey, '.')
    ensures Announced(tis, m) && Takes(m, routingKey)
  {
    m := GroundTakes(tis, n, routingKey);
  }

  /** If every announced name starts with the words of an announced name without wildcards, a key
      reaches the dispatcher exactly if it starts with the words of twinscale.real.N for some
      announced name N. */
  lemma ReachesDispatcherIff(tis: seq<TwinInterface>, routingKey: string)
    requires Grounded(tis)
    ensures ReachesDispatcher(tis, routingKey) <==> UnderAnnounced(tis, routingKey)
  {
    ReachesByTaking(tis, routingKey);
    if ReachesDispatcher(tis, routingKey) {
      var n :| Announced(tis, n) && Takes(n, routingKey);
      TakenMeansUnder(tis, n, routingKey);
    } else if UnderAnnounced(tis, routingKey) {
      var n :| Announced(tis, n) && RealWords(n) <= Split(routingKey, '.');
      var _ := UnderIsTaken(tis, n, routingKey);
    }
  }

  // ---------- and only then ----------

  /** No announced name is longer than this. */
  function LongestTarget(rs: seq<TwinRelationship>): (l: nat)
    ensures forall i :: 0 <= i < |rs| ==> |rs[i].iface| <= l
  {
    if rs == [] then 0
    else
      var front, last := LongestTarget(rs[..|rs| - 1]), |rs[|rs| - 1].iface|;
      if last > front then last else front
  }

  function Longest(tis: seq<TwinInterface>): (l: nat)
    ensures forall p :: 0 <= p < |tis| ==> |tis[p].id.name| <= l && LongestTarget(tis[p].spec.relationships) <= l
  {
    if tis == [] then 0
    else
      var last := tis[|tis| - 1];
      var front, targets := Longest(tis[..|tis| - 1]), LongestTarget(last.spec.relationships);
      var own := if |last.id.name| > targets then |last.id.name| else targets;
      if own > front then own else front
  }

  lemma AnnouncedAreShort(tis: seq<TwinInterface>, n: string)
    requires Announced(tis, n)
    ensures |n| <= Longest(tis)
  {
    var p :| 0 <= p < |tis| && AnnouncedBy(tis[p], n);
    if n != tis[p].id.name {
      var i :| 0 <= i < |tis[p].spec.relationships| && Aggregates(tis[p].spec.relationships[i], n);
    }
  }

  /** A word longer than every announced name and than "twinscale". */
  function Stranger(tis: seq<TwinInterface>): (w: string)
    ensures |w| == Longest(tis) + 10 && '.' !in w && w != ANY_WORD && w != ANY_WORDS
  {
    var w := seq(Longest(tis) + 10, i => 'a');
    assert w[0] == 'a' && ANY_WORD[0] == '*' && ANY_WORDS[0] == '#';
    w
  }

  function Filled(ws: seq<string>, w: string): (r: seq<string>)
    ensures |r| == |ws|
    ensures forall i :: 0 <= i < |ws| ==> r[i] == if ws[i] == ANY_WORD || ws[i] == ANY_WORDS then w else ws[i]
  {
    seq(|ws|, i requires 0 <= i < |ws| => if ws[i] == ANY_WORD || ws[i] == ANY_WORDS then w else ws[i])
  }

  /** The wildcards of a name, replaced by a strange word, make a key the name takes. */
  lemma {:induction false} TakesFilled(ws: seq<string>, w: string)
    ensures WordsMatch(ws + [ANY_WORDS], Filled(ws, w))
  {
    var pattern, key := ws + [ANY_WORDS], Filled(ws, w);
    if ws == [] {
      HashTakesAll(key);
      assert pattern == [ANY_WORDS];
    } else {
      TakesFilled(ws[1..], w);
      assert pattern[1..] == ws[1..] + [ANY_WORDS] && key[1..] == Filled(ws[1..], w);
      if ws[0] == ANY_WORDS {
        HashTakesOne(pattern, key);
      }
    }
  }

  lemma HashTakesOne(pattern: seq<string>, key: seq<string>)
    requires pattern != [] && pattern[0] == ANY_WORDS && key != [] && WordsMatch(pattern[1..], key[1..])
    ensures WordsMatch(pattern, key)
  {
    assert WordsMatch(pattern, key[1..]);
  }

  function KeyFor(tis: seq<TwinInterface>, n: string): string {
    Join(Filled(RealWords(n), Stranger(tis)), '.')
  }

  lemma WordsOfKeyFor(tis: seq<TwinInterface>, n: string)
    ensures Split(KeyFor(tis, n), '.') == Filled(RealWords(n), Stranger(tis))
  {
    WordsHaveNoSeparator(EventTypeReal(n), '.');
    SplitOfJoin(Filled(RealWords(n), Stranger(tis)), '.');
  }

  lemma ShorterWordsAreLiteral(mine: seq<string>, ws: seq<string>, w: string)
    requires mine <= Filled(ws, w) && forall i :: 0 <= i < |mine| ==> |mine[i]| < |w|
    ensures Literal(mine) && mine <= ws
  {
    forall i | 0 <= i < |mine| ensures mine[i] == ws[i] && mine[i] != ANY_WORD && mine[i] != ANY_WORDS {
      assert mine[i] == Filled(ws, w)[i];
    }
  }

  lemma RealWordsAreShort(tis: seq<TwinInterface>, m: string)
    requires Announced(tis, m)
    ensures forall i :: 0 <= i < |RealWords(m)| ==> |RealWords(m)[i]| < |Stranger(tis)|
  {
    AnnouncedAreShort(tis, m);
    WordsAreNoLonger(m, '.');
    WordsOfReal(m);
  }

  /** Only literal names are under a key with strange words: the strange ones are too long. */
  lemma StrangersHideNothing(tis: seq<TwinInterface>, n: string, m: string)
    requires Announced(tis, m) && RealWords(m) <= Filled(RealWords(n), Stranger(tis))
    ensures LiteralName(m) && RealWords(m) <= RealWords(n)
  {
    RealWordsAreShort(tis, m);
    ShorterWordsAreLiteral(RealWords(m), RealWords(n), Stranger(tis));
    LiteralRealIsLiteralName(m);
  }

  /** The exact condition: the keys that reach the dispatcher are those under an announced name
      if and only if every announced name starts with the words of an announced name without
      wildcards. */
  lemma TopicsAreExactIff(tis: seq<TwinInterface>)
    ensures (forall routingKey :: ReachesDispatcher(tis, routingKey) <==> UnderAnnounced(tis, routingKey))
            <==> Grounded(tis)
  {
    if Grounded(tis) {
      forall routingKey ensures ReachesDispatcher(tis, routingKey) <==> UnderAnnounced(tis, routingKey) {
        ReachesDispatcherIff(tis, routingKey);
      }
    }
    if forall routingKey :: ReachesDispatcher(tis, routingKey) <==> UnderAnnounced(tis, routingKey) {
      forall n | Announced(tis, n) ensures GroundedName(tis, n) {
        var key := KeyFor(tis, n);
        WordsOfKeyFor(tis, n);
        TakesFilled(RealWords(n), Stranger(tis));
        assert Takes(n, key);
        ReachesByTaking(tis, key);
        var m :| Announced(tis, m) && RealWords(m) <= Split(key, '.');
        StrangersHideNothing(tis, n, m);
      }
    }
  }

  // ---------- names without dots ----------

  lemma OneWordPrefix(n: string, j: string, rest: seq<string>)
    requires '.' !in n && '.' !in j
    ensures RealWords(n) <= ["twinscale", "real", j] + rest <==> n == j
  {
    WordsOfReal(n);
    SplitOfOneWord(n, '.');
    var key := ["twinscale", "real", j] + rest;
    assert RealWords(n) == ["twinscale", "real", n];
    assert key[..3] == ["twinscale", "real", j];
    if RealWords(n) <= key {
      assert key[2] == RealWords(n)[2];
    }
  }

  lemma WordsOfInstanceKey(j: string, rest: string)
    requires '.' !in j
    ensures Split(EventTypeReal(j) + "." + rest, '.') == ["twinscale", "real", j] + Split(rest, '.')
  {
    WordsOfReal(j);
    SplitOfOneWord(j, '.');
    SplitOfConcat(EventTypeReal(j), rest, '.');
    assert EventTypeReal(j) + "." + rest == EventTypeReal(j) + ['.'] + rest;
    assert ["twinscale", "real"] + [j] == ["twinscale", "real", j];
  }

  lemma UnderInstanceKey(tis: seq<TwinInterface>, j: string, rest: string)
    requires '.' !in j && forall n :: Announced(tis, n) ==> '.' !in n
    ensures UnderAnnounced(tis, EventTypeReal(j) + "." + rest) <==> Announced(tis, j)
  {
    WordsOfInstanceKey(j, rest);
    OneWordPrefix(j, j, Split(rest, '.'));
    forall n | Announced(tis, n)
      ensures RealWords(n) <= Split(EventTypeReal(j) + "." + rest, '.') <==> n == j
    {
      OneWordPrefix(n, j, Split(rest, '.'));
    }
  }

  /** With names free of dots, everything under twinscale.real.J reaches the dispatcher exactly if
      J is announced. */
  lemma DotFreeTopics(tis: seq<TwinInterface>, j: string, rest: string)
    requires Grounded(tis) && '.' !in j && forall n :: Announced(tis, n) ==> '.' !in n
    ensures ReachesDispatcher(tis, EventTypeReal(j) + "." + rest) <==> Announced(tis, j)
  {
    ReachesDispatcherIff(tis, EventTypeReal(j) + "." + rest);
    UnderInstanceKey(tis, j, rest);
  }

  lemma OneWordUnder(n: string, j: string)
    requires '.' !in j
    ensures RealWords(n) <= RealWords(j) <==> n == j
  {
    SplitOfOneWord(j, '.');
    WordsOfReal(j);
    WordsOfReal(n);
    if RealWords(n) <= RealWords(j) {
      assert RealWords(n)[2] == RealWords(j)[2];
      JoinOfSplit(n, '.');
    }
  }

  lemma DotFreeUnder(tis: seq<TwinInterface>, j: string)
    requires '.' !in j
    ensures UnderAnnounced(tis, EventTypeReal(j)) <==> Announced(tis, j)
  {
    OneWordUnder(j, j);
    forall n | Announced(tis, n) ensures RealWords(n) <= RealWords(j) <==> n == j {
      OneWordUnder(n, j);
    }
  }

  /** twinscale.real.J itself does so even if other names have dots. */
  lemma DotFreeTopic(tis: seq<TwinInterface>, j: string)
    requires Grounded(tis) && '.' !in j
    ensures ReachesDispatcher(tis, EventTypeReal(j)) <==> Announced(tis, j)
  {
    ReachesDispatcherIff(tis, EventTypeReal(j));
    DotFreeUnder(tis, j);
  }

  lemma TwoHashesTakeAll(j: string)
    ensures Takes(ANY_WORDS, EventTypeReal(j))
  {
    WordsOfReal(ANY_WORDS);
    SplitOfOneWord(ANY_WORDS, '.');
    WordsOfReal(j);
    HashHash(Split(j, '.'));
    assert "twinscale"[0] == 't' && "real"[0] == 'r';
    SameWordsInFront(["twinscale", "real"], [ANY_WORDS, ANY_WORDS], Split(j, '.'));
    assert RealWords(ANY_WORDS) + [ANY_WORDS] == ["twinscale", "real"] + [ANY_WORDS, ANY_WORDS];
  }

  /** A failing input: one target called "#" brings the events of every interface, announced or
      not, to the dispatcher. */
  lemma WildcardTakesAll(tis: seq<TwinInterface>, j: string)
    requires Announced(tis, ANY_WORDS) && '.' !in j && !Announced(tis, j)
    ensures ReachesDispatcher(tis, EventTypeReal(j)) && !UnderAnnounced(tis, EventTypeReal(j))
    ensures !Grounded(tis)
  {
    DotFreeUnder(tis, j);
    TwoHashesTakeAll(j);
    ReachesByTaking(tis, EventTypeReal(j));
    TopicsAreExactIff(tis);
  }

  lemma HashHash(key: seq<string>)
    ensures WordsMatch([ANY_WORDS, ANY_WORDS], key)
  {
    HashTakesAll(key);
    assert [ANY_WORDS, ANY_WORDS][1..] == [ANY_WORDS];
  }

  // ---------- events to the queue of an interface ----------

  /** A filter on the event type is passed by exactly the events of that type. */
  lemma FilterPassesType(eventType: string, trigger: string, headers: map<string, string>)
    ensures HeadersMatch(Filters(eventType, trigger), headers) <==> "type" in headers && headers["type"] == eventType
  {
    var arguments := Filters(eventType, trigger);
    assert "type"[0] == 't' && "x-"[0] == 'x';
    assert !IsSteering("type") && IsSteering("x-match") && IsSteering("x-knative-trigger");
    assert arguments["x-match"] == "all" && "all"[1] != "any"[1];
    if "type" in headers && headers["type"] == eventType {
      forall k | k in arguments && !IsSteering(k) ensures HeaderMatches(arguments, headers, k) {
        assert k == "type";
      }
    } else {
      assert "type" in arguments && !HeaderMatches(arguments, headers, "type");
    }
  }

  predicate Delivers(b: Object, exchange: string, queue: string, headers: map<string, string>) {
    && b.body.BindingBody? && b.body.binding.source == exchange && b.body.binding.destination == queue
    && HeadersMatch(b.body.binding.arguments, headers)
  }

  /** The bindings made for an interface that has a queue of its own. */
  function QueueBindings(ti: TwinInterface, exchange: string, queue: string): seq<Object> {
    if ti.spec.service.None? then []
    else RelationshipBindings(ti, exchange, queue) + CommandBindings(ti, exchange, queue)
  }

  /** Some binding of some interface takes the event to this queue; the p-th interface has the
      queue queues[p]. */
  predicate Received(tis: seq<TwinInterface>, queues: seq<string>, exchange: string, queue: string,
                     headers: map<string, string>)
    requires |tis| == |queues|
  {
    exists p, i :: 0 <= p < |tis| && 0 <= i < |QueueBindings(tis[p], exchange, queues[p])|
                   && Delivers(QueueBindings(tis[p], exchange, queues[p])[i], exchange, queue, headers)
  }

  predicate IsCommandOf(ti: TwinInterface, eventType: string) {
    exists i :: 0 <= i < |ti.spec.commands| && eventType == EventTypeCommand(ti.id.name, ti.spec.commands[i])
  }

  predicate IsAggregatedBy(ti: TwinInterface, eventType: string) {
    exists i :: 0 <= i < |Aggregated(ti.spec.relationships)|
                && eventType == EventTypeReal(Aggregated(ti.spec.relationships)[i].iface)
  }

  /** The number of bindings to the own queue, and the event type each lets through. */
  function TypeCount(ti: TwinInterface): nat {
    |Aggregated(ti.spec.relationships)| + |ti.spec.commands|
  }

  function TypeAt(ti: TwinInterface, i: nat): string
    requires i < TypeCount(ti)
  {
    var n := |Aggregated(ti.spec.relationships)|;
    if i < n then EventTypeReal(Aggregated(ti.spec.relationships)[i].iface)
    else EventTypeCommand(ti.id.name, ti.spec.commands[i - n])
  }

  lemma TypesListed(ti: TwinInterface, eventType: string)
    ensures (exists i :: 0 <= i < TypeCount(ti) && TypeAt(ti, i) == eventType)
            <==> IsCommandOf(ti, eventType) || IsAggregatedBy(ti, eventType)
  {
    var n := |Aggregated(ti.spec.relationships)|;
    if IsAggregatedBy(ti, eventType) {
      var i :| 0 <= i < n && eventType == EventTypeReal(Aggregated(ti.spec.relationships)[i].iface);
      assert TypeAt(ti, i) == eventType;
    } else if IsCommandOf(ti, eventType) {
      var i :| 0 <= i < |ti.spec.commands| && eventType == EventTypeCommand(ti.id.name, ti.spec.commands[i]);
      assert TypeAt(ti, n + i) == eventType;
    }
  }

  lemma QueueBindingDelivers(ti: TwinInterface, exchange: string, queue: string, i: nat, headers: map<string, string>)
    requires ti.spec.service.Some? && i < TypeCount(ti)
    ensures |QueueBindings(ti, exchange, queue)| == TypeCount(ti)
    ensures Delivers(QueueBindings(ti, exchange, queue)[i], exchange, queue, headers)
            <==> "type" in headers && headers["type"] == TypeAt(ti, i)
  {
    var n := |Aggregated(ti.spec.relationships)|;
    FilterPassesType(TypeAt(ti, i), ti.id.name, headers);
    if i < n {
      assert QueueBindings(ti, exchange, queue)[i]
          == RelationshipRealBinding(ti, Aggregated(ti.spec.relationships)[i], exchange, queue);
    } else {
      assert QueueBindings(ti, exchange, queue)[i] == CommandBinding(ti, ti.spec.commands[i - n], exchange, queue);
    }
  }

  /** The own bindings let through an event exactly if its type is one of theirs. */
  predicate OwnBindingsDeliver(ti: TwinInterface, exchange: string, queue: string, headers: map<string, string>) {
    exists i :: 0 <= i < |QueueBindings(ti, exchange, queue)|
                && Delivers(QueueBindings(ti, exchange, queue)[i], exchange, queue, headers)
  }

  lemma OwnBindingsDeliverIff(ti: TwinInterface, exchange: string, queue: string, headers: map<string, string>)
    requires ti.spec.service.Some?
    ensures OwnBindingsDeliver(ti, exchange, queue, headers)
            <==> "type" in headers && (IsCommandOf(ti, headers["type"]) || IsAggregatedBy(ti, headers["type"]))
  {
    assert |QueueBindings(ti, exchange, queue)| == TypeCount(ti);
    forall i | 0 <= i < TypeCount(ti)
      ensures Delivers(QueueBindings(ti, exchange, queue)[i], exchange, queue, headers)
              <==> "type" in headers && headers["type"] == TypeAt(ti, i)
    {
      QueueBindingDelivers(ti, exchange, queue, i, headers);
    }
    if "type" in headers {
      TypesListed(ti, headers["type"]);
    }
  }

  lemma BindingsKeepTheirQueue(ti: TwinInterface, exchange: string, queue: string, i: nat)
    requires i < |QueueBindings(ti, exchange, queue)|
    ensures var b := QueueBindings(ti, exchange, queue)[i];
            b.body.BindingBody? && b.body.binding.destination == queue
  {
  }

  /** Whatever other interfaces there are, the queue of an interface receives exactly its own
      commands and the real events of the interfaces it aggregates. */
  lemma QueueReceivesIff(tis: seq<TwinInterface>, queues: seq<string>, exchange: string, p: nat,
                         headers: map<string, string>)
    requires |tis| == |queues| && p < |tis| && tis[p].spec.service.Some?
    requires forall q :: 0 <= q < |queues| && q != p ==> queues[q] != queues[p]
    ensures Received(tis, queues, exchange, queues[p], headers)
            <==> "type" in headers && (IsCommandOf(tis[p], headers["type"]) || IsAggregatedBy(tis[p], headers["type"]))
  {
    OwnBindingsDeliverIff(tis[p], exchange, queues[p], headers);
    if Received(tis, queues, exchange, queues[p], headers) {
      var q, i :| 0 <= q < |tis| && 0 <= i < |QueueBindings(tis[q], exchange, queues[q])|
                  && Delivers(QueueBindings(tis[q], exchange, queues[q])[i], exchange, queues[p], headers);
      BindingsKeepTheirQueue(tis[q], exchange, queues[q], i);
      assert q == p;
    }
  }

  // ---------- events to the event store ----------

  /** Some event-store binding of some interface takes the event to this queue. */
  predicate StoreReceives(tis: seq<TwinInterface>, exchange: string, queue: string, headers: map<string, string>) {
    exists p, i :: 0 <= p < |tis| && 0 <= i < |EventStoreBindings(tis[p], exchange, queue)|
                   && Delivers(EventStoreBindings(tis[p], exchange, queue)[i], exchange, queue, headers)
  }

  predicate IsEventOf(ti: TwinInterface, headers: map<string, string>) {
    "type" in headers && headers["type"] == "twinscale.eventstore." + ti.id.name
  }

  lemma EventStoreBindingDelivers(ti: TwinInterface, exchange: string, queue: string, headers: map<string, string>)
    ensures |EventStoreBindings(ti, exchange, queue)| == 1
    ensures Delivers(EventStoreBindings(ti, exchange, queue)[0], exchange, queue, headers) <==> IsEventOf(ti, headers)
  {
    FilterPassesType("twinscale.eventstore." + ti.id.name, ti.id.name + "-trigger", headers);
  }

  /** The event-store queue receives exactly the event-store events of these interfaces. */
  lemma EventStoreReceivesIff(tis: seq<TwinInterface>, exchange: string, queue: string, headers: map<string, string>)
    ensures StoreReceives(tis, exchange, queue, headers) <==> exists p :: 0 <= p < |tis| && IsEventOf(tis[p], headers)
  {
    forall p | 0 <= p < |tis|
      ensures |EventStoreBindings(tis[p], exchange, queue)| == 1
      ensures Delivers(EventStoreBindings(tis[p], exchange, queue)[0], exchange, queue, headers)
              <==> IsEventOf(tis[p], headers)
    {
      EventStoreBindingDelivers(tis[p], exchange, queue, headers);
    }
  }

  // ---------- commands stay apart ----------

  lemma {:induction false} FirstDot(i: string, c: string, j: string, d: string)
    requires '.' !in i && '.' !in j && i + "." + c == j + "." + d
    ensures i == j && c == d
  {
    SplitOfConcat(i, c, '.');
    SplitOfConcat(j, d, '.');
    SplitOfOneWord(i, '.');
    SplitOfOneWord(j, '.');
    assert i + "." + c == i + ['.'] + c && j + "." + d == j + ['.'] + d;
    assert Split(i + "." + c, '.')[0] == i && Split(j + "." + d, '.')[0] == j;
    assert (i + "." + c)[|i| + 1..] == c && (j + "." + d)[|j| + 1..] == d;
  }

  lemma TypesDropTheFront(i: string, c: string, j: string, d: string)
    ensures EventTypeCommand(i, c) == EventTypeCommand(j, d) <==> i + "." + c == j + "." + d
  {
    var start := "twinscale.command.";
    assert EventTypeCommand(i, c) == start + (i + "." + c);
    assert EventTypeCommand(j, d) == start + (j + "." + d);
    assert (start + (i + "." + c))[|start|..] == i + "." + c;
    assert (start + (j + "." + d))[|start|..] == j + "." + d;
  }

  /** For all names: two commands have the same event type exactly if they are the same command,
      or a dotted part m has moved from the end of the one's interface name to the front of the
      other's command name: the command c of interface j.m and the command m.c of interface j. */
  lemma SameCommandTypeIff(i: string, c: string, j: string, d: string)
    ensures EventTypeCommand(i, c) == EventTypeCommand(j, d)
            <==> (i == j && c == d) || PartMoved('.', i, c, j, d) || PartMoved('.', j, d, i, c)
  {
    TypesDropTheFront(i, c, j, d);
    SameJoinIff('.', i, c, j, d);
    assert i + "." + c == i + ['.'] + c && j + "." + d == j + ['.'] + d;
  }

  lemma CommandsAreNotReal(i: string, c: string, n: string)
    ensures EventTypeCommand(i, c) != EventTypeReal(n) && EventTypeCommand(i, c) != EventTypeEventStore(n)
  {
    assert EventTypeCommand(i, c)[10] == 'c' && EventTypeReal(n)[10] == 'r' && EventTypeEventStore(n)[10] == 'e';
  }

  /** With interface names free of dots, no event passes command bindings of two interfaces, and
      no real event passes any. */
  lemma CommandsAreIsolated(a: TwinInterface, c: string, b: TwinInterface, d: string, exchange: string,
                            queueA: string, queueB: string, headers: map<string, string>)
    requires '.' !in a.id.name && '.' !in b.id.name
    requires Delivers(CommandBinding(a, c, exchange, queueA), exchange, queueA, headers)
    ensures Delivers(CommandBinding(b, d, exchange, queueB), exchange, queueB, headers)
            <==> a.id.name == b.id.name && c == d
    ensures "type" in headers && forall n :: headers["type"] != EventTypeReal(n)
  {
    FilterPassesType(EventTypeCommand(a.id.name, c), a.id.name, headers);
    FilterPassesType(EventTypeCommand(b.id.name, d), b.id.name, headers);
    TypesDropTheFront(a.id.name, c, b.id.name, d);
    if a.id.name + "." + c == b.id.name + "." + d {
      FirstDot(a.id.name, c, b.id.name, d);
    }
    forall n ensures headers["type"] != EventTypeReal(n) {
      CommandsAreNotReal(a.id.name, c, n);
    }
  }

  /** With dots it fails: the command c of interface i.m and the command m.c of interface i are
      one event type, so each of the two queues receives the other's commands. */
  lemma DotsMixCommands(a: TwinInterface, b: TwinInterface, m: string, c: string, exchange: string, queue: string,
                        headers: map<string, string>)
    requires a.id.name == b.id.name + "." + m
    ensures EventTypeCommand(a.id.name, c) == EventTypeCommand(b.id.name, m + "." + c)
    ensures Delivers(CommandBinding(a, c, exchange, queue), exchange, queue, headers)
            <==> Delivers(CommandBinding(b, m + "." + c, exchange, queue), exchange, queue, headers)
  {
    assert a.id.name == b.id.name + ['.'] + m && m + "." + c == m + ['.'] + c;
    assert PartMoved('.', a.id.name, c, b.id.name, m + "." + c);
    SameCommandTypeIff(a.id.name, c, b.id.name, m + "." + c);
    FilterPassesType(EventTypeCommand(a.id.name, c), a.id.name, headers);
    FilterPassesType(EventTypeCommand(b.id.name, m + "." + c), b.id.name, headers);
  }

  // ---------- triggers ----------

  /** A Knative trigger passes an event that has all the attributes of its filter. */
  predicate Passes(trigger: Object, event: map<string, string>) {
    && trigger.body.TriggerBody?
    && forall k :: k in trigger.body.trigger.attributes ==> k in event && event[k] == trigger.body.trigger.attributes[k]
  }

  /** An interface with a service, and no other, gets a trigger; it hands the service of the
      interface exactly the interface's own real events. So commands and the events of other
      interfaces come in through the bindings only. */
  lemma TriggerPassesIff(ti: TwinInterface, event: map<string, string>)
    ensures TwinInterfaceTrigger(ti).Some? <==> ti.spec.service.Some?
    ensures ti.spec.service.Some? ==>
              var trigger := TwinInterfaceTrigger(ti).value;
              && (Passes(trigger, event) <==> "type" in event && event["type"] == EventTypeReal(ti.id.name))
              && Key(KServiceKind, trigger.meta.ns, trigger.body.trigger.subscriber)
                 == Key(KServiceKind, ti.id.ns, ti.id.name)
  {
    if ti.spec.service.Some? {
      var attributes := TwinInterfaceTrigger(ti).value.body.trigger.attributes;
      assert attributes == map["type" := EventTypeReal(ti.id.name)];
      assert "type" in attributes;
    }
  }
}
