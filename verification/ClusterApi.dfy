/** The API server: a map from keys to objects, shared with everybody else in the cluster, that
    may fail any call, before or after the call took effect. */
module ClusterApi {
  import opened Resources

  // ---------- the store ----------

  /** How the server stores a map: as it was sent, or with empty maps dropped (the JSON tag
      `omitempty`), so that they read back as nil. */
  datatype Codec = Verbatim | OmitEmpty

  function StoredMap(codec: Codec, m: GoMap): GoMap {
    if codec.OmitEmpty? && m == Entries(map[]) then Nil else m
  }

  function StoredMeta(codec: Codec, meta: Meta): Meta {
    meta.(labels := StoredMap(codec, meta.labels), annotations := StoredMap(codec, meta.annotations))
  }

  function StoredConfig(codec: Codec, config: Configuration): Configuration {
    config.(annotations := StoredMap(codec, config.annotations))
  }

  function StoredBody(codec: Codec, body: Body): Body {
    if body.KServiceBody? then body.(config := StoredConfig(codec, body.config)) else body
  }

  /** The object as it reads back after it was sent to the server. */
  function Stored(codec: Codec, o: Object): (r: Object)
    ensures r.KeyOf() == o.KeyOf()
  {
    Object(StoredMeta(codec, o.meta), StoredBody(codec, o.body))
  }

  datatype Store = Store(codec: Codec, objects: map<Key, Object>)
  {
    predicate Valid() {
      forall k :: k in objects ==> objects[k].KeyOf() == k && Stored(codec, objects[k]) == objects[k]
    }

    predicate Has(k: Key) {
      k in objects
    }

    function Put(o: Object): Store {
      this.(objects := objects[o.KeyOf() := Stored(codec, o)])
    }
  }

  // ---------- calls ----------

  /** `NoExchange` is the one error a controller makes up itself. */
  datatype Error = AlreadyExists | NotFound | Unavailable(code: int) | NoExchange

  datatype Request =
    | Create(obj: Object)
    | Get(key: Key)
    | List(kind: Kind, ns: string, selector: map<string, string>)
    | Update(obj: Object)
    | UpdateStatus(obj: Object)

  datatype Response =
    | Done
    | Fetched(obj: Object)
    | Listed(items: seq<Object>)
    | Failed(error: Error)

  /** One call: what was asked, what was answered, and whether it took effect. */
  datatype Event = Event(req: Request, resp: Response, effect: bool)

  /** How a reconcile attempt ends: the (Result, error) pair it returns, or a Go panic. */
  datatype Outcome = Succeeded | Failing(error: Error) | Requeued(error: Error) | Panicked

  predicate Selected(o: Object, selector: map<string, string>) {
    && (selector == map[] || o.meta.labels.Entries?)
    && forall l :: l in selector ==> l in o.meta.labels.m && o.meta.labels.m[l] == selector[l]
  }

  function Matching(s: Store, kind: Kind, ns: string, selector: map<string, string>): set<Key> {
    set k | k in s.objects && k.kind == kind && k.ns == ns && Selected(s.objects[k], selector)
  }

  /** `items` holds each matching object once, in some order. */
  ghost predicate Enumerates(items: seq<Object>, s: Store, keys: set<Key>) {
    && |items| == |keys|
    && (forall o :: o in items ==> o.KeyOf() in keys && o.KeyOf() in s.objects && s.objects[o.KeyOf()] == o)
    && (forall k :: k in keys && k in s.objects ==> s.objects[k] in items)
  }

  /** The server rejected the call, or the answer got lost. */
  predicate Unanswered(resp: Response) {
    resp.Failed? && resp.error.Unavailable?
  }

  /** What the server may answer. A lost answer may hide a write that took effect. */
  ghost predicate Admits(s: Store, e: Event) {
    match e.req
    case Create(o) =>
      if Unanswered(e.resp) then e.effect ==> !s.Has(o.KeyOf())
      else if s.Has(o.KeyOf()) then e.resp == Failed(AlreadyExists) && !e.effect
      else e.resp == Done && e.effect
    case Get(k) =>
      && !e.effect
      && (Unanswered(e.resp) || e.resp == if s.Has(k) then Fetched(s.objects[k]) else Failed(NotFound))
    case List(kind, ns, selector) =>
      && !e.effect
      && (Unanswered(e.resp)
          || (e.resp.Listed? && Enumerates(e.resp.items, s, Matching(s, kind, ns, selector))))
    case Update(o) =>
      if Unanswered(e.resp) then e.effect ==> s.Has(o.KeyOf())
      else if s.Has(o.KeyOf()) then e.resp == Done && e.effect
      else e.resp == Failed(NotFound) && !e.effect
    case UpdateStatus(o) =>
      if Unanswered(e.resp) then e.effect ==> s.Has(o.KeyOf())
      else if s.Has(o.KeyOf()) then e.resp == Done && e.effect
      else e.resp == Failed(NotFound) && !e.effect
  }

  /** The status subresource: only the phase of a stored MQTTTrigger changes. */
  function WithStatus(current: Object, sent: Object): Object {
    if current.body.MqttTriggerBody? && sent.body.MqttTriggerBody?
    then current.(body := current.body.(phase := sent.body.phase))
    else current
  }

  function After(s: Store, e: Event): Store {
    if !e.effect then s
    else
      match e.req
      case Create(o) => s.Put(o)
      case Update(o) => s.Put(o)
      case UpdateStatus(o) => if s.Has(o.KeyOf()) then s.Put(WithStatus(s.objects[o.KeyOf()], o)) else s
      case _ => s
  }

  lemma AfterIsValid(s: Store, e: Event)
    requires s.Valid()
    ensures After(s, e).Valid() && After(s, e).codec == s.codec
  {
  }

  // ---------- the class ----------

  /** Between two calls of one client anything may happen to the store. */
  datatype Move = Outside(store: Store) | Act(event: Event)

  /** The log grew by one call, with other clients possibly at work before it. */
  ghost predicate Called(s: Store, log: seq<Move>, s': Store, log': seq<Move>, req: Request, resp: Response) {
    exists between: Store, effect: bool ::
      && log' == log + [Outside(between), Act(Event(req, resp, effect))]
      && between.Valid() && between.codec == s.codec
      && Admits(between, Event(req, resp, effect))
      && s' == After(between, Event(req, resp, effect))
  }

  function Answer(err: Option<Error>): Response {
    if err.None? then Done else Failed(err.value)
  }

  class ApiServer {
    var store: Store
    ghost var log: seq<Move>

    constructor (codec: Codec)
      ensures store == Store(codec, map[]) && log == []
    {
      store, log := Store(codec, map[]), [];
    }

    /** Other clients do whatever they like. */
    method Others() returns (ghost between: Store)
      requires store.Valid()
      modifies this`store
      ensures store == between && store.Valid() && store.codec == old(store.codec)
    {
      var change: Store := *;
      if change.Valid() && change.codec == store.codec {
        store := change;
      }
      between := store;
    }

    method Create(o: Object) returns (err: Option<Error>)
      requires store.Valid()
      modifies this
      ensures store.Valid() && store.codec == old(store.codec)
      ensures Called(old(store), old(log), store, log, Request.Create(o), Answer(err))
    {
      ghost var between := Others();
      var lost, effect, code: int := *, false, *;
      if lost {
        var tookEffect: bool := *;
        effect := tookEffect && !store.Has(o.KeyOf());
        err := Some(Unavailable(code));
      } else if store.Has(o.KeyOf()) {
        err := Some(AlreadyExists);
      } else {
        effect, err := true, None;
      }
      if effect {
        store := store.Put(o);
      }
      log := log + [Outside(between), Act(Event(Request.Create(o), Answer(err), effect))];
    }

    method Update(o: Object) returns (err: Option<Error>)
      requires store.Valid()
      modifies this
      ensures store.Valid() && store.codec == old(store.codec)
      ensures Called(old(store), old(log), store, log, Request.Update(o), Answer(err))
    {
      ghost var between := Others();
      var lost, effect, code: int := *, false, *;
      if lost {
        var tookEffect: bool := *;
        effect := tookEffect && store.Has(o.KeyOf());
        err := Some(Unavailable(code));
      } else if store.Has(o.KeyOf()) {
        effect, err := true, None;
      } else {
        err := Some(NotFound);
      }
      if effect {
        store := store.Put(o);
      }
      log := log + [Outside(between), Act(Event(Request.Update(o), Answer(err), effect))];
    }

    method UpdateStatus(o: Object) returns (err: Option<Error>)
      requires store.Valid()
      modifies this
      ensures store.Valid() && store.codec == old(store.codec)
      ensures Called(old(store), old(log), store, log, Request.UpdateStatus(o), Answer(err))
    {
      ghost var between := Others();
      var lost, effect, code: int := *, false, *;
      if lost {
        var tookEffect: bool := *;
        effect := tookEffect && store.Has(o.KeyOf());
        err := Some(Unavailable(code));
      } else if store.Has(o.KeyOf()) {
        effect, err := true, None;
      } else {
        err := Some(NotFound);
      }
      if effect {
        store := store.Put(WithStatus(store.objects[o.KeyOf()], o));
      }
      log := log + [Outside(between), Act(Event(Request.UpdateStatus(o), Answer(err), effect))];
    }

    method Get(k: Key) returns (o: Option<Object>, err: Option<Error>)
      requires store.Valid()
      modifies this
      ensures store.Valid() && store.codec == old(store.codec)
      ensures err.None? <==> o.Some?
      ensures Called(old(store), old(log), store, log, Request.Get(k),
                     if err.None? then Fetched(o.value) else Failed(err.value))
    {
      ghost var between := Others();
      var lost, code: int := *, *;
      if lost {
        o, err := None, Some(Unavailable(code));
      } else if store.Has(k) {
        o, err := Some(store.objects[k]), None;
      } else {
        o, err := None, Some(NotFound);
      }
      log := log + [Outside(between),
                    Act(Event(Request.Get(k), if err.None? then Fetched(o.value) else Failed(err.value), false))];
    }

    /** `err` comes with no items. */
    method List(kind: Kind, ns: string, selector: map<string, string>)
        returns (items: seq<Object>, err: Option<Error>)
      requires store.Valid()
      modifies this
      ensures store.Valid() && store.codec == old(store.codec)
      ensures err.Some? ==> items == []
      ensures Called(old(store), old(log), store, log, Request.List(kind, ns, selector),
                     if err.None? then Listed(items) else Failed(err.value))
    {
      ghost var between := Others();
      var lost, code: int := *, *;
      items := [];
      if lost {
        err := Some(Unavailable(code));
      } else {
        err := None;
        items := Collect(store, Matching(store, kind, ns, selector));
      }
      log := log + [Outside(between),
                    Act(Event(Request.List(kind, ns, selector),
                              if err.None? then Listed(items) else Failed(err.value), false))];
    }
  }

  /** The objects under `keys`, in any order. */
  method Collect(s: Store, keys: set<Key>) returns (items: seq<Object>)
    requires s.Valid() && forall k :: k in keys ==> k in s.objects
    ensures Enumerates(items, s, keys)
  {
    items := [];
    var todo := keys;
    while todo != {}
      invariant todo <= keys && |items| == |keys| - |todo|
      invariant forall o :: o in items ==> o.KeyOf() in keys && s.objects[o.KeyOf()] == o
      invariant forall k :: k in keys - todo ==> s.objects[k] in items
    {
      var k :| k in todo;
      items, todo := items + [s.objects[k]], todo - {k};
    }
  }
}
