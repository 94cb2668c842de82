/** The client a reconciler holds during one attempt. Every call must be the one the step
    machine of the attempt is about to make, and moves it on with the answer, so a reconcile
    method that verifies follows its machine through every answer the server may give. */
module Client {
  import opened Resources
  import Api = ClusterApi
  import opened Runs

  class Client {
    const api: Api.ApiServer
    ghost const start: World
    ghost const from: nat
    ghost var proc: Proc

    constructor (api: Api.ApiServer, ghost proc: Proc)
      requires api.store.Valid()
      ensures this.api == api && this.proc == proc && Tracks()
      ensures start == World(proc, api.store) && from == |api.log|
    {
      this.api, this.proc := api, proc;
      this.start, this.from := World(proc, api.store), |api.log|;
      new;
      assert Moves() == [];
    }

    /** What happened since the attempt began. */
    ghost function Moves(): seq<Api.Move>
      requires from <= |api.log|
      reads api
    {
      api.log[from..]
    }

    /** The attempt is a run of its machine, and this is where it stands. */
    ghost predicate Tracks()
      reads this, api
    {
      && api.store.Valid() && from <= |api.log|
      && IsRun(start, Moves()) && WorldAfter(start, Moves()) == World(proc, api.store)
    }

    /** The log seen from the start of the attempt grows at its end. */
    lemma TailGrows(log: seq<Api.Move>, a: Api.Move, b: Api.Move)
      requires from <= |log|
      ensures (log + [a, b])[from..] == (log[from..] + [a]) + [b]
    {
    }

    twostate lemma Advance(resp: Api.Response)
      requires old(Tracks()) && proc == old(proc) && proc.Asking() && api.store.Valid()
      requires Api.Called(old(api.store), old(api.log), api.store, api.log, proc.Ask(), resp)
      ensures from <= |api.log| && IsRun(start, Moves())
      ensures WorldAfter(start, Moves()) == World(proc.Tell(resp), api.store)
    {
      var between, effect :|
        && api.log == old(api.log) + [Api.Outside(between), Api.Act(Api.Event(proc.Ask(), resp, effect))]
        && between.Valid() && between.codec == old(api.store).codec
        && Api.Admits(between, Api.Event(proc.Ask(), resp, effect))
        && api.store == Api.After(between, Api.Event(proc.Ask(), resp, effect));
      var before, act := old(Moves()), Api.Act(Api.Event(proc.Ask(), resp, effect));
      TailGrows(old(api.log), Api.Outside(between), act);
      CallAfterOthers(start, before, proc, old(api.store), between, act.event);
    }

    method Create(o: Object) returns (err: Option<Api.Error>)
      requires Tracks() && proc.Asking() && proc.Ask() == Api.Create(o)
      modifies this, api
      ensures Tracks() && proc == old(proc).Tell(Api.Answer(err))
    {
      err := api.Create(o);
      Advance(Api.Answer(err));
      proc := proc.Tell(Api.Answer(err));
    }

    method Update(o: Object) returns (err: Option<Api.Error>)
      requires Tracks() && proc.Asking() && proc.Ask() == Api.Update(o)
      modifies this, api
      ensures Tracks() && proc == old(proc).Tell(Api.Answer(err))
    {
      err := api.Update(o);
      Advance(Api.Answer(err));
      proc := proc.Tell(Api.Answer(err));
    }

    method UpdateStatus(o: Object) returns (err: Option<Api.Error>)
      requires Tracks() && proc.Asking() && proc.Ask() == Api.UpdateStatus(o)
      modifies this, api
      ensures Tracks() && proc == old(proc).Tell(Api.Answer(err))
    {
      err := api.UpdateStatus(o);
      Advance(Api.Answer(err));
      proc := proc.Tell(Api.Answer(err));
    }

    method Get(k: Key) returns (o: Option<Object>, err: Option<Api.Error>)
      requires Tracks() && proc.Asking() && proc.Ask() == Api.Get(k)
      modifies this, api
      ensures Tracks() && (err.None? <==> o.Some?)
      ensures proc == old(proc).Tell(if err.None? then Api.Fetched(o.value) else Api.Failed(err.value))
      ensures o.Some? ==> o.value.KeyOf() == k
    {
      o, err := api.Get(k);
      Advance(if err.None? then Api.Fetched(o.value) else Api.Failed(err.value));
      proc := proc.Tell(if err.None? then Api.Fetched(o.value) else Api.Failed(err.value));
    }

    method List(kind: Kind, ns: string, selector: map<string, string>)
        returns (items: seq<Object>, err: Option<Api.Error>)
      requires Tracks() && proc.Asking() && proc.Ask() == Api.List(kind, ns, selector)
      modifies this, api
      ensures Tracks() && (err.Some? ==> items == [])
      ensures proc == old(proc).Tell(if err.None? then Api.Listed(items) else Api.Failed(err.value))
      ensures forall o :: o in items ==> o.KeyOf().kind == kind
    {
      items, err := api.List(kind, ns, selector);
      Advance(if err.None? then Api.Listed(items) else Api.Failed(err.value));
      proc := proc.Tell(if err.None? then Api.Listed(items) else Api.Failed(err.value));
    }
  }
}
