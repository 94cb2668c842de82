/** What an attempt of `createUpdateTwinInterface` returns, and why. */
module InterfaceResult {
  import opened Resources
  import opened ClusterApi
  import opened Runs
  import opened TwinInterfaceMachine
  import opened InterfaceSteps
  import opened InterfaceRuns
  import Panics

  // ---------- the recorded errors ----------

  /** The call records its failure and the attempt goes on: reading the addresses, updating the
      service, listing exchanges; a create unless the object is there; listing the own queue unless
      there is none. */
  predicate Records(st: State, e: Error) {
    match st.step
    case GetBroker => true
    case GetEventStore => true
    case UpdateService(_) => true
    case ListExchange => true
    case ListQueue => e != NotFound
    case _ => Pending(st).Some? && e != AlreadyExists
  }

  function RecordOf(st: State, resp: Response): seq<Error> {
    if resp.Failed? && Records(st, resp.error) then [resp.error] else []
  }

  lemma EndKeepsErrors(st: State)
    ensures Conclude(st).errors == st.errors && ToCommands(st).errors == st.errors
    ensures ToRelationships(st).errors == st.errors
  {
  }

  lemma RecordOfList(st: State, resp: Response)
    requires Asking(st) && (st.step.ListEventStoreQueue? || st.step.ListExchange? || st.step.ListQueue?)
    ensures Tell(st, resp).errors == st.errors + RecordOf(st, resp)
  {
    EndKeepsErrors(Note(st, resp));
    if resp.Listed? && resp.items != [] {
      EndKeepsErrors(st.(found := st.found.(queue := QueueNameOf(resp.items[0]))));
    }
  }

  lemma RecordOfOther(st: State, resp: Response)
    requires Asking(st) && !(st.step.ListEventStoreQueue? || st.step.ListExchange? || st.step.ListQueue?)
    ensures Tell(st, resp).errors == st.errors + RecordOf(st, resp)
  {
    EndKeepsErrors(NoteCreate(st, resp));
  }

  lemma RecordStep(st: State, resp: Response)
    requires Asking(st)
    ensures Tell(st, resp).errors == st.errors + RecordOf(st, resp)
  {
    if st.step.ListEventStoreQueue? || st.step.ListExchange? || st.step.ListQueue? {
      RecordOfList(st, resp);
    } else {
      RecordOfOther(st, resp);
    }
  }

  /** The failures of the recording calls, in order. */
  ghost function Failures(ti: TwinInterface, s: Store, moves: seq<Move>): seq<Error>
    requires s.Valid() && IsRun(Attempt(ti, s), moves)
  {
    if moves == [] then []
    else
      var front, last := moves[..|moves| - 1], moves[|moves| - 1];
      Failures(ti, s, front) + if last.Act? then RecordOf(StateAfter(ti, s, front), last.event.resp) else []
  }

  lemma {:induction false} ErrorsAreFailures(ti: TwinInterface, s: Store, moves: seq<Move>)
    requires s.Valid() && IsRun(Attempt(ti, s), moves)
    ensures StateAfter(ti, s, moves).errors == Failures(ti, s, moves)
  {
    if moves != [] {
      var front, last := moves[..|moves| - 1], moves[|moves| - 1];
      ErrorsAreFailures(ti, s, front);
      if last.Act? {
        CallOfState(StateAfter(ti, s, front), WorldAfter(Attempt(ti, s), front), last);
        RecordStep(StateAfter(ti, s, front), last.event.resp);
      }
    }
  }

  // ---------- the result ----------

  /** Why the answer to this call ends the attempt so, `failures` being all failures recorded. */
  predicate Explains(st: State, resp: Response, failures: seq<Error>, outcome: Outcome) {
    match outcome
    case Succeeded => st.step.UpdateInterface? && failures == []
    case Failing(e) =>
      || ((st.step.FetchService? || st.step.ListEventStoreQueue?) && resp == Failed(e))
      || (!(st.step.FetchService? || st.step.ListEventStoreQueue?) && failures != [] && e == failures[0])
    case Requeued(e) =>
      e == NotFound && st.step.ListQueue? && (resp == Failed(NotFound) || resp == Listed([]))
    case Panicked =>
      (st.step.GetEventStore? && st.found.brokerUrl.None?) || (st.step.ListExchange? && resp == Listed([]))
  }

  lemma ConclusionExplains(st: State)
    ensures Conclude(st).step.Finished? ==> st.errors != [] && Conclude(st).step == Finished(Failing(st.errors[0]))
    ensures ToCommands(st).step.Finished? ==> st.errors != [] && ToCommands(st).step == Finished(Failing(st.errors[0]))
    ensures ToRelationships(st).step.Finished?
            ==> st.errors != [] && ToRelationships(st).step == Finished(Failing(st.errors[0]))
  {
  }

  lemma ListExplains(st: State, resp: Response)
    requires Asking(st) && (st.step.ListEventStoreQueue? || st.step.ListExchange? || st.step.ListQueue?)
    requires Tell(st, resp).step.Finished? && (resp.Listed? || resp.Failed?)
    ensures Explains(st, resp, Tell(st, resp).errors, Tell(st, resp).step.outcome)
  {
    if resp.Listed? && resp.items != [] {
      ConclusionExplains(st.(found := st.found.(queue := QueueNameOf(resp.items[0]))));
    }
  }

  lemma OtherExplains(st: State, resp: Response)
    requires Asking(st) && !(st.step.ListEventStoreQueue? || st.step.ListExchange? || st.step.ListQueue?)
    requires Tidy(st) && Tell(st, resp).step.Finished?
    requires st.step.FetchService? ==> resp.Failed? || (resp.Fetched? && resp.obj.body.KServiceBody?)
    ensures Explains(st, resp, Tell(st, resp).errors, Tell(st, resp).step.outcome)
  {
    ConclusionExplains(NoteCreate(st, resp));
  }

  lemma {:induction false} AttemptIsTidy(ti: TwinInterface, s: Store, moves: seq<Move>)
    requires s.Valid() && IsRun(Attempt(ti, s), moves)
    ensures Tidy(StateAfter(ti, s, moves))
  {
    if moves != [] {
      var front, last := moves[..|moves| - 1], moves[|moves| - 1];
      AttemptIsTidy(ti, s, front);
      if last.Act? {
        CallOfState(StateAfter(ti, s, front), WorldAfter(Attempt(ti, s), front), last);
        TidyStep(StateAfter(ti, s, front), last.event.resp);
      }
    }
  }

  /** The j-th move is the call that ended the attempt. */
  ghost predicate EndsAt(ti: TwinInterface, s: Store, moves: seq<Move>, j: nat)
    requires s.Valid() && IsRun(Attempt(ti, s), moves)
  {
    && j < |moves| && moves[j].Act? && IsRun(Attempt(ti, s), moves[..j])
    && Asking(StateAfter(ti, s, moves[..j])) && moves[j].event.req == Ask(StateAfter(ti, s, moves[..j]))
    && Admits(WorldAfter(Attempt(ti, s), moves[..j]).store, moves[j].event)
    && Tell(StateAfter(ti, s, moves[..j]), moves[j].event.resp) == StateAfter(ti, s, moves)
    && forall k :: j < k < |moves| ==> moves[k].Outside?
  }

  /** The last call of the moves, or -1 if there is none. */
  function LastCall(moves: seq<Move>): (j: int)
    ensures -1 <= j < |moves| && (j >= 0 ==> moves[j].Act?)
    ensures forall k :: j < k < |moves| ==> moves[k].Outside?
  {
    if moves == [] then -1
    else if moves[|moves| - 1].Act? then |moves| - 1
    else LastCall(moves[..|moves| - 1])
  }

  lemma {:induction false} OthersKeepState(ti: TwinInterface, s: Store, moves: seq<Move>, j: nat)
    requires s.Valid() && IsRun(Attempt(ti, s), moves) && j <= |moves| && IsRun(Attempt(ti, s), moves[..j])
    requires forall k :: j <= k < |moves| ==> moves[k].Outside?
    ensures StateAfter(ti, s, moves) == StateAfter(ti, s, moves[..j])
  {
    if j < |moves| {
      var front := moves[..|moves| - 1];
      assert front[..j] == moves[..j];
      OthersKeepState(ti, s, front, j);
    } else {
      assert moves[..j] == moves;
    }
  }

  lemma SomethingEnds(ti: TwinInterface, s: Store, moves: seq<Move>) returns (j: nat)
    requires s.Valid() && IsRun(Attempt(ti, s), moves) && StateAfter(ti, s, moves).step.Finished?
    ensures EndsAt(ti, s, moves, j)
  {
    var last := LastCall(moves);
    if last == -1 {
      assert moves[..0] == [];
      OthersKeepState(ti, s, moves, 0);
      assert false;
    }
    j := last;
    CallAt(ti, s, moves, j);
    OthersKeepState(ti, s, moves, j + 1);
  }

  /** In every run that ends, some last call explains the result: success only from the final
      update with nothing recorded; the error of a failing fetch of the service or listing of
      event-store queues, whatever was recorded before; else the first recorded failure; a requeue
      only for want of an own queue. */
  lemma ResultOfAttempt(ti: TwinInterface, s: Store, moves: seq<Move>) returns (j: nat)
    requires s.Valid() && IsRun(Attempt(ti, s), moves) && StateAfter(ti, s, moves).step.Finished?
    ensures EndsAt(ti, s, moves, j)
    ensures Explains(StateAfter(ti, s, moves[..j]), moves[j].event.resp, Failures(ti, s, moves),
                     StateAfter(ti, s, moves).step.outcome)
  {
    j := SomethingEnds(ti, s, moves);
    ErrorsAreFailures(ti, s, moves);
    AttemptIsTidy(ti, s, moves[..j]);
    AttemptIsSane(ti, s, moves[..j]);
    var st := StateAfter(ti, s, moves[..j]);
    Panics.AnswersFit(st, WorldAfter(Attempt(ti, s), moves[..j]).store, moves[j].event);
    if st.step.ListEventStoreQueue? || st.step.ListExchange? || st.step.ListQueue? {
      ListExplains(st, moves[j].event.resp);
    } else {
      OtherExplains(st, moves[j].event.resp);
    }
  }
}
