/**
  Stopping a scheduler job.  A stop is a stored document that any number of calls carry forward:
  a call ends early when the scheduler is slow, refuses, or the process dies at an await, and the
  next call goes on from what was stored.  Every exchange with the scheduler is kept in a log.
 */
module StopJob {
  import opened Common

  type Allocation = string

  datatype StopPhase = Deleting | Observing | Done

  datatype Stop = Stop(allocations: seq<Allocation>, phase: StopPhase)

  // ----- The scheduler -----

  datatype Request = ListAllocations | DeleteJob | Inspect(allocation: Allocation)

  /** What an answered request carries; a body of another shape is `Other`. */
  datatype Body = Allocations(ids: seq<Allocation>) | Detail(status: string) | Other

  datatype Reply = Answer(body: Body) | Refused(status: nat) | Pending

  datatype Exchange = Exchange(request: Request, reply: Reply)

  /** How a call ends: it returns, it throws, or the process dies while it waits. */
  datatype Outcome = Returned | Waiting | Threw(status: nat) | Died

  predicate Missing(r: Reply) {
    r == Refused(404)
  }

  predicate Acknowledged(r: Reply) {
    r.Answer? || Missing(r)
  }

  /** An allocation that is neither running nor pending, or that is gone. */
  predicate Quiet(r: Reply) {
    Missing(r) || (r.Answer? && !(r.body.Detail? && (r.body.status == "running" || r.body.status == "pending")))
  }

  function Captured(r: Reply): seq<Allocation> {
    if r.Answer? && r.body.Allocations? then r.body.ids else []
  }

  /** The outcome of a call that ends on this reply. */
  function Ending(r: Reply): Outcome {
    match r
    case Refused(status) => Threw(status)
    case _ => Waiting
  }

  // ----- One call -----

  datatype Call = Call(stop: Option<Stop>, log: seq<Exchange>, outcome: Outcome)

  function Logged(e: Exchange, c: Call): Call {
    c.(log := [e] + c.log)
  }

  /** `script` lists the replies the call gets before the process dies, if it does not end first. */
  function CallFrom(stop: Option<Stop>, script: seq<Reply>): Call {
    match stop
    case None =>
      if |script| == 0 then Call(None, [], Died)
      else if Acknowledged(script[0])
      then Logged(Exchange(ListAllocations, script[0]), DeleteFrom(Captured(script[0]), script[1..]))
      else Call(None, [Exchange(ListAllocations, script[0])], Ending(script[0]))
    case Some(Stop(ids, Deleting)) => DeleteFrom(ids, script)
    case Some(Stop(ids, Observing)) => ObserveFrom(ids, 0, script)
    case Some(Stop(ids, Done)) => Call(stop, [], Returned)
  }

  function DeleteFrom(ids: seq<Allocation>, script: seq<Reply>): Call {
    if |script| == 0 then Call(Some(Stop(ids, Deleting)), [], Died)
    else if Acknowledged(script[0])
    then Logged(Exchange(DeleteJob, script[0]), ObserveFrom(ids, 0, script[1..]))
    else Call(Some(Stop(ids, Deleting)), [Exchange(DeleteJob, script[0])], Ending(script[0]))
  }

  function ObserveFrom(ids: seq<Allocation>, i: nat, script: seq<Reply>): Call
    requires i <= |ids|
    decreases |ids| - i
  {
    if i == |ids| then Call(Some(Stop(ids, Done)), [], Returned)
    else if |script| == 0 then Call(Some(Stop(ids, Observing)), [], Died)
    else
      var e := Exchange(Inspect(ids[i]), script[0]);
      if Quiet(script[0]) then Logged(e, ObserveFrom(ids, i + 1, script[1..]))
      else Call(Some(Stop(ids, Observing)), [e], Ending(script[0]))
  }

  /** A quiet allocation is left for the next one. */
  lemma ObserveAfter(ids: seq<Allocation>, i: nat, script: seq<Reply>)
    requires i < |ids| && i < |script| && Quiet(script[i])
    ensures
      var c, rest := ObserveFrom(ids, i, script[i..]), ObserveFrom(ids, i + 1, script[i + 1..]);
      && c.stop == rest.stop && c.outcome == rest.outcome
      && c.log == [Exchange(Inspect(ids[i]), script[i])] + rest.log
  {
    assert script[i..][1..] == script[i + 1..];
  }

  /** The stored document, changed in place, and the log of exchanges. */
  class StopDocument {
    var stop: Option<Stop>
    ghost var log: seq<Exchange>

    constructor ()
      ensures stop == None && log == []
    {
      stop := None;
      log := [];
    }

    method Run(script: seq<Reply>) returns (outcome: Outcome)
      modifies this
      ensures stop == CallFrom(old(stop), script).stop
      ensures log == old(log) + CallFrom(old(stop), script).log
      ensures outcome == CallFrom(old(stop), script).outcome
    {
      var next := 0;
      var operation := stop;
      if operation.None? {
        if next == |script| {
          return Died;
        }
        var reply := script[next];
        next := next + 1;
        log := log + [Exchange(ListAllocations, reply)];
        if !Acknowledged(reply) {
          return Ending(reply);
        }
        operation := Some(Stop(Captured(reply), Deleting));
        stop := operation;
      }
      if operation.value.phase.Done? {
        return Returned;
      }
      ghost var deleting := DeleteFrom(operation.value.allocations, script[next..]);
      if operation.value.phase.Deleting? {
        if next == |script| {
          return Died;
        }
        var reply := script[next];
        assert script[next..][1..] == script[next + 1..];
        next := next + 1;
        log := log + [Exchange(DeleteJob, reply)];
        if !Acknowledged(reply) {
          return Ending(reply);
        }
        operation := Some(operation.value.(phase := Observing));
        stop := operation;
      }
      outcome := ObserveAll(operation.value, script[next..]);
    }

    /** The loop over the captured allocations. */
    method ObserveAll(operation: Stop, script: seq<Reply>) returns (outcome: Outcome)
      requires operation.phase.Observing? && stop == Some(operation)
      modifies this
      ensures stop == ObserveFrom(operation.allocations, 0, script).stop
      ensures log == old(log) + ObserveFrom(operation.allocations, 0, script).log
      ensures outcome == ObserveFrom(operation.allocations, 0, script).outcome
    {
      ghost var all := ObserveFrom(operation.allocations, 0, script);
      ghost var done: seq<Exchange> := [];
      var i := 0;
      while i < |operation.allocations|
        invariant 0 <= i <= |operation.allocations|
        invariant i <= |script|
        invariant stop == Some(operation)
        invariant log == old(log) + done
        invariant
          var rest := ObserveFrom(operation.allocations, i, script[i..]);
          all.stop == rest.stop && all.outcome == rest.outcome && all.log == done + rest.log
      {
        if i == |script| {
          return Died;
        }
        var reply := script[i];
        var e := Exchange(Inspect(operation.allocations[i]), reply);
        log := log + [e];
        if !Quiet(reply) {
          return Ending(reply);
        }
        ObserveAfter(operation.allocations, i, script);
        done := done + [e];
        i := i + 1;
      }
      stop := Some(operation.(phase := StopPhase.Done));
      outcome := Returned;
    }
  }

  // ----- Any number of calls -----

  datatype State = State(stop: Option<Stop>, log: seq<Exchange>)

  function Next(s: State, script: seq<Reply>): State {
    var c := CallFrom(s.stop, script);
    State(c.stop, s.log + c.log)
  }

  function Calls(s: State, scripts: seq<seq<Reply>>): State
    decreases |scripts|
  {
    if |scripts| == 0 then s else Calls(Next(s, scripts[0]), scripts[1..])
  }

  /** `ids` is what the log recorded at `c`, before anything was asked to be deleted. */
  predicate CapturedAt(log: seq<Exchange>, c: nat, ids: seq<Allocation>) {
    && c < |log| && log[c].request.ListAllocations? && Acknowledged(log[c].reply) && ids == Captured(log[c].reply)
    && (forall i :: 0 <= i < c ==> log[i].request.ListAllocations? && !Acknowledged(log[i].reply))
    && (forall i :: c < i < |log| ==> !log[i].request.ListAllocations?)
  }

  predicate DeletedAt(log: seq<Exchange>, d: nat) {
    && d < |log| && log[d].request.DeleteJob? && Acknowledged(log[d].reply)
    && (forall i :: d < i < |log| ==> !log[i].request.DeleteJob?)
  }

  ghost predicate SeenQuiet(log: seq<Exchange>, d: nat, id: Allocation) {
    exists i :: d < i < |log| && log[i].request == Inspect(id) && Quiet(log[i].reply)
  }

  /** What the stored phase stands for. */
  ghost predicate Justified(s: State) {
    match s.stop
    case None => forall i :: 0 <= i < |s.log| ==> s.log[i].request.ListAllocations? && !Acknowledged(s.log[i].reply)
    case Some(Stop(ids, Deleting)) =>
      exists c: nat :: CapturedAt(s.log, c, ids)
        && forall i :: c < i < |s.log| ==> s.log[i].request.DeleteJob? && !Acknowledged(s.log[i].reply)
    case Some(Stop(ids, Observing)) =>
      exists c: nat, d: nat :: CapturedAt(s.log, c, ids) && c < d && DeletedAt(s.log, d)
    case Some(Stop(ids, Done)) =>
      exists c: nat, d: nat :: CapturedAt(s.log, c, ids) && c < d && DeletedAt(s.log, d)
        && forall id :: id in ids ==> SeenQuiet(s.log, d, id)
  }

  /** The exchanges of the observing loop: inspections, and from `i` on each one quiet if it returns. */
  lemma {:induction false} ObserveEffect(ids: seq<Allocation>, i: nat, script: seq<Reply>)
    requires i <= |ids|
    ensures
      var c := ObserveFrom(ids, i, script);
      && (forall k :: 0 <= k < |c.log| ==> c.log[k].request.Inspect?)
      && (c.outcome.Returned? <==> c.stop == Some(Stop(ids, Done)))
      && (!c.outcome.Returned? ==> c.stop == Some(Stop(ids, Observing)))
      && (c.outcome.Returned? ==> |c.log| == |ids| - i)
      && (c.outcome.Returned? ==> forall k :: i <= k < |ids| ==>
            c.log[k - i] == Exchange(Inspect(ids[k]), c.log[k - i].reply))
      && (c.outcome.Returned? ==> forall k :: 0 <= k < |c.log| ==> Quiet(c.log[k].reply))
    decreases |ids| - i
  {
    if i < |ids| && |script| > 0 && Quiet(script[0]) {
      ObserveEffect(ids, i + 1, script[1..]);
      var c, rest := ObserveFrom(ids, i, script), ObserveFrom(ids, i + 1, script[1..]);
      assert c.log == [Exchange(Inspect(ids[i]), script[0])] + rest.log;
      if c.outcome.Returned? {
        forall k | i <= k < |ids|
          ensures c.log[k - i] == Exchange(Inspect(ids[k]), c.log[k - i].reply)
        {
          if k > i { assert c.log[k - i] == rest.log[k - (i + 1)]; }
        }
      }
    }
  }

  lemma ObserveJustified(log: seq<Exchange>, ids: seq<Allocation>, c: nat, d: nat, script: seq<Reply>)
    requires CapturedAt(log, c, ids) && c < d && DeletedAt(log, d)
    ensures
      var call := ObserveFrom(ids, 0, script);
      Justified(State(call.stop, log + call.log))
  {
    ObserveEffect(ids, 0, script);
    var call := ObserveFrom(ids, 0, script);
    var all := log + call.log;
    assert CapturedAt(all, c, ids);
    assert DeletedAt(all, d);
    if call.outcome.Returned? {
      forall id | id in ids
        ensures SeenQuiet(all, d, id)
      {
        var k :| 0 <= k < |ids| && ids[k] == id;
        assert all[|log| + k] == call.log[k - 0];
      }
    }
  }

  lemma DeleteJustified(log: seq<Exchange>, ids: seq<Allocation>, c: nat, script: seq<Reply>)
    requires CapturedAt(log, c, ids)
    requires forall i :: c < i < |log| ==> log[i].request.DeleteJob? && !Acknowledged(log[i].reply)
    ensures
      var call := DeleteFrom(ids, script);
      Justified(State(call.stop, log + call.log))
  {
    var call := DeleteFrom(ids, script);
    if |script| == 0 {
      assert log + call.log == log;
    } else {
      var more := log + [Exchange(DeleteJob, script[0])];
      assert CapturedAt(more, c, ids);
      if Acknowledged(script[0]) {
        assert DeletedAt(more, |log|);
        ObserveJustified(more, ids, c, |log|, script[1..]);
        assert log + call.log == more + ObserveFrom(ids, 0, script[1..]).log;
      } else {
        assert log + call.log == more;
      }
    }
  }

  /** One call, interrupted anywhere, keeps the stored phase justified. */
  lemma CallJustified(s: State, script: seq<Reply>)
    requires Justified(s)
    ensures Justified(Next(s, script))
  {
    var call := CallFrom(s.stop, script);
    match s.stop
    case None =>
      if |script| == 0 {
        assert s.log + call.log == s.log;
      } else if Acknowledged(script[0]) {
        var more := s.log + [Exchange(ListAllocations, script[0])];
        assert CapturedAt(more, |s.log|, Captured(script[0]));
        DeleteJustified(more, Captured(script[0]), |s.log|, script[1..]);
        assert s.log + call.log == more + DeleteFrom(Captured(script[0]), script[1..]).log;
      }
    case Some(Stop(ids, Deleting)) =>
      var c: nat :| CapturedAt(s.log, c, ids)
        && forall i :: c < i < |s.log| ==> s.log[i].request.DeleteJob? && !Acknowledged(s.log[i].reply);
      DeleteJustified(s.log, ids, c, script);
    case Some(Stop(ids, Observing)) =>
      var c: nat, d: nat :| CapturedAt(s.log, c, ids) && c < d && DeletedAt(s.log, d);
      ObserveJustified(s.log, ids, c, d, script);
    case Some(Stop(ids, Done)) =>
      assert s.log + call.log == s.log;
  }

  lemma {:induction false} CallsJustified(s: State, scripts: seq<seq<Reply>>)
    requires Justified(s)
    ensures Justified(Calls(s, scripts))
    decreases |scripts|
  {
    if |scripts| > 0 {
      CallJustified(s, scripts[0]);
      CallsJustified(Next(s, scripts[0]), scripts[1..]);
    }
  }

  // ----- What a stop promises -----

  /** However the calls were interrupted: a stop is done only after the deletion was acknowledged or
      the job was missing, and only when every allocation captured before the first deletion request
      was seen, after the last one, neither running nor pending, or gone. */
  lemma StopSafety(scripts: seq<seq<Reply>>)
    ensures
      var s := Calls(State(None, []), scripts);
      s.stop.Some? && s.stop.value.phase.Done? ==>
        exists c: nat, d: nat ::
          CapturedAt(s.log, c, s.stop.value.allocations) && c < d && DeletedAt(s.log, d)
          && forall id :: id in s.stop.value.allocations ==> SeenQuiet(s.log, d, id)
  {
    CallsJustified(State(None, []), scripts);
  }

  /** A call returns without an error exactly when the stop it leaves behind is done. */
  lemma ReturnsWhenDone(stop: Option<Stop>, script: seq<Reply>)
    ensures
      var c := CallFrom(stop, script);
      c.outcome.Returned? <==> c.stop.Some? && c.stop.value.phase.Done?
  {
    match stop
    case None => if |script| > 0 && Acknowledged(script[0]) { DeleteReturns(Captured(script[0]), script[1..]); }
    case Some(Stop(ids, Deleting)) => DeleteReturns(ids, script);
    case Some(Stop(ids, Observing)) => ObserveEffect(ids, 0, script);
    case Some(Stop(ids, Done)) =>
  }

  lemma DeleteReturns(ids: seq<Allocation>, script: seq<Reply>)
    ensures
      var c := DeleteFrom(ids, script);
      && c.stop.Some? && c.stop.value.allocations == ids
      && (c.outcome.Returned? <==> c.stop.value.phase.Done?)
  {
    if |script| > 0 && Acknowledged(script[0]) { ObserveEffect(ids, 0, script[1..]); }
  }

  /** What was captured is never captured anew. */
  lemma {:induction false} CaptureIsKept(s: State, scripts: seq<seq<Reply>>)
    requires s.stop.Some?
    ensures Calls(s, scripts).stop.Some? && Calls(s, scripts).stop.value.allocations == s.stop.value.allocations
    decreases |scripts|
  {
    if |scripts| > 0 {
      match s.stop.value.phase {
        case Deleting => DeleteReturns(s.stop.value.allocations, scripts[0]);
        case Observing => ObserveEffect(s.stop.value.allocations, 0, scripts[0]);
        case Done =>
      }
      CaptureIsKept(Next(s, scripts[0]), scripts[1..]);
    }
  }

  /** Once done, a stop stays done, and the scheduler is not asked again. */
  lemma {:induction false} DoneStaysDone(s: State, scripts: seq<seq<Reply>>)
    requires s.stop.Some? && s.stop.value.phase.Done?
    ensures Calls(s, scripts) == s
    decreases |scripts|
  {
    if |scripts| > 0 {
      assert s.log + [] == s.log;
      DoneStaysDone(s, scripts[1..]);
    }
  }

  /** The replies that a call still needs before it can return. */
  function Needed(stop: Option<Stop>, script: seq<Reply>): nat {
    match stop
    case None => if |script| > 0 then 2 + |Captured(script[0])| else 2
    case Some(Stop(ids, Deleting)) => 1 + |ids|
    case Some(Stop(ids, Observing)) => |ids|
    case Some(Stop(_, Done)) => 0
  }

  predicate Helpful(stop: Option<Stop>, k: nat, r: Reply) {
    match stop
    case None => if k < 2 then Acknowledged(r) else Quiet(r)
    case Some(Stop(_, Deleting)) => if k < 1 then Acknowledged(r) else Quiet(r)
    case Some(_) => Quiet(r)
  }

  lemma {:induction false} ObserveReturnsIff(ids: seq<Allocation>, i: nat, script: seq<Reply>)
    requires i <= |ids|
    ensures
      ObserveFrom(ids, i, script).outcome.Returned?
      <==> |script| >= |ids| - i && forall k :: 0 <= k < |ids| - i ==> Quiet(script[k])
    decreases |ids| - i
  {
    if i < |ids| && |script| > 0 && Quiet(script[0]) {
      ObserveReturnsIff(ids, i + 1, script[1..]);
      assert forall k :: 0 < k < |script| ==> script[k] == script[1..][k - 1];
    }
  }

  /** From whatever an earlier call left behind, a call returns exactly when it gets every reply it
      still needs and each of them is helpful: it never repeats a phase that was stored. */
  lemma CallReturnsIff(stop: Option<Stop>, script: seq<Reply>)
    ensures
      CallFrom(stop, script).outcome.Returned?
      <==> |script| >= Needed(stop, script) && forall k :: 0 <= k < Needed(stop, script) ==> Helpful(stop, k, script[k])
  {
    match stop
    case None =>
      if |script| > 1 && Acknowledged(script[0]) && Acknowledged(script[1]) {
        var ids := Captured(script[0]);
        assert script[1..][1..] == script[2..];
        ObserveReturnsIff(ids, 0, script[2..]);
        assert forall k :: 2 <= k < |script| ==> script[k] == script[2..][k - 2];
      }
    case Some(Stop(ids, Deleting)) =>
      if |script| > 0 && Acknowledged(script[0]) {
        ObserveReturnsIff(ids, 0, script[1..]);
        assert forall k :: 1 <= k < |script| ==> script[k] == script[1..][k - 1];
      }
    case Some(Stop(ids, Observing)) => ObserveReturnsIff(ids, 0, script);
    case Some(Stop(_, Done)) =>
  }

  /** The answer lists these allocations. */
  predicate Lists(r: Reply, ids: seq<Allocation>) {
    r == Answer(Allocations(ids))
  }

  /** The first request that was answered or found the job missing, a listing. */
  predicate FirstListing(log: seq<Exchange>, c: nat) {
    && c < |log| && log[c].request.ListAllocations? && Acknowledged(log[c].reply)
    && (forall i :: 0 <= i < c ==> !Acknowledged(log[i].reply))
  }

  /** However the calls were interrupted: a stop is stored exactly when a listing was answered or the job
      was found missing, and it captures some allocations exactly when the first such reply is the list
      of them.  In every other case, a body of another shape included, it captures none. */
  lemma CapturesIff(scripts: seq<seq<Reply>>, ids: seq<Allocation>)
    ensures
      var s := Calls(State(None, []), scripts);
      && (s.stop.Some? <==> exists c: nat :: FirstListing(s.log, c))
      && (s.stop.Some? && s.stop.value.allocations == ids && ids != []
          <==> exists c: nat :: FirstListing(s.log, c) && Lists(s.log[c].reply, ids) && ids != [])
  {
    CallsJustified(State(None, []), scripts);
    var s := Calls(State(None, []), scripts);
    if s.stop.Some? {
      var c: nat :| CapturedAt(s.log, c, s.stop.value.allocations);
      assert FirstListing(s.log, c);
      assert forall d: nat :: FirstListing(s.log, d) ==> d == c;
    }
  }

  /** So a call can return with no allocation looked at, the job's deletion acknowledged, exactly when
      its first reply lists none. */
  lemma DoneUnseenIff(first: Reply, second: Reply)
    requires Acknowledged(first) && Acknowledged(second)
    ensures CallFrom(None, [first, second]).outcome.Returned? <==> forall x :: Lists(first, x) ==> x == []
  {
    CallReturnsIff(None, [first, second]);
    assert Lists(first, Captured(first)) || Captured(first) == [];
  }

  /** A body of another shape in place of the listing captures nothing, and such a stop is done as
      soon as the deletion is acknowledged, whatever may still run. */
  lemma UnreadableListingCapturesNothing(reply: Reply)
    requires reply.Answer?
    ensures
      CallFrom(None, [Answer(Other), reply]).stop == Some(Stop([], Done))
      && CallFrom(None, [Answer(Other), reply]).outcome.Returned?
  {}
}
