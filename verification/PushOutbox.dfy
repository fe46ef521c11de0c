/**
  The outbox between GitHub pushes and deployments.  Deliveries and the branch poll add requests;
  one controller takes the newest pending request of each service through a row of statements, any
  of which may be the last before a crash; users deploy by hand at any time.
 */
module PushOutbox {
  import opened Common

  type Service = nat
  type Sha = string
  type Delivery = string
  type Project = nat

  /** One request per service and commit. */
  datatype Key = Key(service: Service, sha: Sha)

  datatype Status = Pending | Queued | Superseded

  /** `created` is the time the inserting transaction began, which is not when it committed. */
  datatype Request = Request(status: Status, attempts: nat, created: int, updated: int)

  type Requests = map<Key, Request>

  const BATCH := 20

  // ----- The statements -----

  predicate IsPending(requests: Requests, k: Key) {
    k in requests && requests[k].status.Pending?
  }

  /** A failed request is tried again 15 seconds later for each attempt, at most 600. */
  predicate Due(r: Request, now: int) {
    r.attempts == 0 || r.updated < now - (if r.attempts * 15 < 600 then r.attempts * 15 else 600)
  }

  /** No pending request of the service was created after it. */
  ghost predicate IsNewest(requests: Requests, k: Key) {
    && IsPending(requests, k)
    && forall p :: IsPending(requests, p) && p.service == k.service ==> requests[p].created <= requests[k].created
  }

  /** INSERT ... ON CONFLICT DO NOTHING, for each service the push concerns. */
  function InsertRequests(requests: Requests, services: set<Service>, sha: Sha, created: int, now: int): Requests {
    var keys := set v | v in services :: Key(v, sha);
    requests + (map k | k in keys && k !in requests :: Request(Pending, 0, created, now))
  }

  /** Pending requests of the service older than `k` are given up. */
  function SupersedeOlder(requests: Requests, k: Key, now: int): Requests
    requires k in requests
  {
    map p | p in requests ::
      if p.service == k.service && requests[p].status.Pending? && requests[p].created < requests[k].created
      then requests[p].(status := Superseded, updated := now) else requests[p]
  }

  function MarkRequest(requests: Requests, k: Key, queued: bool, now: int): Requests
    requires k in requests
  {
    var r := requests[k];
    requests[k := r.(status := if queued then Queued else Pending, attempts := r.attempts + 1, updated := now)]
  }

  // ----- State -----

  /** Where the controller stands with the first of its rows. */
  datatype Stage = Fetched | StillPending | NotDeployed | Deployed | Settled | Rejected

  datatype Worker = Idle | Busy(rows: seq<Key>, stage: Stage)

  /** queue_deployment: committed; committed, but an error was returned after; or not committed. */
  datatype Attempt = Inserted | InsertedThenError | NotInserted

  /** `queued` lists the deployments the controller created, in order; `deployments` names every commit
      with a deployment; `active` holds the services with an unfinished one.  `late` records the requests
      that were inserted after a newer one had been queued, `raced` the commits deployed by hand since
      the controller looked. */
  datatype State = State(
    now: int,
    requests: Requests,
    deliveries: set<Delivery>,
    heads: map<Project, Sha>,
    deployments: set<Key>,
    active: set<Service>,
    worker: Worker,
    queued: seq<Key>,
    late: set<Key>,
    raced: set<Key>)

  function Initial(now: int): State {
    State(now, map[], {}, map[], {}, {}, Idle, [], {}, {})
  }

  /** A request of this service newer than `created` has been queued. */
  predicate NewerQueued(requests: Requests, queued: seq<Key>, service: Service, created: int) {
    exists d :: d in queued && d.service == service && d in requests && requests[d].created > created
  }

  datatype Event =
    | Deliver(id: Delivery, services: set<Service>, sha: Option<Sha>, created: int)
    | Poll(project: Project, services: set<Service>, head: Sha, created: int)
    | DeployByHand(key: Key)
    | FinishActive(service: Service)
    | Tick(later: nat)
    | Fetch(rows: seq<Key>)
    | CheckPending
    | CheckDeployed
    | TryQueue(attempt: Attempt)
    | Supersede
    | Mark
    | Crash

  function Insert(s: State, services: set<Service>, sha: Sha, created: int): State {
    var requests := InsertRequests(s.requests, services, sha, created, s.now);
    s.(requests := requests,
       late := s.late + set k | k in requests && k !in s.requests
         && NewerQueued(s.requests, s.queued, k.service, created))
  }

  /** What one read of the outbox may return. */
  ghost predicate IsBatch(s: State, rows: seq<Key>) {
    && |rows| <= BATCH
    && (forall k :: k in rows ==> IsNewest(s.requests, k) && Due(s.requests[k], s.now))
    && (forall i, j :: 0 <= i < j < |rows| ==> rows[i].service != rows[j].service)
    && (forall i, j :: 0 <= i < j < |rows| && rows[i] in s.requests && rows[j] in s.requests ==>
          s.requests[rows[i]].updated <= s.requests[rows[j]].updated)
  }

  function NextRow(w: Worker): Worker
    requires w.Busy? && |w.rows| > 0
  {
    if |w.rows| == 1 then Idle else Busy(w.rows[1..], Fetched)
  }

  predicate At(s: State, stage: Stage) {
    s.worker.Busy? && |s.worker.rows| > 0 && s.worker.stage == stage && s.worker.rows[0] in s.requests
  }

  function Current(s: State): Key
    requires s.worker.Busy? && |s.worker.rows| > 0
  {
    s.worker.rows[0]
  }

  function Goto(s: State, stage: Stage): State
    requires s.worker.Busy?
  {
    s.(worker := s.worker.(stage := stage))
  }

  /** The statements of the controller. */
  ghost function ControllerStep(s: State, e: Event): State {
    match e
    case Fetch(rows) =>
      if s.worker.Idle? && |rows| > 0 && IsBatch(s, rows) then s.(worker := Busy(rows, Fetched)) else s
    case CheckPending =>
      if !At(s, Fetched) then s
      else if IsPending(s.requests, Current(s)) then Goto(s, StillPending)
      else s.(worker := NextRow(s.worker))
    case CheckDeployed =>
      if !At(s, StillPending) then s
      else if Current(s) in s.deployments then Goto(s, Deployed)
      else Goto(s, NotDeployed).(raced := {})
    case TryQueue(attempt) =>
      if !At(s, NotDeployed) then s
      else if attempt.NotInserted? || Current(s).service in s.active then Goto(s, Rejected)
      else
        var k := Current(s);
        Goto(s, if attempt.Inserted? then Deployed else Rejected)
        .(deployments := s.deployments + {k}, active := s.active + {k.service}, queued := s.queued + [k])
    case Supersede =>
      if !At(s, Deployed) then s
      else Goto(s, Settled).(requests := SupersedeOlder(s.requests, Current(s), s.now))
    case Mark =>
      if At(s, Settled)
      then s.(requests := MarkRequest(s.requests, Current(s), true, s.now), worker := NextRow(s.worker))
      else if At(s, Rejected)
      then s.(requests := MarkRequest(s.requests, Current(s), false, s.now), worker := NextRow(s.worker))
      else s
    case Crash => s.(worker := Idle)
    case _ => s
  }

  /** What happens around the controller. */
  function OutsideStep(s: State, e: Event): State {
    match e
    case Deliver(id, services, sha, created) =>
      if id in s.deliveries || created > s.now then s
      else if sha.None? then s.(deliveries := s.deliveries + {id})
      else Insert(s.(deliveries := s.deliveries + {id}), services, sha.value, created)
    case Poll(project, services, sha, created) =>
      if created > s.now then s
      else
        var t := if project in s.heads && s.heads[project] != sha then Insert(s, services, sha, created) else s;
        t.(heads := s.heads[project := sha])
    case DeployByHand(k) =>
      if k.service in s.active then s
      else s.(deployments := s.deployments + {k}, active := s.active + {k.service}, raced := s.raced + {k})
    case FinishActive(v) => s.(active := s.active - {v})
    case Tick(later) => s.(now := s.now + later)
    case _ => s
  }

  predicate Outside(e: Event) {
    e.Deliver? || e.Poll? || e.DeployByHand? || e.FinishActive? || e.Tick?
  }

  ghost function Apply(s: State, e: Event): State {
    if Outside(e) then OutsideStep(s, e) else ControllerStep(s, e)
  }

  ghost function Run(s: State, events: seq<Event>): State
    decreases |events|
  {
    if |events| == 0 then s else Run(Apply(s, events[0]), events[1..])
  }

  // ----- Invariant -----

  /** Every older pending request is dominated: while a request older than a queued one is pending,
      so is one at least as new as the queued one. */
  ghost predicate Dominated(requests: Requests, queued: seq<Key>, late: set<Key>) {
    forall d, r :: d in queued && d in requests && IsPending(requests, r) && r !in late && r.service == d.service
      && requests[r].created < requests[d].created
      ==> HasPendingFrom(requests, d)
  }

  ghost predicate HasPendingFrom(requests: Requests, d: Key)
    requires d in requests
  {
    exists p :: IsPending(requests, p) && p.service == d.service && requests[p].created >= requests[d].created
  }

  /** A row still to be queued is late, or nothing newer has been queued. */
  predicate InOrder(requests: Requests, queued: seq<Key>, late: set<Key>, k: Key) {
    k in requests && (k in late || !NewerQueued(requests, queued, k.service, requests[k].created))
  }

  /** What superseding has settled: older requests that are pending came late. */
  ghost predicate OlderSettled(requests: Requests, queued: seq<Key>, late: set<Key>, k: Key) {
    forall d, r :: d in queued && d in requests && IsPending(requests, r) && r.service == d.service == k.service
      && k in requests
      && requests[r].created < requests[d].created <= requests[k].created
      ==> r in late
  }

  ghost predicate WorkerInv(
    requests: Requests, queued: seq<Key>, late: set<Key>, deployments: set<Key>, raced: set<Key>, w: Worker)
  {
    w.Busy? ==>
      && |w.rows| > 0
      && (forall i, j :: 0 <= i < j < |w.rows| ==> w.rows[i].service != w.rows[j].service)
      && (forall i :: 0 < i < |w.rows| ==> InOrder(requests, queued, late, w.rows[i]))
      && w.rows[0] in requests
      && (!w.stage.Settled? && !w.stage.Deployed? && !w.stage.Rejected? ==> InOrder(requests, queued, late, w.rows[0]))
      && (!w.stage.Fetched? ==> IsPending(requests, w.rows[0]))
      && (w.stage.NotDeployed? ==> w.rows[0] !in queued && (w.rows[0] in deployments <==> w.rows[0] in raced))
      && (w.stage.Deployed? || w.stage.Settled? ==> w.rows[0] in deployments)
      && (w.stage.Settled? ==> OlderSettled(requests, queued, late, w.rows[0]))
  }

  /** Nothing pushed is lost: a request is pending, or deployed, or a newer one is. */
  ghost predicate NothingLost(requests: Requests, deployments: set<Key>) {
    forall k :: k in requests ==>
      && (requests[k].status.Queued? ==> k in deployments)
      && (requests[k].status.Superseded? ==> NewerDeployed(requests, deployments, k))
  }

  ghost predicate NewerDeployed(requests: Requests, deployments: set<Key>, k: Key)
    requires k in requests
  {
    exists n :: n in deployments && n in requests && n.service == k.service && requests[n].created > requests[k].created
  }

  ghost predicate QueueInv(s: State) {
    && (forall i, j :: 0 <= i < j < |s.queued| ==> s.queued[i] != s.queued[j])
    && (forall d :: d in s.queued ==> d in s.requests && d in s.deployments)
    && (forall k :: k in s.late ==>
          k in s.requests && NewerQueued(s.requests, s.queued, k.service, s.requests[k].created))
  }

  ghost predicate Inv(s: State) {
    && QueueInv(s)
    && Dominated(s.requests, s.queued, s.late)
    && NothingLost(s.requests, s.deployments)
    && WorkerInv(s.requests, s.queued, s.late, s.deployments, s.raced, s.worker)
  }

  // ----- Every step keeps it -----

  /** Requests keep the time they were created at. */
  predicate Extends(before: Requests, after: Requests) {
    forall k :: k in before ==> k in after && after[k].created == before[k].created
  }

  lemma NewerQueuedSame(before: Requests, after: Requests, queued: seq<Key>, service: Service, created: int)
    requires Extends(before, after) && forall d :: d in queued ==> d in before
    ensures NewerQueued(before, queued, service, created) == NewerQueued(after, queued, service, created)
  {}

  lemma InsertInv(s: State, services: set<Service>, sha: Sha, created: int)
    requires Inv(s)
    ensures Inv(Insert(s, services, sha, created))
  {
    var t := Insert(s, services, sha, created);
    assert Extends(s.requests, t.requests);
    assert forall k :: k in s.requests ==> t.requests[k] == s.requests[k];
    forall service, at
      ensures NewerQueued(s.requests, s.queued, service, at) == NewerQueued(t.requests, t.queued, service, at)
    {
      NewerQueuedSame(s.requests, t.requests, s.queued, service, at);
    }
    InsertDominated(s, t);
    assert NothingLost(t.requests, t.deployments) by {
      forall k | k in t.requests && t.requests[k].status.Superseded?
        ensures NewerDeployed(t.requests, t.deployments, k)
      {
        assert NewerDeployed(s.requests, s.deployments, k);
      }
    }
    if t.worker.Busy? && t.worker.stage.Settled? { InsertSettled(s, t); }
  }

  /** A new request older than a queued one is late by definition. */
  lemma InsertDominated(s: State, t: State)
    requires Inv(s) && Extends(s.requests, t.requests) && t.queued == s.queued && s.late <= t.late
    requires forall k :: k in s.requests ==> t.requests[k] == s.requests[k]
    requires forall k ::
      k in t.requests && k !in s.requests && NewerQueued(t.requests, t.queued, k.service, t.requests[k].created)
      ==> k in t.late
    ensures Dominated(t.requests, t.queued, t.late)
  {}

  lemma InsertSettled(s: State, t: State)
    requires s.worker.Busy? && |s.worker.rows| > 0 && s.worker.rows[0] in s.requests
    requires OlderSettled(s.requests, s.queued, s.late, s.worker.rows[0])
    requires forall d :: d in s.queued ==> d in s.requests
    requires Extends(s.requests, t.requests) && t.queued == s.queued && s.late <= t.late
    requires forall k :: k in s.requests ==> t.requests[k] == s.requests[k]
    requires forall k ::
      k in t.requests && k !in s.requests && NewerQueued(t.requests, t.queued, k.service, t.requests[k].created)
      ==> k in t.late
    ensures OlderSettled(t.requests, t.queued, t.late, s.worker.rows[0])
  {}

  lemma OutsideInv(s: State, e: Event)
    requires Inv(s) && Outside(e)
    ensures Inv(OutsideStep(s, e))
  {
    match e
    case Deliver(id, services, sha, created) =>
      if id !in s.deliveries && created <= s.now && sha.Some? {
        var t := s.(deliveries := s.deliveries + {id});
        InsertInv(t, services, sha.value, created);
      }
    case Poll(project, services, sha, created) =>
      if created <= s.now { InsertInv(s, services, sha, created); }
    case DeployByHand(k) =>
      var t := OutsideStep(s, e);
      assert NothingLost(t.requests, t.deployments) by {
        forall k | k in t.requests && t.requests[k].status.Superseded?
          ensures NewerDeployed(t.requests, t.deployments, k)
        {
          assert NewerDeployed(s.requests, s.deployments, k);
        }
      }
    case _ =>
  }

  /** A newest pending request is late, or nothing newer has been queued. */
  lemma NewestInOrder(s: State, k: Key)
    requires Inv(s) && IsNewest(s.requests, k)
    ensures InOrder(s.requests, s.queued, s.late, k)
  {}

  lemma FetchInv(s: State, rows: seq<Key>)
    requires Inv(s) && |rows| > 0 && IsBatch(s, rows)
    ensures Inv(s.(worker := Busy(rows, Fetched)))
  {
    forall i | 0 <= i < |rows|
      ensures InOrder(s.requests, s.queued, s.late, rows[i])
    {
      assert rows[i] in rows;
      NewestInOrder(s, rows[i]);
    }
  }

  /** Queueing the current row: older pending requests are dominated by the row itself. */
  lemma QueuedInv(s: State, stage: Stage)
    requires Inv(s) && At(s, NotDeployed) && (stage.Deployed? || stage.Rejected?)
    ensures
      var k := Current(s);
      Inv(Goto(s, stage).(
        deployments := s.deployments + {k}, active := s.active + {k.service}, queued := s.queued + [k]))
  {}

  /** Statuses that only ever leave the pending state, with older requests leaving before newer ones. */
  lemma SupersedeInv(s: State)
    requires Inv(s) && At(s, Deployed)
    ensures Inv(ControllerStep(s, Supersede))
  {
    var k := Current(s);
    var t := ControllerStep(s, Supersede);
    assert t.requests == SupersedeOlder(s.requests, k, s.now);
    assert Extends(s.requests, t.requests);
    assert forall p :: IsPending(t.requests, p) ==> IsPending(s.requests, p);
    SameOrder(s, t);
    SupersedeDominated(s, t, k);
    SupersedeLost(s.requests, s.deployments, k, s.now);
    assert OlderSettled(t.requests, t.queued, t.late, k);
  }

  lemma SameOrder(s: State, t: State)
    requires Inv(s) && Extends(s.requests, t.requests) && t.queued == s.queued && t.late == s.late
      && t.deployments == s.deployments
    ensures QueueInv(t)
    ensures forall k :: InOrder(s.requests, s.queued, s.late, k) ==> InOrder(t.requests, t.queued, t.late, k)
  {}

  lemma SupersedeDominated(s: State, t: State, k: Key)
    requires Inv(s) && k in s.requests && t.requests == SupersedeOlder(s.requests, k, s.now) && t.queued == s.queued
      && t.late == s.late
    ensures Dominated(t.requests, t.queued, t.late)
  {
    forall d, r | d in t.queued && d in t.requests && IsPending(t.requests, r) && r !in t.late && r.service == d.service
      && t.requests[r].created < t.requests[d].created
      ensures HasPendingFrom(t.requests, d)
    {
      assert IsPending(s.requests, r) && HasPendingFrom(s.requests, d);
      var p :| IsPending(s.requests, p) && p.service == d.service && s.requests[p].created >= s.requests[d].created;
      assert IsPending(t.requests, p);
    }
  }

  lemma SupersedeLost(requests: Requests, deployments: set<Key>, k: Key, now: int)
    requires NothingLost(requests, deployments) && k in requests && k in deployments
    ensures NothingLost(SupersedeOlder(requests, k, now), deployments)
  {}

  lemma MarkedInv(s: State, queued: bool)
    requires Inv(s) && (if queued then At(s, Settled) else At(s, Rejected))
    ensures Inv(s.(requests := MarkRequest(s.requests, Current(s), queued, s.now), worker := NextRow(s.worker)))
  {
    var k := Current(s);
    var t := s.(requests := MarkRequest(s.requests, k, queued, s.now), worker := NextRow(s.worker));
    assert Extends(s.requests, t.requests);
    SameOrder(s, t);
    MarkedDominated(s, t.requests, queued);
    MarkedLost(s.requests, s.deployments, k, queued, s.now);
    if t.worker.Busy? {
      assert forall i :: 0 <= i < |t.worker.rows| ==> t.worker.rows[i] == s.worker.rows[i + 1];
    }
  }

  lemma MarkedDominated(s: State, after: Requests, queued: bool)
    requires Inv(s) && (if queued then At(s, Settled) else At(s, Rejected))
    requires after == MarkRequest(s.requests, Current(s), queued, s.now)
    ensures Dominated(after, s.queued, s.late)
  {
    var k := Current(s);
    forall d, r | d in s.queued && d in after && IsPending(after, r) && r !in s.late && r.service == d.service
      && after[r].created < after[d].created
      ensures HasPendingFrom(after, d)
    {
      assert IsPending(s.requests, r) && HasPendingFrom(s.requests, d);
      var p :| IsPending(s.requests, p) && p.service == d.service && s.requests[p].created >= s.requests[d].created;
      assert queued && p == k ==> r in s.late;
      assert IsPending(after, p);
    }
  }

  lemma MarkedLost(requests: Requests, deployments: set<Key>, k: Key, queued: bool, now: int)
    requires NothingLost(requests, deployments) && k in requests && (queued ==> k in deployments)
    ensures NothingLost(MarkRequest(requests, k, queued, now), deployments)
  {}

  lemma ControllerInv(s: State, e: Event)
    requires Inv(s) && !Outside(e)
    ensures Inv(ControllerStep(s, e))
  {
    match e
    case Fetch(rows) => if |rows| > 0 && IsBatch(s, rows) { FetchInv(s, rows); }
    case CheckPending =>
      if At(s, Fetched) && !IsPending(s.requests, Current(s)) {
        assert forall i :: 0 < i < |s.worker.rows| ==> s.worker.rows[1..][i - 1] == s.worker.rows[i];
      }
    case CheckDeployed =>
    case TryQueue(attempt) =>
      if At(s, NotDeployed) { QueuedInv(s, if attempt.Inserted? then Deployed else Rejected); }
    case Supersede => if At(s, Deployed) { SupersedeInv(s); }
    case Mark => if At(s, Settled) { MarkedInv(s, true); } else if At(s, Rejected) { MarkedInv(s, false); }
    case Crash =>
  }

  lemma ApplyInv(s: State, e: Event)
    requires Inv(s)
    ensures Inv(Apply(s, e))
  {
    if Outside(e) { OutsideInv(s, e); } else { ControllerInv(s, e); }
  }

  lemma {:induction false} RunInv(s: State, events: seq<Event>)
    requires Inv(s)
    ensures Inv(Run(s, events))
    decreases |events|
  {
    if |events| > 0 {
      ApplyInv(s, events[0]);
      RunInv(Apply(s, events[0]), events[1..]);
    }
  }

  // ----- Order -----

  /** A newer request of the service was queued before the one at `j`. */
  ghost predicate OutOfOrder(requests: Requests, queued: seq<Key>, j: nat)
    requires j < |queued| && queued[j] in requests
  {
    NewerQueued(requests, queued[..j], queued[j].service, requests[queued[j]].created)
  }

  ghost predicate OrderInv(s: State) {
    forall j :: 0 <= j < |s.queued| && s.queued[j] in s.requests ==>
      (OutOfOrder(s.requests, s.queued, j) <==> s.queued[j] in s.late)
  }

  /** Steps that queue nothing keep the order, and no queued request becomes late. */
  lemma SameQueueOrder(s: State, t: State)
    requires Inv(s) && OrderInv(s) && Extends(s.requests, t.requests) && t.queued == s.queued
    requires s.late <= t.late && forall k :: k in t.late && k in s.requests ==> k in s.late
    ensures OrderInv(t)
  {}

  /** The row about to be queued is out of order exactly when it came late. */
  lemma OutOfOrderIffLate(s: State)
    requires Inv(s) && At(s, NotDeployed)
    ensures
      var k := Current(s);
      NewerQueued(s.requests, s.queued, k.service, s.requests[k].created) <==> k in s.late
  {}

  lemma QueueOrder(s: State, attempt: Attempt)
    requires Inv(s) && OrderInv(s)
    ensures OrderInv(ControllerStep(s, TryQueue(attempt)))
  {
    var t := ControllerStep(s, TryQueue(attempt));
    if t.queued == s.queued {
      SameQueueOrder(s, t);
    } else {
      OutOfOrderIffLate(s);
      forall j | 0 <= j < |t.queued| && t.queued[j] in t.requests
        ensures OutOfOrder(t.requests, t.queued, j) <==> t.queued[j] in t.late
      {
        if j < |s.queued| {
          assert t.queued[..j] == s.queued[..j];
          assert OutOfOrder(s.requests, s.queued, j) <==> s.queued[j] in s.late;
        } else {
          assert t.queued[..j] == s.queued;
        }
      }
    }
  }

  lemma StepExtends(s: State, e: Event)
    ensures Extends(s.requests, Apply(s, e).requests)
  {}

  lemma StepOrder(s: State, e: Event)
    requires Inv(s) && OrderInv(s)
    ensures OrderInv(Apply(s, e))
  {
    if e.TryQueue? { QueueOrder(s, e.attempt); }
    else {
      StepExtends(s, e);
      SameQueueOrder(s, Apply(s, e));
    }
  }

  lemma {:induction false} RunOrder(s: State, events: seq<Event>)
    requires Inv(s) && OrderInv(s)
    ensures Inv(Run(s, events)) && OrderInv(Run(s, events))
    decreases |events|
  {
    if |events| > 0 {
      ApplyInv(s, events[0]);
      StepOrder(s, events[0]);
      RunOrder(Apply(s, events[0]), events[1..]);
    }
  }

  // ----- What the outbox promises -----

  /** In every run, crashes included, the controller creates at most one deployment for a service and
      commit, and it deploys a request after a newer one exactly when that request was inserted after
      the newer one had been deployed. */
  lemma QueueSafety(now: int, events: seq<Event>)
    ensures
      var s := Run(Initial(now), events);
      && (forall i, j :: 0 <= i < j < |s.queued| ==> s.queued[i] != s.queued[j])
      && (forall j :: 0 <= j < |s.queued| ==> s.queued[j] in s.requests)
      && (forall j :: 0 <= j < |s.queued| ==> (OutOfOrder(s.requests, s.queued, j) <==> s.queued[j] in s.late))
  {
    RunOrder(Initial(now), events);
    var s := Run(Initial(now), events);
    forall j | 0 <= j < |s.queued|
      ensures s.queued[j] in s.requests && (OutOfOrder(s.requests, s.queued, j) <==> s.queued[j] in s.late)
    {
      assert s.queued[j] in s.queued;
    }
  }

  /** A deployment the controller creates is the second of its commit exactly when somebody deployed
      that commit by hand after the controller had looked. */
  lemma SecondDeploymentIff(now: int, events: seq<Event>, attempt: Attempt)
    requires
      var s := Run(Initial(now), events);
      At(s, NotDeployed) && Current(s) in ControllerStep(s, TryQueue(attempt)).queued
    ensures
      var s := Run(Initial(now), events);
      Current(s) in s.deployments <==> Current(s) in s.raced
  {
    RunInv(Initial(now), events);
  }

  /** No accepted push is lost: its request is still pending, or its commit has a deployment, or a
      newer request of the service has one. */
  lemma NoPushIsLost(now: int, events: seq<Event>, k: Key)
    requires k in Run(Initial(now), events).requests
    ensures
      var s := Run(Initial(now), events);
      IsPending(s.requests, k) || k in s.deployments || NewerDeployed(s.requests, s.deployments, k)
  {
    RunInv(Initial(now), events);
  }

  lemma SettledStep(s: State, e: Event, k: Key)
    requires Inv(s) && k in s.requests && !IsPending(s.requests, k)
    ensures
      var t := Apply(s, e);
      && k in t.requests && t.requests[k].status == s.requests[k].status
      && (k in t.queued <==> k in s.queued)
  {
    ApplyInv(s, e);
  }

  /** A request that was queued or superseded stays so, and its commit is not deployed by the
      controller any more: not when the branch goes back to it, and not after a crash. */
  lemma {:induction false} SettledForGood(s: State, events: seq<Event>, k: Key)
    requires Inv(s) && k in s.requests && !IsPending(s.requests, k)
    ensures
      var t := Run(s, events);
      && k in t.requests && t.requests[k].status == s.requests[k].status
      && (k in t.queued <==> k in s.queued)
    decreases |events|
  {
    if |events| > 0 {
      ApplyInv(s, events[0]);
      SettledStep(s, events[0], k);
      SettledForGood(Apply(s, events[0]), events[1..], k);
    }
  }

  lemma {:induction false} DeliveriesStay(s: State, events: seq<Event>, id: Delivery)
    requires id in s.deliveries
    ensures id in Run(s, events).deliveries
    decreases |events|
  {
    if |events| > 0 { DeliveriesStay(Apply(s, events[0]), events[1..], id); }
  }

  /** A delivery that is sent again changes nothing, whatever happened since. */
  lemma RedeliveryIsIgnored(s: State, e: Event, events: seq<Event>, again: Event)
    requires e.Deliver? && again.Deliver? && again.id == e.id && e.created <= s.now
    ensures Apply(Run(Apply(s, e), events), again) == Run(Apply(s, e), events)
  {
    DeliveriesStay(Apply(s, e), events, e.id);
  }

  // ----- A late request is deployed after a newer one -----

  lemma {:induction false} RunConcat(s: State, first: seq<Event>, second: seq<Event>)
    ensures Run(s, first + second) == Run(Run(s, first), second)
    decreases |first|
  {
    if |first| == 0 {
      assert first + second == second;
    } else {
      assert (first + second)[1..] == first[1..] + second;
      RunConcat(Apply(s, first[0]), first[1..], second);
    }
  }

  lemma Then(s: State, e: Event, t: State, rest: seq<Event>)
    requires Apply(s, e) == t
    ensures Run(s, [e] + rest) == Run(t, rest)
  {}

  /** The controller takes one request through all its statements, and its deployment finishes. */
  function Processed(k: Key): seq<Event> {
    [Fetch([k])] + ([CheckPending]
    + ([CheckDeployed] + ([TryQueue(Inserted)] + ([Supersede] + ([Mark] + ([FinishActive(k.service)] + []))))))
  }

  lemma CheckedEffect(s: State, k: Key, rest: seq<Event>)
    requires s.worker.Idle? && IsNewest(s.requests, k) && Due(s.requests[k], s.now) && k !in s.deployments
    ensures
      Run(s, [Fetch([k])] + ([CheckPending] + ([CheckDeployed] + rest)))
      == Run(s.(worker := Busy([k], NotDeployed), raced := {}), rest)
  {
    assert IsBatch(s, [k]);
    var a := s.(worker := Busy([k], Fetched));
    var b := s.(worker := Busy([k], StillPending));
    Then(b, CheckDeployed, s.(worker := Busy([k], NotDeployed), raced := {}), rest);
    Then(a, CheckPending, b, [CheckDeployed] + rest);
    Then(s, Fetch([k]), a, [CheckPending] + ([CheckDeployed] + rest));
  }

  lemma QueuedEffect(s: State, k: Key)
    requires s.worker == Busy([k], NotDeployed) && k in s.requests && k.service !in s.active
    ensures
      Apply(s, TryQueue(Inserted))
      == s.(worker := Busy([k], Deployed), deployments := s.deployments + {k}, active := s.active + {k.service},
            queued := s.queued + [k])
  {}

  lemma MarkEffect(s: State, k: Key)
    requires s.worker == Busy([k], Deployed) && k in s.requests
    ensures
      var older := SupersedeOlder(s.requests, k, s.now);
      var t := s.(worker := Busy([k], Settled), requests := older);
      Apply(s, Supersede) == t && Apply(t, Mark) == s.(worker := Idle, requests := MarkRequest(older, k, true, s.now))
  {}

  lemma SettledEffect(s: State, k: Key, rest: seq<Event>)
    requires s.worker == Busy([k], NotDeployed) && k in s.requests && k.service !in s.active
    ensures
      var older := SupersedeOlder(s.requests, k, s.now);
      Run(s, [TryQueue(Inserted)] + ([Supersede] + ([Mark] + rest)))
      == Run(s.(worker := Idle, deployments := s.deployments + {k}, active := s.active + {k.service},
                queued := s.queued + [k], requests := MarkRequest(older, k, true, s.now)), rest)
  {
    var older := SupersedeOlder(s.requests, k, s.now);
    var a := s.(worker := Busy([k], Deployed), deployments := s.deployments + {k}, active := s.active + {k.service},
      queued := s.queued + [k]);
    QueuedEffect(s, k);
    MarkEffect(a, k);
    var b := a.(worker := Busy([k], Settled), requests := older);
    var c := a.(worker := Idle, requests := MarkRequest(older, k, true, s.now));
    Then(b, Mark, c, rest);
    Then(a, Supersede, b, [Mark] + rest);
    Then(s, TryQueue(Inserted), a, [Supersede] + ([Mark] + rest));
  }

  lemma ProcessedEffect(s: State, k: Key)
    requires s.worker.Idle? && IsNewest(s.requests, k) && Due(s.requests[k], s.now) && k !in s.deployments
      && k.service !in s.active
    ensures
      var t := Run(s, Processed(k));
      && t == s.(deployments := s.deployments + {k}, queued := s.queued + [k], raced := {},
                 requests := MarkRequest(SupersedeOlder(s.requests, k, s.now), k, true, s.now))
  {
    var last := [FinishActive(k.service)] + [];
    CheckedEffect(s, k, [TryQueue(Inserted)] + ([Supersede] + ([Mark] + last)));
    var a := s.(worker := Busy([k], NotDeployed), raced := {});
    SettledEffect(a, k, last);
    var b := a.(worker := Idle, deployments := s.deployments + {k}, active := s.active + {k.service},
                queued := s.queued + [k],
                requests := MarkRequest(SupersedeOlder(s.requests, k, s.now), k, true, s.now));
    assert s.active + {k.service} - {k.service} == s.active;
    Then(b, FinishActive(k.service), b.(active := s.active), []);
  }

  const FIRST := Key(1, "first")
  const SECOND := Key(1, "second")

  /** The transaction of the first push began at 3 but commits after the second push, which began at
      5, has been deployed. */
  function LatePush(): seq<Event> {
    ([Deliver("b", {1}, Some("second"), 5)] + []) + (Processed(SECOND)
    + (([Deliver("a", {1}, Some("first"), 3)] + []) + Processed(FIRST)))
  }

  lemma DeliverEffect(s: State, id: Delivery, k: Key, created: int)
    requires id !in s.deliveries && created <= s.now && k !in s.requests
    ensures
      var t := Run(s, [Deliver(id, {k.service}, Some(k.sha), created)] + []);
      && t == s.(deliveries := s.deliveries + {id}, requests := s.requests[k := Request(Pending, 0, created, s.now)],
        late := t.late)
  {}

  /** The order is not kept in every run: the older commit is deployed last. */
  lemma LateRequestDeploysLast()
    ensures
      var s := Run(Initial(9), LatePush());
      && s.queued == [SECOND, FIRST]
      && FIRST in s.requests && SECOND in s.requests && s.requests[FIRST].created < s.requests[SECOND].created
  {
    var s0 := Initial(9);
    DeliverEffect(s0, "b", SECOND, 5);
    var s1 := Run(s0, [Deliver("b", {1}, Some("second"), 5)] + []);
    ProcessedEffect(s1, SECOND);
    var s2 := Run(s1, Processed(SECOND));
    LatePushEnds(s2);
    RunConcat(s1, Processed(SECOND), ([Deliver("a", {1}, Some("first"), 3)] + []) + Processed(FIRST));
    RunConcat(s0, [Deliver("b", {1}, Some("second"), 5)] + [],
              Processed(SECOND) + (([Deliver("a", {1}, Some("first"), 3)] + []) + Processed(FIRST)));
  }

  lemma LatePushEnds(s: State)
    requires s.now == 9 && s.deliveries == {"b"} && s.worker.Idle? && s.active == {} && s.deployments == {SECOND}
      && s.queued == [SECOND]
    requires s.requests.Keys == {SECOND} && s.requests[SECOND].created == 5 && s.requests[SECOND].status.Queued?
    ensures
      var t := Run(s, ([Deliver("a", {1}, Some("first"), 3)] + []) + Processed(FIRST));
      && t.queued == [SECOND, FIRST]
      && t.requests.Keys == {FIRST, SECOND} && t.requests[FIRST].created == 3 && t.requests[SECOND].created == 5
  {
    DeliverEffect(s, "a", FIRST, 3);
    var a := Run(s, [Deliver("a", {1}, Some("first"), 3)] + []);
    ProcessedEffect(a, FIRST);
    RunConcat(s, [Deliver("a", {1}, Some("first"), 3)] + [], Processed(FIRST));
  }

  // ----- A second deployment of one commit -----

  /** The commit is pushed, deployed by hand between the controller's look and its insert, and finished
      before that insert. */
  function Raced(): seq<Event> {
    ([Deliver("b", {1}, Some("second"), 5)] + []) + ([Fetch([SECOND])] + ([CheckPending] + ([CheckDeployed]
    + ([DeployByHand(SECOND)] + ([FinishActive(1)] + ([TryQueue(Inserted)] + []))))))
  }

  /** The controller creates a deployment of a commit that has one already. */
  lemma SecondDeploymentHappens()
    ensures
      var s := Run(Initial(9), Raced());
      s.queued == [SECOND] && s.raced == {SECOND} && s.worker == Busy([SECOND], Deployed)
  {
    var s0 := Initial(9);
    DeliverEffect(s0, "b", SECOND, 5);
    var s1 := Run(s0, [Deliver("b", {1}, Some("second"), 5)] + []);
    var last := [DeployByHand(SECOND)] + ([FinishActive(1)] + ([TryQueue(Inserted)] + []));
    RunConcat(s0, [Deliver("b", {1}, Some("second"), 5)] + [], [Fetch([SECOND])]
              + ([CheckPending] + ([CheckDeployed] + last)));
    CheckedEffect(s1, SECOND, last);
    RaceEnds(s1.(worker := Busy([SECOND], NotDeployed), raced := {}));
  }

  lemma RaceEnds(s: State)
    requires s.worker == Busy([SECOND], NotDeployed) && s.raced == {} && SECOND in s.requests
    requires s.active == {} && s.deployments == {} && s.queued == []
    ensures
      var t := Run(s, [DeployByHand(SECOND)] + ([FinishActive(1)] + ([TryQueue(Inserted)] + [])));
      t.queued == [SECOND] && t.raced == {SECOND} && t.worker == Busy([SECOND], Deployed)
  {
    var a := s.(deployments := {SECOND}, active := {1}, raced := {SECOND});
    assert Apply(s, DeployByHand(SECOND)) == a;
    var b := a.(active := {});
    assert {1} - {1} == {};
    assert Apply(a, FinishActive(1)) == b;
    var c := Apply(b, TryQueue(Inserted));
    assert [] + [SECOND] == [SECOND];
    Then(b, TryQueue(Inserted), c, []);
    Then(a, FinishActive(1), b, [TryQueue(Inserted)] + []);
    Then(s, DeployByHand(SECOND), a, [FinishActive(1)] + ([TryQueue(Inserted)] + []));
  }

  // ----- The statements on tables changed in place -----

  class Outbox {
    var requests: Requests
    var deliveries: set<Delivery>
    var deployments: set<Key>

    constructor ()
      ensures requests == map[] && deliveries == {} && deployments == {}
    {
      requests := map[];
      deliveries := {};
      deployments := {};
    }

    /** `s` describes the tables. */
    ghost predicate Describes(s: State)
      reads this
    {
      s.requests == requests && s.deliveries == deliveries && s.deployments == deployments
    }

    /** receive_webhook: both inserts are one transaction. */
    method Receive(id: Delivery, services: set<Service>, sha: Option<Sha>, created: int, now: int, ghost s: State)
      returns (duplicate: bool)
      requires Describes(s) && s.now == now && created <= now
      modifies this
      ensures Describes(OutsideStep(s, Deliver(id, services, sha, created)))
      ensures duplicate <==> id in old(deliveries)
    {
      duplicate := id in deliveries;
      if !duplicate {
        deliveries := deliveries + {id};
        if sha.Some? {
          requests := InsertRequests(requests, services, sha.value, created, now);
        }
      }
    }

    /** One row of process_pushes, with nothing interfering. */
    method ProcessRow(k: Key, attempt: Attempt, now: int)
      requires k in requests
      modifies this`requests, this`deployments
      ensures Tables(requests, deployments) == AfterRow(Tables(old(requests), old(deployments)), k, attempt, now)
    {
      if !IsPending(requests, k) {
        return;
      }
      var queued := k in deployments;
      if !queued {
        if !attempt.NotInserted? {
          deployments := deployments + {k};
        }
        queued := attempt.Inserted?;
      }
      if queued {
        requests := SupersedeOlder(requests, k, now);
      }
      requests := MarkRequest(requests, k, queued, now);
    }

    /** process_pushes: one row after the other. */
    method ProcessPushes(rows: seq<Key>, attempts: seq<Attempt>, now: int)
      requires |attempts| == |rows| && forall k :: k in rows ==> k in requests
      modifies this`requests, this`deployments
      ensures Tables(requests, deployments) == AfterRows(Tables(old(requests), old(deployments)), rows, attempts, now)
    {
      ghost var start := Tables(requests, deployments);
      var i := 0;
      while i < |rows|
        invariant 0 <= i <= |rows|
        invariant Tables(requests, deployments) == AfterRows(start, rows[..i], attempts[..i], now)
      {
        assert rows[..i + 1][..i] == rows[..i] && attempts[..i + 1][..i] == attempts[..i];
        ProcessRow(rows[i], attempts[i], now);
        i := i + 1;
      }
      assert rows[..i] == rows && attempts[..i] == attempts;
    }
  }

  // ----- The rows of one pass -----

  datatype Tables = Tables(requests: Requests, deployments: set<Key>)

  function AfterRow(t: Tables, k: Key, attempt: Attempt, now: int): (r: Tables)
    requires k in t.requests
    ensures r.requests.Keys == t.requests.Keys
  {
    if !IsPending(t.requests, k) then t
    else if k in t.deployments || attempt.Inserted?
    then Tables(MarkRequest(SupersedeOlder(t.requests, k, now), k, true, now), t.deployments + {k})
    else
      Tables(MarkRequest(t.requests, k, false, now),
             if attempt.NotInserted? then t.deployments else t.deployments + {k})
  }

  function AfterRows(t: Tables, rows: seq<Key>, attempts: seq<Attempt>, now: int): (r: Tables)
    requires |attempts| == |rows| && forall k :: k in rows ==> k in t.requests
    ensures r.requests.Keys == t.requests.Keys
    decreases |rows|
  {
    if |rows| == 0 then t
    else
      var n := |rows| - 1;
      AfterRow(AfterRows(t, rows[..n], attempts[..n], now), rows[n], attempts[n], now)
  }

  function Statements(attempt: Attempt): seq<Event> {
    [CheckPending] + ([CheckDeployed] + ([TryQueue(attempt)] + ([Supersede] + ([Mark] + []))))
  }

  ghost predicate Holds(s: State, t: Tables) {
    s.requests == t.requests && s.deployments == t.deployments
  }

  /** A row processed in place is what the statements do when nothing comes between them. */
  lemma RowIsARun(s: State, k: Key, attempt: Attempt)
    requires s.worker == Busy([k], Fetched) && k in s.requests && k.service !in s.active
    ensures
      var t := Run(s, Statements(attempt));
      Holds(t, AfterRow(Tables(s.requests, s.deployments), k, attempt, s.now)) && t.worker.Idle?
  {
    if !IsPending(s.requests, k) {
      IdleRun(s.(worker := Idle), attempt);
      Then(s, CheckPending, s.(worker := Idle), [CheckDeployed]
           + ([TryQueue(attempt)] + ([Supersede] + ([Mark] + []))));
    } else {
      var a := s.(worker := Busy([k], StillPending));
      if k in s.deployments { DeployedRun(a, k, attempt); } else { UndeployedRun(a, k, attempt); }
      Then(s, CheckPending, a, [CheckDeployed] + ([TryQueue(attempt)] + ([Supersede] + ([Mark] + []))));
      assert k in s.deployments ==> s.deployments + {k} == s.deployments;
    }
  }

  lemma IdleRun(s: State, attempt: Attempt)
    requires s.worker.Idle?
    ensures Run(s, [CheckDeployed] + ([TryQueue(attempt)] + ([Supersede] + ([Mark] + [])))) == s
  {
    Then(s, Mark, s, []);
    Then(s, Supersede, s, [Mark] + []);
    Then(s, TryQueue(attempt), s, [Supersede] + ([Mark] + []));
    Then(s, CheckDeployed, s, [TryQueue(attempt)] + ([Supersede] + ([Mark] + [])));
  }

  lemma DeployedRun(s: State, k: Key, attempt: Attempt)
    requires s.worker == Busy([k], StillPending) && k in s.requests && k in s.deployments
    ensures
      Run(s, [CheckDeployed] + ([TryQueue(attempt)] + ([Supersede] + ([Mark] + []))))
      == s.(worker := Idle, requests := MarkRequest(SupersedeOlder(s.requests, k, s.now), k, true, s.now))
  {
    var a := s.(worker := Busy([k], Deployed));
    SettleRun(a, k);
    Then(a, TryQueue(attempt), a, [Supersede] + ([Mark] + []));
    Then(s, CheckDeployed, a, [TryQueue(attempt)] + ([Supersede] + ([Mark] + [])));
  }

  lemma SettleRun(s: State, k: Key)
    requires s.worker == Busy([k], Deployed) && k in s.requests
    ensures
      Run(s, [Supersede] + ([Mark] + []))
      == s.(worker := Idle, requests := MarkRequest(SupersedeOlder(s.requests, k, s.now), k, true, s.now))
  {
    var older := SupersedeOlder(s.requests, k, s.now);
    var a := s.(worker := Busy([k], Settled), requests := older);
    Then(a, Mark, s.(worker := Idle, requests := MarkRequest(older, k, true, s.now)), []);
    Then(s, Supersede, a, [Mark] + []);
  }

  lemma UndeployedRun(s: State, k: Key, attempt: Attempt)
    requires s.worker == Busy([k], StillPending) && IsPending(s.requests, k) && k !in s.deployments
      && k.service !in s.active
    ensures
      var t := Run(s, [CheckDeployed] + ([TryQueue(attempt)] + ([Supersede] + ([Mark] + []))));
      Holds(t, AfterRow(Tables(s.requests, s.deployments), k, attempt, s.now)) && t.worker.Idle?
  {
    var a := s.(worker := Busy([k], NotDeployed), raced := {});
    if attempt.Inserted? { InsertedRun(a, k); } else { RejectedRun(a, k, attempt); }
    Then(s, CheckDeployed, a, [TryQueue(attempt)] + ([Supersede] + ([Mark] + [])));
  }

  lemma InsertedRun(s: State, k: Key)
    requires s.worker == Busy([k], NotDeployed) && k in s.requests && k.service !in s.active
    ensures
      var t := Run(s, [TryQueue(Inserted)] + ([Supersede] + ([Mark] + [])));
      && t.requests == MarkRequest(SupersedeOlder(s.requests, k, s.now), k, true, s.now)
      && t.deployments == s.deployments + {k} && t.worker.Idle?
  {
    SettledEffect(s, k, []);
  }

  lemma RejectedRun(s: State, k: Key, attempt: Attempt)
    requires s.worker == Busy([k], NotDeployed) && k in s.requests && k.service !in s.active && !attempt.Inserted?
    ensures
      var t := Run(s, [TryQueue(attempt)] + ([Supersede] + ([Mark] + [])));
      && t.requests == MarkRequest(s.requests, k, false, s.now)
      && t.deployments == (if attempt.NotInserted? then s.deployments else s.deployments + {k}) && t.worker.Idle?
  {
    var b := Apply(s, TryQueue(attempt));
    var c := b.(worker := Idle, requests := MarkRequest(b.requests, k, false, b.now));
    Then(b, Mark, c, []);
    Then(b, Supersede, b, [Mark] + []);
    Then(s, TryQueue(attempt), b, [Supersede] + ([Mark] + []));
  }
}
